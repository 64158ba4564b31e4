/** The assembly of one sample's pipeline result from the outputs of the
    decoders (`create_bonsai_input`), and the contig decision taken before
    Delly structural variants are annotated (`annotate_delly`). */
module Cli {
  import opened Common
  import opened Phenotype
  import opened ParseUtils
  import opened Mykrobe
  import opened TbProfiler
  import opened VcfVariants

  // ---------------------------------------------------------------------------
  // Outputs of decoders outside the model, carried as opaque values

  datatype RunInfo = RunInfo(summary: string)
  datatype QcResult = QcResult(summary: string)
  datatype TypingResult = TypingResult(summary: string)
  datatype SpeciesPrediction = SpeciesPrediction(summary: string)

  datatype SoupType = DB
  datatype SoupVersion = SoupVersion(name: string, version: string, kind: SoupType)

  /** The ResFinder results for AMR and for STRESS. */
  datatype ResfinderResults = ResfinderResults(amr: ElementTypeMethod, stress: ElementTypeMethod)

  /** The AMRFinderPlus results for AMR, for STRESS, and its virulence result. */
  datatype AmrfinderResults = AmrfinderResults(amr: ElementTypeMethod, stress: ElementTypeMethod, virulence: ElementTypeMethod)

  /** The VirulenceFinder virulence genes and its Shiga-toxin typing, each possibly absent. */
  datatype VirulencefinderResults = VirulencefinderResults(virulence: Option<ElementTypeMethod>, stx: Option<TypingResult>)

  /** The Mykrobe table and its lineage result. */
  datatype MykrobeInput = MykrobeInput(rows: seq<MykrobeRow>, lineage: Option<TypingResult>)

  /** The TB-Profiler report, its `db_version` entry and its lineage result. */
  datatype TbProfilerInput = TbProfilerInput(report: Report, dbVersion: Option<map<string, string>>, lineage: TypingResult)

  datatype VcfFile = VcfFile(path: string, records: seq<VcfRecord>, header: string)

  /** A read mapping and the accession of the reference it was mapped to. */
  datatype BamFile = BamFile(path: string, accession: string)

  /** A reference genome annotation with its accession and genome name. */
  datatype GffFile = GffFile(path: string, accession: string, name: string)

  /** A reference genome sequence, and whether its ".fai" index exists beside it. */
  datatype FastaFile = FastaFile(path: string, indexExists: bool)

  /** The inputs of one run; `None` is an input that was not given. */
  datatype Inputs = Inputs(
    sampleId: string,
    run: RunInfo,
    databases: seq<SoupVersion>,
    quast: Option<QcResult>,
    quality: Option<QcResult>,
    mlst: Option<TypingResult>,
    cgmlst: Option<TypingResult>,
    resfinder: Option<ResfinderResults>,
    amrfinder: Option<AmrfinderResults>,
    virulencefinder: Option<VirulencefinderResults>,
    serotypefinder: Option<Option<seq<TypingResult>>>,
    kraken: Option<seq<SpeciesPrediction>>,
    mykrobe: Option<MykrobeInput>,
    tbprofiler: Option<TbProfilerInput>,
    snvVcf: Option<VcfFile>,
    svVcf: Option<VcfFile>,
    bam: Option<BamFile>,
    fasta: Option<FastaFile>,
    gff: Option<GffFile>,
    genomeAnnotation: seq<string>)

  datatype ReferenceGenome = ReferenceGenome(name: string, accession: string, fasta: string, fastaIndex: Option<string>, genes: string)

  datatype Annotation = Annotation(name: string, file: string)

  /** The assembled result; an entry the run never set is `None`. */
  datatype PipelineResult = PipelineResult(
    sampleId: string,
    schemaVersion: nat,
    run: RunInfo,
    databases: seq<SoupVersion>,
    qc: seq<QcResult>,
    typingResult: seq<TypingResult>,
    elementTypeResult: seq<ElementTypeMethod>,
    speciesPrediction: seq<SpeciesPrediction>,
    snvVariants: Option<seq<VcfVariant>>,
    svVariants: Option<seq<VcfVariant>>,
    referenceGenome: Option<ReferenceGenome>,
    readMapping: Option<string>,
    genomeAnnotation: Option<seq<Annotation>>)

  /** How a run ends without a result: `SampleMixup` and `InvalidResult` are the
      two aborts, `UsageError` a refused invocation, `DecoderError` an exception
      raised while decoding. */
  datatype CliError =
    | SampleMixup
    | InvalidResult
    | UsageError(message: string)
    | DecoderError(failure: Failure)

  const OutputSchemaVersion: nat := 1

  // ---------------------------------------------------------------------------
  // What each step contributes

  function OptList<T>(o: Option<T>): (xs: seq<T>)
    ensures |xs| <= 1 && (xs == [] <==> o.None?) && (o.Some? ==> xs == [o.value])
  {
    if o.Some? then [o.value] else []
  }

  /** A ResFinder result is kept only when it has both genes and variants. */
  predicate KeptResfinder(m: ElementTypeMethod)
  {
    |m.result.genes| > 0 && |m.result.variants| > 0
  }

  const ResistanceCategories: seq<ElementType> := [ElementType.AMR, ElementType.STRESS]

  function ResfinderFor(rr: ResfinderResults, category: ElementType): ElementTypeMethod
  {
    if category == ElementType.AMR then rr.amr else rr.stress
  }

  function AmrfinderFor(ar: AmrfinderResults, category: ElementType): ElementTypeMethod
  {
    if category == ElementType.AMR then ar.amr else ar.stress
  }

  function KeptResfinderResults(rr: ResfinderResults, categories: seq<ElementType>): seq<ElementTypeMethod>
  {
    if |categories| == 0 then []
    else
      var m := ResfinderFor(rr, Last(categories));
      KeptResfinderResults(rr, categories[..|categories| - 1]) + (if KeptResfinder(m) then [m] else [])
  }

  function AmrfinderResultsFor(ar: AmrfinderResults, categories: seq<ElementType>): seq<ElementTypeMethod>
  {
    if |categories| == 0 then []
    else AmrfinderResultsFor(ar, categories[..|categories| - 1]) + [AmrfinderFor(ar, Last(categories))]
  }

  /** ResFinder contributes its AMR and then its STRESS result, each only when
      it has both genes and variants. */
  lemma ResfinderContribution(rr: ResfinderResults)
    ensures KeptResfinderResults(rr, ResistanceCategories)
      == (if KeptResfinder(rr.amr) then [rr.amr] else []) + (if KeptResfinder(rr.stress) then [rr.stress] else [])
  {
    var cs := ResistanceCategories;
    assert cs[..|cs| - 1] == [ElementType.AMR] && Last(cs) == ElementType.STRESS;
    assert KeptResfinderResults(rr, [ElementType.AMR]) == KeptResfinderResults(rr, []) + (if KeptResfinder(rr.amr) then [rr.amr] else []);
  }

  /** AMRFinderPlus contributes its AMR and STRESS results unfiltered. */
  lemma AmrfinderContribution(ar: AmrfinderResults)
    ensures AmrfinderResultsFor(ar, ResistanceCategories) == [ar.amr, ar.stress]
  {
    var cs := ResistanceCategories;
    assert cs[..|cs| - 1] == [ElementType.AMR] && Last(cs) == ElementType.STRESS;
    assert AmrfinderResultsFor(ar, [ElementType.AMR]) == AmrfinderResultsFor(ar, []) + [ar.amr];
  }

  function ResfinderPart(inp: Inputs): seq<ElementTypeMethod>
  {
    if inp.resfinder.Some? then KeptResfinderResults(inp.resfinder.value, ResistanceCategories) else []
  }

  function AmrfinderPart(inp: Inputs): seq<ElementTypeMethod>
  {
    if inp.amrfinder.Some? then AmrfinderResultsFor(inp.amrfinder.value, ResistanceCategories) + [inp.amrfinder.value.virulence] else []
  }

  /** `s` with the value of `o` appended when there is one. */
  function Appended<T>(s: seq<T>, o: Option<T>): seq<T>
  {
    if o.Some? then s + [o.value] else s
  }

  /** The qc results: quast, then the post-alignment qc. */
  function QcResults(inp: Inputs): seq<QcResult>
  {
    Appended(Appended([], inp.quast), inp.quality)
  }

  /** Element-type results of the tools that need no check: ResFinder,
      AMRFinderPlus, then the VirulenceFinder genes. */
  function BasicElements(inp: Inputs): seq<ElementTypeMethod>
  {
    Appended(ResfinderPart(inp) + AmrfinderPart(inp),
             if inp.virulencefinder.Some? then inp.virulencefinder.value.virulence else None)
  }

  /** Typing results of the tools that need no check: MLST, cgMLST, the
      Shiga-toxin typing, then the serotypes. */
  function BasicTyping(inp: Inputs): seq<TypingResult>
  {
    var typing := Appended(Appended([], inp.mlst), inp.cgmlst);
    var typing := Appended(typing, if inp.virulencefinder.Some? then inp.virulencefinder.value.stx else None);
    if inp.serotypefinder.Some? && inp.serotypefinder.value.Some? then typing + inp.serotypefinder.value.value else typing
  }

  function MykrobeLineage(inp: Inputs): Option<TypingResult>
  {
    if inp.mykrobe.Some? then inp.mykrobe.value.lineage else None
  }

  function TbProfilerLineage(inp: Inputs): Option<TypingResult>
  {
    if inp.tbprofiler.Some? then Some(inp.tbprofiler.value.lineage) else None
  }

  /** The Mykrobe database entry, versioned by the first row. */
  function MykrobeDatabase(inp: Inputs): seq<SoupVersion>
  {
    if inp.mykrobe.Some? && |inp.mykrobe.value.rows| > 0
    then [SoupVersion("mykrobe-predictor", inp.mykrobe.value.rows[0].mykrobeVersion, DB)]
    else []
  }

  /** The TB-Profiler database entry, named and versioned from `db_version`. */
  function TbProfilerDatabase(inp: Inputs, reformatDate: string -> Option<string>): seq<SoupVersion>
  {
    if inp.tbprofiler.Some? && inp.tbprofiler.value.dbVersion.Some?
       && "name" in inp.tbprofiler.value.dbVersion.value
       && GetDbVersion(inp.tbprofiler.value.dbVersion.value, reformatDate).Ok?
    then
      var db := inp.tbprofiler.value.dbVersion.value;
      [SoupVersion(db["name"], GetDbVersion(db, reformatDate).value, DB)]
    else []
  }

  /** The variants of a VCF input: none when it is not given or has no records. */
  function LoadedVariants(f: Option<VcfFile>): Option<seq<VcfVariant>>
  {
    if f.None? || f.value.records == [] then None
    else
      var all := MapResult(f.value.records, Parser(VcfVariants.GetVariantCaller(f.value.header)));
      if all.Ok? then Some(all.value) else None
  }

  predicate VcfLoads(f: Option<VcfFile>)
  {
    f.Some? && f.value.records != [] ==> MapResult(f.value.records, Parser(VcfVariants.GetVariantCaller(f.value.header))).Ok?
  }

  predicate MykrobeStepSucceeds(inp: Inputs, toFloat: string -> Option<Number>)
  {
    inp.mykrobe.Some? ==>
      var rows := inp.mykrobe.value.rows;
      |rows| > 0 && Contains(rows[0].sample, inp.sampleId) && DecodeReported(rows, toFloat).Ok?
  }

  /** The report as its decoders see it: the whole parsed file, of which the
      `db_version` entry is one key. */
  function TbReport(t: TbProfilerInput): (r: Report)
    ensures t.dbVersion.Some? ==> !IsEmptyReport(r)
    ensures r.pipeline == t.report.pipeline && r.drVariants == t.report.drVariants
    ensures r.otherVariants == t.report.otherVariants && r.qcFailVariants == t.report.qcFailVariants
  {
    if t.dbVersion.Some? then t.report.(otherKeys := t.report.otherKeys + {"db_version"}) else t.report
  }

  /** The TB-Profiler step succeeds: `db_version` has a name and a version, and
      the report, which is never empty once it has `db_version`, has a pipeline
      and `dr_variants`. */
  predicate TbProfilerStepSucceeds(inp: Inputs, reformatDate: string -> Option<string>)
  {
    inp.tbprofiler.Some? ==>
      var t := inp.tbprofiler.value;
      && t.dbVersion.Some? && GetDbVersion(t.dbVersion.value, reformatDate).Ok?
      && t.report.pipeline.Some? && t.report.drVariants.Some?
  }

  /** Every decoding step of the run succeeds. */
  predicate DecodersSucceed(inp: Inputs, toFloat: string -> Option<Number>, reformatDate: string -> Option<string>)
  {
    MykrobeStepSucceeds(inp, toFloat) && TbProfilerStepSucceeds(inp, reformatDate) && VcfLoads(inp.snvVcf) && VcfLoads(inp.svVcf)
  }

  predicate HasReference(inp: Inputs)
  {
    inp.bam.Some? && inp.fasta.Some? && inp.gff.Some?
  }

  /** The read mapping and the annotation name different reference genomes. */
  predicate ReferenceMismatch(inp: Inputs)
  {
    HasReference(inp) && inp.bam.value.accession != inp.gff.value.accession
  }

  function MismatchMessage(bamAccession: string, gffAccession: string): string
  {
    "Read mapping used as different reference genome; bam accnr: " + bamAccession + "; gbff accnr: " + gffAccession
  }

  // ---------------------------------------------------------------------------
  // Annotation entries

  /** The last component of a path. */
  function BaseName(path: string): string
  {
    Last(Split(path, '/'))
  }

  /** The genome annotations, named annotation_1, annotation_2, ... in order. */
  function GenomeAnnotations(paths: seq<string>): (es: seq<Annotation>)
    ensures |es| == |paths|
    ensures forall i :: 0 <= i < |paths| ==> es[i] == Annotation("annotation_" + NatToString(i + 1), BaseName(paths[i]))
  {
    seq(|paths|, i requires 0 <= i < |paths| => Annotation("annotation_" + NatToString(i + 1), BaseName(paths[i])))
  }

  function PathOf(f: Option<VcfFile>): Option<string>
  {
    if f.Some? then Some(f.value.path) else None
  }

  /** As written: the loop over the SV and then the SNV file names an entry
      "SNV" when its file is the SV file, and "SV" otherwise. */
  function VcfAnnotationsAsWritten(sv: Option<string>, snv: Option<string>): seq<Annotation>
  {
    (if sv.Some? then [Annotation(if sv == sv then "SNV" else "SV", BaseName(sv.value))] else [])
    + (if snv.Some? then [Annotation(if snv == sv then "SNV" else "SV", BaseName(snv.value))] else [])
  }

  /** The entries of labelled files that were given, in order. */
  function LabelledEntries(files: seq<(Option<string>, string)>): seq<Annotation>
  {
    if |files| == 0 then []
    else
      var f := Last(files);
      LabelledEntries(files[..|files| - 1]) + (if f.0.Some? then [Annotation(f.1, BaseName(f.0.value))] else [])
  }

  /** The evidently intended entries: the SV file labelled "SV" and then the SNV
      file labelled "SNV". */
  function VcfAnnotations(sv: Option<string>, snv: Option<string>): seq<Annotation>
  {
    LabelledEntries([(sv, "SV"), (snv, "SNV")])
  }

  /** Each given file has one entry, and an entry is labelled "SV" exactly when
      it names the structural-variant file. */
  lemma VcfAnnotationsLabelled(sv: Option<string>, snv: Option<string>)
    ensures VcfAnnotations(sv, snv) == OptList(if sv.Some? then Some(Annotation("SV", BaseName(sv.value))) else None)
                                      + OptList(if snv.Some? then Some(Annotation("SNV", BaseName(snv.value))) else None)
  {
    var files := [(sv, "SV"), (snv, "SNV")];
    assert files[..|files| - 1] == [(sv, "SV")] && Last(files) == (snv, "SNV");
    assert LabelledEntries([(sv, "SV")]) == LabelledEntries([]) + (if sv.Some? then [Annotation("SV", BaseName(sv.value))] else []);
  }

  /** The discrepancy: with both files given, the SV file is labelled "SNV" and
      the SNV file "SV", whereas the intended labels are the other way round. */
  lemma VcfAnnotationLabelsSwapped(sv: string, snv: string)
    requires sv != snv
    ensures VcfAnnotationsAsWritten(Some(sv), Some(snv)) == [Annotation("SNV", BaseName(sv)), Annotation("SV", BaseName(snv))]
    ensures VcfAnnotations(Some(sv), Some(snv)) == [Annotation("SV", BaseName(sv)), Annotation("SNV", BaseName(snv))]
  {
    VcfAnnotationsLabelled(Some(sv), Some(snv));
  }

  /** The Mykrobe resistance result: absent exactly when no row is reported,
      otherwise the decoded variants with the row-wise profile. */
  predicate MykrobeAmrDecoded(inp: Inputs, toFloat: string -> Option<Number>, amr: Option<ElementTypeMethod>)
  {
    inp.mykrobe.Some? && DecodeReported(inp.mykrobe.value.rows, toFloat).Ok? ==>
      var rows := inp.mykrobe.value.rows;
      && (amr.None? <==> ReportedRows(rows) == [])
      && (amr.Some? ==>
            && amr.value.category == ElementType.AMR && amr.value.software == MYKROBE
            && amr.value.result.genes == []
            && amr.value.result.variants == MykrobeCalls(DecodeReported(rows, toFloat).value)
            && IsSrProfile(rows, amr.value.result.phenotypes))
  }

  /** The TB-Profiler resistance result: the profile of the `dr_variants` hits
      and the collected variants sorted by location. */
  predicate TbProfilerAmrDecoded(inp: Inputs, amr: ElementTypeMethod)
  {
    inp.tbprofiler.Some? && inp.tbprofiler.value.report.pipeline.Some? && inp.tbprofiler.value.report.drVariants.Some? ==>
      var report := TbReport(inp.tbprofiler.value);
      && amr.category == ElementType.AMR && amr.software == TBPROFILER
      && amr.result.genes == []
      && IsTbSrProfile(report.drVariants.value, amr.result.phenotypes)
      && amr.result.variants == TbProfilerCalls(SortByLocation(Collected(report, VariantCallerOf(report.pipeline.value))))
  }

  // ---------------------------------------------------------------------------
  // Assembly (`create_bonsai_input`)

  /** The database, typing and element-type lists as the run builds them up. */
  datatype Sections = Sections(databases: seq<SoupVersion>, typing: seq<TypingResult>, elements: seq<ElementTypeMethod>)

  /** The ResFinder AMR and STRESS results, each kept only with both genes and variants. */
  method ResfinderResultsOf(inp: Inputs) returns (elements: seq<ElementTypeMethod>)
    ensures elements == ResfinderPart(inp)
  {
    elements := [];
    if inp.resfinder.Some? {
      var rr := inp.resfinder.value;
      for k := 0 to |ResistanceCategories|
        invariant elements == KeptResfinderResults(rr, ResistanceCategories[..k])
      {
        assert ResistanceCategories[..k + 1][..k] == ResistanceCategories[..k];
        var res := ResfinderFor(rr, ResistanceCategories[k]);
        if |res.result.genes| > 0 && |res.result.variants| > 0 {
          elements := elements + [res];
        }
      }
      assert ResistanceCategories[..|ResistanceCategories|] == ResistanceCategories;
    }
  }

  /** The AMRFinderPlus AMR, STRESS and virulence results, unfiltered. */
  method AmrfinderResultsOf(inp: Inputs) returns (elements: seq<ElementTypeMethod>)
    ensures elements == AmrfinderPart(inp)
  {
    elements := [];
    if inp.amrfinder.Some? {
      var ar := inp.amrfinder.value;
      for k := 0 to |ResistanceCategories|
        invariant elements == AmrfinderResultsFor(ar, ResistanceCategories[..k])
      {
        assert ResistanceCategories[..k + 1][..k] == ResistanceCategories[..k];
        elements := elements + [AmrfinderFor(ar, ResistanceCategories[k])];
      }
      assert ResistanceCategories[..|ResistanceCategories|] == ResistanceCategories;
      elements := elements + [ar.virulence];
    }
  }

  /** The results of the tools that need no check: qc, typing, the ResFinder,
      AMRFinderPlus and VirulenceFinder results, and the species prediction. */
  method CollectBasicResults(inp: Inputs)
    returns (qc: seq<QcResult>, typing: seq<TypingResult>, elements: seq<ElementTypeMethod>, species: seq<SpeciesPrediction>)
    ensures qc == QcResults(inp)
    ensures typing == BasicTyping(inp)
    ensures elements == BasicElements(inp)
    ensures species == (if inp.kraken.Some? then inp.kraken.value else [])
  {
    qc, typing, elements := [], [], [];

    // qc
    if inp.quast.Some? {
      qc := qc + [inp.quast.value];
    }
    if inp.quality.Some? {
      qc := qc + [inp.quality.value];
    }

    // typing
    if inp.mlst.Some? {
      typing := typing + [inp.mlst.value];
    }
    if inp.cgmlst.Some? {
      typing := typing + [inp.cgmlst.value];
    }

    var resfinderResults := ResfinderResultsOf(inp);
    var amrfinderResults := AmrfinderResultsOf(inp);
    elements := resfinderResults + amrfinderResults;

    // virulencefinder
    if inp.virulencefinder.Some? {
      var vir := inp.virulencefinder.value.virulence;
      if vir.Some? {
        elements := elements + [vir.value];
      }
      var stx := inp.virulencefinder.value.stx;
      if stx.Some? {
        typing := typing + [stx.value];
      }
    }

    // serotypefinder
    if inp.serotypefinder.Some? {
      var res := inp.serotypefinder.value;
      if res.Some? {
        typing := typing + res.value;
      }
    }

    // species prediction
    species := [];
    if inp.kraken.Some? {
      species := inp.kraken.value;
    }
  }

  /** The Mykrobe step: the first row must name the sample; its version is
      recorded before the resistance rows are decoded. */
  method AddMykrobe(inp: Inputs, toFloat: string -> Option<Number>, acc: Sections)
    returns (r: Result<Sections, CliError>, ghost amr: Option<ElementTypeMethod>)
    ensures inp.mykrobe.None? ==> r == Ok(acc) && amr.None?
    ensures inp.mykrobe.Some? && inp.mykrobe.value.rows == [] ==> r == Err(DecoderError(IndexError))
    ensures (inp.mykrobe.Some? && inp.mykrobe.value.rows != [] && !Contains(inp.mykrobe.value.rows[0].sample, inp.sampleId))
              ==> r == Err(SampleMixup)
    ensures r.Ok? <==> MykrobeStepSucceeds(inp, toFloat)
    ensures r.Ok? ==> r.value == Sections(acc.databases + MykrobeDatabase(inp), Appended(acc.typing, MykrobeLineage(inp)), Appended(acc.elements, amr))
    ensures r.Ok? ==> MykrobeAmrDecoded(inp, toFloat, amr)
  {
    amr := None;
    if inp.mykrobe.None? {
      assert acc.databases + [] == acc.databases;
      return Ok(acc), amr;
    }
    var rows := inp.mykrobe.value.rows;
    if |rows| == 0 {
      return Err(DecoderError(IndexError)), amr;
    }
    if !Contains(rows[0].sample, inp.sampleId) {
      return Err(SampleMixup), amr;
    }
    var databases := acc.databases + [SoupVersion("mykrobe-predictor", rows[0].mykrobeVersion, DB)];
    var amrRes := ParseMykrobeAmrPred(rows, ElementType.AMR, toFloat);
    if amrRes.Err? {
      return Err(DecoderError(amrRes.error)), amr;
    }
    var elements := acc.elements;
    if amrRes.value.Some? {
      elements := elements + [amrRes.value.value];
    }
    amr := amrRes.value;
    var typing := acc.typing;
    var lineage := inp.mykrobe.value.lineage;
    if lineage.Some? {
      typing := typing + [lineage.value];
    }
    return Ok(Sections(databases, typing, elements)), amr;
  }

  /** The TB-Profiler step: the database entry from `db_version`, the lineage,
      then the resistance result. */
  method AddTbProfiler(inp: Inputs, reformatDate: string -> Option<string>, acc: Sections)
    returns (r: Result<Sections, CliError>, ghost amr: Option<ElementTypeMethod>)
    ensures inp.tbprofiler.None? ==> r == Ok(acc) && amr.None?
    ensures inp.tbprofiler.Some? && inp.tbprofiler.value.dbVersion.None? ==> r == Err(DecoderError(KeyError("db_version")))
    ensures (inp.tbprofiler.Some? && inp.tbprofiler.value.dbVersion.Some? && "name" !in inp.tbprofiler.value.dbVersion.value)
              ==> r == Err(DecoderError(KeyError("name")))
    ensures (inp.tbprofiler.Some? && inp.tbprofiler.value.dbVersion.Some?
             && GetDbVersion(inp.tbprofiler.value.dbVersion.value, reformatDate).Ok?)
              ==> var report := inp.tbprofiler.value.report;
                  && (report.drVariants.None? ==> r == Err(DecoderError(KeyError("dr_variants"))))
                  && (report.drVariants.Some? && report.pipeline.None? ==> r == Err(DecoderError(KeyError("pipeline"))))
    ensures r.Ok? <==> TbProfilerStepSucceeds(inp, reformatDate)
    ensures amr.Some? <==> r.Ok? && inp.tbprofiler.Some?
    ensures r.Ok? ==> r.value == Sections(acc.databases + TbProfilerDatabase(inp, reformatDate), Appended(acc.typing, TbProfilerLineage(inp)), Appended(acc.elements, amr))
    ensures amr.Some? ==> TbProfilerAmrDecoded(inp, amr.value)
  {
    amr := None;
    if inp.tbprofiler.None? {
      assert acc.databases + [] == acc.databases;
      return Ok(acc), amr;
    }
    var tb := inp.tbprofiler.value;
    if tb.dbVersion.None? {
      return Err(DecoderError(KeyError("db_version"))), amr;
    }
    var db := tb.dbVersion.value;
    if "name" !in db {
      return Err(DecoderError(KeyError("name"))), amr;
    }
    var version := GetDbVersion(db, reformatDate);
    if version.Err? {
      return Err(DecoderError(version.error)), amr;
    }
    var databases := acc.databases + [SoupVersion(db["name"], version.value, DB)];
    var typing := acc.typing + [tb.lineage];
    var amrRes := ParseTbProfilerAmrPred(TbReport(tb), ElementType.AMR);
    if amrRes.Err? {
      return Err(DecoderError(amrRes.error)), amr;
    }
    amr := Some(amrRes.value);
    return Ok(Sections(databases, typing, acc.elements + [amrRes.value])), amr;
  }

  /** Loads a VCF input that was given. */
  method LoadVcf(f: Option<VcfFile>) returns (r: Result<Option<seq<VcfVariant>>, Failure>)
    ensures r.Ok? <==> VcfLoads(f)
    ensures r.Ok? ==> r.value == LoadedVariants(f)
  {
    if f.None? {
      return Ok(None);
    }
    r := LoadVariants(f.value.records, f.value.header);
  }

  /** The annotation entries: the genome annotations, then the VCF files. */
  function AnnotationEntries(inp: Inputs): seq<Annotation>
  {
    GenomeAnnotations(inp.genomeAnnotation) + VcfAnnotations(PathOf(inp.svVcf), PathOf(inp.snvVcf))
  }

  /** The reference genome, read mapping and annotation entries, refused when
      the read mapping and the annotation name different accessions. */
  method ReferenceEntries(inp: Inputs) returns (r: Result<(ReferenceGenome, string, Option<seq<Annotation>>), CliError>)
    requires HasReference(inp)
    ensures r.Err? <==> ReferenceMismatch(inp)
    ensures r.Err? ==> r.error == UsageError(MismatchMessage(inp.bam.value.accession, inp.gff.value.accession))
    ensures r.Ok? ==>
              && r.value.0 == ReferenceGenome(
                   inp.gff.value.name, inp.gff.value.accession, BaseName(inp.fasta.value.path),
                   if inp.fasta.value.indexExists then Some(BaseName(inp.fasta.value.path + ".fai")) else None,
                   inp.gff.value.path)
              && r.value.1 == inp.bam.value.path
              && r.value.2 == (if AnnotationEntries(inp) == [] then None else Some(AnnotationEntries(inp)))
  {
    var bamRefGenome := inp.bam.value.accession;
    var refAccession, refName := inp.gff.value.accession, inp.gff.value.name;
    if refAccession != bamRefGenome {
      return Err(UsageError(MismatchMessage(bamRefGenome, refAccession)));
    }
    var fasta := inp.fasta.value.path;
    var referenceGenome := ReferenceGenome(
      refName, refAccession, BaseName(fasta),
      if inp.fasta.value.indexExists then Some(BaseName(fasta + ".fai")) else None,
      inp.gff.value.path);
    var annotations := GenomeAnnotations(inp.genomeAnnotation);
    ghost var before := annotations;
    var files := [(PathOf(inp.svVcf), "SV"), (PathOf(inp.snvVcf), "SNV")];
    for k := 0 to |files|
      invariant annotations == before + LabelledEntries(files[..k])
    {
      assert files[..k + 1][..k] == files[..k];
      var vcf := files[k].0;
      if vcf.Some? {
        annotations := annotations + [Annotation(files[k].1, BaseName(vcf.value))];
      }
    }
    assert files[..|files|] == files;
    return Ok((referenceGenome, inp.bam.value.path, if |annotations| > 0 then Some(annotations) else None));
  }

  /** The pipeline result built from the collected sections: the variants of
      the VCF files, the reference genome block, then the schema check. */
  method CompleteResult(inp: Inputs, qc: seq<QcResult>, species: seq<SpeciesPrediction>, acc: Sections,
                        isValid: PipelineResult -> bool)
    returns (r: Result<PipelineResult, CliError>)
    ensures !VcfLoads(inp.snvVcf) ==> r.Err? && r.error.DecoderError?
    ensures VcfLoads(inp.snvVcf) && !VcfLoads(inp.svVcf) ==> r.Err? && r.error.DecoderError?
    ensures (VcfLoads(inp.snvVcf) && VcfLoads(inp.svVcf) && ReferenceMismatch(inp))
              ==> r == Err(UsageError(MismatchMessage(inp.bam.value.accession, inp.gff.value.accession)))
    ensures VcfLoads(inp.snvVcf) && VcfLoads(inp.svVcf) && !ReferenceMismatch(inp) ==> r.Ok? || r == Err(InvalidResult)
    ensures r.Ok? ==> VcfLoads(inp.snvVcf) && VcfLoads(inp.svVcf) && !ReferenceMismatch(inp) && isValid(r.value)
    ensures r.Ok? ==>
              && r.value.sampleId == inp.sampleId && r.value.schemaVersion == OutputSchemaVersion && r.value.run == inp.run
              && r.value.databases == acc.databases && r.value.qc == qc && r.value.typingResult == acc.typing
              && r.value.elementTypeResult == acc.elements && r.value.speciesPrediction == species
              && r.value.snvVariants == LoadedVariants(inp.snvVcf)
              && r.value.svVariants == LoadedVariants(inp.svVcf)
    ensures r.Ok? ==> (r.value.referenceGenome.Some? <==> HasReference(inp))
    ensures r.Ok? && !HasReference(inp) ==> r.value.readMapping.None? && r.value.genomeAnnotation.None?
    ensures r.Ok? && HasReference(inp) ==>
              && r.value.referenceGenome == Some(ReferenceGenome(
                   inp.gff.value.name, inp.gff.value.accession, BaseName(inp.fasta.value.path),
                   if inp.fasta.value.indexExists then Some(BaseName(inp.fasta.value.path + ".fai")) else None,
                   inp.gff.value.path))
              && r.value.readMapping == Some(inp.bam.value.path)
              && r.value.genomeAnnotation == (if AnnotationEntries(inp) == [] then None else Some(AnnotationEntries(inp)))
  {
    // SNV and SV variants
    var snv := LoadVcf(inp.snvVcf);
    if snv.Err? {
      return Err(DecoderError(snv.error));
    }
    var sv := LoadVcf(inp.svVcf);
    if sv.Err? {
      return Err(DecoderError(sv.error));
    }

    // reference genome and read mapping
    var referenceGenome: Option<ReferenceGenome> := None;
    var readMapping: Option<string> := None;
    var genomeAnnotation: Option<seq<Annotation>> := None;
    if inp.bam.Some? && inp.fasta.Some? && inp.gff.Some? {
      var entries := ReferenceEntries(inp);
      if entries.Err? {
        return Err(entries.error);
      }
      referenceGenome, readMapping, genomeAnnotation := Some(entries.value.0), Some(entries.value.1), entries.value.2;
    }

    var output := PipelineResult(
      inp.sampleId, OutputSchemaVersion, inp.run, acc.databases, qc, acc.typing, acc.elements, species,
      snv.value, sv.value, referenceGenome, readMapping, genomeAnnotation);
    if !isValid(output) {
      return Err(InvalidResult);
    }
    return Ok(output);
  }

  /** The pipeline result of one sample, or why the run stopped. The Mykrobe and
      TB-Profiler resistance results are returned as `mykrobeAmr` and `tbAmr`,
      since the order of their profile lists is not fixed by the model. */
  method CreateBonsaiInput(inp: Inputs, toFloat: string -> Option<Number>, reformatDate: string -> Option<string>,
                           isValid: PipelineResult -> bool)
    returns (r: Result<PipelineResult, CliError>, ghost mykrobeAmr: Option<ElementTypeMethod>, ghost tbAmr: Option<ElementTypeMethod>)
    ensures inp.mykrobe.Some? && inp.mykrobe.value.rows == [] ==> r == Err(DecoderError(IndexError))
    ensures (inp.mykrobe.Some? && inp.mykrobe.value.rows != [] && !Contains(inp.mykrobe.value.rows[0].sample, inp.sampleId))
              ==> r == Err(SampleMixup)
    ensures (DecodersSucceed(inp, toFloat, reformatDate) && ReferenceMismatch(inp))
              ==> r == Err(UsageError(MismatchMessage(inp.bam.value.accession, inp.gff.value.accession)))
    ensures DecodersSucceed(inp, toFloat, reformatDate) && !ReferenceMismatch(inp) ==> r.Ok? || r == Err(InvalidResult)
    ensures r.Ok? ==> DecodersSucceed(inp, toFloat, reformatDate) && !ReferenceMismatch(inp) && isValid(r.value)
    ensures r.Ok? ==>
              && r.value.sampleId == inp.sampleId && r.value.schemaVersion == OutputSchemaVersion && r.value.run == inp.run
              && r.value.databases == inp.databases + MykrobeDatabase(inp) + TbProfilerDatabase(inp, reformatDate)
              && r.value.qc == QcResults(inp)
              && r.value.typingResult == Appended(Appended(BasicTyping(inp), MykrobeLineage(inp)), TbProfilerLineage(inp))
              && r.value.elementTypeResult == Appended(Appended(BasicElements(inp), mykrobeAmr), tbAmr)
              && r.value.speciesPrediction == (if inp.kraken.Some? then inp.kraken.value else [])
              && r.value.snvVariants == LoadedVariants(inp.snvVcf)
              && r.value.svVariants == LoadedVariants(inp.svVcf)
    ensures inp.mykrobe.None? ==> mykrobeAmr.None?
    ensures r.Ok? ==> MykrobeAmrDecoded(inp, toFloat, mykrobeAmr)
    ensures r.Ok? ==> (tbAmr.Some? <==> inp.tbprofiler.Some?)
    ensures r.Ok? && tbAmr.Some? ==> TbProfilerAmrDecoded(inp, tbAmr.value)
    ensures r.Ok? ==> (r.value.referenceGenome.Some? <==> HasReference(inp))
    ensures r.Ok? && !HasReference(inp) ==> r.value.readMapping.None? && r.value.genomeAnnotation.None?
    ensures r.Ok? && HasReference(inp) ==>
              && r.value.referenceGenome == Some(ReferenceGenome(
                   inp.gff.value.name, inp.gff.value.accession, BaseName(inp.fasta.value.path),
                   if inp.fasta.value.indexExists then Some(BaseName(inp.fasta.value.path + ".fai")) else None,
                   inp.gff.value.path))
              && r.value.readMapping == Some(inp.bam.value.path)
              && r.value.genomeAnnotation == (if AnnotationEntries(inp) == [] then None else Some(AnnotationEntries(inp)))
  {
    mykrobeAmr, tbAmr := None, None;
    var qc, typing, elements, species := CollectBasicResults(inp);
    var acc := Sections(inp.databases, typing, elements);

    var afterMykrobe;
    afterMykrobe, mykrobeAmr := AddMykrobe(inp, toFloat, acc);
    if afterMykrobe.Err? {
      return Err(afterMykrobe.error), mykrobeAmr, tbAmr;
    }
    var afterTbProfiler;
    afterTbProfiler, tbAmr := AddTbProfiler(inp, reformatDate, afterMykrobe.value);
    if afterTbProfiler.Err? {
      return Err(afterTbProfiler.error), mykrobeAmr, tbAmr;
    }
    acc := afterTbProfiler.value;

    r := CompleteResult(inp, qc, species, acc, isValid);
    if r.Err? {
      tbAmr := None;
    }
  }

  // ---------------------------------------------------------------------------
  // Contig decision (`annotate_delly`)

  /** Whether the variants' chromosome is to be renamed to the only contig of the
      BED file: not when the first record's chromosome is a contig, yes when it
      is not and the file has one contig. A missing BED file, an empty VCF file,
      or a foreign chromosome with several contigs (or none) stops the command. */
  method AnnotateDelly(bedContigs: Option<seq<string>>, vcfChroms: seq<string>) returns (r: Result<bool, CliError>)
    ensures bedContigs.None? ==> r == Err(UsageError("You must provide a annotation file."))
    ensures bedContigs.Some? && vcfChroms == [] ==> r == Err(DecoderError(StopIteration))
    ensures bedContigs.Some? && vcfChroms != [] ==>
              var contigs := bedContigs.value;
              && (r == Ok(false) <==> vcfChroms[0] in contigs)
              && (r == Ok(true) <==> vcfChroms[0] !in contigs && |contigs| == 1)
              && (r.Err? <==> vcfChroms[0] !in contigs && |contigs| != 1)
              && (vcfChroms[0] !in contigs && |contigs| > 1 ==>
                    r == Err(UsageError("\"" + vcfChroms[0] + "\" not in BED file and the file contains "
                                        + NatToString(|contigs|) + " chromosomes")))
              && (vcfChroms[0] !in contigs && |contigs| == 0 ==> r == Err(DecoderError(IndexError)))
  {
    if bedContigs.None? {
      return Err(UsageError("You must provide a annotation file."));
    }
    var contigs := bedContigs.value;
    if |vcfChroms| == 0 {
      return Err(DecoderError(StopIteration));
    }
    var chrom := vcfChroms[0];
    var annotChrom := false;
    if chrom !in contigs {
      if |contigs| > 1 {
        return Err(UsageError("\"" + chrom + "\" not in BED file and the file contains "
                              + NatToString(|contigs|) + " chromosomes"));
      }
      annotChrom := true;
      // the warning names the first contig
      if |contigs| == 0 {
        return Err(DecoderError(IndexError));
      }
    }
    return Ok(annotChrom);
  }
}
