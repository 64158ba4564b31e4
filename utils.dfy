/** Helpers shared by the decoders: the emptiness test of a result, the codon
    difference, HGVS formatting of a nucleotide change, the database version of a
    TB-Profiler report and the per-species table of expected input files. */
module ParseUtils {
  import opened Common
  import opened Phenotype

  /** A result is empty when it holds neither genes nor variants. */
  function IsPredictionResultEmpty(r: ElementTypeResult): (empty: bool)
    ensures empty <==> r.genes == [] && r.variants == []
  {
    |r.genes| + |r.variants| == 0
  }

  // ---------------------------------------------------------------------------
  // Codon difference (`get_nt_change`)

  function Min(x: nat, y: nat): nat
  {
    if x <= y then x else y
  }

  /** The characters at which the first `n` positions of `a` and `b` differ, as
      the character of `a` and of `b` at each such position. */
  function Mismatches(a: string, b: string, n: nat): (string, string)
    requires n <= |a| && n <= |b|
  {
    if n == 0 then ("", "")
    else
      var p := Mismatches(a, b, n - 1);
      if a[n - 1] != b[n - 1] then (p.0 + [a[n - 1]], p.1 + [b[n - 1]]) else p
  }

  /** The reference and alternate nucleotides that differ between two codons,
      compared position by position up to the shorter one, upper-cased. */
  function NtChange(refCodon: string, altCodon: string): (string, string)
  {
    var m := Mismatches(refCodon, altCodon, Min(|refCodon|, |altCodon|));
    (Upper(m.0), Upper(m.1))
  }

  method GetNtChange(refCodon: string, altCodon: string) returns (refNt: string, altNt: string)
    ensures (refNt, altNt) == NtChange(refCodon, altCodon)
  {
    var r, a := "", "";
    var n := Min(|refCodon|, |altCodon|);
    for i := 0 to n
      invariant (r, a) == Mismatches(refCodon, altCodon, i)
    {
      if refCodon[i] != altCodon[i] {
        r := r + [refCodon[i]];
        a := a + [altCodon[i]];
      }
    }
    refNt, altNt := Upper(r), Upper(a);
  }

  lemma {:induction false} MismatchesShape(a: string, b: string, n: nat)
    requires n <= |a| && n <= |b|
    ensures var m := Mismatches(a, b, n);
      |m.0| == |m.1| <= n
      && (forall i :: 0 <= i < |m.0| ==> m.0[i] != m.1[i])
      && (NoLower(a) ==> NoLower(m.0)) && (NoLower(b) ==> NoLower(m.1))
  {
    if n > 0 {
      MismatchesShape(a, b, n - 1);
    }
  }

  lemma {:induction false} MismatchesOfIdentical(a: string, n: nat)
    requires n <= |a|
    ensures Mismatches(a, a, n) == ("", "")
  {
    if n > 0 {
      MismatchesOfIdentical(a, n - 1);
    }
  }

  /** Both outputs have the same length, no longer than the shorter codon (the
      comparison stops there), and both are upper-case. */
  lemma NtChangeShape(refCodon: string, altCodon: string)
    ensures var c := NtChange(refCodon, altCodon);
      |c.0| == |c.1| <= Min(|refCodon|, |altCodon|) && NoLower(c.0) && NoLower(c.1)
  {
    MismatchesShape(refCodon, altCodon, Min(|refCodon|, |altCodon|));
    var m := Mismatches(refCodon, altCodon, Min(|refCodon|, |altCodon|));
    UpperHasNoLower(m.0);
    UpperHasNoLower(m.1);
  }

  /** Identical codons have no nucleotide change. */
  lemma NtChangeOfIdentical(codon: string)
    ensures NtChange(codon, codon) == ("", "")
  {
    MismatchesOfIdentical(codon, |codon|);
    assert Upper("") == "";
  }

  /** For upper-case codons, the two outputs differ at every position. */
  lemma NtChangeDiffers(refCodon: string, altCodon: string)
    requires NoLower(refCodon) && NoLower(altCodon)
    ensures var c := NtChange(refCodon, altCodon);
      forall i :: 0 <= i < |c.0| && i < |c.1| ==> c.0[i] != c.1[i]
  {
    var n := Min(|refCodon|, |altCodon|);
    MismatchesShape(refCodon, altCodon, n);
    var m := Mismatches(refCodon, altCodon, n);
    UpperOfNoLower(m.0);
    UpperOfNoLower(m.1);
  }

  lemma NtChangeExample()
    ensures NtChange("TCG", "TTG") == ("C", "T")
  {
    var r, a := "TCG", "TTG";
    assert r[0] == a[0] && r[1] == 'C' && a[1] == 'T' && r[2] == a[2];
    assert Mismatches(r, a, 0) == ("", "");
    assert Mismatches(r, a, 1) == ("", "");
    assert Mismatches(r, a, 2) == ("" + [r[1]], "" + [a[1]]);
    assert "" + [r[1]] == "C" && "" + [a[1]] == "T";
    assert Mismatches(r, a, 3) == ("C", "T");
    assert Upper("C") == "C" && Upper("T") == "T";
  }

  // ---------------------------------------------------------------------------
  // HGVS formatting of a nucleotide change (`format_nt_change`)

  /** As written: each case builds its HGVS text but never assigns it, so the
      function returns its initial empty string for every input. */
  function FormatNtChangeAsWritten(refNt: string, altNt: string, varType: VariantType, startPos: int, endPos: Option<int>): string
  {
    ""
  }

  /** Python's formatting of an optional integer: `None` prints as "None". */
  function OptionalIntText(n: Option<int>): string
  {
    if n.Some? then IntToString(n.value) else "None"
  }

  /** The evidently intended result: the HGVS genomic change text of the three
      HGVS kinds ("g.<start><ref>><alt>", "g.<start>_<end>del",
      "g.<start>_<end>ins<alt>"), and the empty string for the other kinds, which
      no case matches. */
  function FormatNtChange(refNt: string, altNt: string, varType: VariantType, startPos: int, endPos: Option<int>): string
  {
    match varType
    case SUBSTITUTION => "g." + IntToString(startPos) + refNt + ">" + altNt
    case DELETION => "g." + IntToString(startPos) + "_" + OptionalIntText(endPos) + "del"
    case INSERTION => "g." + IntToString(startPos) + "_" + OptionalIntText(endPos) + "ins" + altNt
    case _ => ""
  }

  /** The number of leading decimal digits of `s`. */
  function LeadingDigits(s: string): (k: nat)
    ensures k <= |s| && AllDigits(s[..k]) && (k == |s| || !IsDigit(s[k]))
  {
    if |s| == 0 || !IsDigit(s[0]) then 0
    else
      var k := 1 + LeadingDigits(s[1..]);
      assert s[..k] == [s[0]] + s[1..][..k - 1];
      k
  }

  /** Reads a substitution "g.<start><ref>><alt>" back into its parts. */
  function ParseSubstitutionChange(s: string): Option<(nat, string, string)>
  {
    if |s| < 2 || s[..2] != "g." then None
    else
      var rest := s[2..];
      var k := LeadingDigits(rest);
      if k == 0 then None
      else
        var tail := rest[k..];
        var refNt := Split(tail, '>')[0];
        if |refNt| >= |tail| then None
        else Some((ParseNat(rest[..k]), refNt, tail[|refNt| + 1..]))
  }

  lemma {:induction false} LeadingDigitsOfConcat(d: string, rest: string)
    requires AllDigits(d) && (rest == [] || !IsDigit(rest[0]))
    ensures LeadingDigits(d + rest) == |d|
    decreases |d|
  {
    if |d| > 0 {
      assert (d + rest)[1..] == d[1..] + rest;
      LeadingDigitsOfConcat(d[1..], rest);
    }
  }

  lemma FirstPieceBeforeSeparator(refNt: string, altNt: string, sep: char)
    requires NotIn(sep, refNt)
    ensures Split(refNt + [sep] + altNt, sep)[0] == refNt
  {
    var t := refNt + [sep] + altNt;
    SplitHead(t, sep);
    var h := Split(t, sep)[0];
    assert forall i :: 0 <= i < |refNt| ==> t[i] == refNt[i];
    assert t[|refNt|] == sep;
    assert |h| == |refNt|;
  }

  /** The corrected text of a substitution determines its start and both alleles. */
  lemma SubstitutionChangeRoundTrip(refNt: string, altNt: string, startPos: nat, endPos: Option<int>)
    requires NoDigits(refNt) && NotIn('>', refNt)
    ensures ParseSubstitutionChange(FormatNtChange(refNt, altNt, VariantType.SUBSTITUTION, startPos, endPos))
      == Some((startPos, refNt, altNt))
  {
    var digits := NatToString(startPos);
    var s := FormatNtChange(refNt, altNt, VariantType.SUBSTITUTION, startPos, endPos);
    var tail := refNt + ">" + altNt;
    assert s == "g." + (digits + tail);
    assert s[2..] == digits + tail;
    LeadingDigitsOfConcat(digits, tail);
    assert (digits + tail)[..|digits|] == digits;
    assert (digits + tail)[|digits|..] == tail;
    FirstPieceBeforeSeparator(refNt, altNt, '>');
    assert tail[|refNt| + 1..] == altNt;
    ParseNatToString(startPos);
  }

  /** The discrepancy: every substitution formats to the empty string as written,
      though its HGVS text is never empty. */
  lemma FormatNtChangeDiscards(refNt: string, altNt: string, startPos: int, endPos: Option<int>)
    ensures FormatNtChangeAsWritten(refNt, altNt, VariantType.SUBSTITUTION, startPos, endPos) == ""
    ensures FormatNtChange(refNt, altNt, VariantType.SUBSTITUTION, startPos, endPos) != ""
  {
  }

  // ---------------------------------------------------------------------------
  // Database version of a TB-Profiler report (`get_db_version`)

  /** The `commit` entry when there is one, else the name joined by "_" to the
      reformatted date. The fallback is built first, so `name` and `Date` must
      be present, and the date readable, even when `commit` is. */
  function GetDbVersion(db: map<string, string>, reformatDate: string -> Option<string>): (r: Result<string, Failure>)
    ensures "name" !in db ==> r == Err(KeyError("name"))
    ensures "name" in db && "Date" !in db ==> r == Err(KeyError("Date"))
    ensures r.Ok? <==> "name" in db && "Date" in db && reformatDate(db["Date"]).Some?
    ensures r.Ok? && "commit" in db ==> r.value == db["commit"]
    ensures r.Ok? && "commit" !in db ==> r.value == db["name"] + "_" + reformatDate(db["Date"]).value
  {
    if "name" !in db then Err(KeyError("name"))
    else if "Date" !in db then Err(KeyError("Date"))
    else
      var date := reformatDate(db["Date"]);
      if date.None? then Err(ValueError(db["Date"]))
      else
        var backup := db["name"] + "_" + date.value;
        Ok(if "commit" in db then db["commit"] else backup)
  }

  /** A commit does not rescue a report whose date is missing. */
  lemma DbVersionNeedsDate(name: string, commit: string, reformatDate: string -> Option<string>)
    ensures GetDbVersion(map["name" := name, "commit" := commit], reformatDate).Err?
  {
  }

  // ---------------------------------------------------------------------------
  // Expected input files per species (`create_sample_array`)

  datatype SampleArray = SampleArray(
    output: string,
    bam: string,
    kraken: string,
    quality: string,
    quast: string,
    referenceGenomeFasta: string,
    referenceGenomeGff: string,
    runMetadata: string,
    svVcf: Option<string>,
    mykrobe: Option<string>,
    tbprofiler: Option<string>,
    amrfinder: Option<string>,
    cgmlst: Option<string>,
    mlst: Option<string>,
    resfinder: Option<string>,
    serotypefinder: Option<string>,
    virulencefinder: Option<string>,
    processMetadata: Option<seq<string>>)

  const SupportedSpecies: set<string> := {"mtuberculosis", "saureus", "ecoli", "kpneumoniae"}

  /** The reference genome, relative to the pipeline directory, without extension. */
  function ReferenceGenomeAsset(species: string): string
  {
    if species == "mtuberculosis" then "assets/genomes/mycobacterium_tuberculosis/NC_000962.3"
    else if species == "saureus" then "assets/genomes/staphylococcus_aureus/NC_002951.2"
    else if species == "ecoli" then "assets/genomes/escherichia_coli/NC_000913.3"
    else "assets/genomes/klebsiella_pneumoniae/NC_016845.1"
  }

  /** The file paths of one sample. `resolve(dir, rel)` stands for the absolute
      path of `rel` joined to `dir`. Tuberculosis samples have the structural
      variant, Mykrobe and TB-Profiler files; the other species have the gene
      callers, the typing tools and three process-metadata files. */
  method CreateSampleArray(species: string, inputDir: string, jasenDir: string, sampleId: string,
                           outputDir: string, resolve: (string, string) -> string)
    returns (r: Option<SampleArray>)
    ensures r.None? <==> species !in SupportedSpecies
    ensures r.Some? ==>
              && r.value.output == resolve(outputDir, sampleId + "_result.json")
              && r.value.bam == resolve(inputDir, "bam/" + sampleId + ".bam")
              && r.value.kraken == resolve(inputDir, "kraken/" + sampleId + "_bracken.out")
              && r.value.quality == resolve(inputDir, "postalignqc/" + sampleId + "_bwa.qc")
              && r.value.quast == resolve(inputDir, "quast/" + sampleId + "_quast.tsv")
              && r.value.runMetadata == resolve(inputDir, "analysis_metadata/" + sampleId + "_analysis_meta.json")
              && r.value.referenceGenomeFasta == resolve(jasenDir, ReferenceGenomeAsset(species) + ".fasta")
              && r.value.referenceGenomeGff == resolve(jasenDir, ReferenceGenomeAsset(species) + ".gff")
    ensures species == "mtuberculosis" ==>
              && r.Some?
              && r.value.svVcf == Some(resolve(inputDir, "annotate_delly/" + sampleId + "_annotated_delly.vcf"))
              && r.value.mykrobe == Some(resolve(inputDir, "mykrobe/" + sampleId + "_mykrobe.csv"))
              && r.value.tbprofiler == Some(resolve(inputDir, "tbprofiler_mergedb/" + sampleId + "_tbprofiler.json"))
              && r.value.amrfinder.None? && r.value.cgmlst.None? && r.value.mlst.None?
              && r.value.resfinder.None? && r.value.serotypefinder.None? && r.value.virulencefinder.None?
              && r.value.processMetadata.None?
    ensures species == "saureus" || species == "ecoli" || species == "kpneumoniae" ==>
              && r.Some?
              && r.value.svVcf.None? && r.value.mykrobe.None? && r.value.tbprofiler.None?
              && r.value.amrfinder == Some(resolve(inputDir, "amrfinderplus/" + sampleId + "_amrfinder.out"))
              && r.value.cgmlst == Some(resolve(inputDir, "chewbbaca/" + sampleId + "_chewbbaca.out"))
              && r.value.mlst == Some(resolve(inputDir, "mlst/" + sampleId + "_mlst.json"))
              && r.value.resfinder == Some(resolve(inputDir, "resfinder/" + sampleId + "_resfinder.json"))
              && r.value.serotypefinder == Some(resolve(inputDir, "serotypefinder/" + sampleId + "_serotypefinder.json"))
              && r.value.virulencefinder == Some(resolve(inputDir, "virulencefinder/" + sampleId + "_virulencefinder.json"))
              && r.value.processMetadata == Some([
                   resolve(inputDir, "resfinder/" + sampleId + "_resfinder_meta.json"),
                   resolve(inputDir, "serotypefinder/" + sampleId + "_serotypefinder_meta.json"),
                   resolve(inputDir, "virulencefinder/" + sampleId + "_virulencefinder_meta.json")])
  {
    var output := resolve(outputDir, sampleId + "_result.json");
    var bam := resolve(inputDir, "bam/" + sampleId + ".bam");
    var kraken := resolve(inputDir, "kraken/" + sampleId + "_bracken.out");
    var quality := resolve(inputDir, "postalignqc/" + sampleId + "_bwa.qc");
    var quast := resolve(inputDir, "quast/" + sampleId + "_quast.tsv");
    var runMetadata := resolve(inputDir, "analysis_metadata/" + sampleId + "_analysis_meta.json");
    if species == "mtuberculosis" {
      var asset := "assets/genomes/mycobacterium_tuberculosis/NC_000962.3";
      var fasta := resolve(jasenDir, asset + ".fasta");
      var gff := resolve(jasenDir, asset + ".gff");
      var svVcf := resolve(inputDir, "annotate_delly/" + sampleId + "_annotated_delly.vcf");
      var mykrobe := resolve(inputDir, "mykrobe/" + sampleId + "_mykrobe.csv");
      var tbprofiler := resolve(inputDir, "tbprofiler_mergedb/" + sampleId + "_tbprofiler.json");
      return Some(SampleArray(output, bam, kraken, quality, quast, fasta, gff, runMetadata,
                              Some(svVcf), Some(mykrobe), Some(tbprofiler),
                              None, None, None, None, None, None, None));
    } else if species == "saureus" || species == "ecoli" || species == "kpneumoniae" {
      var processMetadata: seq<string> := [];
      var amrfinder := resolve(inputDir, "amrfinderplus/" + sampleId + "_amrfinder.out");
      var cgmlst := resolve(inputDir, "chewbbaca/" + sampleId + "_chewbbaca.out");
      var mlst := resolve(inputDir, "mlst/" + sampleId + "_mlst.json");
      var resfinder := resolve(inputDir, "resfinder/" + sampleId + "_resfinder.json");
      var resfinderMeta := resolve(inputDir, "resfinder/" + sampleId + "_resfinder_meta.json");
      var serotypefinder := resolve(inputDir, "serotypefinder/" + sampleId + "_serotypefinder.json");
      var serotypefinderMeta := resolve(inputDir, "serotypefinder/" + sampleId + "_serotypefinder_meta.json");
      var virulencefinder := resolve(inputDir, "virulencefinder/" + sampleId + "_virulencefinder.json");
      var virulencefinderMeta := resolve(inputDir, "virulencefinder/" + sampleId + "_virulencefinder_meta.json");
      processMetadata := processMetadata + [resfinderMeta];
      processMetadata := processMetadata + [serotypefinderMeta];
      processMetadata := processMetadata + [virulencefinderMeta];
      assert processMetadata == [resfinderMeta, serotypefinderMeta, virulencefinderMeta];
      var asset := "";
      if species == "saureus" {
        asset := "assets/genomes/staphylococcus_aureus/NC_002951.2";
      }
      if species == "ecoli" {
        asset := "assets/genomes/escherichia_coli/NC_000913.3";
      }
      if species == "kpneumoniae" {
        asset := "assets/genomes/klebsiella_pneumoniae/NC_016845.1";
      }
      var fasta := resolve(jasenDir, asset + ".fasta");
      var gff := resolve(jasenDir, asset + ".gff");
      return Some(SampleArray(output, bam, kraken, quality, quast, fasta, gff, runMetadata,
                              None, None, None,
                              Some(amrfinder), Some(cgmlst), Some(mlst), Some(resfinder),
                              Some(serotypefinder), Some(virulencefinder), Some(processMetadata)));
    }
    return None;
  }
}
