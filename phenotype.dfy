/** The canonical data model of prediction results: closed enumerations with their
    serialised values, the records the decoders produce, and the keyword
    constructors that check a record's required fields and fill in its defaults. */
module Phenotype {
  import opened Common

  // ---------------------------------------------------------------------------
  // Enumerations

  /** DNA strand (`SequenceStand`). */
  datatype SequenceStrand = FORWARD | REVERSE

  function StrandFromValue(v: string): (r: Option<SequenceStrand>)
    ensures r.Some? <==> v == "+" || v == "-"
    ensures r == Some(FORWARD) <==> v == "+"
  {
    if v == "+" then Some(FORWARD) else if v == "-" then Some(REVERSE) else None
  }

  function StrandValue(s: SequenceStrand): (v: string)
    ensures StrandFromValue(v) == Some(s)
  {
    match s
    case FORWARD => "+"
    case REVERSE => "-"
  }

  datatype PredictionSoftware = AMRFINDER | RESFINDER | VIRFINDER | MYKROBE | TBPROFILER

  function SoftwareValue(s: PredictionSoftware): string
  {
    match s
    case AMRFINDER => "amrfinder"
    case RESFINDER => "resfinder"
    case VIRFINDER => "virulencefinder"
    case MYKROBE => "mykrobe"
    case TBPROFILER => "tbprofiler"
  }

  /** Kinds of variants: the three of the record model and the two that the VCF
      and TB-Profiler decoders use. */
  datatype VariantType = SUBSTITUTION | INSERTION | DELETION | SNV | MNV

  const VariantTypeValues: set<string> := {"substitution", "insertion", "deletion", "SNV", "MNV"}

  /** `VariantType(v)`: look a member up by its value. */
  function VariantTypeFromValue(v: string): (r: Option<VariantType>)
    ensures r.Some? <==> v in VariantTypeValues
  {
    if v == "substitution" then Some(VariantType.SUBSTITUTION)
    else if v == "insertion" then Some(VariantType.INSERTION)
    else if v == "deletion" then Some(VariantType.DELETION)
    else if v == "SNV" then Some(SNV)
    else if v == "MNV" then Some(MNV)
    else None
  }

  function VariantTypeValue(t: VariantType): (v: string)
    ensures v in VariantTypeValues && VariantTypeFromValue(v) == Some(t)
  {
    match t
    case SUBSTITUTION => "substitution"
    case INSERTION => "insertion"
    case DELETION => "deletion"
    case SNV => "SNV"
    case MNV => "MNV"
  }

  /** Looking a member up by value inverts `.value`, in both directions. */
  lemma VariantTypeValueInverse(v: string, t: VariantType)
    ensures VariantTypeFromValue(v) == Some(t) <==> v == VariantTypeValue(t)
  {
  }

  /** Structural sub-classification of a variant. */
  datatype VariantSubType = SUBSTITUTION | INSERTION | DELETION

  function VariantSubTypeValue(t: VariantSubType): string
  {
    match t
    case SUBSTITUTION => "SUB"
    case INSERTION => "INS"
    case DELETION => "DEL"
  }

  /** Top-level categories of resistance and virulence genes. */
  datatype ElementType = AMR | STRESS | VIR

  const ElementTypeValues: set<string> := {"AMR", "STRESS", "VIRULENCE"}

  function ElementTypeFromValue(v: string): (r: Option<ElementType>)
    ensures r.Some? <==> v in ElementTypeValues
  {
    if v == "AMR" then Some(ElementType.AMR)
    else if v == "STRESS" then Some(STRESS)
    else if v == "VIRULENCE" then Some(ElementType.VIR)
    else None
  }

  function ElementTypeValue(t: ElementType): (v: string)
    ensures v in ElementTypeValues && ElementTypeFromValue(v) == Some(t)
  {
    match t
    case AMR => "AMR"
    case STRESS => "STRESS"
    case VIR => "VIRULENCE"
  }

  datatype ElementStressSubtype = ACID | BIOCIDE | METAL | HEAT

  datatype ElementAmrSubtype = AMR

  datatype ElementVirulenceSubtype = VIR | ANTIGEN | TOXIN

  /** A member of any of the three subtype enumerations (`element_subtype`). */
  datatype ElementSubtype =
    | Stress(stress: ElementStressSubtype)
    | Amr(amr: ElementAmrSubtype)
    | Virulence(virulence: ElementVirulenceSubtype)

  function ElementSubtypeValue(s: ElementSubtype): string
  {
    match s
    case Stress(ACID) => "ACID"
    case Stress(BIOCIDE) => "BIOCIDE"
    case Stress(METAL) => "METAL"
    case Stress(HEAT) => "HEAT"
    case Amr(AMR) => "AMR"
    case Virulence(VIR) => "VIRULENCE"
    case Virulence(ANTIGEN) => "ANTIGEN"
    case Virulence(TOXIN) => "TOXIN"
  }

  /** Validation of the union: the stress values are tried first, then the AMR
      value, then the virulence values. */
  function ElementSubtypeFromValue(v: string): (r: Option<ElementSubtype>)
    ensures r.Some? ==> ElementSubtypeValue(r.value) == v
    ensures r.None? <==> v !in {"ACID", "BIOCIDE", "METAL", "HEAT", "AMR", "VIRULENCE", "ANTIGEN", "TOXIN"}
  {
    if v == "ACID" then Some(Stress(ACID))
    else if v == "BIOCIDE" then Some(Stress(BIOCIDE))
    else if v == "METAL" then Some(Stress(METAL))
    else if v == "HEAT" then Some(Stress(HEAT))
    else if v == "AMR" then Some(Amr(ElementAmrSubtype.AMR))
    else if v == "VIRULENCE" then Some(Virulence(ElementVirulenceSubtype.VIR))
    else if v == "ANTIGEN" then Some(Virulence(ANTIGEN))
    else if v == "TOXIN" then Some(Virulence(TOXIN))
    else None
  }

  /** The subtype values of the three enumerations are pairwise distinct, so the
      order in which the union is tried never changes the member chosen; and the
      virulence subtype `VIR` shares its value with the element type `VIR`. */
  lemma ElementSubtypeValuesUnambiguous(s: ElementSubtype, t: ElementSubtype)
    ensures ElementSubtypeFromValue(ElementSubtypeValue(s)) == Some(s)
    ensures ElementSubtypeValue(s) == ElementSubtypeValue(t) ==> s == t
    ensures ElementSubtypeValue(Virulence(ElementVirulenceSubtype.VIR)) == ElementTypeValue(ElementType.VIR)
    ensures ElementSubtypeValue(Amr(ElementAmrSubtype.AMR)) == ElementTypeValue(ElementType.AMR)
  {
    match s
    case Stress(x) => {
      match x { case ACID => case BIOCIDE => case METAL => case HEAT => }
    }
    case Amr(x) => {
      match x { case AMR => }
    }
    case Virulence(x) => {
      match x { case VIR => case ANTIGEN => case TOXIN => }
    }
  }

  // ---------------------------------------------------------------------------
  // Keyword-constructor checks shared by the records

  /** The names of the fields that failed validation. */
  datatype ValidationError = ValidationError(fields: set<string>)

  /** A required field: only a passed value is valid. */
  function RequiredValue<T>(f: Field<T>): Option<T>
  {
    if f.Given? then Some(f.value) else None
  }

  /** An optional field defaulting to `None`: absent and `None` both give `None`. */
  function OptionalValue<T>(f: Field<T>): Option<T>
  {
    if f.Given? then Some(f.value) else None
  }

  /** A field whose default is not validated (`int = Field(default=None)`): an
      absent field is `None`, an explicit `None` is rejected. */
  function UncheckedDefault<T>(f: Field<T>): Option<Option<T>>
  {
    match f
    case Missing => Some(None)
    case Null => None
    case Given(v) => Some(Some(v))
  }

  /** A list field defaulting to the empty list; an explicit `None` is rejected. */
  function ListOrEmpty<T>(f: Field<seq<T>>): Option<seq<T>>
  {
    match f
    case Missing => Some([])
    case Null => None
    case Given(v) => Some(v)
  }

  function ElementTypeField(f: Field<string>): Option<ElementType>
  {
    if f.Given? then ElementTypeFromValue(f.value) else None
  }

  function Fails(name: string, ok: bool): set<string>
  {
    if ok then {} else {name}
  }

  // ---------------------------------------------------------------------------
  // PhenotypeInfo

  datatype PhenotypeInfo = PhenotypeInfo(
    name: string,
    group: Option<string>,
    kind: ElementType,
    reference: seq<string>,
    note: Option<string>)

  datatype PhenotypeInfoArgs = PhenotypeInfoArgs(
    name: Field<string>,
    group: Field<string>,
    kind: Field<string>,
    reference: Field<seq<string>>,
    note: Field<string>)

  /** `PhenotypeInfo(**args)`: `name` and `type` (here `kind`) are required, `group` and `note`
      default to `None`, `reference` to the empty list. */
  function NewPhenotypeInfo(a: PhenotypeInfoArgs): (r: Result<PhenotypeInfo, ValidationError>)
    ensures r.Ok? <==> a.name.Given? && a.kind.Given? && a.kind.value in ElementTypeValues && !a.reference.Null?
    ensures r.Err? ==> ("name" in r.error.fields <==> !a.name.Given?)
    ensures r.Err? ==> ("reference" in r.error.fields <==> a.reference.Null?)
    ensures r.Ok? ==> ElementTypeValue(r.value.kind) == a.kind.value
  {
    var name := RequiredValue(a.name);
    var kind := ElementTypeField(a.kind);
    var reference := ListOrEmpty(a.reference);
    if name.Some? && kind.Some? && reference.Some? then
      Ok(PhenotypeInfo(name.value, OptionalValue(a.group), kind.value, reference.value, OptionalValue(a.note)))
    else
      Err(ValidationError(Fails("name", name.Some?) + Fails("type", kind.Some?) + Fails("reference", reference.Some?)))
  }

  function OptionalArg<T>(o: Option<T>): Field<T>
  {
    if o.Some? then Given(o.value) else Null
  }

  /** The keyword arguments a serialised `PhenotypeInfo` supplies. */
  function PhenotypeInfoFields(p: PhenotypeInfo): PhenotypeInfoArgs
  {
    PhenotypeInfoArgs(Given(p.name), OptionalArg(p.group), Given(ElementTypeValue(p.kind)), Given(p.reference), OptionalArg(p.note))
  }

  /** Only `name` and `type` need be given; the other fields take their defaults. */
  lemma PhenotypeInfoDefaults(name: string, t: ElementType)
    ensures NewPhenotypeInfo(PhenotypeInfoArgs(Given(name), Missing, Given(ElementTypeValue(t)), Missing, Missing))
      == Ok(PhenotypeInfo(name, None, t, [], None))
  {
  }

  /** Rebuilding a record from its own fields gives the record back. */
  lemma PhenotypeInfoRoundTrip(p: PhenotypeInfo)
    ensures NewPhenotypeInfo(PhenotypeInfoFields(p)) == Ok(p)
  {
  }

  // ---------------------------------------------------------------------------
  // Genes

  datatype DatabaseReference = DatabaseReference(refDatabase: Option<string>, refId: Option<string>)

  datatype GeneBase = GeneBase(
    geneSymbol: Option<string>,
    accession: Option<string>,
    sequenceName: Option<string>,
    elementType: ElementType,
    elementSubtype: ElementSubtype,
    refStartPos: Option<int>,
    refEndPos: Option<int>,
    refGeneLength: Option<int>,
    predictionMethod: Option<string>,
    identity: Option<Number>,
    coverage: Option<Number>)

  /** Keyword arguments of a gene. `refGeneLength` is the argument spelled
      `ref_gene_length`, which the record does not read: the field is populated
      only under its alias `target_length`. */
  datatype GeneBaseArgs = GeneBaseArgs(
    geneSymbol: Field<string>,
    accession: Field<string>,
    sequenceName: Field<string>,
    elementType: Field<string>,
    elementSubtype: Field<string>,
    refStartPos: Field<int>,
    refEndPos: Field<int>,
    refGeneLength: Field<int>,
    targetLength: Field<int>,
    predictionMethod: Field<string>,
    identity: Field<Number>,
    coverage: Field<Number>)

  function ElementSubtypeField(f: Field<string>): Option<ElementSubtype>
  {
    if f.Given? then ElementSubtypeFromValue(f.value) else None
  }

  /** `GeneBase(**args)`: only `element_type` and `element_subtype` are required,
      and each is checked against its own enumerations alone. */
  function NewGeneBase(a: GeneBaseArgs): (r: Result<GeneBase, ValidationError>)
    ensures r.Ok? <==> ElementTypeField(a.elementType).Some? && ElementSubtypeField(a.elementSubtype).Some?
    ensures r.Ok? ==> r.value.refGeneLength == OptionalValue(a.targetLength)
    ensures r.Err? ==> ("element_type" in r.error.fields <==> ElementTypeField(a.elementType).None?)
    ensures r.Err? ==> ("element_subtype" in r.error.fields <==> ElementSubtypeField(a.elementSubtype).None?)
  {
    var et := ElementTypeField(a.elementType);
    var st := ElementSubtypeField(a.elementSubtype);
    if et.Some? && st.Some? then
      Ok(GeneBase(OptionalValue(a.geneSymbol), OptionalValue(a.accession), OptionalValue(a.sequenceName),
                  et.value, st.value, OptionalValue(a.refStartPos), OptionalValue(a.refEndPos),
                  OptionalValue(a.targetLength), OptionalValue(a.predictionMethod), OptionalValue(a.identity),
                  OptionalValue(a.coverage)))
    else
      Err(ValidationError(Fails("element_type", et.Some?) + Fails("element_subtype", st.Some?)))
  }

  /** Arguments naming only the category of a gene. */
  function CategoryArgs(et: string, st: string): GeneBaseArgs
  {
    GeneBaseArgs(Missing, Missing, Missing, Given(et), Given(st), Missing, Missing, Missing, Missing, Missing, Missing, Missing)
  }

  /** Nothing ties the subtype to the element type: a stress gene may carry a
      virulence subtype, and so on for every pair. */
  lemma GeneSubtypeUntied(et: ElementType, st: ElementSubtype)
    ensures NewGeneBase(CategoryArgs(ElementTypeValue(et), ElementSubtypeValue(st))).Ok?
    ensures NewGeneBase(CategoryArgs(ElementTypeValue(et), ElementSubtypeValue(st))).value.elementSubtype == st
  {
    ElementSubtypeValuesUnambiguous(st, st);
  }

  /** A length passed as `ref_gene_length` is ignored; under `target_length` it is kept. */
  lemma RefGeneLengthAlias(a: GeneBaseArgs, n: int)
    requires NewGeneBase(a).Ok?
    ensures NewGeneBase(a.(refGeneLength := Given(n), targetLength := Missing)).value.refGeneLength == None
    ensures NewGeneBase(a.(targetLength := Given(n))).value.refGeneLength == Some(n)
  {
  }

  datatype AmrFinderGene = AmrFinderGene(
    base: GeneBase,
    reference: DatabaseReference,
    phenotypes: seq<PhenotypeInfo>,
    contigId: string,
    queryStartPos: Option<int>,
    queryEndPos: Option<int>,
    strand: SequenceStrand,
    resClass: Option<string>,
    resSubclass: Option<string>)

  datatype AmrFinderGeneArgs = AmrFinderGeneArgs(
    base: GeneBaseArgs,
    refDatabase: Field<string>,
    refId: Field<string>,
    phenotypes: Field<seq<PhenotypeInfo>>,
    contigId: Field<string>,
    queryStartPos: Field<int>,
    queryEndPos: Field<int>,
    strand: Field<string>,
    resClass: Field<string>,
    resSubclass: Field<string>)

  function StrandField(f: Field<string>): Option<SequenceStrand>
  {
    if f.Given? then StrandFromValue(f.value) else None
  }

  /** `AmrFinderGene(**args)`: the gene fields plus a required `contig_id` and a
      required strand that is "+" or "-"; the query positions default to `None`
      but reject an explicit `None`. */
  function NewAmrFinderGene(a: AmrFinderGeneArgs): (r: Result<AmrFinderGene, ValidationError>)
    ensures r.Ok? <==>
              NewGeneBase(a.base).Ok? && a.contigId.Given? && a.strand.Given?
              && (a.strand.value == "+" || a.strand.value == "-")
              && !a.phenotypes.Null? && !a.queryStartPos.Null? && !a.queryEndPos.Null?
    ensures r.Err? ==> ("contig_id" in r.error.fields <==> !a.contigId.Given?)
    ensures r.Err? ==> ("strand" in r.error.fields <==> StrandField(a.strand).None?)
  {
    var base := NewGeneBase(a.base);
    var phenotypes := ListOrEmpty(a.phenotypes);
    var contig := RequiredValue(a.contigId);
    var qStart := UncheckedDefault(a.queryStartPos);
    var qEnd := UncheckedDefault(a.queryEndPos);
    var strand := StrandField(a.strand);
    if base.Ok? && phenotypes.Some? && contig.Some? && qStart.Some? && qEnd.Some? && strand.Some? then
      Ok(AmrFinderGene(base.value, DatabaseReference(OptionalValue(a.refDatabase), OptionalValue(a.refId)),
                       phenotypes.value, contig.value, qStart.value, qEnd.value, strand.value,
                       OptionalValue(a.resClass), OptionalValue(a.resSubclass)))
    else
      Err(ValidationError((if base.Err? then base.error.fields else {})
        + Fails("phenotypes", phenotypes.Some?) + Fails("contig_id", contig.Some?)
        + Fails("query_start_pos", qStart.Some?) + Fails("query_end_pos", qEnd.Some?)
        + Fails("strand", strand.Some?)))
  }

  /** The genes an element-type result can hold. */
  datatype Gene =
    | AmrFinderGeneHit(amrfinder: AmrFinderGene)
    | ResfinderGeneHit(gene: GeneBase, reference: DatabaseReference, phenotypes: seq<PhenotypeInfo>, depth: Option<Number>)
    | VirulenceGeneHit(gene: GeneBase, reference: DatabaseReference, depth: Option<Number>)

  // ---------------------------------------------------------------------------
  // Variants

  datatype VariantBase = VariantBase(
    variantType: VariantType,
    phenotypes: seq<PhenotypeInfo>,
    geneSymbol: string,
    accession: Option<string>,
    position: int,
    refNt: string,
    altNt: string,
    refAa: Option<string>,
    altAa: Option<string>,
    depth: Option<Number>,
    frequency: Option<Number>,
    predictionMethod: string,
    passedQc: bool)

  datatype VariantBaseArgs = VariantBaseArgs(
    variantType: Field<string>,
    phenotypes: Field<seq<PhenotypeInfo>>,
    geneSymbol: Field<string>,
    accession: Field<string>,
    position: Field<int>,
    refNt: Field<string>,
    altNt: Field<string>,
    refAa: Field<string>,
    altAa: Field<string>,
    depth: Field<Number>,
    frequency: Field<Number>,
    predictionMethod: Field<string>,
    passedQc: Field<bool>)

  function VariantTypeField(f: Field<string>): Option<VariantType>
  {
    if f.Given? then VariantTypeFromValue(f.value) else None
  }

  /** `VariantBase(**args)`: the variant type, gene symbol, position, both
      alleles, the method and the QC flag are required; `passed_qc` is a plain
      boolean, so `None` is rejected like any other missing value. */
  function NewVariantBase(a: VariantBaseArgs): (r: Result<VariantBase, ValidationError>)
    ensures r.Ok? <==>
              VariantTypeField(a.variantType).Some? && !a.phenotypes.Null? && a.geneSymbol.Given?
              && a.position.Given? && a.refNt.Given? && a.altNt.Given? && a.predictionMethod.Given? && a.passedQc.Given?
    ensures r.Err? ==> ("passed_qc" in r.error.fields <==> !a.passedQc.Given?)
    ensures r.Err? ==> ("method" in r.error.fields <==> !a.predictionMethod.Given?)
    ensures r.Ok? ==> r.value.passedQc == a.passedQc.value && r.value.position == a.position.value
  {
    var vt := VariantTypeField(a.variantType);
    var phenotypes := ListOrEmpty(a.phenotypes);
    var gene := RequiredValue(a.geneSymbol);
    var pos := RequiredValue(a.position);
    var refNt := RequiredValue(a.refNt);
    var altNt := RequiredValue(a.altNt);
    var meth := RequiredValue(a.predictionMethod);
    var qc := RequiredValue(a.passedQc);
    if vt.Some? && phenotypes.Some? && gene.Some? && pos.Some? && refNt.Some? && altNt.Some? && meth.Some? && qc.Some? then
      Ok(VariantBase(vt.value, phenotypes.value, gene.value, OptionalValue(a.accession), pos.value,
                     refNt.value, altNt.value, OptionalValue(a.refAa), OptionalValue(a.altAa),
                     OptionalValue(a.depth), OptionalValue(a.frequency), meth.value, qc.value))
    else
      var located := Fails("variant_type", vt.Some?) + Fails("phenotypes", phenotypes.Some?)
        + Fails("gene_symbol", gene.Some?) + Fails("position", pos.Some?) + Fails("ref_nt", refNt.Some?)
        + Fails("alt_nt", altNt.Some?);
      assert "method" !in located && "passed_qc" !in located;
      Err(ValidationError(located + Fails("method", meth.Some?) + Fails("passed_qc", qc.Some?)))
  }

  /** A Mykrobe resistance variant, with the fields its decoder sets; the codon
      fields are `None` when the change text holds no digit. */
  datatype MykrobeVariant = MykrobeVariant(
    variantType: Option<VariantType>,
    geneSymbol: string,
    position: Option<nat>,
    refNt: Option<string>,
    altNt: Option<string>,
    depth: Option<Number>,
    change: string,
    drugs: seq<string>)

  /** A TB-Profiler variant, with the fields its decoder sets. */
  datatype TbProfilerVariant = TbProfilerVariant(
    id: nat,
    variantType: VariantType,
    variantSubtype: VariantSubType,
    phenotypes: seq<PhenotypeInfo>,
    referenceSequence: string,
    accession: string,
    start: int,
    end: int,
    refNt: string,
    altNt: string,
    variantEffect: string,
    hgvsNtChange: Option<string>,
    hgvsAaChange: Option<string>,
    depth: Number,
    frequency: Number,
    predictionMethod: Option<string>,
    passedQc: bool)

  /** A variant read from a VCF record; `passedQc` is unknown when the record
      carries no filter information. */
  datatype VcfVariant = VcfVariant(
    variantType: VariantType,
    variantSubtype: string,
    geneSymbol: string,
    start: int,
    end: int,
    refNt: string,
    altNt: string,
    predictionMethod: Option<string>,
    confidence: Option<Number>,
    passedQc: Option<bool>)

  /** The variants an element-type result can hold. */
  datatype Variant =
    | ResfinderCall(resfinder: VariantBase)
    | MykrobeCall(mykrobe: MykrobeVariant)
    | TbProfilerCall(tbprofiler: TbProfilerVariant)

  // ---------------------------------------------------------------------------
  // Element-type results

  /** A susceptible/resistant profile; `NoProfile` is the empty mapping. */
  datatype Profile = NoProfile | SrProfile(susceptible: seq<string>, resistant: seq<string>)

  datatype ElementTypeResult = ElementTypeResult(phenotypes: Profile, genes: seq<Gene>, variants: seq<Variant>)

  /** One tool's result for one category (`MethodIndex`). */
  datatype ElementTypeMethod = ElementTypeMethod(category: ElementType, software: PredictionSoftware, result: ElementTypeResult)
}
