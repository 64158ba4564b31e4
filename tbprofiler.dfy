/** The TB-Profiler decoder: the profile over a fixed list of drugs, the variants
    of the three result partitions with their QC flags, sequential ids and a
    stable sort by location, and the drug information of each variant. */
module TbProfiler {
  import opened Common
  import opened Phenotype

  /** One entry of a hit's `drugs` list. */
  datatype DrugInfo = DrugInfo(
    drug: string,
    drugType: string,
    confers: string,
    literature: Option<string>,
    whoConfidence: Option<string>)

  /** One variant of a TB-Profiler report (`hit`); `effect` is its `type` entry. */
  datatype Hit = Hit(
    refNt: string,
    altNt: string,
    genomePos: int,
    gene: string,
    featureId: string,
    effect: string,
    nucleotideChange: Option<string>,
    proteinChange: Option<string>,
    depth: Number,
    freq: Number,
    drugs: seq<DrugInfo>,
    geneAssociatedDrugs: seq<string>)

  datatype PipelineStep = PipelineStep(analysis: string, program: string)

  /** A TB-Profiler report; an absent entry is `None`, and `otherKeys` are the
      names of the report's remaining entries. */
  datatype Report = Report(
    pipeline: Option<seq<PipelineStep>>,
    drVariants: Option<seq<Hit>>,
    otherVariants: Option<seq<Hit>>,
    qcFailVariants: Option<seq<Hit>>,
    otherKeys: set<string>)

  /** A report with no entries at all (a falsy mapping). */
  predicate IsEmptyReport(r: Report)
  {
    r.pipeline.None? && r.drVariants.None? && r.otherVariants.None? && r.qcFailVariants.None? && r.otherKeys == {}
  }

  // ---------------------------------------------------------------------------
  // Susceptible/resistant profile (`_get_tbprofiler_amr_sr_profie`)

  const TbDrugs: seq<string> := [
    "ofloxacin", "moxifloxacin", "isoniazid", "delamanid", "kanamycin",
    "amikacin", "ethambutol", "ethionamide", "streptomycin", "ciprofloxacin",
    "levofloxacin", "pyrazinamide", "linezolid", "rifampicin", "capreomycin"]

  /** The drugs associated with the genes of any of `hits`. */
  function AssociatedDrugs(hits: seq<Hit>): set<string>
  {
    if |hits| == 0 then {} else AssociatedDrugs(hits[..|hits| - 1]) + Elements(Last(hits).geneAssociatedDrugs)
  }

  lemma {:induction false} AssociatedDrugsMembers(hits: seq<Hit>, d: string)
    ensures d in AssociatedDrugs(hits) <==> exists i :: 0 <= i < |hits| && d in hits[i].geneAssociatedDrugs
  {
    if |hits| > 0 {
      var prefix := hits[..|hits| - 1];
      AssociatedDrugsMembers(prefix, d);
      if d in AssociatedDrugs(prefix) {
        var i :| 0 <= i < |prefix| && d in prefix[i].geneAssociatedDrugs;
        assert hits[i] == prefix[i];
      }
      if exists i :: 0 <= i < |hits| && d in hits[i].geneAssociatedDrugs {
        var i :| 0 <= i < |hits| && d in hits[i].geneAssociatedDrugs;
        if i < |prefix| {
          assert prefix[i] == hits[i];
        }
      }
    }
  }

  /** The drugs of `drugs` outside `resistant`, in list order. */
  function DrugsNotIn(drugs: seq<string>, resistant: set<string>): (s: seq<string>)
  {
    if |drugs| == 0 then []
    else
      var prev := DrugsNotIn(drugs[..|drugs| - 1], resistant);
      if Last(drugs) in resistant then prev else prev + [Last(drugs)]
  }

  /** The susceptible list holds exactly the listed drugs that are not resistant. */
  lemma {:induction false} DrugsNotInMembers(drugs: seq<string>, resistant: set<string>, d: string)
    ensures d in DrugsNotIn(drugs, resistant) <==> d in drugs && d !in resistant
  {
    if |drugs| > 0 {
      DrugsNotInMembers(drugs[..|drugs| - 1], resistant, d);
      assert drugs == drugs[..|drugs| - 1] + [Last(drugs)];
    }
  }

  /** The susceptible list keeps the order of the drug list, with no repeats
      when the drug list has none. */
  lemma {:induction false} DrugsNotInDistinct(drugs: seq<string>, resistant: set<string>)
    requires Distinct(drugs)
    ensures Distinct(DrugsNotIn(drugs, resistant))
  {
    if |drugs| > 0 {
      var prefix := drugs[..|drugs| - 1];
      assert Distinct(prefix);
      DrugsNotInDistinct(prefix, resistant);
      if Last(drugs) !in resistant {
        DrugsNotInMembers(prefix, resistant, Last(drugs));
      }
    }
  }

  lemma TbDrugsDistinct()
    ensures Distinct(TbDrugs)
  {
  }

  /** `p` is a profile of a report that has `dr` as its known resistance
      variants: every associated drug resistant once, and the listed drugs that
      are not resistant susceptible, in list order. */
  predicate IsTbSrProfile(dr: seq<Hit>, p: Profile)
  {
    && p.SrProfile?
    && Elements(p.resistant) == AssociatedDrugs(dr) && Distinct(p.resistant)
    && p.susceptible == DrugsNotIn(TbDrugs, AssociatedDrugs(dr))
  }

  /** The lists of a profile are disjoint, and together cover the fixed drugs. */
  lemma TbSrProfileDisjoint(dr: seq<Hit>, p: Profile, d: string)
    requires IsTbSrProfile(dr, p)
    ensures !(d in p.susceptible && d in p.resistant)
    ensures d in TbDrugs ==> d in p.susceptible || d in p.resistant
  {
    DrugsNotInMembers(TbDrugs, AssociatedDrugs(dr), d);
    assert d in p.resistant <==> d in Elements(p.resistant);
  }

  method GetTbProfilerAmrSrProfile(report: Report) returns (r: Result<Profile, Failure>)
    ensures IsEmptyReport(report) ==> r == Ok(NoProfile)
    ensures !IsEmptyReport(report) && report.drVariants.None? ==> r == Err(KeyError("dr_variants"))
    ensures !IsEmptyReport(report) && report.drVariants.Some? ==> r.Ok? && IsTbSrProfile(report.drVariants.value, r.value)
  {
    var resistant: set<string> := {};
    if IsEmptyReport(report) {
      return Ok(NoProfile);
    }
    if report.drVariants.None? {
      return Err(KeyError("dr_variants"));
    }
    var hits := report.drVariants.value;
    for i := 0 to |hits|
      invariant resistant == AssociatedDrugs(hits[..i])
    {
      assert hits[..i + 1][..i] == hits[..i];
      var drugs := hits[i].geneAssociatedDrugs;
      for j := 0 to |drugs|
        invariant resistant == AssociatedDrugs(hits[..i]) + Elements(drugs[..j])
      {
        assert Elements(drugs[..j + 1]) == Elements(drugs[..j]) + {drugs[j]} by {
          assert drugs[..j + 1] == drugs[..j] + [drugs[j]];
        }
        resistant := resistant + {drugs[j]};
      }
      assert drugs[..|drugs|] == drugs;
    }
    assert hits[..|hits|] == hits;
    var susceptible := DrugsNotIn(TbDrugs, resistant);
    var resistantList := ListOfSet(resistant);
    return Ok(SrProfile(susceptible, resistantList));
  }

  // ---------------------------------------------------------------------------
  // Variant caller (the last "variant calling" step of the pipeline)

  predicate IsVariantCalling(step: PipelineStep)
  {
    Lower(step.analysis) == "variant calling"
  }

  function VariantCallerOf(steps: seq<PipelineStep>): Option<string>
  {
    if |steps| == 0 then None
    else if IsVariantCalling(Last(steps)) then Some(Last(steps).program)
    else VariantCallerOf(steps[..|steps| - 1])
  }

  /** The caller is the program of the last variant-calling step, and there is
      none exactly when no step is variant calling. */
  lemma {:induction false} VariantCallerIsLast(steps: seq<PipelineStep>)
    ensures VariantCallerOf(steps).None? <==> forall i :: 0 <= i < |steps| ==> !IsVariantCalling(steps[i])
    ensures VariantCallerOf(steps).Some? ==>
              exists i :: 0 <= i < |steps| && IsVariantCalling(steps[i])
                && steps[i].program == VariantCallerOf(steps).value
                && forall j :: i < j < |steps| ==> !IsVariantCalling(steps[j])
  {
    if |steps| > 0 && !IsVariantCalling(Last(steps)) {
      var prefix := steps[..|steps| - 1];
      VariantCallerIsLast(prefix);
      assert forall i :: 0 <= i < |prefix| ==> prefix[i] == steps[i];
      if VariantCallerOf(prefix).Some? {
        var i :| 0 <= i < |prefix| && IsVariantCalling(prefix[i])
          && prefix[i].program == VariantCallerOf(prefix).value
          && forall j :: i < j < |prefix| ==> !IsVariantCalling(prefix[j]);
        assert IsVariantCalling(steps[i]) && steps[i].program == VariantCallerOf(steps).value;
      }
    } else if |steps| > 0 {
      assert IsVariantCalling(steps[|steps| - 1]);
    }
  }

  method GetVariantCaller(steps: seq<PipelineStep>) returns (caller: Option<string>)
    ensures caller == VariantCallerOf(steps)
  {
    caller := None;
    for i := 0 to |steps|
      invariant caller == VariantCallerOf(steps[..i])
    {
      assert steps[..i + 1][..i] == steps[..i];
      if Lower(steps[i].analysis) == "variant calling" {
        caller := Some(steps[i].program);
      }
    }
    assert steps[..|steps|] == steps;
  }

  // ---------------------------------------------------------------------------
  // Drug information (`parse_drug_resistance_info`)

  /** Every drug is an AMR phenotype, whatever its type and what it confers. */
  function DrugPhenotype(d: DrugInfo): PhenotypeInfo
  {
    PhenotypeInfo(
      name := d.drug,
      group := None,
      kind := ElementType.AMR,
      reference := if d.literature.None? then [] else [d.literature.value],
      note := d.whoConfidence)
  }

  function DrugPhenotypes(drugs: seq<DrugInfo>): (ps: seq<PhenotypeInfo>)
    ensures |ps| == |drugs|
    ensures forall i :: 0 <= i < |drugs| ==>
              && ps[i].name == drugs[i].drug
              && ps[i].kind == ElementType.AMR
              && ps[i].group.None?
              && ps[i].note == drugs[i].whoConfidence
              && (ps[i].reference == [] <==> drugs[i].literature.None?)
              && (drugs[i].literature.Some? ==> ps[i].reference == [drugs[i].literature.value])
  {
    seq(|drugs|, i requires 0 <= i < |drugs| => DrugPhenotype(drugs[i]))
  }

  method ParseDrugResistanceInfo(drugs: seq<DrugInfo>) returns (phenotypes: seq<PhenotypeInfo>)
    ensures phenotypes == DrugPhenotypes(drugs)
  {
    phenotypes := [];
    for i := 0 to |drugs|
      invariant phenotypes == DrugPhenotypes(drugs[..i])
    {
      var drug := drugs[i];
      var drugType := ElementType.AMR;
      if drug.drugType == "drug" && drug.confers == "resistance" {
        drugType := ElementType.AMR;
      }
      var reference := drug.literature;
      phenotypes := phenotypes + [PhenotypeInfo(
        name := drug.drug,
        group := None,
        kind := drugType,
        reference := if reference.None? then [] else [reference.value],
        note := drug.whoConfidence)];
    }
    assert drugs[..|drugs|] == drugs;
  }

  // ---------------------------------------------------------------------------
  // Variants of the three partitions (`_parse_tbprofiler_amr_variants`)

  /** The sub-type of a change, from the lengths of its alleles. */
  function SubtypeOf(refNt: string, altNt: string): (t: VariantSubType)
    ensures t == VariantSubType.SUBSTITUTION <==> |refNt| == |altNt|
    ensures t == VariantSubType.DELETION <==> |refNt| > |altNt|
    ensures t == VariantSubType.INSERTION <==> |refNt| < |altNt|
  {
    if |refNt| == |altNt| then VariantSubType.SUBSTITUTION
    else if |refNt| > |altNt| then VariantSubType.DELETION
    else VariantSubType.INSERTION
  }

  /** The variant of one hit, with its id, its QC flag and the report's caller. */
  function ToVariant(hit: Hit, id: nat, passedQc: bool, caller: Option<string>): (v: TbProfilerVariant)
    ensures v.id == id && v.passedQc == passedQc && v.predictionMethod == caller
    ensures v.variantType == VariantType.SNV && v.variantSubtype == SubtypeOf(hit.refNt, hit.altNt)
    ensures v.referenceSequence == hit.gene && v.start == hit.genomePos && v.end == v.start + |v.altNt|
    ensures v.refNt == hit.refNt && v.altNt == hit.altNt && v.phenotypes == DrugPhenotypes(hit.drugs)
  {
    TbProfilerVariant(
      id := id,
      variantType := VariantType.SNV,
      variantSubtype := SubtypeOf(hit.refNt, hit.altNt),
      phenotypes := DrugPhenotypes(hit.drugs),
      referenceSequence := hit.gene,
      accession := hit.featureId,
      start := hit.genomePos,
      end := hit.genomePos + |hit.altNt|,
      refNt := hit.refNt,
      altNt := hit.altNt,
      variantEffect := hit.effect,
      hgvsNtChange := hit.nucleotideChange,
      hgvsAaChange := hit.proteinChange,
      depth := hit.depth,
      frequency := hit.freq,
      predictionMethod := caller,
      passedQc := passedQc)
  }

  const PartitionNames: seq<string> := ["dr_variants", "other_variants", "qc_fail_variants"]

  /** The hits of a named partition; an absent partition has none. */
  function HitsOf(report: Report, name: string): seq<Hit>
  {
    var p :=
      if name == "dr_variants" then report.drVariants
      else if name == "other_variants" then report.otherVariants
      else if name == "qc_fail_variants" then report.qcFailVariants
      else None;
    if p.Some? then p.value else []
  }

  function Tag(hits: seq<Hit>, passedQc: bool): (ts: seq<(Hit, bool)>)
    ensures |ts| == |hits| && forall i :: 0 <= i < |hits| ==> ts[i] == (hits[i], passedQc)
  {
    seq(|hits|, i requires 0 <= i < |hits| => (hits[i], passedQc))
  }

  /** The hits of the named partitions in order, each with its QC flag: only
      the failed-QC partition is flagged as failing. */
  function Tagged(report: Report, names: seq<string>): seq<(Hit, bool)>
  {
    if |names| == 0 then []
    else Tagged(report, names[..|names| - 1]) + Tag(HitsOf(report, Last(names)), Last(names) != "qc_fail_variants")
  }

  /** The hits of the whole report, numbered from 1 in partition order. */
  function Numbered(ts: seq<(Hit, bool)>, caller: Option<string>): (vs: seq<TbProfilerVariant>)
    ensures |vs| == |ts| && forall i :: 0 <= i < |ts| ==> vs[i] == ToVariant(ts[i].0, i + 1, ts[i].1, caller)
  {
    seq(|ts|, i requires 0 <= i < |ts| => ToVariant(ts[i].0, i + 1, ts[i].1, caller))
  }

  /** The variants in collection order (before sorting). */
  function Collected(report: Report, caller: Option<string>): seq<TbProfilerVariant>
  {
    Numbered(Tagged(report, PartitionNames), caller)
  }

  lemma TaggedPartitions(report: Report)
    ensures Tagged(report, PartitionNames)
      == Tag(HitsOf(report, "dr_variants"), true) + Tag(HitsOf(report, "other_variants"), true)
         + Tag(HitsOf(report, "qc_fail_variants"), false)
  {
    var two := PartitionNames[..2];
    var one := two[..1];
    assert two == ["dr_variants", "other_variants"] && one == ["dr_variants"] && one[..0] == [];
    assert Tagged(report, one) == Tag(HitsOf(report, "dr_variants"), true);
    assert Tagged(report, two) == Tagged(report, one) + Tag(HitsOf(report, "other_variants"), true);
    assert Tagged(report, PartitionNames) == Tagged(report, two) + Tag(HitsOf(report, "qc_fail_variants"), false);
  }

  /** Ids run 1, 2, 3, ... in collection order, and exactly the hits of the
      failed-QC partition are flagged as not passing QC. */
  lemma CollectedIdsAndQc(report: Report, caller: Option<string>)
    ensures var vs := Collected(report, caller);
      var passing := |HitsOf(report, "dr_variants")| + |HitsOf(report, "other_variants")|;
      && |vs| == passing + |HitsOf(report, "qc_fail_variants")|
      && forall i :: 0 <= i < |vs| ==> vs[i].id == i + 1 && (vs[i].passedQc <==> i < passing)
  {
    TaggedPartitions(report);
  }

  // ---------------------------------------------------------------------------
  // Stable sort by (reference sequence, start)

  /** Python's ordering of the key tuples (reference_sequence, start). */
  predicate LocationLess(a: TbProfilerVariant, b: TbProfilerVariant)
  {
    LexLess(a.referenceSequence, b.referenceSequence)
    || (a.referenceSequence == b.referenceSequence && a.start < b.start)
  }

  predicate SameLocation(a: TbProfilerVariant, b: TbProfilerVariant)
  {
    a.referenceSequence == b.referenceSequence && a.start == b.start
  }

  predicate SortedByLocation(vs: seq<TbProfilerVariant>)
  {
    forall i, j :: 0 <= i < j < |vs| ==> !LocationLess(vs[j], vs[i])
  }

  /** `a` comes before `b` in a stable sort of variants collected in id order. */
  predicate Before(a: TbProfilerVariant, b: TbProfilerVariant)
  {
    LocationLess(a, b) || (SameLocation(a, b) && a.id < b.id)
  }

  /** Sorted by location, and among variants at the same location the ids ascend. */
  predicate StablySorted(vs: seq<TbProfilerVariant>)
  {
    forall i, j :: 0 <= i < j < |vs| ==> Before(vs[i], vs[j])
  }

  predicate IdsAscending(vs: seq<TbProfilerVariant>)
  {
    forall i, j :: 0 <= i < j < |vs| ==> vs[i].id < vs[j].id
  }

  lemma LocationLessTransitive(a: TbProfilerVariant, b: TbProfilerVariant, c: TbProfilerVariant)
    requires LocationLess(a, b) && LocationLess(b, c)
    ensures LocationLess(a, c)
  {
    if LexLess(a.referenceSequence, b.referenceSequence) && LexLess(b.referenceSequence, c.referenceSequence) {
      LexTransitive(a.referenceSequence, b.referenceSequence, c.referenceSequence);
    }
  }

  lemma LocationTrichotomy(a: TbProfilerVariant, b: TbProfilerVariant)
    ensures LocationLess(a, b) || LocationLess(b, a) || SameLocation(a, b)
    ensures !(LocationLess(a, b) && LocationLess(b, a))
    ensures SameLocation(a, b) ==> !LocationLess(a, b)
  {
    LexTotal(a.referenceSequence, b.referenceSequence);
    LexIrreflexive(a.referenceSequence);
    if LexLess(a.referenceSequence, b.referenceSequence) {
      LexAsymmetric(a.referenceSequence, b.referenceSequence);
    }
  }

  /** Places `v` after every element whose location is not after its own. */
  function InsertByLocation(sorted: seq<TbProfilerVariant>, v: TbProfilerVariant): seq<TbProfilerVariant>
  {
    if |sorted| == 0 then [v]
    else if LocationLess(v, Last(sorted)) then InsertByLocation(sorted[..|sorted| - 1], v) + [Last(sorted)]
    else sorted + [v]
  }

  /** Python's `sorted` with the location key: an insertion sort that keeps
      the input order among equal keys. */
  function SortByLocation(vs: seq<TbProfilerVariant>): seq<TbProfilerVariant>
  {
    if |vs| == 0 then [] else InsertByLocation(SortByLocation(vs[..|vs| - 1]), Last(vs))
  }

  lemma {:induction false} InsertByLocationPermutes(sorted: seq<TbProfilerVariant>, v: TbProfilerVariant)
    ensures multiset(InsertByLocation(sorted, v)) == multiset(sorted) + multiset{v}
  {
    if |sorted| > 0 && LocationLess(v, Last(sorted)) {
      var prefix := sorted[..|sorted| - 1];
      InsertByLocationPermutes(prefix, v);
      assert sorted == prefix + [Last(sorted)];
    }
  }

  /** The sort is a permutation of its input. */
  lemma {:induction false} SortByLocationPermutes(vs: seq<TbProfilerVariant>)
    ensures multiset(SortByLocation(vs)) == multiset(vs)
  {
    if |vs| > 0 {
      var prefix := vs[..|vs| - 1];
      SortByLocationPermutes(prefix);
      InsertByLocationPermutes(SortByLocation(prefix), Last(vs));
      assert vs == prefix + [Last(vs)];
    }
  }

  lemma StablySortedSnoc(vs: seq<TbProfilerVariant>, x: TbProfilerVariant)
    requires StablySorted(vs)
    requires forall i :: 0 <= i < |vs| ==> Before(vs[i], x)
    ensures StablySorted(vs + [x])
  {
    var out := vs + [x];
    forall i, j | 0 <= i < j < |out|
      ensures Before(out[i], out[j])
    {
      if j < |vs| {
        assert out[i] == vs[i] && out[j] == vs[j];
      } else {
        assert out[i] == vs[i] && out[j] == x;
      }
    }
  }

  lemma BeforeTransitive(a: TbProfilerVariant, b: TbProfilerVariant, c: TbProfilerVariant)
    requires Before(a, b) && Before(b, c)
    ensures Before(a, c)
  {
    if LocationLess(a, b) && LocationLess(b, c) {
      LocationLessTransitive(a, b, c);
    }
  }

  /** With `v` not before the last element, every element is before `v`. */
  lemma AppendAfterLast(sorted: seq<TbProfilerVariant>, v: TbProfilerVariant)
    requires StablySorted(sorted) && |sorted| > 0
    requires forall i :: 0 <= i < |sorted| ==> sorted[i].id < v.id
    requires !LocationLess(v, Last(sorted))
    ensures forall i :: 0 <= i < |sorted| ==> Before(sorted[i], v)
  {
    var last := Last(sorted);
    LocationTrichotomy(v, last);
    assert Before(last, v);
    forall i | 0 <= i < |sorted|
      ensures Before(sorted[i], v)
    {
      if i < |sorted| - 1 {
        LocationTrichotomy(sorted[i], v);
        BeforeTransitive(sorted[i], last, v);
      }
    }
  }

  lemma {:induction false} InsertByLocationStable(sorted: seq<TbProfilerVariant>, v: TbProfilerVariant)
    requires StablySorted(sorted)
    requires forall i :: 0 <= i < |sorted| ==> sorted[i].id < v.id
    ensures StablySorted(InsertByLocation(sorted, v))
  {
    if |sorted| == 0 {
      return;
    }
    var n := |sorted| - 1;
    var last := sorted[n];
    var prefix := sorted[..n];
    if LocationLess(v, last) {
      assert StablySorted(prefix);
      InsertByLocationStable(prefix, v);
      var ins := InsertByLocation(prefix, v);
      InsertByLocationPermutes(prefix, v);
      forall i | 0 <= i < |ins|
        ensures Before(ins[i], last)
      {
        assert ins[i] in multiset(ins);
        if ins[i] != v {
          assert ins[i] in multiset(prefix);
          var k :| 0 <= k < |prefix| && prefix[k] == ins[i];
          assert sorted[k] == ins[i];
        }
      }
      StablySortedSnoc(ins, last);
    } else {
      AppendAfterLast(sorted, v);
      StablySortedSnoc(sorted, v);
    }
  }

  lemma {:induction false} SortByLocationElements(vs: seq<TbProfilerVariant>, x: TbProfilerVariant)
    ensures x in SortByLocation(vs) <==> x in vs
  {
    SortByLocationPermutes(vs);
    assert x in SortByLocation(vs) <==> x in multiset(SortByLocation(vs));
    assert x in vs <==> x in multiset(vs);
  }

  /** Sorting variants collected with ascending ids keeps the collection order
      among variants at the same location. */
  lemma {:induction false} SortByLocationStable(vs: seq<TbProfilerVariant>)
    requires IdsAscending(vs)
    ensures StablySorted(SortByLocation(vs))
  {
    if |vs| > 0 {
      var prefix := vs[..|vs| - 1];
      assert IdsAscending(prefix);
      SortByLocationStable(prefix);
      var s := SortByLocation(prefix);
      forall i | 0 <= i < |s|
        ensures s[i].id < Last(vs).id
      {
        SortByLocationElements(prefix, s[i]);
        var k :| 0 <= k < |prefix| && prefix[k] == s[i];
        assert vs[k] == s[i];
      }
      InsertByLocationStable(s, Last(vs));
    }
  }

  lemma StablySortedIsSorted(vs: seq<TbProfilerVariant>)
    requires StablySorted(vs)
    ensures SortedByLocation(vs)
  {
    forall i, j | 0 <= i < j < |vs|
      ensures !LocationLess(vs[j], vs[i])
    {
      LocationTrichotomy(vs[i], vs[j]);
    }
  }

  /** The decoded variants: the collected variants sorted stably by location. */
  predicate IsSortedCollection(report: Report, caller: Option<string>, vs: seq<TbProfilerVariant>)
  {
    vs == SortByLocation(Collected(report, caller))
  }

  /** What the sorted collection promises: a stably sorted permutation of the
      collected variants. */
  lemma SortedCollectionProperties(report: Report, caller: Option<string>)
    ensures var vs := SortByLocation(Collected(report, caller));
      && multiset(vs) == multiset(Collected(report, caller))
      && SortedByLocation(vs) && StablySorted(vs)
  {
    var c := Collected(report, caller);
    CollectedIdsAndQc(report, caller);
    assert IdsAscending(c);
    SortByLocationPermutes(c);
    SortByLocationStable(c);
    StablySortedIsSorted(SortByLocation(c));
  }

  lemma NumberedAppend(ts: seq<(Hit, bool)>, t: (Hit, bool), caller: Option<string>)
    ensures Numbered(ts + [t], caller) == Numbered(ts, caller) + [ToVariant(t.0, |ts| + 1, t.1, caller)]
  {
    assert (ts + [t])[|ts|] == t;
  }

  /** The inner loop over one partition: each hit becomes the next numbered
      variant, carrying the partition's QC flag. */
  method DecodePartition(hits: seq<Hit>, passedQc: bool, caller: Option<string>,
                         ghost done: seq<(Hit, bool)>, results: seq<TbProfilerVariant>, varId: nat)
    returns (results': seq<TbProfilerVariant>, varId': nat)
    requires results == Numbered(done, caller) && varId == |results| + 1
    ensures results' == Numbered(done + Tag(hits, passedQc), caller) && varId' == |results'| + 1
  {
    results', varId' := results, varId;
    for j := 0 to |hits|
      invariant results' == Numbered(done + Tag(hits[..j], passedQc), caller)
      invariant varId' == |results'| + 1
    {
      var hit := hits[j];
      var phenotypes := ParseDrugResistanceInfo(hit.drugs);
      var startPos := hit.genomePos;
      var variant := TbProfilerVariant(
        id := varId',
        variantType := VariantType.SNV,
        variantSubtype := SubtypeOf(hit.refNt, hit.altNt),
        phenotypes := phenotypes,
        referenceSequence := hit.gene,
        accession := hit.featureId,
        start := startPos,
        end := startPos + |hit.altNt|,
        refNt := hit.refNt,
        altNt := hit.altNt,
        variantEffect := hit.effect,
        hgvsNtChange := hit.nucleotideChange,
        hgvsAaChange := hit.proteinChange,
        depth := hit.depth,
        frequency := hit.freq,
        predictionMethod := caller,
        passedQc := passedQc);
      assert variant == ToVariant(hit, varId', passedQc, caller);
      assert Tag(hits[..j + 1], passedQc) == Tag(hits[..j], passedQc) + [(hit, passedQc)];
      assert done + Tag(hits[..j + 1], passedQc) == (done + Tag(hits[..j], passedQc)) + [(hit, passedQc)];
      NumberedAppend(done + Tag(hits[..j], passedQc), (hit, passedQc), caller);
      varId' := varId' + 1;
      results' := results' + [variant];
    }
    assert hits[..|hits|] == hits;
  }

  /** The variants of the three partitions, numbered from 1, flagged by partition
      and sorted stably by location; a report without a pipeline fails. */
  method ParseTbProfilerAmrVariants(report: Report) returns (r: Result<seq<TbProfilerVariant>, Failure>)
    ensures report.pipeline.None? <==> r.Err?
    ensures r.Err? ==> r.error == KeyError("pipeline")
    ensures r.Ok? ==> r.value == SortByLocation(Collected(report, VariantCallerOf(report.pipeline.value)))
  {
    if report.pipeline.None? {
      return Err(KeyError("pipeline"));
    }
    var caller := GetVariantCaller(report.pipeline.value);
    var results: seq<TbProfilerVariant> := [];
    var varId := 1;
    for k := 0 to |PartitionNames|
      invariant results == Numbered(Tagged(report, PartitionNames[..k]), caller)
      invariant varId == |results| + 1
    {
      var resultType := PartitionNames[k];
      var passedQc := resultType != "qc_fail_variants";
      assert PartitionNames[..k + 1][..k] == PartitionNames[..k];
      results, varId := DecodePartition(HitsOf(report, resultType), passedQc, caller,
                                        Tagged(report, PartitionNames[..k]), results, varId);
    }
    assert PartitionNames[..|PartitionNames|] == PartitionNames;
    return Ok(SortByLocation(results));
  }

  // ---------------------------------------------------------------------------
  // Element-type result (`parse_tbprofiler_amr_pred`)

  function TbProfilerCalls(vs: seq<TbProfilerVariant>): (calls: seq<Variant>)
    ensures |calls| == |vs| && forall i :: 0 <= i < |vs| ==> calls[i] == TbProfilerCall(vs[i])
  {
    seq(|vs|, i requires 0 <= i < |vs| => TbProfilerCall(vs[i]))
  }

  /** Always a TB-Profiler result for `category`, even when it holds nothing;
      the profile is decoded first, so its failure comes first. */
  method ParseTbProfilerAmrPred(report: Report, category: ElementType) returns (r: Result<ElementTypeMethod, Failure>)
    ensures r.Ok? <==> report.pipeline.Some? && (IsEmptyReport(report) || report.drVariants.Some?)
    ensures !IsEmptyReport(report) && report.drVariants.None? ==> r == Err(KeyError("dr_variants"))
    ensures report.pipeline.None? && (IsEmptyReport(report) || report.drVariants.Some?) ==> r == Err(KeyError("pipeline"))
    ensures r.Ok? ==>
              && r.value.category == category && r.value.software == TBPROFILER
              && r.value.result.genes == []
              && IsTbSrProfile(report.drVariants.value, r.value.result.phenotypes)
              && r.value.result.variants
                 == TbProfilerCalls(SortByLocation(Collected(report, VariantCallerOf(report.pipeline.value))))
  {
    var profile :- GetTbProfilerAmrSrProfile(report);
    var variants :- ParseTbProfilerAmrVariants(report);
    return Ok(ElementTypeMethod(category, TBPROFILER, ElementTypeResult(profile, [], TbProfilerCalls(variants))));
  }
}
