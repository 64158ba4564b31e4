/** Normalisation of VCF records: the variant-type tag, the pass-QC rule over
    the FILTER column, the variant caller named by the `##source=` header line,
    and the loading of all records of a file. */
module VcfVariants {
  import opened Common
  import opened Phenotype

  /** One VCF record as the VCF reader presents it: the reader's type and
      sub-type tags, CHROM, the 0-based start and the end, REF, the ALT alleles,
      the FILTER entries that failed (or "PASS"), the INFO entries and QUAL. */
  datatype VcfRecord = VcfRecord(
    varType: string,
    varSubtype: string,
    chrom: string,
    start: int,
    end: int,
    refNt: string,
    alt: seq<string>,
    filters: seq<string>,
    info: map<string, string>,
    qual: Option<Number>)

  // ---------------------------------------------------------------------------
  // Variant type (`_get_variant_type`)

  /** "snp" and "mnp" name SNV and MNV; any other tag must be the value of a
      member once upper-cased, or the lookup fails. */
  function GetVariantType(tag: string): (r: Result<VariantType, Failure>)
    ensures tag == "snp" ==> r == Ok(VariantType.SNV)
    ensures tag == "mnp" ==> r == Ok(VariantType.MNV)
    ensures tag != "snp" && tag != "mnp" ==>
              (r.Ok? <==> Upper(tag) in VariantTypeValues)
              && (r.Ok? ==> VariantTypeValue(r.value) == Upper(tag))
              && (r.Err? ==> r.error == ValueError(Upper(tag)))
  {
    if tag == "snp" then Ok(VariantType.SNV)
    else if tag == "mnp" then Ok(VariantType.MNV)
    else
      match VariantTypeFromValue(Upper(tag))
      case Some(t) => Ok(t)
      case None => Err(ValueError(Upper(tag)))
  }

  /** Only SNV and MNV can come out of a record: the other members' values are
      lower-case, which an upper-cased tag never is. */
  lemma VcfVariantTypes(tag: string)
    requires GetVariantType(tag).Ok?
    ensures GetVariantType(tag).value in {VariantType.SNV, VariantType.MNV}
  {
    if tag != "snp" && tag != "mnp" {
      var u := Upper(tag);
      UpperHasNoLower(tag);
      assert |u| > 0 && !IsLowerChar(u[0]);
    }
  }

  /** The reader's "indel" tag names no member, so its record fails to decode. */
  lemma IndelTagFails()
    ensures GetVariantType("indel") == Err(ValueError("INDEL"))
  {
    assert Upper("indel") == "INDEL";
  }

  // ---------------------------------------------------------------------------
  // Pass-QC rule (section 1.6.1 of the VCF v4.3 specification, FILTER column)

  /** Unknown when no filter was applied, passed when "PASS" is among the
      entries, failed when the entries name failed filters only. */
  function PassedQc(filters: seq<string>): (qc: Option<bool>)
    ensures qc.None? <==> |filters| == 0
    ensures qc == Some(true) <==> "PASS" in filters
    ensures qc == Some(false) <==> |filters| > 0 && "PASS" !in filters
  {
    if |filters| == 0 then None
    else if "PASS" in filters then Some(true)
    else Some(false)
  }

  // ---------------------------------------------------------------------------
  // Variant caller (`_get_variant_caller`, the pattern `##source=(.+)\n`)

  const SourcePrefix: string := "##source="

  /** The number of characters from `i` on before the next newline or the end. */
  function LineLength(s: string, i: nat): (k: nat)
    requires i <= |s|
    ensures i + k <= |s| && NotIn('\n', s[i..i + k]) && (i + k == |s| || s[i + k] == '\n')
    decreases |s| - i
  {
    if i == |s| || s[i] == '\n' then 0
    else
      var k := 1 + LineLength(s, i + 1);
      assert s[i..i + k] == [s[i]] + s[i + 1..i + k];
      k
  }

  /** The pattern matches at `p`: the prefix, at least one character other than
      a newline, then a newline. */
  predicate SourceMatchAt(s: string, p: nat)
  {
    && OccursAt(s, SourcePrefix, p)
    && var k := LineLength(s, p + |SourcePrefix|);
       k >= 1 && p + |SourcePrefix| + k < |s|
  }

  /** The leftmost match at or after `from`. */
  function FindSource(s: string, from: nat): (m: Option<nat>)
    ensures m.Some? ==> from <= m.value && SourceMatchAt(s, m.value)
    ensures m.Some? ==> forall q :: from <= q < m.value ==> !SourceMatchAt(s, q)
    ensures m.None? ==> forall q :: from <= q ==> !SourceMatchAt(s, q)
    decreases |s| - from
  {
    if from + |SourcePrefix| > |s| then None
    else if SourceMatchAt(s, from) then Some(from)
    else FindSource(s, from + 1)
  }

  /** The first group of the leftmost match in the raw header, if any. */
  function GetVariantCaller(header: string): (caller: Option<string>)
    ensures caller.None? <==> forall q: nat :: !SourceMatchAt(header, q)
    ensures caller.Some? ==>
              exists p: nat :: SourceMatchAt(header, p)
                && (forall q: nat :: q < p ==> !SourceMatchAt(header, q))
                && caller.value == header[p + |SourcePrefix|..p + |SourcePrefix| + LineLength(header, p + |SourcePrefix|)]
  {
    match FindSource(header, 0)
    case None => None
    case Some(p) =>
      var start := p + |SourcePrefix|;
      Some(header[start..start + LineLength(header, start)])
  }

  /** The caller is a non-empty line of the header: the header holds
      "##source=", the caller and a newline, in a row. */
  lemma CallerIsOneLine(header: string)
    requires GetVariantCaller(header).Some?
    ensures var c := GetVariantCaller(header).value;
      |c| >= 1 && NotIn('\n', c) && exists p: nat :: OccursAt(header, SourcePrefix + c + "\n", p)
  {
    var p := FindSource(header, 0).value;
    var start := p + |SourcePrefix|;
    var k := LineLength(header, start);
    var c := header[start..start + k];
    assert header[p..start + k + 1] == SourcePrefix + c + "\n" by {
      assert header[p..start] == SourcePrefix;
      assert header[start + k] == '\n';
      assert header[p..start + k + 1] == header[p..start] + header[start..start + k] + [header[start + k]];
    }
    assert OccursAt(header, SourcePrefix + c + "\n", p);
  }

  lemma CallerExample()
    ensures GetVariantCaller("##source=delly\n") == Some("delly")
  {
    var s := "##source=delly\n";
    assert s[..9] == SourcePrefix;
    assert s[9..14] == "delly";
    assert LineLength(s, 14) == 0;
    assert LineLength(s, 13) == 1;
    assert LineLength(s, 12) == 2;
    assert LineLength(s, 11) == 3;
    assert LineLength(s, 10) == 4;
    assert LineLength(s, 9) == 5;
    assert SourceMatchAt(s, 0);
  }

  // ---------------------------------------------------------------------------
  // One record (`parse_variant`) and a whole file (`load_variants`)

  /** The variant of one record: gene symbol from CHROM, the first ALT allele,
      the record's SVMETHOD entry or else the file's caller as the method. */
  function ParseVariant(rec: VcfRecord, caller: Option<string>): (r: Result<VcfVariant, Failure>)
    ensures r.Ok? <==> GetVariantType(rec.varType).Ok? && |rec.alt| >= 1
    ensures r.Ok? ==>
              && r.value.variantType == GetVariantType(rec.varType).value
              && r.value.geneSymbol == rec.chrom && r.value.altNt == rec.alt[0]
              && r.value.start == rec.start && r.value.end == rec.end && r.value.refNt == rec.refNt
              && r.value.variantSubtype == Upper(rec.varSubtype)
              && r.value.passedQc == PassedQc(rec.filters)
              && r.value.confidence == rec.qual
              && r.value.predictionMethod == if "SVMETHOD" in rec.info then Some(rec.info["SVMETHOD"]) else caller
  {
    var passedQc := PassedQc(rec.filters);
    var varType :- GetVariantType(rec.varType);
    if |rec.alt| == 0 then Err(IndexError)
    else
      Ok(VcfVariant(
        variantType := varType,
        variantSubtype := Upper(rec.varSubtype),
        geneSymbol := rec.chrom,
        start := rec.start,
        end := rec.end,
        refNt := rec.refNt,
        altNt := rec.alt[0],
        predictionMethod := if "SVMETHOD" in rec.info then Some(rec.info["SVMETHOD"]) else caller,
        confidence := rec.qual,
        passedQc := passedQc))
  }

  /** The record parser for a given file caller. */
  function Parser(caller: Option<string>): VcfRecord -> Result<VcfVariant, Failure>
  {
    rec => ParseVariant(rec, caller)
  }

  /** No variants for a file without records; otherwise one variant per record,
      in file order, each with the caller of the file's header. */
  method LoadVariants(records: seq<VcfRecord>, header: string) returns (r: Result<Option<seq<VcfVariant>>, Failure>)
    ensures records == [] ==> r == Ok(None)
    ensures records != [] ==>
              var all := MapResult(records, Parser(GetVariantCaller(header)));
              && (r.Ok? <==> all.Ok?)
              && (r.Ok? ==> r.value == Some(all.value))
              && (r.Err? ==> r.error == all.error)
  {
    if records == [] {
      return Ok(None);
    }
    var caller := GetVariantCaller(header);
    var variants: seq<VcfVariant> := [];
    for i := 0 to |records|
      invariant MapResult(records[..i], Parser(caller)) == Ok(variants)
    {
      assert records[..i + 1] == records[..i] + [records[i]];
      MapResultAppend(records[..i], records[i], Parser(caller));
      var v := ParseVariant(records[i], caller);
      if v.Err? {
        assert records == records[..i + 1] + records[i + 1..];
        MapResultPrefixFailure(records[..i + 1], records[i + 1..], Parser(caller));
        return Err(v.error);
      }
      variants := variants + [v.value];
    }
    assert records[..|records|] == records;
    return Ok(Some(variants));
  }

  /** A loaded file holds one variant per record, in order: CHROM as gene
      symbol, the first ALT allele and the pass-QC rule. */
  lemma LoadedVariantsPerRecord(records: seq<VcfRecord>, caller: Option<string>)
    requires MapResult(records, Parser(caller)).Ok?
    ensures var vs := MapResult(records, Parser(caller)).value;
      && |vs| == |records|
      && forall i :: 0 <= i < |records| ==>
           && |records[i].alt| >= 1
           && vs[i].geneSymbol == records[i].chrom && vs[i].altNt == records[i].alt[0]
           && vs[i].passedQc == PassedQc(records[i].filters)
           && vs[i].variantType in {VariantType.SNV, VariantType.MNV}
  {
    MapResultValues(records, Parser(caller));
    forall i | 0 <= i < |records|
      ensures MapResult(records, Parser(caller)).value[i].variantType in {VariantType.SNV, VariantType.MNV}
    {
      assert ParseVariant(records[i], caller).Ok?;
      VcfVariantTypes(records[i].varType);
    }
  }
}
