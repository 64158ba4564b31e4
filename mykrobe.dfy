/** The Mykrobe decoder: the susceptible/resistant profile, the mutation notation
    ("GCG7569GTG"), one variant per resistant row, and the element-type result,
    which is dropped when it holds nothing. */
module Mykrobe {
  import opened Common
  import opened Phenotype
  import opened ParseUtils

  /** A cell of the loaded Mykrobe table: text, `None`, or a value of another type
      (a number) on which string methods raise `AttributeError`. */
  datatype Cell = Text(text: string) | NoneCell | OtherCell

  /** One row of the Mykrobe table; `variants` and `genes` are its fourth and
      fifth columns. */
  datatype MykrobeRow = MykrobeRow(
    sample: string,
    drug: string,
    susceptibility: string,
    variants: Cell,
    genes: Cell,
    mykrobeVersion: string)

  predicate IsResistant(row: MykrobeRow)
  {
    Upper(row.susceptibility) == "R"
  }

  // ---------------------------------------------------------------------------
  // Susceptible/resistant profile (`_get_mykrobe_amr_sr_profie`)

  function ResistantDrugs(rows: seq<MykrobeRow>): set<string>
  {
    if |rows| == 0 then {}
    else ResistantDrugs(rows[..|rows| - 1]) + (if IsResistant(Last(rows)) then {Last(rows).drug} else {})
  }

  function SusceptibleDrugs(rows: seq<MykrobeRow>): set<string>
  {
    if |rows| == 0 then {}
    else SusceptibleDrugs(rows[..|rows| - 1]) + (if IsResistant(Last(rows)) then {} else {Last(rows).drug})
  }

  /** A drug is resistant exactly when some row names it with susceptibility "R",
      and susceptible exactly when some row names it with any other value. */
  lemma {:induction false} DrugSetsMembers(rows: seq<MykrobeRow>, d: string)
    ensures d in ResistantDrugs(rows) <==> exists i :: 0 <= i < |rows| && rows[i].drug == d && IsResistant(rows[i])
    ensures d in SusceptibleDrugs(rows) <==> exists i :: 0 <= i < |rows| && rows[i].drug == d && !IsResistant(rows[i])
  {
    if |rows| > 0 {
      var prefix := rows[..|rows| - 1];
      DrugSetsMembers(prefix, d);
      if d in ResistantDrugs(prefix) {
        var i :| 0 <= i < |prefix| && prefix[i].drug == d && IsResistant(prefix[i]);
        assert rows[i] == prefix[i];
      }
      if d in SusceptibleDrugs(prefix) {
        var i :| 0 <= i < |prefix| && prefix[i].drug == d && !IsResistant(prefix[i]);
        assert rows[i] == prefix[i];
      }
      if exists i :: 0 <= i < |rows| && rows[i].drug == d && IsResistant(rows[i]) {
        var i :| 0 <= i < |rows| && rows[i].drug == d && IsResistant(rows[i]);
        if i < |prefix| {
          assert prefix[i] == rows[i];
        }
      }
      if exists i :: 0 <= i < |rows| && rows[i].drug == d && !IsResistant(rows[i]) {
        var i :| 0 <= i < |rows| && rows[i].drug == d && !IsResistant(rows[i]);
        if i < |prefix| {
          assert prefix[i] == rows[i];
        }
      }
    }
  }

  /** Every row's drug lands in one of the two lists. */
  lemma {:induction false} DrugSetsCoverRows(rows: seq<MykrobeRow>)
    ensures ResistantDrugs(rows) + SusceptibleDrugs(rows) == set i | 0 <= i < |rows| :: rows[i].drug
  {
    if |rows| > 0 {
      var prefix := rows[..|rows| - 1];
      DrugSetsCoverRows(prefix);
      var all := set i | 0 <= i < |rows| :: rows[i].drug;
      var before := set i | 0 <= i < |prefix| :: prefix[i].drug;
      assert all == before + {Last(rows).drug} by {
        forall d | d in all
          ensures d in before + {Last(rows).drug}
        {
          var i :| 0 <= i < |rows| && rows[i].drug == d;
          if i < |prefix| {
            assert prefix[i] == rows[i];
          }
        }
        forall d | d in before
          ensures d in all
        {
          var i :| 0 <= i < |prefix| && prefix[i].drug == d;
          assert rows[i] == prefix[i];
        }
      }
    }
  }

  /** `p` is a profile of `rows`: the empty mapping for no rows, else each list
      holds its drug set once, in some order. */
  predicate IsSrProfile(rows: seq<MykrobeRow>, p: Profile)
  {
    && (p.NoProfile? <==> rows == [])
    && (p.SrProfile? ==>
          && Elements(p.resistant) == ResistantDrugs(rows) && Distinct(p.resistant)
          && Elements(p.susceptible) == SusceptibleDrugs(rows) && Distinct(p.susceptible))
  }

  method GetMykrobeAmrSrProfile(rows: seq<MykrobeRow>) returns (p: Profile)
    ensures IsSrProfile(rows, p)
  {
    var susceptible: set<string> := {};
    var resistant: set<string> := {};
    if rows == [] {
      return NoProfile;
    }
    for i := 0 to |rows|
      invariant resistant == ResistantDrugs(rows[..i])
      invariant susceptible == SusceptibleDrugs(rows[..i])
    {
      assert rows[..i + 1][..i] == rows[..i];
      if Upper(rows[i].susceptibility) == "R" {
        resistant := resistant + {rows[i].drug};
      } else {
        susceptible := susceptible + {rows[i].drug};
      }
    }
    assert rows[..|rows|] == rows;
    var s := ListOfSet(susceptible);
    var r := ListOfSet(resistant);
    return SrProfile(s, r);
  }

  // ---------------------------------------------------------------------------
  // Mutation notation (`get_mutation_type`)

  /** A decoded mutation: the codon before the first digit, the codon after the
      last digit, and the value of the digits between. */
  datatype Mutation = Mutation(kind: VariantType, refCodon: string, altCodon: string, position: nat)

  /** The index of the first digit of `s`, or `|s|` when there is none. */
  function FirstDigitIndex(s: string): (k: nat)
    ensures k <= |s| && NoDigits(s[..k]) && (k < |s| ==> IsDigit(s[k]))
    ensures forall i :: 0 <= i < |s| && IsDigit(s[i]) ==> k <= i
  {
    if |s| == 0 || IsDigit(s[0]) then 0
    else
      var k := 1 + FirstDigitIndex(s[1..]);
      assert s[..k] == [s[0]] + s[1..][..k - 1];
      assert forall i :: 1 <= i < |s| ==> s[1..][i - 1] == s[i];
      k
  }

  /** The index just past the last digit of `s`, or 0 when there is none. */
  function EndOfLastDigit(s: string): (k: nat)
    ensures k <= |s| && NoDigits(s[k..]) && (k > 0 ==> IsDigit(s[k - 1]))
    ensures forall i :: 0 <= i < |s| && IsDigit(s[i]) ==> i < k
  {
    if |s| == 0 || IsDigit(s[|s| - 1]) then |s|
    else
      var k := EndOfLastDigit(s[..|s| - 1]);
      assert s[k..] == s[..|s| - 1][k..] + [s[|s| - 1]];
      assert forall i :: 0 <= i < |s| - 1 ==> s[..|s| - 1][i] == s[i];
      k
  }

  lemma NoDigitsWhenNoneFound(s: string)
    requires FirstDigitIndex(s) == |s|
    ensures NoDigits(s)
  {
    assert s[..|s|] == s;
  }

  lemma DigitBoundsOrdered(s: string)
    requires FirstDigitIndex(s) < |s|
    ensures FirstDigitIndex(s) < EndOfLastDigit(s)
  {
  }

  /** The variant type of a change, from the lengths of its codons. */
  function KindOfChange(refCodon: string, altCodon: string): (t: VariantType)
    ensures t == VariantType.DELETION <==> |refCodon| > |altCodon|
    ensures t == VariantType.INSERTION <==> |refCodon| < |altCodon|
    ensures t == VariantType.SUBSTITUTION <==> |refCodon| == |altCodon|
  {
    if |refCodon| > |altCodon| then VariantType.DELETION
    else if |refCodon| < |altCodon| then VariantType.INSERTION
    else VariantType.SUBSTITUTION
  }

  /** Some non-digit lies between two digits of `s`. */
  predicate HasDigitGap(s: string)
  {
    exists a, b, c :: 0 <= a < b < c < |s| && IsDigit(s[a]) && !IsDigit(s[b]) && IsDigit(s[c])
  }

  lemma GapInsideDigitSpan(s: string, a: nat, b: nat, c: nat)
    requires a < b < c < |s| && IsDigit(s[a]) && !IsDigit(s[b]) && IsDigit(s[c])
    ensures FirstDigitIndex(s) <= a && c < EndOfLastDigit(s)
    ensures !AllDigits(s[FirstDigitIndex(s)..EndOfLastDigit(s)])
  {
    var i, j := FirstDigitIndex(s), EndOfLastDigit(s);
    assert s[i..j][b - i] == s[b];
  }

  lemma GapAt(s: string, a: nat, b: nat, c: nat)
    requires a < b < c < |s| && IsDigit(s[a]) && !IsDigit(s[b]) && IsDigit(s[c])
    ensures HasDigitGap(s)
  {
  }

  lemma DigitSpanGap(s: string)
    requires FirstDigitIndex(s) < EndOfLastDigit(s) && !AllDigits(s[FirstDigitIndex(s)..EndOfLastDigit(s)])
    ensures HasDigitGap(s)
  {
    var i, j := FirstDigitIndex(s), EndOfLastDigit(s);
    var span := s[i..j];
    var k :| 0 <= k < |span| && !IsDigit(span[k]);
    assert span[k] == s[i + k];
    assert span[0] == s[i] && span[|span| - 1] == s[j - 1];
    GapAt(s, i, i + k, j - 1);
  }

  /** The span from the first digit to the end of the last is all digits
      exactly when no non-digit lies between two digits. */
  lemma DigitSpanHasNoGap(s: string)
    requires FirstDigitIndex(s) < |s|
    ensures FirstDigitIndex(s) < EndOfLastDigit(s)
    ensures HasDigitGap(s) <==> !AllDigits(s[FirstDigitIndex(s)..EndOfLastDigit(s)])
  {
    DigitBoundsOrdered(s);
    if HasDigitGap(s) {
      var a, b, c :| 0 <= a < b < c < |s| && IsDigit(s[a]) && !IsDigit(s[b]) && IsDigit(s[c]);
      GapInsideDigitSpan(s, a, b, c);
    }
    if !AllDigits(s[FirstDigitIndex(s)..EndOfLastDigit(s)]) {
      DigitSpanGap(s);
    }
  }

  /** Decodes "<ref><digits><alt>". Text without a digit gives no mutation and
      no failure; a span between the first and last digit that is not all
      digits fails as `int` does. */
  function GetMutationType(varNom: string): (r: Result<Option<Mutation>, Failure>)
    ensures r == Ok(None) <==> NoDigits(varNom)
    ensures r.Err? <==> HasDigitGap(varNom)
    ensures r.Err? ==> r.error.ValueError?
    ensures r.Ok? && r.value.Some? ==>
              var m := r.value.value;
              && |m.refCodon| + |m.altCodon| < |varNom|
              && NoDigits(m.refCodon) && NoDigits(m.altCodon)
              && m.kind == KindOfChange(m.refCodon, m.altCodon)
              && var span := varNom[|m.refCodon|..|varNom| - |m.altCodon|];
                 && varNom == m.refCodon + span + m.altCodon
                 && IsDigit(span[0]) && IsDigit(span[|span| - 1])
                 && AllDigits(span) && m.position == ParseNat(span)
  {
    var refIdx := FirstDigitIndex(varNom);
    if refIdx == |varNom| then
      NoDigitsWhenNoneFound(varNom);
      Ok(None)
    else
      DigitSpanHasNoGap(varNom);
      var altIdx := EndOfLastDigit(varNom);
      var refCodon := varNom[..refIdx];
      var altCodon := varNom[altIdx..];
      var span := varNom[refIdx..altIdx];
      if !AllDigits(span) then Err(ValueError(span))
      else
        assert varNom == refCodon + span + altCodon;
        Ok(Some(Mutation(KindOfChange(refCodon, altCodon), refCodon, altCodon, ParseNat(span))))
  }

  lemma {:induction false} FirstDigitIndexOfConcat(pre: string, digits: string)
    requires NoDigits(pre) && |digits| > 0 && IsDigit(digits[0])
    ensures FirstDigitIndex(pre + digits) == |pre|
    decreases |pre|
  {
    if |pre| > 0 {
      assert (pre + digits)[1..] == pre[1..] + digits;
      FirstDigitIndexOfConcat(pre[1..], digits);
    }
  }

  lemma {:induction false} EndOfLastDigitOfConcat(digits: string, post: string)
    requires NoDigits(post) && |digits| > 0 && IsDigit(digits[|digits| - 1])
    ensures EndOfLastDigit(digits + post) == |digits|
    decreases |post|
  {
    if |post| > 0 {
      var s := digits + post;
      assert s[..|s| - 1] == digits + post[..|post| - 1];
      EndOfLastDigitOfConcat(digits, post[..|post| - 1]);
    }
  }

  /** Decoding inverts writing a mutation as ref codon, decimal position, alt
      codon. */
  lemma MutationRoundTrip(refCodon: string, position: nat, altCodon: string)
    requires NoDigits(refCodon) && NoDigits(altCodon)
    ensures GetMutationType(refCodon + NatToString(position) + altCodon)
      == Ok(Some(Mutation(KindOfChange(refCodon, altCodon), refCodon, altCodon, position)))
  {
    var digits := NatToString(position);
    var s := refCodon + digits + altCodon;
    assert s == refCodon + (digits + altCodon);
    FirstDigitIndexOfConcat(refCodon, digits + altCodon);
    assert s == (refCodon + digits) + altCodon;
    EndOfLastDigitOfConcat(refCodon + digits, altCodon);
    assert s[..|refCodon|] == refCodon;
    assert s[|refCodon| + |digits|..] == altCodon;
    assert s[|refCodon|..|refCodon| + |digits|] == digits;
    ParseNatToString(position);
  }

  lemma MutationExample()
    ensures GetMutationType("GCG7569GTG") == Ok(Some(Mutation(VariantType.SUBSTITUTION, "GCG", "GTG", 7569)))
  {
    assert NatToString(7569) == "7569" by {
      assert NatToString(7) == "7";
      assert NatToString(75) == "7" + "5";
      assert NatToString(756) == "75" + "6";
      assert NatToString(7569) == "756" + "9";
    }
    assert "GCG" + "7569" + "GTG" == "GCG7569GTG";
    MutationRoundTrip("GCG", 7569, "GTG");
  }

  // ---------------------------------------------------------------------------
  // Resistance variants (`_parse_mykrobe_amr_variants`)

  /** A row yields a variant when it is resistant and its variants cell is not `None`. */
  predicate Reported(row: MykrobeRow)
  {
    IsResistant(row) && !row.variants.NoneCell?
  }

  function ReportedRows(rows: seq<MykrobeRow>): (rs: seq<MykrobeRow>)
  {
    if |rows| == 0 then []
    else
      var prev := ReportedRows(rows[..|rows| - 1]);
      if Reported(Last(rows)) then prev + [Last(rows)] else prev
  }

  /** Selecting reported rows distributes over concatenation. */
  lemma {:induction false} ReportedRowsConcat(xs: seq<MykrobeRow>, ys: seq<MykrobeRow>)
    ensures ReportedRows(xs + ys) == ReportedRows(xs) + ReportedRows(ys)
    decreases |ys|
  {
    if |ys| > 0 {
      var ys' := ys[..|ys| - 1];
      assert (xs + ys)[..|xs + ys| - 1] == xs + ys';
      ReportedRowsConcat(xs, ys');
    } else {
      assert xs + ys == xs;
    }
  }

  /** A single row is kept exactly when it is reported. */
  lemma ReportedRowsSingle(row: MykrobeRow)
    ensures ReportedRows([row]) == if Reported(row) then [row] else []
  {
    assert [row][..0] == [];
  }

  /** The reported rows are exactly the rows that are resistant with a variants
      cell that is not `None`. */
  lemma {:induction false} ReportedRowsMembers(rows: seq<MykrobeRow>, row: MykrobeRow)
    ensures row in ReportedRows(rows) <==> row in rows && Reported(row)
  {
    if |rows| > 0 {
      var prefix := rows[..|rows| - 1];
      ReportedRowsMembers(prefix, row);
      assert rows == prefix + [Last(rows)];
    }
  }

  /** The depth: the last ':'-separated field of the genes cell converted by
      `toFloat`, or `None` when the cell is not text. */
  function DepthOf(genes: Cell, toFloat: string -> Option<Number>): Result<Option<Number>, Failure>
  {
    match genes
    case Text(g) =>
      var field := Last(Split(g, ':'));
      if toFloat(field).None? then Err(ValueError(field)) else Ok(Some(toFloat(field).value))
    case _ => Ok(None)
  }

  /** A variants cell "<gene>_<change>-<ref><position><alt>:..." has both
      pieces, and both its change and its first allele field decode. */
  predicate CellDecodes(text: string)
  {
    var pieces := Split(text, '-');
    && |pieces| >= 2 && GetMutationType(Split(pieces[1], ':')[0]).Ok?
    && |Split(pieces[0], '_')| >= 2 && GetMutationType(Split(pieces[0], '_')[1]).Ok?
  }

  /** `v` is the variant reported by `row`: its drug lower-cased as the only
      drug, the gene symbol before the first '_', the depth from the genes
      cell, the change and its kind from the text between the first '_' and the
      first '-', and position and alleles from the text after the first '-' up
      to the next ':'. */
  predicate VariantOfRow(row: MykrobeRow, toFloat: string -> Option<Number>, v: MykrobeVariant)
  {
    && row.variants.Text? && CellDecodes(row.variants.text)
    && var text := row.variants.text;
       var pieces := Split(text, '-');
       var nom := GetMutationType(Split(pieces[0], '_')[1]).value;
       var info := GetMutationType(Split(pieces[1], ':')[0]).value;
       && v.drugs == [Lower(row.drug)]
       && v.geneSymbol == Split(text, '_')[0]
       && Ok(v.depth) == DepthOf(row.genes, toFloat)
       && v.change == Split(pieces[0], '_')[1]
       && v.variantType == (if nom.Some? then Some(nom.value.kind) else None)
       && (info.None? ==> v.position.None? && v.refNt.None? && v.altNt.None?)
       && (info.Some? ==>
             v.position == Some(info.value.position) && v.refNt == Some(info.value.refCodon)
             && v.altNt == Some(info.value.altCodon))
  }

  /** The variant of one row, or the failure of the first lookup or conversion
      that fails, in the source's order. */
  function DecodeVariant(row: MykrobeRow, toFloat: string -> Option<Number>): (r: Result<MykrobeVariant, Failure>)
    ensures r.Ok? <==> DepthOf(row.genes, toFloat).Ok? && row.variants.Text? && CellDecodes(row.variants.text)
    ensures DepthOf(row.genes, toFloat).Err? ==> r == Err(DepthOf(row.genes, toFloat).error)
    ensures DepthOf(row.genes, toFloat).Ok? && !row.variants.Text? ==> r == Err(AttributeError)
    ensures (DepthOf(row.genes, toFloat).Ok? && row.variants.Text? && |Split(row.variants.text, '-')| < 2)
              ==> r == Err(IndexError)
    ensures r.Ok? ==> VariantOfRow(row, toFloat, r.value)
  {
    var depth :- DepthOf(row.genes, toFloat);
    if !row.variants.Text? then Err(AttributeError)
    else
      var text := row.variants.text;
      var pieces := Split(text, '-');
      if |pieces| < 2 then Err(IndexError)
      else
        var info :- GetMutationType(Split(pieces[1], ':')[0]);
        var named := Split(pieces[0], '_');
        if |named| < 2 then Err(IndexError)
        else
          var varNom := named[1];
          var nom :- GetMutationType(varNom);
          Ok(MykrobeVariant(
            variantType := if nom.Some? then Some(nom.value.kind) else None,
            geneSymbol := Split(text, '_')[0],
            position := if info.Some? then Some(info.value.position) else None,
            refNt := if info.Some? then Some(info.value.refCodon) else None,
            altNt := if info.Some? then Some(info.value.altCodon) else None,
            depth := depth,
            change := varNom,
            drugs := [Lower(row.drug)]))
  }

  /** The row decoder for a given depth conversion. */
  function Decoder(toFloat: string -> Option<Number>): MykrobeRow -> Result<MykrobeVariant, Failure>
  {
    row => DecodeVariant(row, toFloat)
  }

  /** The decoding of the reported rows: one variant per reported row, in row
      order, or the failure of the first row that does not decode. */
  function DecodeReported(rows: seq<MykrobeRow>, toFloat: string -> Option<Number>): Result<seq<MykrobeVariant>, Failure>
  {
    MapResult(ReportedRows(rows), Decoder(toFloat))
  }

  /** Each decoded variant is the variant of its reported row. */
  lemma DecodedVariantsPerRow(rows: seq<MykrobeRow>, toFloat: string -> Option<Number>)
    requires DecodeReported(rows, toFloat).Ok?
    ensures var vs := DecodeReported(rows, toFloat).value;
      var rs := ReportedRows(rows);
      && |vs| == |rs|
      && forall i :: 0 <= i < |vs| ==> VariantOfRow(rs[i], toFloat, vs[i])
  {
    MapResultValues(ReportedRows(rows), Decoder(toFloat));
  }

  lemma DecodeFailureStays(rows: seq<MykrobeRow>, i: nat, toFloat: string -> Option<Number>)
    requires i <= |rows| && DecodeReported(rows[..i], toFloat).Err?
    ensures DecodeReported(rows, toFloat) == DecodeReported(rows[..i], toFloat)
  {
    assert rows == rows[..i] + rows[i..];
    ReportedRowsConcat(rows[..i], rows[i..]);
    MapResultPrefixFailure(ReportedRows(rows[..i]), ReportedRows(rows[i..]), Decoder(toFloat));
  }

  /** One variant per reported row, in row order; the first row that fails to
      decode makes the whole decoding fail. */
  method ParseMykrobeAmrVariants(rows: seq<MykrobeRow>, toFloat: string -> Option<Number>)
    returns (r: Result<seq<MykrobeVariant>, Failure>)
    ensures r == DecodeReported(rows, toFloat)
  {
    var results: seq<MykrobeVariant> := [];
    for i := 0 to |rows|
      invariant DecodeReported(rows[..i], toFloat) == Ok(results)
    {
      var row := rows[i];
      ghost var before := ReportedRows(rows[..i]);
      assert rows[..i + 1] == rows[..i] + [row];
      ReportedRowsSingle(row);
      ReportedRowsConcat(rows[..i], [row]);
      assert ReportedRows(rows[..i + 1]) == if Reported(row) then before + [row] else before;
      if Upper(row.susceptibility) != "R" {
        continue;
      }
      if row.variants.NoneCell? {
        continue;
      }
      MapResultAppend(before, row, Decoder(toFloat));
      var v := Decoder(toFloat)(row);
      if v.Err? {
        DecodeFailureStays(rows, i + 1, toFloat);
        return Err(v.error);
      }
      results := results + [v.value];
    }
    assert rows[..|rows|] == rows;
    return Ok(results);
  }

  // ---------------------------------------------------------------------------
  // Element-type result (`parse_mykrobe_amr_pred`)

  function MykrobeCalls(vs: seq<MykrobeVariant>): (calls: seq<Variant>)
    ensures |calls| == |vs| && forall i :: 0 <= i < |vs| ==> calls[i] == MykrobeCall(vs[i])
  {
    seq(|vs|, i requires 0 <= i < |vs| => MykrobeCall(vs[i]))
  }

  /** The Mykrobe result for `category`, or `None` when no row is reported, since
      the result then holds no genes and no variants. */
  method ParseMykrobeAmrPred(rows: seq<MykrobeRow>, category: ElementType, toFloat: string -> Option<Number>)
    returns (r: Result<Option<ElementTypeMethod>, Failure>)
    ensures r.Ok? <==> DecodeReported(rows, toFloat).Ok?
    ensures r.Ok? ==> (r.value.None? <==> ReportedRows(rows) == [])
    ensures r.Ok? && r.value.Some? ==>
              var m := r.value.value;
              && m.category == category && m.software == MYKROBE
              && m.result.genes == []
              && m.result.variants == MykrobeCalls(DecodeReported(rows, toFloat).value)
              && IsSrProfile(rows, m.result.phenotypes)
  {
    var profile := GetMykrobeAmrSrProfile(rows);
    var variants :- ParseMykrobeAmrVariants(rows, toFloat);
    var resistance := ElementTypeResult(profile, [], MykrobeCalls(variants));
    MapResultSucceeds(ReportedRows(rows), Decoder(toFloat));
    if variants != [] {
      MapResultValues(ReportedRows(rows), Decoder(toFloat));
    }
    if IsPredictionResultEmpty(resistance) {
      return Ok(None);
    }
    return Ok(Some(ElementTypeMethod(category, MYKROBE, resistance)));
  }
}
