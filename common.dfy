/** Values and text operations shared by every decoder: optional values, Python's
    exceptions as error values, ASCII case mapping, `str.split`, substring search,
    Python's string ordering and decimal digit runs. */
module Common {

  datatype Option<+T> = None | Some(value: T)

  /** The outcome of an operation that may raise; supports `:-`. */
  datatype Result<+T, +E> = Ok(value: T) | Err(error: E) {
    predicate IsFailure() { Err? }

    function PropagateFailure<U>(): Result<U, E>
      requires Err?
    {
      Err(error)
    }

    function Extract(): T
      requires Ok?
    {
      value
    }
  }

  /** The state of one keyword argument of a record constructor: not passed,
      passed as `None`, or passed with a value. */
  datatype Field<+T> = Missing | Null | Given(value: T)

  /** The Python exceptions the decoders can raise on malformed input. */
  datatype Failure =
    | KeyError(key: string)
    | IndexError
    | AttributeError
    | ValueError(text: string)
    | StopIteration

  /** An opaque numeric literal (a depth, a frequency, a quality): carried from
      input to output without any arithmetic. */
  datatype Number = Number(literal: string)

  // ---------------------------------------------------------------------------
  // ASCII case mapping (`str.upper`, `str.lower` restricted to ASCII letters)

  predicate IsLowerChar(c: char) { 'a' <= c <= 'z' }

  predicate IsUpperChar(c: char) { 'A' <= c <= 'Z' }

  function UpperChar(c: char): char
  {
    if IsLowerChar(c) then (c as int - 32) as char else c
  }

  function LowerChar(c: char): char
  {
    if IsUpperChar(c) then (c as int + 32) as char else c
  }

  function Upper(s: string): string
  {
    seq(|s|, i requires 0 <= i < |s| => UpperChar(s[i]))
  }

  function Lower(s: string): string
  {
    seq(|s|, i requires 0 <= i < |s| => LowerChar(s[i]))
  }

  /** No ASCII lower-case letter occurs in `s`. */
  predicate NoLower(s: string)
  {
    forall i :: 0 <= i < |s| ==> !IsLowerChar(s[i])
  }

  lemma UpperHasNoLower(s: string)
    ensures NoLower(Upper(s))
  {
  }

  lemma UpperOfNoLower(s: string)
    requires NoLower(s)
    ensures Upper(s) == s
  {
  }

  // ---------------------------------------------------------------------------
  // Decimal digits

  predicate IsDigit(c: char) { '0' <= c <= '9' }

  predicate AllDigits(s: string)
  {
    forall i :: 0 <= i < |s| ==> IsDigit(s[i])
  }

  predicate NoDigits(s: string)
  {
    forall i :: 0 <= i < |s| ==> !IsDigit(s[i])
  }

  function DigitValue(c: char): nat
    requires IsDigit(c)
  {
    c as int - '0' as int
  }

  function DigitChar(d: nat): char
    requires d < 10
  {
    ('0' as int + d) as char
  }

  /** The value of a run of decimal digits (`int` of an all-digit string). */
  function ParseNat(s: string): nat
    requires AllDigits(s)
  {
    if |s| == 0 then 0 else ParseNat(s[..|s| - 1]) * 10 + DigitValue(s[|s| - 1])
  }

  /** The decimal text of a natural number, as `str` writes it. */
  function NatToString(n: nat): (s: string)
    ensures |s| >= 1 && AllDigits(s)
  {
    if n < 10 then [DigitChar(n)] else NatToString(n / 10) + [DigitChar(n % 10)]
  }

  /** The decimal text of an integer, with a leading '-' when negative. */
  function IntToString(n: int): string
  {
    if n < 0 then "-" + NatToString(-n) else NatToString(n)
  }

  lemma {:induction false} ParseNatToString(n: nat)
    ensures ParseNat(NatToString(n)) == n
  {
    if n >= 10 {
      var a := NatToString(n / 10);
      var s := a + [DigitChar(n % 10)];
      assert s[..|s| - 1] == a;
      ParseNatToString(n / 10);
    }
  }

  // ---------------------------------------------------------------------------
  // `str.split(sep)` for a one-character separator

  /** The pieces of `s` between occurrences of `sep`; there is always at least one. */
  function Split(s: string, sep: char): (parts: seq<string>)
    ensures |parts| >= 1
    decreases |s|
  {
    if |s| == 0 then [""]
    else if s[0] == sep then [""] + Split(s[1..], sep)
    else
      var rest := Split(s[1..], sep);
      [[s[0]] + rest[0]] + rest[1..]
  }

  function Last<T>(xs: seq<T>): T
    requires |xs| >= 1
  {
    xs[|xs| - 1]
  }

  predicate NotIn(c: char, s: string)
  {
    forall i :: 0 <= i < |s| ==> s[i] != c
  }

  /** The first piece of a split is the longest prefix free of the separator. */
  lemma {:induction false} SplitHead(s: string, sep: char)
    ensures var h := Split(s, sep)[0];
      |h| <= |s| && h == s[..|h|] && NotIn(sep, h) && (|h| == |s| || s[|h|] == sep)
    decreases |s|
  {
    if |s| > 0 && s[0] != sep {
      SplitHead(s[1..], sep);
    }
  }

  /** A string without the separator splits into itself alone. */
  lemma {:induction false} SplitOne(s: string, sep: char)
    ensures |Split(s, sep)| == 1 <==> NotIn(sep, s)
    ensures |Split(s, sep)| == 1 ==> Split(s, sep)[0] == s
    decreases |s|
  {
    if |s| > 0 {
      SplitOne(s[1..], sep);
      if s[0] != sep {
        assert s == [s[0]] + s[1..];
      }
    }
  }

  /** The last piece of a split is the longest suffix free of the separator. */
  lemma {:induction false} SplitLast(s: string, sep: char)
    ensures var t := Last(Split(s, sep));
      |t| <= |s| && t == s[|s| - |t|..] && NotIn(sep, t) && (|t| == |s| || s[|s| - |t| - 1] == sep)
    decreases |s|
  {
    if |s| > 0 {
      SplitLast(s[1..], sep);
      var rest := Split(s[1..], sep);
      var t := Last(rest);
      assert s[1..][|s| - 1 - |t|..] == s[|s| - |t|..];
      SplitOne(s[1..], sep);
      if s[0] != sep && |rest| == 1 {
        assert Last(Split(s, sep)) == s;
      } else {
        assert Last(Split(s, sep)) == t;
        if |t| < |s| - 1 {
          assert s[|s| - |t| - 1] == s[1..][|s| - 1 - |t| - 1];
        } else {
          assert t == s[1..];
        }
      }
    }
  }

  // ---------------------------------------------------------------------------
  // Substrings (Python's `sub in s`)

  predicate OccursAt(s: string, sub: string, i: nat)
  {
    i + |sub| <= |s| && s[i..i + |sub|] == sub
  }

  function Contains(s: string, sub: string): (b: bool)
    ensures b <==> exists i: nat :: OccursAt(s, sub, i)
    decreases |s|
  {
    if |sub| > |s| then false
    else if s[..|sub|] == sub then assert OccursAt(s, sub, 0); true
    else
      var b := Contains(s[1..], sub);
      if b then
        var i: nat :| OccursAt(s[1..], sub, i);
        assert OccursAt(s, sub, i + 1);
        true
      else
        assert forall i: nat :: OccursAt(s, sub, i) ==> i > 0 && OccursAt(s[1..], sub, i - 1);
        false
  }

  // ---------------------------------------------------------------------------
  // Python's ordering of strings: lexicographic by code point

  predicate LexLess(a: string, b: string)
    decreases |a|
  {
    if |a| == 0 then |b| > 0
    else if |b| == 0 then false
    else if a[0] != b[0] then a[0] < b[0]
    else LexLess(a[1..], b[1..])
  }

  lemma {:induction false} LexIrreflexive(a: string)
    ensures !LexLess(a, a)
    decreases |a|
  {
    if |a| > 0 { LexIrreflexive(a[1..]); }
  }

  lemma {:induction false} LexTransitive(a: string, b: string, c: string)
    requires LexLess(a, b) && LexLess(b, c)
    ensures LexLess(a, c)
    decreases |a|
  {
    if |a| > 0 && a[0] == b[0] && b[0] == c[0] {
      LexTransitive(a[1..], b[1..], c[1..]);
    }
  }

  lemma {:induction false} LexTotal(a: string, b: string)
    ensures a == b || LexLess(a, b) || LexLess(b, a)
    decreases |a|
  {
    if |a| > 0 && |b| > 0 && a[0] == b[0] {
      LexTotal(a[1..], b[1..]);
      if a[1..] == b[1..] {
        assert a == [a[0]] + a[1..] && b == [b[0]] + b[1..];
      }
    }
  }

  lemma {:induction false} LexAsymmetric(a: string, b: string)
    requires LexLess(a, b)
    ensures !LexLess(b, a)
    decreases |a|
  {
    if |a| > 0 && a[0] == b[0] {
      LexAsymmetric(a[1..], b[1..]);
    }
  }

  // ---------------------------------------------------------------------------
  // Sequences

  predicate Distinct<T(==)>(xs: seq<T>)
  {
    forall i, j :: 0 <= i < j < |xs| ==> xs[i] != xs[j]
  }

  function Elements<T>(xs: seq<T>): set<T>
  {
    set x | x in xs
  }

  /** Python's `list(s)` of a set: every element once, in an order the model
      does not fix. */
  method ListOfSet<T(==)>(s: set<T>) returns (xs: seq<T>)
    ensures Elements(xs) == s && Distinct(xs)
  {
    xs := [];
    var rest := s;
    while rest != {}
      invariant rest !! Elements(xs) && rest + Elements(xs) == s
      invariant Distinct(xs)
      decreases rest
    {
      var x :| x in rest;
      xs := xs + [x];
      rest := rest - {x};
    }
  }

  /** Applies `f` to each element in turn; the first failure ends the traversal. */
  function MapResult<A, B, E>(xs: seq<A>, f: A -> Result<B, E>): Result<seq<B>, E>
  {
    if |xs| == 0 then Ok([])
    else
      var prev :- MapResult(xs[..|xs| - 1], f);
      var y :- f(Last(xs));
      Ok(prev + [y])
  }

  /** The traversal succeeds exactly when `f` succeeds on every element. */
  lemma {:induction false} MapResultSucceeds<A, B, E>(xs: seq<A>, f: A -> Result<B, E>)
    ensures MapResult(xs, f).Ok? <==> forall i :: 0 <= i < |xs| ==> f(xs[i]).Ok?
  {
    if |xs| > 0 {
      var prefix := xs[..|xs| - 1];
      MapResultSucceeds(prefix, f);
      if !MapResult(prefix, f).Ok? {
        var i :| 0 <= i < |prefix| && !f(prefix[i]).Ok?;
        assert xs[i] == prefix[i];
      } else {
        assert forall i :: 0 <= i < |prefix| ==> xs[i] == prefix[i];
      }
    }
  }

  /** A successful traversal holds `f`'s value for each element, in order. */
  lemma {:induction false} MapResultValues<A, B, E>(xs: seq<A>, f: A -> Result<B, E>)
    requires MapResult(xs, f).Ok?
    ensures |MapResult(xs, f).value| == |xs|
    ensures forall i :: 0 <= i < |xs| ==> f(xs[i]).Ok? && MapResult(xs, f).value[i] == f(xs[i]).value
  {
    if |xs| > 0 {
      var prefix := xs[..|xs| - 1];
      MapResultValues(prefix, f);
      assert forall i :: 0 <= i < |prefix| ==> xs[i] == prefix[i];
    }
  }

  /** One more element: its value is appended, or its failure ends the traversal. */
  lemma MapResultAppend<A, B, E>(xs: seq<A>, x: A, f: A -> Result<B, E>)
    requires MapResult(xs, f).Ok?
    ensures MapResult(xs + [x], f)
      == if f(x).Ok? then Ok(MapResult(xs, f).value + [f(x).value]) else Err(f(x).error)
  {
    assert (xs + [x])[..|xs|] == xs;
  }

  /** A failure on a prefix is the failure of the whole traversal. */
  lemma {:induction false} MapResultPrefixFailure<A, B, E>(xs: seq<A>, ys: seq<A>, f: A -> Result<B, E>)
    requires MapResult(xs, f).Err?
    ensures MapResult(xs + ys, f) == MapResult(xs, f)
    decreases |ys|
  {
    if |ys| == 0 {
      assert xs + ys == xs;
    } else {
      var ys' := ys[..|ys| - 1];
      assert (xs + ys)[..|xs + ys| - 1] == xs + ys';
      MapResultPrefixFailure(xs, ys', f);
    }
  }
}
