/** Strings as the program handles them: trimming, cutting, splitting, joining,
    and the decimal notation of int64 values. */
module Text {
  datatype Option<+T> = None | Some(value: T)

  const MAX_INT64: int := 0x7fff_ffff_ffff_ffff
  const MIN_INT64: int := -0x8000_0000_0000_0000

  lemma BoundsAre()
    ensures MAX_INT64 == 9_223_372_036_854_775_807 && MIN_INT64 == -9_223_372_036_854_775_808
  {
  }

  // ASCII white space; the other Unicode spaces are not part of this model.
  predicate IsSpace(c: char) {
    c == ' ' || '\t' <= c <= '\r'
  }

  function TrimLeft(s: string): string {
    if s != "" && IsSpace(s[0]) then TrimLeft(s[1..]) else s
  }

  function TrimRight(s: string): string {
    if s != "" && IsSpace(s[|s| - 1]) then TrimRight(s[..|s| - 1]) else s
  }

  function TrimSpace(s: string): string {
    TrimRight(TrimLeft(s))
  }

  // The first position of c, or the length of the string.
  function Find(s: string, c: char): (i: nat)
    ensures i <= |s|
    ensures c !in s[..i]
    ensures i < |s| ==> s[i] == c
  {
    if s == "" || s[0] == c then 0 else 1 + Find(s[1..], c)
  }

  // Splits around the first c.
  function Cut(s: string, c: char): Option<(string, string)> {
    var i := Find(s, c);
    if i == |s| then None else Some((s[..i], s[i + 1..]))
  }

  function Split(s: string, c: char): seq<string>
    decreases |s|
  {
    var i := Find(s, c);
    if i == |s| then [s] else [s[..i]] + Split(s[i + 1..], c)
  }

  function Join(parts: seq<string>, separator: string): string {
    if parts == [] then ""
    else if |parts| == 1 then parts[0]
    else parts[0] + separator + Join(parts[1..], separator)
  }

  predicate IsDigit(c: char) {
    '0' <= c <= '9'
  }

  function Digit(n: nat): (c: char)
    requires n < 10
    ensures IsDigit(c) && DigitValue(c) == n
  {
    '0' + n as char
  }

  function DigitValue(c: char): (n: nat)
    requires IsDigit(c)
  {
    (c - '0') as int
  }

  predicate AllDigits(s: string) {
    forall i :: 0 <= i < |s| ==> IsDigit(s[i])
  }

  function Value(s: string): nat
    requires AllDigits(s)
  {
    if s == "" then 0 else 10 * Value(s[..|s| - 1]) + DigitValue(s[|s| - 1])
  }

  function FormatInt(n: nat): string {
    if n < 10 then [Digit(n)] else FormatInt(n / 10) + [Digit(n % 10)]
  }

  function ParseInt64(s: string): Option<int> {
    var negative := s != "" && s[0] == '-';
    var digits := if s != "" && (s[0] == '-' || s[0] == '+') then s[1..] else s;
    if digits == "" || !AllDigits(digits) then None
    else
      var v := if negative then -(Value(digits) as int) else Value(digits);
      if MIN_INT64 <= v <= MAX_INT64 then Some(v) else None
  }

  // Printf's %0wd for a value of at most w digits.
  function PadInt(n: nat, w: nat): (s: string)
    ensures |s| == w
  {
    if w == 0 then "" else PadInt(n / 10, w - 1) + [Digit(n % 10)]
  }

  function Pow10(w: nat): nat {
    if w == 0 then 1 else 10 * Pow10(w - 1)
  }

  lemma {:induction false} FormatIntValue(n: nat)
    ensures FormatInt(n) != "" && AllDigits(FormatInt(n)) && Value(FormatInt(n)) == n
  {
    if n >= 10 {
      FormatIntValue(n / 10);
      var s := FormatInt(n);
      assert s[..|s| - 1] == FormatInt(n / 10);
    }
  }

  lemma {:induction false} PadIntValue(n: nat, w: nat)
    requires n < Pow10(w)
    ensures AllDigits(PadInt(n, w)) && Value(PadInt(n, w)) == n
  {
    if w > 0 {
      PadIntValue(n / 10, w - 1);
      var s := PadInt(n, w);
      assert s[..|s| - 1] == PadInt(n / 10, w - 1);
    }
  }

  lemma PadIntInjective(a: nat, b: nat, w: nat)
    requires a < Pow10(w) && b < Pow10(w) && PadInt(a, w) == PadInt(b, w)
    ensures a == b
  {
    PadIntValue(a, w);
    PadIntValue(b, w);
  }

  lemma ParseFormatted(n: nat)
    requires n <= MAX_INT64
    ensures ParseInt64(FormatInt(n)) == Some(n)
  {
    FormatIntValue(n);
    var s := FormatInt(n);
    assert IsDigit(s[0]);
  }

  lemma {:induction false} TrimNoSpaces(s: string)
    requires forall i :: 0 <= i < |s| ==> !IsSpace(s[i])
    ensures TrimSpace(s) == s
  {
  }

  lemma {:induction false} TrimLeftStarts(s: string)
    ensures TrimLeft(s) != "" ==> !IsSpace(TrimLeft(s)[0])
  {
    if s != "" && IsSpace(s[0]) { TrimLeftStarts(s[1..]); }
  }

  lemma {:induction false} TrimRightKeeps(s: string)
    ensures TrimRight(s) <= s && (TrimRight(s) != "" ==> !IsSpace(TrimRight(s)[|TrimRight(s)| - 1]))
    decreases |s|
  {
    if s != "" && IsSpace(s[|s| - 1]) { TrimRightKeeps(s[..|s| - 1]); }
  }

  lemma TrimTwice(s: string)
    ensures TrimSpace(TrimSpace(s)) == TrimSpace(s)
  {
    TrimLeftStarts(s);
    TrimRightKeeps(TrimLeft(s));
    var t := TrimSpace(s);
    if t != "" { assert t[0] == TrimLeft(s)[0]; }
  }

  lemma FormatIntPlain(n: nat)
    ensures TrimSpace(FormatInt(n)) == FormatInt(n)
    ensures forall c :: c in FormatInt(n) ==> IsDigit(c)
  {
    FormatIntValue(n);
    TrimNoSpaces(FormatInt(n));
  }

  lemma {:induction false} FindFirst(a: string, c: char, b: string)
    requires c !in a
    ensures Find(a + [c] + b, c) == |a|
  {
    if a != "" {
      FindFirst(a[1..], c, b);
      assert (a + [c] + b)[1..] == a[1..] + [c] + b;
    }
  }

  lemma CutAtFirst(a: string, c: char, b: string)
    requires c !in a
    ensures Cut(a + [c] + b, c) == Some((a, b))
  {
    FindFirst(a, c, b);
    var s := a + [c] + b;
    assert s[..|a|] == a && s[|a| + 1..] == b;
  }

  // Two lists of equally many separator-free parts with the same join are equal.
  lemma {:induction false} JoinInjective(a: seq<string>, b: seq<string>, c: char)
    requires |a| == |b|
    requires forall i :: 0 <= i < |a| ==> c !in a[i] && c !in b[i]
    requires Join(a, [c]) == Join(b, [c])
    ensures a == b
  {
    if |a| > 1 {
      CutAtFirst(a[0], c, Join(a[1..], [c]));
      CutAtFirst(b[0], c, Join(b[1..], [c]));
      assert Join(a, [c]) == a[0] + [c] + Join(a[1..], [c]);
      assert Join(b, [c]) == b[0] + [c] + Join(b[1..], [c]);
      JoinInjective(a[1..], b[1..], c);
      assert a == [a[0]] + a[1..] && b == [b[0]] + b[1..];
    }
  }

  // The six characters of ASCII white space.
  lemma SpacesAre(c: char)
    ensures IsSpace(c) <==> c == ' ' || c == '\t' || c == '\n' || c == 11 as char || c == 12 as char || c == '\r'
  {
  }

  ghost predicate AllSpaces(s: string) {
    forall i :: 0 <= i < |s| ==> IsSpace(s[i])
  }

  ghost predicate BareEnds(s: string) {
    s == "" || (!IsSpace(s[0]) && !IsSpace(s[|s| - 1]))
  }

  // Trimming takes away what white space there is around a string, and no more.
  lemma TrimSpaceIs(before: string, s: string, after: string)
    requires AllSpaces(before) && AllSpaces(after) && BareEnds(s)
    ensures TrimSpace(before + s + after) == s
  {
    hide IsSpace, TrimLeft, TrimRight;
    TrimsLeft(before, s + after);
    assert before + s + after == before + (s + after);
    if s == "" {
      TrimsAll(after);
      TrimsRight("", "");
      assert "" + after == after && "" + "" == "";
    } else {
      TrimsRight(s, after);
      BareStart(s + after);
    }
  }

  lemma BareStart(s: string)
    requires s != "" && !IsSpace(s[0])
    ensures TrimLeft(s) == s
  {
  }

  lemma {:induction false} TrimsLeft(before: string, s: string)
    requires AllSpaces(before)
    ensures TrimLeft(before + s) == TrimLeft(s)
  {
    if before == "" {
      assert before + s == s;
    } else {
      assert (before + s)[1..] == before[1..] + s;
      TrimsLeft(before[1..], s);
    }
  }

  lemma {:induction false} TrimsRight(s: string, after: string)
    requires AllSpaces(after) && BareEnds(s)
    ensures TrimRight(s + after) == s
    decreases |after|
  {
    if after == "" {
      assert s + after == s;
    } else {
      var n := |after| - 1;
      assert (s + after)[..|s + after| - 1] == s + after[..n] && (s + after)[|s + after| - 1] == after[n];
      TrimsRight(s, after[..n]);
    }
  }

  lemma {:induction false} TrimsAll(s: string)
    requires AllSpaces(s)
    ensures TrimLeft(s) == ""
  {
    if s != "" { TrimsAll(s[1..]); }
  }

  lemma NothingToCut(s: string, c: char)
    ensures Cut(s, c).None? <==> c !in s
    ensures Cut(s, c).Some? ==> s == Cut(s, c).value.0 + [c] + Cut(s, c).value.1 && c !in Cut(s, c).value.0
  {
  }

  // Splitting is what joining undoes: the parts have no separator, and joined by it they
  // are the string again.
  lemma {:induction false} SplitJoins(s: string, c: char)
    ensures var parts := Split(s, c);
            parts != [] && (forall i :: 0 <= i < |parts| ==> c !in parts[i]) && Join(parts, [c]) == s
    decreases |s|
  {
    var i := Find(s, c);
    if i < |s| {
      SplitJoins(s[i + 1..], c);
      var rest := Split(s[i + 1..], c);
      var parts := [s[..i]] + rest;
      assert parts[1..] == rest;
      assert s == s[..i] + [c] + s[i + 1..];
    }
  }

  lemma {:induction false} SplitOne(s: string, c: char)
    requires c !in s
    ensures Split(s, c) == [s]
  {
    assert forall i :: 0 <= i < |s| ==> s[i] != c;
  }

  lemma SplitAtFirst(a: string, c: char, b: string)
    requires c !in a
    ensures Split(a + [c] + b, c) == [a] + Split(b, c)
  {
    FindFirst(a, c, b);
    var s := a + [c] + b;
    assert s[..|a|] == a && s[|a| + 1..] == b;
  }

  lemma {:induction false} JoinSplits(parts: seq<string>, c: char)
    requires parts != [] && forall i :: 0 <= i < |parts| ==> c !in parts[i]
    ensures Split(Join(parts, [c]), c) == parts
  {
    hide Split;
    if |parts| == 1 {
      SplitOne(parts[0], c);
      assert parts == [parts[0]];
    } else {
      JoinSplits(parts[1..], c);
      SplitAtFirst(parts[0], c, Join(parts[1..], [c]));
      assert parts == [parts[0]] + parts[1..];
    }
  }

  // Digits are those of ASCII, and the value of a numeral is positional.
  lemma DigitsAre(n: nat, c: char)
    requires n < 10
    ensures [Digit(n)] == "0123456789"[n..n + 1]
    ensures IsDigit(c) <==> c in "0123456789"
    ensures IsDigit(c) ==> "0123456789"[DigitValue(c)] == c
  {
  }

  lemma ValueIs(s: string, n: nat)
    requires AllDigits(s) && n < 10
    ensures Value("") == 0 && AllDigits(s + [Digit(n)]) && Value(s + [Digit(n)]) == 10 * Value(s) + n
  {
    assert (s + [Digit(n)])[..|s|] == s;
  }

  // Which strings are int64 numerals, and of which value.
  lemma ParseInt64Is(sign: string, digits: string)
    requires AllDigits(digits) && sign in {"", "+", "-"}
    ensures var v := if sign == "-" then -(Value(digits) as int) else Value(digits);
            ParseInt64(sign + digits) == if digits != "" && MIN_INT64 <= v <= MAX_INT64 then Some(v) else None
  {
    var s := sign + digits;
    if sign == "" {
      assert s == digits;
    } else {
      assert s[1..] == digits;
    }
  }

  lemma ParseInt64Only(s: string)
    ensures ParseInt64(s).Some? ==>
              exists sign, digits :: sign in {"", "+", "-"} && s == sign + digits && digits != "" && AllDigits(digits)
  {
    if ParseInt64(s).Some? {
      if s[0] == '-' || s[0] == '+' {
        assert s == s[..1] + s[1..] && s[..1] == [s[0]];
      } else {
        assert s == "" + s;
      }
    }
  }
}
