/** Value wrappers and the string primitives of the .NET base library that the
    modelled code relies on (ordinal, invariant-culture, ASCII only). */
module Common {

  /** A value that may be absent: the model's stand-in for a null reference. */
  datatype Option<+T> = None | Some(value: T) {
    function GetOr(default: T): T {
      if Some? then value else default
    }
  }

  /** A computation that either yields a value or raises an error. */
  datatype Result<+T, +E> = Ok(value: T) | Err(error: E)

  // ------------------------------------------------------------------
  // Characters and case

  predicate IsUpper(c: char) {
    'A' <= c <= 'Z'
  }

  /** `char.ToLowerInvariant` restricted to ASCII letters. */
  function ToLowerChar(c: char): (r: char)
    ensures !IsUpper(r)
    ensures !IsUpper(c) ==> r == c
    ensures IsUpper(c) ==> r as int == c as int + 32
  {
    if IsUpper(c) then (c as int + 32) as char else c
  }

  /** `string.ToLowerInvariant` restricted to ASCII letters. */
  function ToLower(s: string): (r: string)
    ensures |r| == |s|
    ensures forall i :: 0 <= i < |s| ==> r[i] == ToLowerChar(s[i])
  {
    seq(|s|, i requires 0 <= i < |s| => ToLowerChar(s[i]))
  }

  /** Ordinal case-insensitive comparison (`StringComparison.OrdinalIgnoreCase`). */
  predicate EqualsIgnoreCase(a: string, b: string) {
    ToLower(a) == ToLower(b)
  }

  lemma ToLowerIdempotent(s: string)
    ensures ToLower(ToLower(s)) == ToLower(s)
  {
  }

  // ------------------------------------------------------------------
  // White space and trimming

  /** `char.IsWhiteSpace` on the ASCII range: space, tab, LF, VT, FF, CR. */
  predicate IsWhiteSpace(c: char) {
    c == ' ' || 9 <= c as int <= 13
  }

  /** `String.IsNullOrWhiteSpace` (null is modelled as the empty string). */
  predicate IsNullOrWhiteSpace(s: string) {
    forall i :: 0 <= i < |s| ==> IsWhiteSpace(s[i])
  }

  function TrimStart(s: string): (r: string)
    ensures |r| <= |s| && r == s[|s| - |r|..]
    ensures r != [] ==> !IsWhiteSpace(r[0])
    ensures forall i :: 0 <= i < |s| - |r| ==> IsWhiteSpace(s[i])
  {
    if s != [] && IsWhiteSpace(s[0]) then
      var r := TrimStart(s[1..]);
      assert forall i :: 1 <= i < |s| ==> s[i] == s[1..][i - 1];
      r
    else s
  }

  function TrimEnd(s: string): (r: string)
    ensures |r| <= |s| && r == s[..|r|]
    ensures r != [] ==> !IsWhiteSpace(r[|r| - 1])
    ensures forall i :: |r| <= i < |s| ==> IsWhiteSpace(s[i])
  {
    if s != [] && IsWhiteSpace(s[|s| - 1]) then TrimEnd(s[..|s| - 1]) else s
  }

  /** `string.Trim()`: drops leading and trailing white space. */
  function Trim(s: string): (r: string)
    ensures r != [] ==> !IsWhiteSpace(r[0]) && !IsWhiteSpace(r[|r| - 1])
    ensures exists i, j :: 0 <= i <= j <= |s| && r == s[i..j]
  {
    var t := TrimStart(s);
    var r := TrimEnd(t);
    assert r == s[|s| - |t|..|s| - |t| + |r|];
    r
  }

  /** Trimming yields the empty string exactly for blank input. */
  lemma TrimEmptyIffBlank(s: string)
    ensures Trim(s) == [] <==> IsNullOrWhiteSpace(s)
  {
  }

  lemma TrimOfTrimmed(s: string)
    requires s == [] || (!IsWhiteSpace(s[0]) && !IsWhiteSpace(s[|s| - 1]))
    ensures Trim(s) == s
  {
  }

  lemma TrimIdempotent(s: string)
    ensures Trim(Trim(s)) == Trim(s)
  {
    var r := Trim(s);
    if r != [] {
      TrimOfTrimmed(r);
    }
  }

  /** Trailing text survives `TrimStart` of a string that is not blank. */
  lemma {:induction false} TrimStartAppend(s: string, w: string)
    requires !IsNullOrWhiteSpace(s)
    ensures TrimStart(s + w) == TrimStart(s) + w
    decreases |s|
  {
    if IsWhiteSpace(s[0]) {
      assert (s + w)[1..] == s[1..] + w;
      assert !IsNullOrWhiteSpace(s[1..]) by {
        var i :| 0 <= i < |s| && !IsWhiteSpace(s[i]);
        assert s[1..][i - 1] == s[i];
      }
      TrimStartAppend(s[1..], w);
    }
  }

  lemma {:induction false} TrimStartOfBlankPrefix(w: string, s: string)
    requires IsNullOrWhiteSpace(w)
    ensures TrimStart(w + s) == TrimStart(s)
    decreases |w|
  {
    if w == [] {
      assert w + s == s;
    } else {
      assert (w + s)[0] == w[0];
      assert (w + s)[1..] == w[1..] + s;
      TrimStartOfBlankPrefix(w[1..], s);
    }
  }

  lemma {:induction false} TrimEndOfBlankSuffix(s: string, w: string)
    requires IsNullOrWhiteSpace(w)
    ensures TrimEnd(s + w) == TrimEnd(s)
    decreases |w|
  {
    if w == [] {
      assert s + w == s;
    } else {
      var n := |w| - 1;
      assert (s + w)[|s + w| - 1] == w[n];
      assert (s + w)[..|s + w| - 1] == s + w[..n];
      TrimEndOfBlankSuffix(s, w[..n]);
    }
  }

  /** White space added at either end is trimmed away again. */
  lemma TrimPadded(w1: string, s: string, w2: string)
    requires IsNullOrWhiteSpace(w1) && IsNullOrWhiteSpace(w2)
    ensures Trim(w1 + s + w2) == Trim(s)
  {
    assert w1 + s + w2 == w1 + (s + w2);
    TrimStartOfBlankPrefix(w1, s + w2);
    if IsNullOrWhiteSpace(s) {
      assert IsNullOrWhiteSpace(s + w2);
      TrimEmptyIffBlank(s);
    } else {
      TrimStartAppend(s, w2);
      TrimEndOfBlankSuffix(TrimStart(s), w2);
    }
  }

  /** Lower-casing leaves white space where it was, so it commutes with trimming. */
  lemma {:induction false} TrimStartToLower(s: string)
    ensures TrimStart(ToLower(s)) == ToLower(TrimStart(s))
    decreases |s|
  {
    if s != [] && IsWhiteSpace(s[0]) {
      assert ToLower(s)[1..] == ToLower(s[1..]);
      TrimStartToLower(s[1..]);
    }
  }

  lemma {:induction false} TrimEndToLower(s: string)
    ensures TrimEnd(ToLower(s)) == ToLower(TrimEnd(s))
    decreases |s|
  {
    if s != [] && IsWhiteSpace(s[|s| - 1]) {
      assert ToLower(s)[..|s| - 1] == ToLower(s[..|s| - 1]);
      TrimEndToLower(s[..|s| - 1]);
    }
  }

  lemma TrimToLower(s: string)
    ensures Trim(ToLower(s)) == ToLower(Trim(s))
  {
    TrimStartToLower(s);
    TrimEndToLower(TrimStart(s));
  }

  // ------------------------------------------------------------------
  // Prefixes and substrings

  /** Ordinal `string.StartsWith`. */
  predicate StartsWith(s: string, prefix: string) {
    |prefix| <= |s| && s[..|prefix|] == prefix
  }

  /** Ordinal `string.Contains(string)`. */
  predicate Contains(s: string, sub: string)
    decreases |s|
  {
    StartsWith(s, sub) || (s != [] && Contains(s[1..], sub))
  }

  lemma StartsWithConcat(p: string, rest: string)
    ensures StartsWith(p + rest, p)
  {
    assert (p + rest)[..|p|] == p;
  }

  // ------------------------------------------------------------------
  // Decimal rendering of a tick count

  /** The decimal digit for `d`. */
  function DigitChar(d: nat): (c: char)
    requires d < 10
    ensures '0' <= c <= '9' && c as int - '0' as int == d
  {
    ('0' as int + d) as char
  }

  /** `long.ToString()` for a non-negative value. */
  function NatToString(n: nat): (r: string)
    ensures |r| >= 1
    ensures |r| == 1 <==> n < 10
  {
    if n < 10 then [DigitChar(n)] else NatToString(n / 10) + [DigitChar(n % 10)]
  }

  lemma DigitCharInjective(a: nat, b: nat)
    requires a < 10 && b < 10 && DigitChar(a) == DigitChar(b)
    ensures a == b
  {
  }

  /** Distinct numbers render as distinct strings. */
  lemma {:induction false} NatToStringInjective(a: nat, b: nat)
    requires NatToString(a) == NatToString(b)
    ensures a == b
  {
    var r := NatToString(a);
    if a < 10 {
      DigitCharInjective(a, b);
    } else {
      assert b >= 10;
      assert r[|r| - 1] == DigitChar(a % 10) == DigitChar(b % 10);
      DigitCharInjective(a % 10, b % 10);
      assert NatToString(a / 10) == r[..|r| - 1] == NatToString(b / 10);
      NatToStringInjective(a / 10, b / 10);
    }
  }

  // ------------------------------------------------------------------
  // Splitting

  function IndexOf(s: string, c: char): (i: nat)
    ensures i <= |s|
    ensures i < |s| ==> s[i] == c
    ensures forall j :: 0 <= j < i ==> s[j] != c
  {
    if s == [] then 0 else if s[0] == c then 0 else 1 + IndexOf(s[1..], c)
  }

  /** The first occurrence of `c` in `p + [c] + rest`, for `c` not in `p`, is right after `p`. */
  lemma IndexOfAfterPrefix(p: string, rest: string, c: char)
    requires c !in p
    ensures IndexOf(p + [c] + rest, c) == |p|
  {
    var s := p + [c] + rest;
    assert s[|p|] == c;
    assert forall j :: 0 <= j < |p| ==> s[j] == p[j];
  }

  function Concat(parts: seq<string>): string {
    if parts == [] then [] else parts[0] + Concat(parts[1..])
  }

  /** `s` with every occurrence of `c` removed. */
  function Without(s: string, c: char): string {
    if s == [] then [] else (if s[0] == c then [] else [s[0]]) + Without(s[1..], c)
  }

  /** `s.Split(new[] { sep }, StringSplitOptions.RemoveEmptyEntries)`. */
  function Split(s: string, sep: char): (parts: seq<string>)
    ensures forall k :: 0 <= k < |parts| ==> parts[k] != [] && sep !in parts[k]
    decreases |s|
  {
    var i := IndexOf(s, sep);
    if i == |s| then (if s == [] then [] else [s])
    else if i == 0 then Split(s[1..], sep)
    else [s[..i]] + Split(s[i + 1..], sep)
  }

  lemma {:induction false} WithoutConcat(a: string, b: string, c: char)
    ensures Without(a + b, c) == Without(a, c) + Without(b, c)
  {
    if a == [] {
      assert a + b == b;
    } else {
      assert (a + b)[0] == a[0];
      assert (a + b)[1..] == a[1..] + b;
      WithoutConcat(a[1..], b, c);
    }
  }

  lemma {:induction false} WithoutAbsent(s: string, c: char)
    requires c !in s
    ensures Without(s, c) == s
  {
    if s != [] {
      WithoutAbsent(s[1..], c);
    }
  }

  lemma ConcatCons(head: string, tail: seq<string>)
    ensures Concat([head] + tail) == head + Concat(tail)
  {
    assert ([head] + tail)[1..] == tail;
  }

  lemma SplitAtSeparator(s: string, sep: char, i: nat)
    requires i < |s| && s[i] == sep
    requires sep !in s[..i]
    ensures Without(s, sep) == s[..i] + Without(s[i + 1..], sep)
  {
    var head, tail := s[..i], s[i + 1..];
    assert s == head + ([sep] + tail);
    WithoutConcat(head, [sep] + tail, sep);
    WithoutConcat([sep], tail, sep);
    WithoutAbsent(head, sep);
    assert [sep][1..] == [];
    assert Without([sep], sep) == [];
    assert Without([sep] + tail, sep) == Without(tail, sep);
  }

  /** Splitting loses exactly the separators: the pieces, joined, are the input
      with every separator removed. */
  lemma {:induction false} SplitLosesOnlySeparators(s: string, sep: char)
    ensures Concat(Split(s, sep)) == Without(s, sep)
    decreases |s|
  {
    var i := IndexOf(s, sep);
    if i == |s| {
      WithoutAbsent(s, sep);
      if s == [] {
        assert Split(s, sep) == [];
      } else {
        assert Split(s, sep) == [s];
        assert Concat([s]) == s + Concat([]);
      }
    } else {
      var head, rest := s[..i], s[i + 1..];
      SplitAtSeparator(s, sep, i);
      SplitLosesOnlySeparators(rest, sep);
      if i == 0 {
        assert Split(s, sep) == Split(rest, sep);
      } else {
        ConcatCons(head, Split(rest, sep));
      }
    }
  }

  /** `string.Join(sep, parts)`. */
  function Join(parts: seq<string>, sep: char): (s: string)
    decreases |parts|
  {
    if |parts| <= 1 then Concat(parts) else parts[0] + [sep] + Join(parts[1..], sep)
  }

  /** Splitting cuts at every separator and nowhere else: joining non-empty,
      separator-free pieces and splitting the result gives the pieces back. */
  lemma {:induction false} SplitJoinRoundTrip(parts: seq<string>, sep: char)
    requires forall k :: 0 <= k < |parts| ==> parts[k] != [] && sep !in parts[k]
    ensures Split(Join(parts, sep), sep) == parts
    decreases |parts|
  {
    if parts == [] {
    } else if |parts| == 1 {
      var p := parts[0];
      assert parts[1..] == [];
      assert Join(parts, sep) == p + Concat(parts[1..]) == p;
      assert IndexOf(p, sep) == |p|;
    } else {
      var p, rest := parts[0], parts[1..];
      var s := Join(parts, sep);
      assert s == p + [sep] + Join(rest, sep);
      IndexOfAfterPrefix(p, Join(rest, sep), sep);
      assert s[..|p|] == p;
      assert s[|p| + 1..] == Join(rest, sep);
      assert forall k :: 0 <= k < |rest| ==> rest[k] == parts[k + 1];
      SplitJoinRoundTrip(rest, sep);
      assert parts == [p] + rest;
    }
  }

  /** `s.Split(new[] { sep }, 2)` on a string that contains `sep`: the text before
      the first separator and everything after it. */
  function SplitAtFirst(s: string, sep: char): (parts: (string, string))
    requires sep in s
    ensures sep !in parts.0
    ensures parts.0 + [sep] + parts.1 == s
  {
    var i := IndexOf(s, sep);
    assert s == s[..i] + [sep] + s[i + 1..];
    (s[..i], s[i + 1..])
  }
}
