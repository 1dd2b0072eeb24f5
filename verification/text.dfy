/**
 * String operations the site applies to user input and to paths: JavaScript's
 * `trim`, `replace(/\D/g, '')`, `split`, `join`, `includes`, `padStart`,
 * `slice` and `String(n)`, over `seq<char>`.
 */
module Text {

  /** The fixed whitespace set `trim` removes: the ECMAScript WhiteSpace and LineTerminator code points. */
  predicate IsWhitespace(c: char) {
    ('\t' <= c <= '\r') || c == ' ' || c == '\U{00A0}' || c == '\U{1680}'
    || ('\U{2000}' <= c <= '\U{200A}') || c == '\U{2028}' || c == '\U{2029}'
    || c == '\U{202F}' || c == '\U{205F}' || c == '\U{3000}' || c == '\U{FEFF}'
  }

  predicate AllWhitespace(s: string) {
    forall i :: 0 <= i < |s| ==> IsWhitespace(s[i])
  }

  /** A string with no whitespace at either end (what `trim` returns). */
  predicate IsTrimmed(s: string) {
    s == [] || (!IsWhitespace(s[0]) && !IsWhitespace(s[|s| - 1]))
  }

  /** Drops leading whitespace: the result is the suffix after the whitespace prefix. */
  function TrimStart(s: string): (r: string)
    ensures |r| <= |s| && r == s[|s| - |r|..]
    ensures AllWhitespace(s[..|s| - |r|])
    ensures r == [] || !IsWhitespace(r[0])
    decreases |s|
  {
    if |s| > 0 && IsWhitespace(s[0]) then
      var t := s[1..];
      var r := TrimStart(t);
      assert AllWhitespace(s[..|s| - |r|]) by {
        forall i | 0 <= i < |s| - |r|
          ensures IsWhitespace(s[i])
        {
          if i > 0 {
            assert s[i] == t[..|t| - |r|][i - 1];
          }
        }
      }
      r
    else
      s
  }

  /** Drops trailing whitespace: the result is the prefix before the whitespace suffix. */
  function TrimEnd(s: string): (r: string)
    ensures |r| <= |s| && r == s[..|r|]
    ensures AllWhitespace(s[|r|..])
    ensures r == [] || !IsWhitespace(r[|r| - 1])
    decreases |s|
  {
    if |s| > 0 && IsWhitespace(s[|s| - 1]) then
      var t := s[..|s| - 1];
      var r := TrimEnd(t);
      assert AllWhitespace(s[|r|..]) by {
        forall i | |r| <= i < |s|
          ensures IsWhitespace(s[i])
        {
          if i < |s| - 1 {
            assert s[i] == t[|r|..][i - |r|];
          }
        }
      }
      r
    else
      s
  }

  /** JavaScript's `String.prototype.trim`. */
  function Trim(s: string): (r: string)
    ensures IsTrimmed(r)
  {
    TrimEnd(TrimStart(s))
  }

  /** `!s.trim()`: the field the forms treat as missing. */
  predicate IsBlank(s: string) {
    Trim(s) == []
  }

  /** A string is blank exactly when every character of it is whitespace. */
  lemma BlankIffAllWhitespace(s: string)
    ensures IsBlank(s) <==> AllWhitespace(s)
  {
    assert s[..|s|] == s;
  }

  /** Whitespace in front of an already trimmed, non-empty string is exactly what `trim` removes. */
  lemma {:induction false} TrimPadded(pad: string, s: string)
    requires AllWhitespace(pad) && IsTrimmed(s) && s != []
    ensures Trim(pad + s) == s
  {
    TrimStartPadded(pad, s);
  }

  lemma {:induction false} TrimStartPadded(pad: string, s: string)
    requires AllWhitespace(pad) && s != [] && !IsWhitespace(s[0])
    ensures TrimStart(pad + s) == s
    decreases |pad|
  {
    if pad == [] {
      assert pad + s == s;
    } else {
      assert (pad + s)[1..] == pad[1..] + s;
      TrimStartPadded(pad[1..], s);
    }
  }

  // ---------------------------------------------------------------------------
  // Digits: `value.replace(/\D/g, '')`
  // ---------------------------------------------------------------------------

  /** `\d` in a JavaScript regular expression without the `u` flag: the ASCII digits only. */
  predicate IsAsciiDigit(c: char) {
    '0' <= c <= '9'
  }

  predicate AllDigits(s: string) {
    forall i :: 0 <= i < |s| ==> IsAsciiDigit(s[i])
  }

  /** Removes every non-digit character: the result holds the ASCII digits of `s` and nothing else. */
  function KeepDigits(s: string): (r: string)
    ensures AllDigits(r)
    ensures |r| <= |s|
    ensures forall c | IsAsciiDigit(c) :: multiset(r)[c] == multiset(s)[c]
  {
    if s == [] then []
    else
      assert s == [s[0]] + s[1..];
      if IsAsciiDigit(s[0]) then [s[0]] + KeepDigits(s[1..]) else KeepDigits(s[1..])
  }

  /** Sanitising distributes over concatenation, so the digits stay in their input order. */
  lemma {:induction false} KeepDigitsConcat(a: string, b: string)
    ensures KeepDigits(a + b) == KeepDigits(a) + KeepDigits(b)
    decreases |a|
  {
    if a == [] {
      assert a + b == b;
    } else {
      assert (a + b)[0] == a[0];
      assert (a + b)[1..] == a[1..] + b;
      KeepDigitsConcat(a[1..], b);
    }
  }

  /** A string of digits is left as it is. */
  lemma {:induction false} KeepDigitsOfDigits(s: string)
    requires AllDigits(s)
    ensures KeepDigits(s) == s
    decreases |s|
  {
    if s != [] {
      KeepDigitsOfDigits(s[1..]);
    }
  }

  /** Sanitising twice changes nothing. */
  lemma KeepDigitsIdempotent(s: string)
    ensures KeepDigits(KeepDigits(s)) == KeepDigits(s)
  {
    KeepDigitsOfDigits(KeepDigits(s));
  }

  // ---------------------------------------------------------------------------
  // replace(/x/g, y), replace(/[xy]+/g, '') and filter
  // ---------------------------------------------------------------------------

  /** Replaces every occurrence of one character by another. */
  function ReplaceChar(s: string, from: char, to: char): (r: string)
    ensures |r| == |s|
    ensures forall i :: 0 <= i < |s| ==> r[i] == (if s[i] == from then to else s[i])
  {
    if s == [] then [] else [if s[0] == from then to else s[0]] + ReplaceChar(s[1..], from, to)
  }

  lemma ReplaceCharRemoves(s: string, from: char, to: char)
    requires from != to
    ensures from !in ReplaceChar(s, from, to)
  {
  }

  /** `xs.filter(x => !drop.has(x))`: the elements outside `drop`, in their order. */
  function Without<T(==,!new)>(xs: seq<T>, drop: set<T>): (r: seq<T>)
    ensures forall i :: 0 <= i < |r| ==> r[i] !in drop
    ensures forall x | x !in drop :: multiset(r)[x] == multiset(xs)[x]
    ensures multiset(r) <= multiset(xs)
  {
    if xs == [] then []
    else
      assert xs == [xs[0]] + xs[1..];
      if xs[0] in drop then Without(xs[1..], drop) else [xs[0]] + Without(xs[1..], drop)
  }

  /** A sequence none of whose elements is dropped is unchanged. */
  lemma {:induction false} WithoutNoop<T(!new)>(xs: seq<T>, drop: set<T>)
    requires forall i :: 0 <= i < |xs| ==> xs[i] !in drop
    ensures Without(xs, drop) == xs
    decreases |xs|
  {
    if xs != [] {
      WithoutNoop(xs[1..], drop);
    }
  }

  /** Filtering distributes over concatenation. */
  lemma {:induction false} WithoutConcat<T(!new)>(xs: seq<T>, ys: seq<T>, drop: set<T>)
    ensures Without(xs + ys, drop) == Without(xs, drop) + Without(ys, drop)
    decreases |xs|
  {
    if xs == [] {
      assert xs + ys == ys;
    } else {
      assert (xs + ys)[0] == xs[0];
      assert (xs + ys)[1..] == xs[1..] + ys;
      WithoutConcat(xs[1..], ys, drop);
    }
  }

  /** A dropped element appended at the end is filtered out again. */
  lemma WithoutDroppedLast<T(!new)>(xs: seq<T>, x: T, drop: set<T>)
    requires x in drop
    ensures Without(xs + [x], drop) == Without(xs, drop)
  {
    WithoutConcat(xs, [x], drop);
    assert [x][1..] == [];
  }

  /** Filtering out the one dropped element of a sequence cuts it out where it stood. */
  lemma WithoutCutsOut<T(!new)>(before: seq<T>, x: T, after: seq<T>, drop: set<T>)
    requires x in drop
    requires forall i :: 0 <= i < |before| ==> before[i] !in drop
    requires forall i :: 0 <= i < |after| ==> after[i] !in drop
    ensures Without(before + [x] + after, drop) == before + after
  {
    WithoutConcat(before + [x], after, drop);
    WithoutDroppedLast(before, x, drop);
    WithoutNoop(before, drop);
    WithoutNoop(after, drop);
  }

  predicate Distinct<T(==)>(xs: seq<T>) {
    forall i, j :: 0 <= i < j < |xs| ==> xs[i] != xs[j]
  }

  /** Filtering keeps a duplicate-free sequence duplicate-free. */
  lemma {:induction false} WithoutDistinct<T(!new)>(xs: seq<T>, drop: set<T>)
    requires Distinct(xs)
    ensures Distinct(Without(xs, drop))
    decreases |xs|
  {
    if xs != [] {
      WithoutDistinct(xs[1..], drop);
      var rest := Without(xs[1..], drop);
      if xs[0] !in drop {
        assert forall k :: 0 <= k < |xs[1..]| ==> xs[1..][k] != xs[0] by {
          forall k | 0 <= k < |xs[1..]| ensures xs[1..][k] != xs[0] {
            assert xs[1..][k] == xs[k + 1];
          }
        }
        assert multiset(rest)[xs[0]] == 0;
        var r := [xs[0]] + rest;
        forall i, j | 0 <= i < j < |r| ensures r[i] != r[j] {
          if i == 0 {
            assert r[j] == rest[j - 1] && rest[j - 1] in multiset(rest);
          }
        }
      }
    }
  }

  // ---------------------------------------------------------------------------
  // Prefixes, suffixes, substrings
  // ---------------------------------------------------------------------------

  predicate StartsWith(s: string, prefix: string) {
    |prefix| <= |s| && s[..|prefix|] == prefix
  }

  predicate EndsWith(s: string, suffix: string) {
    |suffix| <= |s| && s[|s| - |suffix|..] == suffix
  }

  /** `s.includes(sub)`. */
  predicate Contains(s: string, sub: string) {
    exists i :: 0 <= i <= |s| - |sub| && OccursAt(s, sub, i)
  }

  predicate OccursAt(s: string, sub: string, i: nat)
    requires i + |sub| <= |s|
  {
    s[i..i + |sub|] == sub
  }

  /** `s.slice(0, n)`. */
  function Take(s: string, n: nat): (r: string)
    ensures |r| == if n < |s| then n else |s|
    ensures StartsWith(s, r)
  {
    if n < |s| then s[..n] else s
  }

  // ---------------------------------------------------------------------------
  // split(c) and join(sep)
  // ---------------------------------------------------------------------------

  /** `s.split(c)` for a one-character separator: the pieces between separators, at least one. */
  function Split(s: string, c: char): (r: seq<string>)
    ensures |r| >= 1
    ensures forall k :: 0 <= k < |r| ==> c !in r[k]
  {
    if s == [] then [[]]
    else
      var rest := Split(s[1..], c);
      if s[0] == c then [[]] + rest else [[s[0]] + rest[0]] + rest[1..]
  }

  /** `parts.join(sep)`; an empty list joins to the empty string. */
  function Join(parts: seq<string>, sep: string): string {
    if parts == [] then []
    else if |parts| == 1 then parts[0]
    else parts[0] + sep + Join(parts[1..], sep)
  }

  /** Joining the pieces of a split with the separator gives back the original string. */
  lemma {:induction false} JoinSplit(s: string, c: char)
    ensures Join(Split(s, c), [c]) == s
  {
    if s != [] {
      var rest := Split(s[1..], c);
      JoinSplit(s[1..], c);
      if s[0] == c {
        assert Split(s, c)[1..] == rest;
      } else {
        var r := Split(s, c);
        assert r[0] == [s[0]] + rest[0] && r[1..] == rest[1..];
        if |rest| == 1 {
          assert s == [s[0]] + s[1..];
        } else {
          assert Join(rest, [c]) == rest[0] + [c] + Join(rest[1..], [c]);
          assert s == [s[0]] + s[1..];
        }
      }
    }
  }

  /** A separator-free piece followed by the separator splits off as one piece. */
  lemma {:induction false} SplitAfterPiece(a: string, b: string, c: char)
    requires c !in a
    ensures Split(a + [c] + b, c) == [a] + Split(b, c)
    decreases |a|
  {
    if a == [] {
      assert a + [c] + b == [c] + b;
      assert ([c] + b)[1..] == b;
    } else {
      assert (a + [c] + b)[1..] == a[1..] + [c] + b;
      SplitAfterPiece(a[1..], b, c);
      assert [a[0]] + a[1..] == a;
    }
  }

  /** A separator-free string is one piece. */
  lemma {:induction false} SplitNoSeparator(a: string, c: char)
    requires c !in a
    ensures Split(a, c) == [a]
    decreases |a|
  {
    if a != [] {
      SplitNoSeparator(a[1..], c);
      assert [a[0]] + a[1..] == a;
    }
  }

  /** Every piece trimmed, the empty ones dropped: `.map(s => s.trim()).filter(s => s.length > 0)`. */
  function TrimmedNonEmpty(pieces: seq<string>): (r: seq<string>)
    ensures |r| <= |pieces|
    ensures forall k :: 0 <= k < |r| ==> r[k] != [] && IsTrimmed(r[k])
  {
    if pieces == [] then []
    else
      var t := Trim(pieces[0]);
      if t == [] then TrimmedNonEmpty(pieces[1..]) else [t] + TrimmedNonEmpty(pieces[1..])
  }

  /** Trimming never introduces a character. */
  lemma TrimSubstring(s: string, c: char)
    requires c !in s
    ensures c !in Trim(s)
  {
    var t := TrimStart(s);
    assert c !in t by {
      assert t == s[|s| - |t|..];
      assert forall i :: 0 <= i < |t| ==> t[i] == s[|s| - |t| + i];
    }
    var r := TrimEnd(t);
    assert forall i :: 0 <= i < |r| ==> r[i] == t[i];
  }

  /**
   * A comma-separated list as the detail page reads it: split on `,`, each
   * piece trimmed, empty pieces dropped. No item is empty, padded or holds a comma.
   */
  function ParseCommaList(s: string): (r: seq<string>)
    ensures forall k :: 0 <= k < |r| ==> r[k] != [] && IsTrimmed(r[k]) && ',' !in r[k]
  {
    var pieces := Split(s, ',');
    NoCommaSurvives(pieces);
    TrimmedNonEmpty(pieces)
  }

  lemma {:induction false} NoCommaSurvives(pieces: seq<string>)
    requires forall k :: 0 <= k < |pieces| ==> ',' !in pieces[k]
    ensures forall k :: 0 <= k < |TrimmedNonEmpty(pieces)| ==> ',' !in TrimmedNonEmpty(pieces)[k]
    decreases |pieces|
  {
    if pieces != [] {
      NoCommaSurvives(pieces[1..]);
      TrimSubstring(pieces[0], ',');
    }
  }

  /** A list item fit to be joined and read back: non-empty, trimmed, comma-free. */
  predicate ListItem(d: string) {
    d != [] && IsTrimmed(d) && ',' !in d
  }

  /** Every item but the first with one space in front: how `join(', ')` lays them out after each comma. */
  function SpaceEach(ds: seq<string>): (r: seq<string>)
    ensures |r| == |ds|
  {
    if ds == [] then [] else [" " + ds[0]] + SpaceEach(ds[1..])
  }

  lemma {:induction false} SplitJoined(prefix: string, ds: seq<string>)
    requires ds != [] && ',' !in prefix
    requires forall k :: 0 <= k < |ds| ==> ',' !in ds[k]
    ensures Split(prefix + Join(ds, ", "), ',') == [prefix + ds[0]] + SpaceEach(ds[1..])
    decreases |ds|
  {
    if |ds| == 1 {
      SplitNoSeparator(prefix + ds[0], ',');
    } else {
      var rest := Join(ds[1..], ", ");
      assert prefix + Join(ds, ", ") == (prefix + ds[0]) + [','] + (" " + rest);
      SplitAfterPiece(prefix + ds[0], " " + rest, ',');
      SplitJoined(" ", ds[1..]);
    }
  }

  lemma {:induction false} TrimmedNonEmptyConcat(xs: seq<string>, ys: seq<string>)
    ensures TrimmedNonEmpty(xs + ys) == TrimmedNonEmpty(xs) + TrimmedNonEmpty(ys)
    decreases |xs|
  {
    if xs == [] {
      assert xs + ys == ys;
    } else {
      assert (xs + ys)[0] == xs[0];
      assert (xs + ys)[1..] == xs[1..] + ys;
      TrimmedNonEmptyConcat(xs[1..], ys);
    }
  }

  lemma {:induction false} TrimmedNonEmptySpaced(ds: seq<string>)
    requires forall k :: 0 <= k < |ds| ==> ListItem(ds[k])
    ensures TrimmedNonEmpty(SpaceEach(ds)) == ds
    decreases |ds|
  {
    if ds != [] {
      assert AllWhitespace(" ");
      TrimPadded(" ", ds[0]);
      TrimmedNonEmptySpaced(ds[1..]);
    }
  }

  /**
   * Round trip: items joined with `", "` and read back as a comma-separated
   * list give the same items in the same order.
   */
  lemma ParseJoinedList(ds: seq<string>)
    requires forall k :: 0 <= k < |ds| ==> ListItem(ds[k])
    ensures ParseCommaList(Join(ds, ", ")) == ds
  {
    if ds == [] {
      assert Split([], ',') == [[]];
    } else {
      assert Split(Join(ds, ", "), ',') == [ds[0]] + SpaceEach(ds[1..]) by {
        SplitJoined([], ds);
        assert [] + Join(ds, ", ") == Join(ds, ", ");
        assert [] + ds[0] == ds[0];
      }
      TrimmedHeadAndSpaced(ds);
    }
  }

  lemma TrimmedHeadAndSpaced(ds: seq<string>)
    requires ds != [] && forall k :: 0 <= k < |ds| ==> ListItem(ds[k])
    ensures TrimmedNonEmpty([ds[0]] + SpaceEach(ds[1..])) == ds
  {
    TrimmedNonEmptyConcat([ds[0]], SpaceEach(ds[1..]));
    TrimmedNonEmptySingle(ds[0]);
    TrimmedNonEmptySpaced(ds[1..]);
    assert [ds[0]] + ds[1..] == ds;
  }

  lemma TrimmedNonEmptySingle(d: string)
    requires ListItem(d)
    ensures TrimmedNonEmpty([d]) == [d]
  {
    TrimPadded([], d);
    assert [] + d == d;
    assert [d][1..] == [];
  }


  // ---------------------------------------------------------------------------
  // Decimal rendering: String(n) and padStart
  // ---------------------------------------------------------------------------

  function DigitChar(d: nat): (c: char)
    requires d < 10
    ensures IsAsciiDigit(c)
  {
    ['0', '1', '2', '3', '4', '5', '6', '7', '8', '9'][d]
  }

  function DigitValue(c: char): (d: nat)
    requires IsAsciiDigit(c)
    ensures d < 10
  {
    (c - '0') as nat
  }

  /** The number a string of decimal digits denotes (leading zeros allowed). */
  function DecimalValue(s: string): nat
    requires AllDigits(s)
  {
    if s == [] then 0 else DecimalValue(s[..|s| - 1]) * 10 + DigitValue(s[|s| - 1])
  }

  /** `String(n)` for a natural number: its decimal digits with no leading zero. */
  function NatToString(n: nat): (r: string)
    ensures |r| >= 1 && AllDigits(r)
    ensures r[0] == '0' ==> n == 0
    ensures n < 10 <==> |r| == 1
  {
    if n < 10 then [DigitChar(n)] else NatToString(n / 10) + [DigitChar(n % 10)]
  }

  /** Rendering a number and reading the digits back gives the number. */
  lemma {:induction false} NatToStringValue(n: nat)
    ensures DecimalValue(NatToString(n)) == n
  {
    var r := NatToString(n);
    if n < 10 {
      assert r[..0] == [];
      DigitRoundTrip(n);
    } else {
      NatToStringValue(n / 10);
      assert r[..|r| - 1] == NatToString(n / 10);
      DigitRoundTrip(n % 10);
    }
  }

  lemma DigitRoundTrip(d: nat)
    requires d < 10
    ensures DigitValue(DigitChar(d)) == d
  {
  }

  /** A run of `n` copies of `c`. */
  function Repeat(c: char, n: nat): (r: string)
    ensures |r| == n && forall i :: 0 <= i < n ==> r[i] == c
  {
    if n == 0 then [] else [c] + Repeat(c, n - 1)
  }

  /** `s.padStart(len, c)`. */
  function PadStart(s: string, len: nat, c: char): (r: string)
    ensures |r| == if |s| < len then len else |s|
    ensures EndsWith(r, s)
    ensures forall i :: 0 <= i < |r| - |s| ==> r[i] == c
  {
    var pad := if |s| < len then Repeat(c, len - |s|) else [];
    assert (pad + s)[|pad|..] == s;
    pad + s
  }

  /** Leading zeros do not change the value a digit string denotes. */
  lemma {:induction false} LeadingZeros(z: nat, s: string)
    requires AllDigits(s)
    ensures AllDigits(Repeat('0', z) + s)
    ensures DecimalValue(Repeat('0', z) + s) == DecimalValue(s)
    decreases |s|
  {
    var t := Repeat('0', z) + s;
    if s == [] {
      assert t == Repeat('0', z);
      ZerosValue(z);
    } else {
      LeadingZeros(z, s[..|s| - 1]);
      assert t[..|t| - 1] == Repeat('0', z) + s[..|s| - 1];
    }
  }

  lemma {:induction false} ZerosValue(z: nat)
    ensures AllDigits(Repeat('0', z)) && DecimalValue(Repeat('0', z)) == 0
  {
    if z > 0 {
      ZerosValue(z - 1);
      var r := Repeat('0', z);
      assert r[..|r| - 1] == Repeat('0', z - 1) by {
        assert r == Repeat('0', z - 1) + ['0'] by {
          RepeatSnoc(z - 1);
        }
      }
    }
  }

  lemma {:induction false} RepeatSnoc(n: nat)
    ensures Repeat('0', n + 1) == Repeat('0', n) + ['0']
  {
  }
}
