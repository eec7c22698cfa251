/**
 * Python string operations the bot uses, over `string` (a sequence of
 * Unicode scalar values): `lower`, `strip`, `in`, `replace`, `split`,
 * `capitalize`, `str(int)`, and string ordering as `max` applies it.
 */
module Text {
  import opened Py

  /** Python's `str.isspace` for one character: exactly what `str.strip()` removes. */
  predicate IsSpace(c: char) {
    || c == ' '
    || ('\t' <= c <= '\r')
    || ('\U{1C}' <= c <= '\U{1F}')
    || c == '\U{85}' || c == '\U{A0}' || c == '\U{1680}'
    || ('\U{2000}' <= c <= '\U{200A}')
    || c == '\U{2028}' || c == '\U{2029}' || c == '\U{202F}' || c == '\U{205F}' || c == '\U{3000}'
  }

  function StripLeft(s: string): (r: string)
    ensures |r| <= |s| && r == s[|s| - |r|..]
    ensures r == [] || !IsSpace(r[0])
    ensures forall k :: 0 <= k < |s| - |r| ==> IsSpace(s[k])
    ensures forall c :: c in r ==> c in s
  {
    if s != [] && IsSpace(s[0]) then StripLeft(s[1..]) else s
  }

  function StripRight(s: string): (r: string)
    ensures |r| <= |s| && r == s[..|r|]
    ensures r == [] || !IsSpace(r[|r| - 1])
    ensures forall k :: |r| <= k < |s| ==> IsSpace(s[k])
    ensures forall c :: c in r ==> c in s
  {
    if s != [] && IsSpace(s[|s| - 1]) then StripRight(s[..|s| - 1]) else s
  }

  /** `s` is `r` with only whitespace around it. */
  ghost predicate PaddedBySpace(s: string, r: string) {
    exists i :: 0 <= i <= |s| - |r| && s[i..][..|r|] == r
      && (forall k :: 0 <= k < i ==> IsSpace(s[k]))
      && (forall k :: i + |r| <= k < |s| ==> IsSpace(s[k]))
  }

  /** Python's `str.strip()`: the result keeps no outer whitespace. */
  function Strip(s: string): (r: string)
    ensures r == [] || (!IsSpace(r[0]) && !IsSpace(r[|r| - 1]))
    ensures forall c :: c in r ==> c in s
  {
    StripRight(StripLeft(s))
  }

  /** `strip()` removes whitespace only. */
  lemma StripRemovesOnlySpace(s: string)
    ensures PaddedBySpace(s, Strip(s))
  {
    var t := StripLeft(s);
    var r := StripRight(t);
    var i := |s| - |t|;
    assert t == s[i..] && r == t[..|r|];
    assert forall k :: 0 <= k < i ==> IsSpace(s[k]);
    assert forall k :: i + |r| <= k < |s| ==> IsSpace(s[k]) by {
      forall k | i + |r| <= k < |s| ensures IsSpace(s[k]) {
        assert s[k] == t[k - i];
      }
    }
    assert 0 <= i <= |s| - |r| && s[i..][..|r|] == r;
  }

  /** Stripping a text that has no outer whitespace leaves it as it is. */
  lemma StripUnpadded(s: string)
    requires s == [] || (!IsSpace(s[0]) && !IsSpace(s[|s| - 1]))
    ensures Strip(s) == s
  {
  }

  /** The capitals `lower()` maps in this model: ASCII and Latin-1 (U+00C0..U+00DE except the sign U+00D7). */
  predicate IsUpper(c: char) {
    ('A' <= c <= 'Z') || ('\U{C0}' <= c <= '\U{DE}' && c != '\U{D7}')
  }

  function LowerChar(c: char): (d: char)
    ensures !IsUpper(d)
  {
    if IsUpper(c) then (c as int + 32) as char else c
  }

  /** Python's `str.lower()` on the capitals `IsUpper` names; other characters are kept. */
  function Lower(s: string): (r: string)
    ensures |r| == |s| && forall k :: 0 <= k < |s| ==> r[k] == LowerChar(s[k])
  {
    seq(|s|, k requires 0 <= k < |s| => LowerChar(s[k]))
  }

  predicate IsLower(s: string) {
    forall c :: c in s ==> !IsUpper(c)
  }

  lemma LowerResultIsLower(s: string)
    ensures IsLower(Lower(s))
  {
    forall c | c in Lower(s) ensures !IsUpper(c) {
      var k :| 0 <= k < |s| && Lower(s)[k] == c;
    }
  }

  lemma LowerOfLower(s: string)
    requires IsLower(s)
    ensures Lower(s) == s
  {
  }

  /** Python's `p in s`. */
  predicate Contains(s: string, p: string)
    decreases |s|
  {
    |p| <= |s| && (s[..|p|] == p || Contains(s[1..], p))
  }

  /** Python's `s.replace(p, r)`: every non-overlapping occurrence of `p`, scanned from the left, becomes `r`. */
  function ReplaceAll(s: string, p: string, r: string): (t: string)
    requires p != []
    ensures forall c :: c in t ==> c in s || c in r
    ensures |r| <= |p| ==> |t| <= |s|
    decreases |s|
  {
    if |s| < |p| then s
    else if s[..|p|] == p then r + ReplaceAll(s[|p|..], p, r)
    else [s[0]] + ReplaceAll(s[1..], p, r)
  }

  /** Replacing a pattern that does not occur changes nothing. */
  lemma {:induction false} ReplaceAbsent(s: string, p: string, r: string)
    requires p != [] && !Contains(s, p)
    ensures ReplaceAll(s, p, r) == s
    decreases |s|
  {
    if |s| >= |p| {
      ReplaceAbsent(s[1..], p, r);
      assert [s[0]] + s[1..] == s;
    }
  }

  /** A pattern with a character the text lacks does not occur in it. */
  lemma {:induction false} MissingCharNotContained(s: string, p: string, c: char)
    requires c in p && c !in s
    ensures !Contains(s, p)
    decreases |s|
  {
    if |p| <= |s| {
      assert s[..|p|] != p by {
        var k :| 0 <= k < |p| && p[k] == c;
        assert s[..|p|][k] == s[k];
      }
      MissingCharNotContained(s[1..], p, c);
    }
  }

  /** Python's `s.split(sep)` for a non-empty separator: always at least one piece. */
  function Split(s: string, sep: string): (pieces: seq<string>)
    requires sep != []
    ensures |pieces| >= 1
    decreases |s|
  {
    if |s| < |sep| then [s]
    else if s[..|sep|] == sep then [[]] + Split(s[|sep|..], sep)
    else
      var rest := Split(s[1..], sep);
      [[s[0]] + rest[0]] + rest[1..]
  }

  /** Python's `sep.join(pieces)`. */
  function Join(pieces: seq<string>, sep: string): string
    requires |pieces| >= 1
  {
    if |pieces| == 1 then pieces[0] else pieces[0] + sep + Join(pieces[1..], sep)
  }

  lemma JoinGrowsFirst(c: char, pieces: seq<string>, sep: string)
    requires |pieces| >= 1
    ensures Join([[c] + pieces[0]] + pieces[1..], sep) == [c] + Join(pieces, sep)
  {
    var q := [[c] + pieces[0]] + pieces[1..];
    if |pieces| > 1 {
      assert q[1..] == pieces[1..];
    }
  }

  /** Joining the pieces of a split with the same separator gives back the text. */
  lemma {:induction false} SplitJoin(s: string, sep: string)
    requires sep != []
    ensures Join(Split(s, sep), sep) == s
    decreases |s|
  {
    if |s| < |sep| {
    } else if s[..|sep|] == sep {
      var rest := Split(s[|sep|..], sep);
      SplitJoin(s[|sep|..], sep);
      assert Split(s, sep) == [[]] + rest;
      assert ([[]] + rest)[1..] == rest;
      assert Join([[]] + rest, sep) == [] + sep + Join(rest, sep);
      assert s == sep + s[|sep|..];
    } else {
      var rest := Split(s[1..], sep);
      SplitJoin(s[1..], sep);
      assert Split(s, sep) == [[s[0]] + rest[0]] + rest[1..];
      JoinGrowsFirst(s[0], rest, sep);
      assert s == [s[0]] + s[1..];
    }
  }

  /** A text without a `-` holds no `" - "`, so splitting leaves it whole. */
  lemma {:induction false} SplitWithoutDash(b: string)
    requires '-' !in b
    ensures Split(b, " - ") == [b]
    decreases |b|
  {
    if |b| >= 3 {
      assert b[..3] != " - " by { assert b[..3][1] == b[1]; }
      SplitWithoutDash(b[1..]);
      assert [b[0]] + b[1..] == b;
    }
  }

  /** When `a` has no `-`, the first `" - "` in `a + " - " + t` is the one after `a`. */
  lemma {:induction false} SplitAfterDashFree(a: string, t: string)
    requires '-' !in a
    ensures Split(a + " - " + t, " - ") == [a] + Split(t, " - ")
    decreases |a|
  {
    var s := a + " - " + t;
    if a == [] {
      assert s[..3] == " - " && s[3..] == t;
    } else {
      assert s[..3] != " - " by {
        assert s[1] == if |a| > 1 then a[1] else ' ';
      }
      assert s[1..] == a[1..] + " - " + t;
      SplitAfterDashFree(a[1..], t);
      assert [a[0]] + a[1..] == a;
    }
  }

  /** Python's `s.rfind(c)` for one character: the last position holding `c`, if any. */
  function LastIndexOf(s: string, c: char): (r: Option<nat>)
    ensures r.Some? ==> r.value < |s| && s[r.value] == c && forall k :: r.value < k < |s| ==> s[k] != c
    ensures r.None? ==> forall k :: 0 <= k < |s| ==> s[k] != c
    decreases |s|
  {
    if s == [] then None
    else if s[|s| - 1] == c then Some(|s| - 1)
    else
      var r := LastIndexOf(s[..|s| - 1], c);
      assert forall k :: 0 <= k < |s| - 1 ==> s[..|s| - 1][k] == s[k];
      r
  }

  function DigitChar(d: nat): char
    requires d < 10
  {
    ('0' as int + d) as char
  }

  predicate IsDigit(c: char) {
    '0' <= c <= '9'
  }

  /** Python's `str(n)` for a natural number: decimal, no leading zeros. */
  function NatToString(n: nat): (r: string)
    ensures |r| >= 1
    ensures forall k :: 0 <= k < |r| ==> IsDigit(r[k])
    decreases n
  {
    if n < 10 then [DigitChar(n)] else NatToString(n / 10) + [DigitChar(n % 10)]
  }

  /** Python's `str(i)` (as in an f-string) for an integer. */
  function IntToString(i: int): string {
    if i < 0 then "-" + NatToString(-i) else NatToString(i)
  }

  function DigitsValue(s: string): nat
    requires forall k :: 0 <= k < |s| ==> IsDigit(s[k])
  {
    if s == [] then 0
    else
      assert IsDigit(s[|s| - 1]);
      DigitsValue(s[..|s| - 1]) * 10 + (s[|s| - 1] as int - '0' as int)
  }

  /** Reading back a decimal natural number; `None` for anything that is not one. */
  function ParseNat(s: string): Option<nat> {
    if s != [] && forall k :: 0 <= k < |s| ==> IsDigit(s[k]) then Some(DigitsValue(s)) else None
  }

  /** Reading back an optionally negative decimal integer. */
  function ParseInt(s: string): Option<int> {
    if s != [] && s[0] == '-' then
      match ParseNat(s[1..])
      case Some(n) => Some(0 - n as int)
      case None => None
    else
      match ParseNat(s)
      case Some(n) => Some(n)
      case None => None
  }

  lemma {:induction false} NatRoundTrip(n: nat)
    ensures ParseNat(NatToString(n)) == Some(n)
    decreases n
  {
    var s := NatToString(n);
    assert s[|s| - 1] as int - '0' as int == n % 10;
    if n >= 10 {
      NatRoundTrip(n / 10);
      assert s[..|s| - 1] == NatToString(n / 10);
    } else {
      assert s[..|s| - 1] == [];
      assert DigitsValue(s) == n;
    }
  }

  lemma IntRoundTrip(i: int)
    ensures ParseInt(IntToString(i)) == Some(i)
  {
    NatRoundTrip(if i < 0 then -i else i);
    if i < 0 {
      assert IntToString(i)[1..] == NatToString(-i);
    }
  }

  /** Python's `a < b` on strings: code points compared left to right, a proper prefix first. */
  predicate StrLess(a: string, b: string) {
    if a == [] then b != []
    else b != [] && (if a[0] == b[0] then StrLess(a[1..], b[1..]) else a[0] < b[0])
  }

  lemma StrLessIrreflexive(a: string)
    ensures !StrLess(a, a)
  {
  }

  lemma StrLessTransitive(a: string, b: string, c: string)
    requires StrLess(a, b) && StrLess(b, c)
    ensures StrLess(a, c)
  {
    if a != [] && b != [] && c != [] && a[0] == b[0] && b[0] == c[0] {
      StrLessTransitive(a[1..], b[1..], c[1..]);
    }
  }

  /** The index of the element Python's `max(keys)` returns: it scans left to right and moves only to a strictly greater key. */
  function MaxIndex(keys: seq<string>): (i: nat)
    requires |keys| > 0
    ensures i < |keys|
  {
    if |keys| == 1 then 0
    else
      var m := MaxIndex(keys[..|keys| - 1]);
      if StrLess(keys[m], keys[|keys| - 1]) then |keys| - 1 else m
  }

  /** No key is greater than the one `max` picks. */
  lemma {:induction false} MaxIndexIsMaximal(keys: seq<string>)
    requires |keys| > 0
    ensures forall j :: 0 <= j < |keys| ==> !StrLess(keys[MaxIndex(keys)], keys[j])
  {
    if |keys| > 1 {
      var init := keys[..|keys| - 1];
      MaxIndexIsMaximal(init);
      var m := MaxIndex(init);
      var last := keys[|keys| - 1];
      assert keys[m] == init[m];
      assert MaxIndex(keys) == if StrLess(keys[m], last) then |keys| - 1 else m;
      forall j | 0 <= j < |keys|
        ensures !StrLess(keys[MaxIndex(keys)], keys[j])
      {
        if j < |keys| - 1 {
          assert keys[j] == init[j];
          if StrLess(keys[m], last) && StrLess(last, keys[j]) {
            StrLessTransitive(keys[m], last, keys[j]);
          }
        } else {
          StrLessIrreflexive(last);
        }
      }
    } else {
      StrLessIrreflexive(keys[0]);
    }
  }

  /** The capitals `UpperChar` produces: the ASCII and Latin-1 small letters with a one-letter capital. */
  function UpperChar(c: char): char {
    if ('a' <= c <= 'z') || ('\U{E0}' <= c <= '\U{FE}' && c != '\U{F7}') then (c as int - 32) as char else c
  }

  /** Python's `str.capitalize()`: the first letter upper-cased, the rest lower-cased. */
  function Capitalize(s: string): (r: string)
    ensures |r| == |s|
    ensures s != [] ==> IsLower(r[1..])
  {
    if s == [] then [] else
      LowerResultIsLower(s[1..]);
      assert ([UpperChar(s[0])] + Lower(s[1..]))[1..] == Lower(s[1..]);
      [UpperChar(s[0])] + Lower(s[1..])
  }
}
