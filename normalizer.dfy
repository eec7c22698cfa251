/**
 * The subject-name normalizer `normalize_string` (main_bot.py:100-104):
 * the comparison key under which a user's subject pair and a program's
 * required subjects are matched.
 */
module Normalizer {
  import opened Py
  import opened Text

  /** The one label every creative or vocational exam collapses to. */
  const CreativeExam: string := "kasbiy (ijodiy) imtihon"

  /** The apostrophe variant as main_bot.py:104 spells it: `o`, U+201A, U+00C4, U+00F2 (the UTF-8 bytes of `o‘` read as Mac Roman). */
  const MisencodedVariant: string := "o\U{201A}\U{C4}\U{F2}"

  /** The variant that spelling stands for: `o` followed by U+2018 (left single quotation mark). */
  const CurlyVariant: string := "o\U{2018}"

  /** `normalize_string` with the first apostrophe variant as a parameter; the second is always `o'`. */
  function NormalizeWith(v: Json, variant: string): (r: string)
    requires variant != []
    ensures !v.Str? ==> r == ""
    ensures v.Str? && (Contains(Lower(v.s), "ijodiy") || Contains(Lower(v.s), "kasbiy")) ==> r == CreativeExam
    ensures IsLower(r)
    ensures r == [] || (!IsSpace(r[0]) && !IsSpace(r[|r| - 1]))
  {
    match v
    case Str(s) =>
      var low := Lower(s);
      if Contains(low, "ijodiy") || Contains(low, "kasbiy") then
        CreativeExamShape();
        CreativeExam
      else
        var folded := ReplaceAll(ReplaceAll(low, variant, "o"), "o'", "o");
        LowerResultIsLower(s);
        assert IsLower(folded);
        Strip(folded)
    case _ => ""
  }

  lemma CreativeExamShape()
    ensures IsLower(CreativeExam)
    ensures !IsSpace(CreativeExam[0]) && !IsSpace(CreativeExam[|CreativeExam| - 1])
  {
  }

  /** `normalize_string` exactly as main_bot.py:104 spells it. */
  function NormalizeAsWritten(v: Json): string {
    NormalizeWith(v, MisencodedVariant)
  }

  /** `normalize_string` with the apostrophe variant it evidently means; the matching in this model uses this one. */
  function Normalize(v: Json): string {
    NormalizeWith(v, CurlyVariant)
  }

  /** The canonical label is a fixed point of the normalizer. */
  lemma CreativeExamIsFixed(variant: string)
    requires variant != []
    ensures NormalizeWith(Str(CreativeExam), variant) == CreativeExam
  {
    CreativeExamShape();
    LowerOfLower(CreativeExam);
    assert CreativeExam[..6] == "kasbiy";
    assert Contains(CreativeExam, "kasbiy");
  }

  /** A text without a `y` holds neither exam marker. */
  lemma NoMarker(s: string)
    requires 'y' !in s
    ensures !Contains(s, "ijodiy") && !Contains(s, "kasbiy")
  {
    assert "ijodiy"[5] == 'y' && "kasbiy"[5] == 'y';
    MissingCharNotContained(s, "ijodiy", 'y');
    MissingCharNotContained(s, "kasbiy", 'y');
  }

  /** Away from the exam markers, the normalizer folds the two variants in turn and strips. */
  lemma NormalizeUnmarked(s: string, variant: string)
    requires variant != [] && 'y' !in Lower(s)
    ensures NormalizeWith(Str(s), variant) == Strip(ReplaceAll(ReplaceAll(Lower(s), variant, "o"), "o'", "o"))
  {
    NoMarker(Lower(s));
  }

  /** Away from the exam markers, a text whose two folds give an unpadded `t` normalizes to `t`. */
  lemma NormalizeUnmarkedTo(s: string, low: string, variant: string, mid: string, t: string)
    requires variant != [] && Lower(s) == low && 'y' !in low
    requires ReplaceAll(low, variant, "o") == mid && ReplaceAll(mid, "o'", "o") == t
    requires t == [] || (!IsSpace(t[0]) && !IsSpace(t[|t| - 1]))
    ensures NormalizeWith(Str(s), variant) == t
  {
    NormalizeUnmarked(s, variant);
    StripUnpadded(t);
  }

  /** A lower-case text without U+2018 gives the intended variant nothing to fold. */
  lemma CurlyAbsent(s: string)
    requires '\U{2018}' !in s
    ensures ReplaceAll(s, CurlyVariant, "o") == s
  {
    MissingCharNotContained(s, CurlyVariant, '\U{2018}');
    ReplaceAbsent(s, CurlyVariant, "o");
  }

  /** Normalizing is not idempotent: a second pass can fold an `o'` that the first pass created. */
  lemma NotIdempotent()
    ensures Normalize(Str("oo''")) == "oo'"
    ensures Normalize(Str("oo'")) == "oo"
  {
    LowerOfLower("oo''");
    LowerOfLower("oo'");
    CurlyAbsent("oo''");
    CurlyAbsent("oo'");
    FoldOoQuoteQuote();
    FoldOoQuote();
    NormalizeUnmarkedTo("oo''", "oo''", CurlyVariant, "oo''", "oo'");
    NormalizeUnmarkedTo("oo'", "oo'", CurlyVariant, "oo'", "oo");
  }

  lemma FoldOoQuoteQuote()
    ensures ReplaceAll("oo''", "o'", "o") == "oo'"
  {
  }

  lemma FoldOoQuote()
    ensures ReplaceAll("oo'", "o'", "o") == "oo"
  {
  }

  /** A second pass changes nothing once no apostrophe variant and no exam marker is left (or the result is the label). */
  lemma SecondPassStable(v: Json, variant: string)
    requires variant != []
    requires var r := NormalizeWith(v, variant);
      r == CreativeExam || (!Contains(r, variant) && !Contains(r, "o'") && !Contains(r, "ijodiy") && !Contains(r, "kasbiy"))
    ensures NormalizeWith(Str(NormalizeWith(v, variant)), variant) == NormalizeWith(v, variant)
  {
    var r := NormalizeWith(v, variant);
    if r == CreativeExam {
      CreativeExamIsFixed(variant);
    } else {
      LowerOfLower(r);
      ReplaceAbsent(r, variant, "o");
      ReplaceAbsent(r, "o'", "o");
      StripUnpadded(r);
    }
  }

  /** The as-written variant contains a capital, and `lower()` has removed every capital: it can never occur. */
  lemma MisencodedVariantNeverOccurs(s: string)
    ensures !Contains(Lower(s), MisencodedVariant)
    ensures ReplaceAll(Lower(s), MisencodedVariant, "o") == Lower(s)
  {
    assert MisencodedVariant[2] == '\U{C4}';
    assert '\U{C4}' !in Lower(s) by {
      LowerResultIsLower(s);
    }
    MissingCharNotContained(Lower(s), MisencodedVariant, '\U{C4}');
    ReplaceAbsent(Lower(s), MisencodedVariant, "o");
  }

  /** As written, only the straight apostrophe is folded. */
  lemma {:induction false} AsWrittenFoldsOnlyStraight(s: string)
    ensures NormalizeAsWritten(Str(s)) ==
      if Contains(Lower(s), "ijodiy") || Contains(Lower(s), "kasbiy") then CreativeExam
      else Strip(ReplaceAll(Lower(s), "o'", "o"))
  {
    MisencodedVariantNeverOccurs(s);
  }

  /** As written, a subject spelled with U+2018 does not match the same subject spelled with `'`. */
  lemma AsWrittenSplitsSpellings()
    ensures NormalizeAsWritten(Str("O\U{2018}zbek")) == "o\U{2018}zbek"
    ensures NormalizeAsWritten(Str("O'zbek")) == "ozbek"
  {
    AsWrittenCurlyUzbek();
    AsWrittenStraightUzbek();
  }

  lemma AsWrittenCurlyUzbek()
    ensures NormalizeWith(Str("O\U{2018}zbek"), MisencodedVariant) == "o\U{2018}zbek"
  {
    LowerCurlyUzbek();
    MisencodedAbsentCurlyUzbek();
    FoldKeepsCurlyUzbek();
    NormalizeUnmarkedTo("O\U{2018}zbek", "o\U{2018}zbek", MisencodedVariant, "o\U{2018}zbek", "o\U{2018}zbek");
  }

  lemma AsWrittenStraightUzbek()
    ensures NormalizeWith(Str("O'zbek"), MisencodedVariant) == "ozbek"
  {
    LowerStraightUzbek();
    MisencodedAbsentStraightUzbek();
    FoldStraightUzbek();
    NormalizeUnmarkedTo("O'zbek", "o'zbek", MisencodedVariant, "o'zbek", "ozbek");
  }

  lemma MisencodedAbsentCurlyUzbek()
    ensures ReplaceAll("o\U{2018}zbek", MisencodedVariant, "o") == "o\U{2018}zbek"
  {
    MisencodedAbsent("o\U{2018}zbek");
  }

  lemma MisencodedAbsentStraightUzbek()
    ensures ReplaceAll("o'zbek", MisencodedVariant, "o") == "o'zbek"
  {
    MisencodedAbsent("o'zbek");
  }

  /** A text without U+00C4 holds no as-written variant. */
  lemma MisencodedAbsent(s: string)
    requires '\U{C4}' !in s
    ensures ReplaceAll(s, MisencodedVariant, "o") == s
  {
    assert MisencodedVariant[2] == '\U{C4}';
    MissingCharNotContained(s, MisencodedVariant, '\U{C4}');
    ReplaceAbsent(s, MisencodedVariant, "o");
  }

  lemma LowerCurlyUzbek()
    ensures Lower("O\U{2018}zbek") == "o\U{2018}zbek"
  {
  }

  lemma LowerStraightUzbek()
    ensures Lower("O'zbek") == "o'zbek"
  {
  }

  lemma FoldKeepsCurlyUzbek()
    ensures ReplaceAll("o\U{2018}zbek", "o'", "o") == "o\U{2018}zbek"
  {
    var s := "o\U{2018}zbek";
    assert s[1] == '\U{2018}' && s[..1] + s[1..] == s;
    assert forall k :: 0 <= k < |s| ==> s[k] != '\'';
    MissingCharNotContained(s, "o'", '\'');
    ReplaceAbsent(s, "o'", "o");
  }

  lemma FoldStraightUzbek()
    ensures ReplaceAll("o'zbek", "o'", "o") == "ozbek"
  {
    var s := "o'zbek";
    assert s[..2] == "o'" && s[2..] == "zbek";
    assert forall k :: 0 <= k < |"zbek"| ==> "zbek"[k] != '\'';
    MissingCharNotContained("zbek", "o'", '\'');
    ReplaceAbsent("zbek", "o'", "o");
  }

  lemma FoldCurlyUzbek()
    ensures ReplaceAll("o\U{2018}zbek", CurlyVariant, "o") == "ozbek"
  {
    var s := "o\U{2018}zbek";
    assert s[..2] == CurlyVariant && s[2..] == "zbek";
    assert forall k :: 0 <= k < |"zbek"| ==> "zbek"[k] != '\U{2018}';
    MissingCharNotContained("zbek", CurlyVariant, '\U{2018}');
    ReplaceAbsent("zbek", CurlyVariant, "o");
  }

  // ---- The intended fold treats U+2018 like the straight apostrophe ----

  function StraightenChar(c: char): char {
    if c == '\U{2018}' then '\'' else c
  }

  /** Every U+2018 written as a straight apostrophe. */
  function Straighten(s: string): (r: string)
    ensures |r| == |s| && forall k :: 0 <= k < |s| ==> r[k] == StraightenChar(s[k])
  {
    seq(|s|, k requires 0 <= k < |s| => StraightenChar(s[k]))
  }

  lemma StraightenConcat(a: string, b: string)
    ensures Straighten(a + b) == Straighten(a) + Straighten(b)
  {
  }

  lemma StraightenSlices(s: string, i: nat)
    requires i <= |s|
    ensures Straighten(s)[i..] == Straighten(s[i..])
    ensures Straighten(s)[..i] == Straighten(s[..i])
  {
  }

  lemma StraightenInjectiveOn(w: string, m: string)
    requires '\'' !in m && '\U{2018}' !in m
    ensures Straighten(w) == m <==> w == m
  {
    if w == m {
      assert Straighten(w) == m;
    }
    if Straighten(w) == m {
      assert forall k :: 0 <= k < |w| ==> w[k] == m[k] by {
        forall k | 0 <= k < |w| ensures w[k] == m[k] {
          assert Straighten(w)[k] == m[k];
        }
      }
    }
  }

  /** A text without quotes occurs in the straightened text exactly where it occurs in the original. */
  lemma {:induction false} ContainsStraightened(t: string, m: string)
    requires '\'' !in m && '\U{2018}' !in m
    ensures Contains(Straighten(t), m) <==> Contains(t, m)
    decreases |t|
  {
    if |m| <= |t| && t != [] {
      StraightenSlices(t, |m|);
      StraightenInjectiveOn(t[..|m|], m);
      StraightenSlices(t, 1);
      ContainsStraightened(t[1..], m);
    }
  }

  /** Folding `o'` in the straightened text is the straightened result of folding `o‘` in the original. */
  lemma {:induction false} FoldStraightened(t: string)
    requires '\'' !in t
    ensures ReplaceAll(Straighten(t), "o'", "o") == Straighten(ReplaceAll(t, CurlyVariant, "o"))
    decreases |t|
  {
    var st := Straighten(t);
    if |t| >= 2 {
      StraightenSlices(t, 2);
      StraightenSlices(t, 1);
      if t[..2] == CurlyVariant {
        assert st[..2] == "o'";
        FoldStraightened(t[2..]);
        StraightenConcat("o", ReplaceAll(t[2..], CurlyVariant, "o"));
      } else {
        assert t[1] in t;
        assert st[1] != '\'' || t[1] == '\U{2018}';
        assert st[..2] != "o'";
        FoldStraightened(t[1..]);
        StraightenConcat([t[0]], ReplaceAll(t[1..], CurlyVariant, "o"));
      }
    }
  }

  lemma {:induction false} StripLeftStraightened(x: string)
    ensures StripLeft(Straighten(x)) == Straighten(StripLeft(x))
    decreases |x|
  {
    if x != [] {
      StraightenSlices(x, 1);
      StripLeftStraightened(x[1..]);
    }
  }

  lemma {:induction false} StripRightStraightened(x: string)
    ensures StripRight(Straighten(x)) == Straighten(StripRight(x))
    decreases |x|
  {
    if x != [] {
      StraightenSlices(x, |x| - 1);
      StripRightStraightened(x[..|x| - 1]);
    }
  }

  lemma StripStraightened(x: string)
    ensures Strip(Straighten(x)) == Straighten(Strip(x))
  {
    StripLeftStraightened(x);
    StripRightStraightened(StripLeft(x));
  }

  /** Neither quote is a capital or the lower case of one, so lowering and straightening commute. */
  lemma LowerStraightened(s: string)
    ensures Lower(Straighten(s)) == Straighten(Lower(s))
  {
  }

  lemma StraightQuoteNotLowered(s: string)
    requires '\'' !in s
    ensures '\'' !in Lower(s)
  {
    forall k | 0 <= k < |s| ensures Lower(s)[k] != '\'' {
      assert s[k] in s;
    }
  }

  lemma CurlyNotStraightened(s: string)
    ensures '\U{2018}' !in Straighten(s)
  {
  }

  lemma StraightQuoteNotReplaced(s: string)
    requires '\'' !in s
    ensures '\'' !in ReplaceAll(s, CurlyVariant, "o")
  {
  }

  /** Away from the exam markers, `normalize_string` is the two folds followed by `strip`. */
  lemma NormalizeFolds(s: string, variant: string)
    requires variant != [] && !Contains(Lower(s), "ijodiy") && !Contains(Lower(s), "kasbiy")
    ensures NormalizeWith(Str(s), variant) == Strip(ReplaceAll(ReplaceAll(Lower(s), variant, "o"), "o'", "o"))
  {
  }

  /** Writing U+2018 instead of a straight apostrophe makes no difference to the intended normalizer, beyond the quotes it leaves alone. */
  lemma CurlyFoldedLikeStraight(s: string)
    requires '\'' !in s
    ensures Normalize(Str(Straighten(s))) == Straighten(Normalize(Str(s)))
  {
    var low := Lower(s);
    LowerStraightened(s);
    ContainsStraightened(low, "ijodiy");
    ContainsStraightened(low, "kasbiy");
    if Contains(low, "ijodiy") || Contains(low, "kasbiy") {
      CreativeExamStraight();
    } else {
      CurlyFoldedUnmarked(s);
    }
  }

  lemma CreativeExamStraight()
    ensures Straighten(CreativeExam) == CreativeExam
  {
  }

  lemma CurlyFoldedUnmarked(s: string)
    requires '\'' !in s
    requires !Contains(Lower(s), "ijodiy") && !Contains(Lower(s), "kasbiy")
    requires !Contains(Lower(Straighten(s)), "ijodiy") && !Contains(Lower(Straighten(s)), "kasbiy")
    ensures Normalize(Str(Straighten(s))) == Straighten(Normalize(Str(s)))
  {
    var low := Lower(s);
    LowerStraightened(s);
    var sl := Straighten(low);
    NormalizeFolds(s, CurlyVariant);
    NormalizeFolds(Straighten(s), CurlyVariant);
    CurlyNotStraightened(low);
    CurlyAbsent(sl);
    StraightQuoteNotLowered(s);
    var a := ReplaceAll(low, CurlyVariant, "o");
    StraightQuoteNotReplaced(low);
    MissingCharNotContained(a, "o'", '\'');
    ReplaceAbsent(a, "o'", "o");
    FoldStraightened(low);
    StripStraightened(a);
  }

  /** With the intended variant, the two spellings of a subject name agree. */
  lemma IntendedJoinsSpellings()
    ensures Normalize(Str("O\U{2018}zbek")) == "ozbek"
    ensures Normalize(Str("O'zbek")) == "ozbek"
  {
    IntendedCurlyUzbek();
    IntendedStraightUzbek();
  }

  lemma IntendedCurlyUzbek()
    ensures NormalizeWith(Str("O\U{2018}zbek"), CurlyVariant) == "ozbek"
  {
    LowerCurlyUzbek();
    FoldCurlyUzbek();
    StraightAbsentUzbek();
    NormalizeUnmarkedTo("O\U{2018}zbek", "o\U{2018}zbek", CurlyVariant, "ozbek", "ozbek");
  }

  lemma IntendedStraightUzbek()
    ensures NormalizeWith(Str("O'zbek"), CurlyVariant) == "ozbek"
  {
    LowerStraightUzbek();
    FoldStraightUzbek();
    IntendedStraightVia("O'zbek", "o'zbek", "ozbek");
  }

  lemma IntendedStraightVia(s: string, low: string, t: string)
    requires Lower(s) == low && '\U{2018}' !in low && 'y' !in low
    requires ReplaceAll(low, "o'", "o") == t && (t == [] || (!IsSpace(t[0]) && !IsSpace(t[|t| - 1])))
    ensures NormalizeWith(Str(s), CurlyVariant) == t
  {
    CurlyAbsent(low);
    NormalizeUnmarkedTo(s, low, CurlyVariant, low, t);
  }

  lemma StraightAbsentUzbek()
    ensures ReplaceAll("ozbek", "o'", "o") == "ozbek"
  {
  }
}
