/**
 * The subject-pair buttons of main_bot.py:34-90 and the split of a
 * pressed button's callback data into `fan1` and `fan2`
 * (main_bot.py:156).
 */
module Pairs {
  import opened Text

  /** The subject pairs of `FANLAR_JUFTLIKLARI` that are not commented out, in order. */
  const Subjects: seq<(string, string)> := [
    ("Biologiya", "Kimyo"),
    ("Biologiya", "Ona tili va adabiyoti"),
    ("Chet tili", "Ona tili va adabiyoti"),
    ("Fizika", "Chet tili"),
    ("Fizika", "Matematika"),
    ("Fransuz tili", "Ona tili va adabiyoti"),
    ("Geografiya", "Matematika"),
    ("Huquqshunoslik", "Chet tili"),
    ("Huquqshunoslik", "Ingliz tili"),
    ("Ingliz tili", "Matematika"),
    ("Ingliz tili", "Ona tili va adabiyoti"),
    ("Ingliz tili", "Tarix"),
    ("Kimyo", "Biologiya"),
    ("Kimyo", "Fizika"),
    ("Kimyo", "Matematika"),
    ("Matematika", "Biologiya"),
    ("Matematika", "Chet tili"),
    ("Matematika", "Fizika"),
    ("Matematika", "Geografiya"),
    ("Matematika", "Ingliz tili"),
    ("Matematika", "Kimyo"),
    ("Matematika", "Ona tili va adabiyoti"),
    ("Nemis tili", "Ona tili va adabiyoti"),
    ("Ona tili va adabiyoti", "Chet tili"),
    ("Ona tili va adabiyoti", "Ingliz tili"),
    ("Ona tili va adabiyoti", "Matematika"),
    ("Ona tili va adabiyoti", "Tarix"),
    ("O'zbek tili va adabiyoti", "Chet tili"),
    ("Tarix", "Chet tili"),
    ("Tarix", "Geografiya"),
    ("Tarix", "Matematika"),
    ("Tarix", "Ona tili va adabiyoti")]

  /** A button label `"A - B"`. */
  function Label(pair: (string, string)): string {
    pair.0 + " - " + pair.1
  }

  function Labels(pairs: seq<(string, string)>): (r: seq<string>)
    ensures |r| == |pairs| && forall i :: 0 <= i < |pairs| ==> r[i] == Label(pairs[i])
  {
    if pairs == [] then [] else [Label(pairs[0])] + Labels(pairs[1..])
  }

  /** The labels (and callback data) of the keyboard `start` sends: `FANLAR_JUFTLIKLARI`. */
  const PairButtons: seq<string> := Labels(Subjects)

  /**
   * The split of main_bot.py:156: the stripped pieces of the callback data
   * around `" - "`; `fan1` is the first, `fan2` the second or, without a
   * separator, `fan1` again.
   */
  function PairOf(data: string): (string, string) {
    var pieces := Split(data, " - ");
    var fan1 := Strip(pieces[0]);
    var fan2 := if |pieces| > 1 then Strip(pieces[1]) else fan1;
    (fan1, fan2)
  }

  /** A subject name that can stand on either side of a label. */
  predicate PlainSubject(s: string) {
    '-' !in s && (s == [] || (!IsSpace(s[0]) && !IsSpace(s[|s| - 1])))
  }

  lemma SplitLabel(a: string, b: string)
    requires '-' !in a && '-' !in b
    ensures Split(a + " - " + b, " - ") == [a, b]
  {
    SplitAfterDashFree(a, b);
    SplitWithoutDash(b);
  }

  /** A label `"A - B"` of two plain subjects splits back into `A` and `B`. */
  lemma PairOfLabel(a: string, b: string)
    requires PlainSubject(a) && PlainSubject(b)
    ensures PairOf(Label((a, b))) == (a, b)
  {
    SplitLabel(a, b);
    StripUnpadded(a);
    StripUnpadded(b);
  }

  /** Callback data without a `-` gives the same stripped text as both subjects. */
  lemma PairOfWithoutSeparator(data: string)
    requires '-' !in data
    ensures PairOf(data) == (Strip(data), Strip(data))
  {
    SplitWithoutDash(data);
  }

  /** Both subjects of every active pair are plain, four pairs at a time. */
  lemma SubjectsArePlain0To4()
    ensures forall i :: 0 <= i < 4 ==> PlainSubject(Subjects[i].0) && PlainSubject(Subjects[i].1)
  {
  }

  lemma SubjectsArePlain4To8()
    ensures forall i :: 4 <= i < 8 ==> PlainSubject(Subjects[i].0) && PlainSubject(Subjects[i].1)
  {
  }

  lemma SubjectsArePlain8To12()
    ensures forall i :: 8 <= i < 12 ==> PlainSubject(Subjects[i].0) && PlainSubject(Subjects[i].1)
  {
  }

  lemma SubjectsArePlain12To16()
    ensures forall i :: 12 <= i < 16 ==> PlainSubject(Subjects[i].0) && PlainSubject(Subjects[i].1)
  {
  }

  lemma SubjectsArePlain16To20()
    ensures forall i :: 16 <= i < 20 ==> PlainSubject(Subjects[i].0) && PlainSubject(Subjects[i].1)
  {
  }

  lemma SubjectsArePlain20To24()
    ensures forall i :: 20 <= i < 24 ==> PlainSubject(Subjects[i].0) && PlainSubject(Subjects[i].1)
  {
  }

  lemma SubjectsArePlain24To28()
    ensures forall i :: 24 <= i < 28 ==> PlainSubject(Subjects[i].0) && PlainSubject(Subjects[i].1)
  {
  }

  lemma SubjectsArePlain28To32()
    ensures forall i :: 28 <= i < 32 ==> PlainSubject(Subjects[i].0) && PlainSubject(Subjects[i].1)
  {
  }

  /** Every button `start` offers splits back into the pair it was built from. */
  lemma ButtonsSplitIntoTheirPair()
    ensures |PairButtons| == |Subjects|
    ensures forall i :: 0 <= i < |PairButtons| ==> PairOf(PairButtons[i]) == Subjects[i]
  {
    SubjectsArePlain0To4();
    SubjectsArePlain4To8();
    SubjectsArePlain8To12();
    SubjectsArePlain12To16();
    SubjectsArePlain16To20();
    SubjectsArePlain20To24();
    SubjectsArePlain24To28();
    SubjectsArePlain28To32();
    forall i | 0 <= i < |PairButtons| ensures PairOf(PairButtons[i]) == Subjects[i] {
      PairOfLabel(Subjects[i].0, Subjects[i].1);
    }
  }
}
