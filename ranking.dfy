/**
 * The recommendation engine `find_recommendations` (main_bot.py:234-261):
 * per matching program a comparison score for the grant and the contract
 * series, grant-first status resolution, malformed programs skipped, then
 * the suitable programs sorted by rounded passing score, best five kept.
 */
module Ranking {
  import opened Py
  import opened Text
  import opened Normalizer
  import opened Catalog
  import opened Eligibility

  datatype Funding = Grant | Kontrakt

  /** One entry of `suitable_directions` (the dict built at main_bot.py:258). */
  datatype Recommendation = Recommendation(
    institution: string,
    region: Json,
    program: Json,
    status: Funding,
    passingScore: real,
    year: string,
    educationForm: Json,
    language: Json,
    fee: Json)

  /** A series' comparison score (a mean, or the single year's raw value) and its descriptor. */
  datatype Comparison = Comparison(score: Json, info: string)

  /** The status a program is recommended under, with the unrounded score it was tested against. */
  datatype Verdict = Verdict(status: Funding, score: real, info: string)

  /** `sum(d.values())`: starts from 0 and adds each value; a value that is not a number raises. */
  function SumValues(fields: seq<(string, Json)>): (r: Result<real>)
    ensures r.Ok? <==> forall i :: 0 <= i < |fields| ==> AsReal(fields[i].1).Some?
    decreases |fields|
  {
    if fields == [] then Ok(0.0)
    else
      var init := fields[..|fields| - 1];
      assert forall i :: 0 <= i < |init| ==> init[i] == fields[i];
      var total :- SumValues(init);
      match AsReal(fields[|fields| - 1].1)
      case Some(x) => Ok(total + x)
      case None => Raised
  }

  /** The numbers of a series whose values are all numbers, in order. */
  function Values(fields: seq<(string, Json)>): (xs: seq<real>)
    requires forall i :: 0 <= i < |fields| ==> AsReal(fields[i].1).Some?
    ensures |xs| == |fields| && forall i :: 0 <= i < |fields| ==> xs[i] == AsReal(fields[i].1).value
  {
    seq(|fields|, i requires 0 <= i < |fields| => AsReal(fields[i].1).value)
  }

  /** The arithmetic sum of a list of numbers. */
  function Sum(xs: seq<real>): real
    decreases |xs|
  {
    if xs == [] then 0.0 else Sum(xs[..|xs| - 1]) + xs[|xs| - 1]
  }

  /**
   * The comparison score of one series (main_bot.py:248-253): none for an
   * empty series; the mean and `"<N> yillik o'rtacha"` for two or more
   * years; the one year's value and `"<year>-yil"` for a single year. A
   * non-empty series that is not a dict raises (it has no `.values()` or
   * `.keys()`, or no `len`).
   */
  function SeriesScore(series: Json): (r: Result<Option<Comparison>>)
    ensures r.Ok? && r.value.Some? ==> series.Obj? && series.fields != []
  {
    if !Truthy(series) then Ok(None)
    else
      match series
      case Obj(fields) =>
        if |fields| >= 2 then
          var total :- SumValues(fields);
          Ok(Some(Comparison(Num(total / |fields| as real), IntToString(|fields|) + " yillik o'rtacha")))
        else
          var latest := fields[LatestYear(fields)];
          Ok(Some(Comparison(latest.1, latest.0 + "-yil")))
      case _ => Raised
  }

  /**
   * `if score and user_ball >= score`: a missing or falsy score does not
   * qualify; a truthy score that is not a number raises in the comparison.
   * The score is returned when the ball reaches it.
   */
  function Qualifies(ball: real, c: Option<Comparison>): (r: Result<Option<real>>)
    ensures r.Ok? && r.value.Some? ==> c.Some? && AsReal(c.value.score) == Some(r.value.value) && ball >= r.value.value
  {
    match c
    case None => Ok(None)
    case Some(cmp) =>
      if !Truthy(cmp.score) then Ok(None)
      else
        match AsReal(cmp.score)
        case Some(x) => Ok(if ball >= x then Some(x) else None)
        case None => Raised
  }

  /** Status resolution of main_bot.py:254-256: grant is tested first, contract only when grant does not qualify. */
  function Resolve(ball: real, grant: Option<Comparison>, kontrakt: Option<Comparison>): (r: Result<Option<Verdict>>)
    ensures r.Ok? && r.value.Some? ==> ball >= r.value.value.score
  {
    var g :- Qualifies(ball, grant);
    if g.Some? then Ok(Some(Verdict(Grant, g.value, grant.value.info)))
    else
      var k :- Qualifies(ball, kontrakt);
      if k.Some? then Ok(Some(Verdict(Kontrakt, k.value, kontrakt.value.info)))
      else Ok(None)
  }

  /** Python's `round(x, 1)` taken on exact reals: to the nearest tenth, a tie to the even tenth. */
  function RoundTenth(x: real): (r: real)
    ensures -1.0 / 20.0 <= r - x <= 1.0 / 20.0
  {
    var y := x * 10.0;
    var n := y.Floor;
    var frac := y - n as real;
    var k := if frac < 0.5 then n else if frac > 0.5 then n + 1 else if n % 2 == 0 then n else n + 1;
    k as real / 10.0
  }

  /**
   * The body of the `try` at main_bot.py:242-258 for one program: `None`
   * when it is not recommended, `Raised` when the `except` skips it.
   */
  function Evaluate(e: Entry, n1: string, n2: string, ball: real): (r: Result<Option<Recommendation>>)
    ensures r.Ok? && r.value.Some? ==> SubjectsMatch(e.program, n1, n2) == Ok(true)
  {
    var matched :- SubjectsMatch(e.program, n1, n2);
    if !matched then Ok(None)
    else
      // the program is a dict here: its "fanlar" was read
      var ballari := Field(e.program, "o'tish_ballari", Obj([]));
      if !ballari.Obj? then Raised
      else
        var grant := SeriesScore(Field(ballari, "grant", Obj([])));
        var kontrakt := SeriesScore(Field(ballari, "kontrakt", Obj([])));
        if grant.Raised? || kontrakt.Raised? then Raised
        else
          var verdict :- Resolve(ball, grant.value, kontrakt.value);
          match verdict
          case None => Ok(None)
          case Some(v) =>
            if !e.otm.Obj? then Raised
            else
              var name := Field(e.otm, "otm_nomi", Str("N/A"));
              if !name.Str? then Raised
              else
                Ok(Some(Recommendation(
                  Capitalize(name.s),
                  Field(e.otm, "otm_hududi", Str("N/A")),
                  Field(e.program, "ta'lim_yo'nalishi_nomi", Str("N/A")),
                  v.status,
                  RoundTenth(v.score),
                  v.info,
                  Field(e.program, "education_form", Str("N/A")),
                  Field(e.program, "language", Str("N/A")),
                  Field(e.program, "kontrakt_miqdori", Num(0.0)))))
  }

  /** What the loop appends for one program: the record if there is one; nothing when it is not recommended or raised. */
  function Kept(outcome: Result<Option<Recommendation>>): (r: seq<Recommendation>)
    ensures |r| <= 1
  {
    if outcome.Ok? && outcome.value.Some? then [outcome.value.value] else []
  }

  /** The concatenation of `f(x)` over `xs`, in order. */
  function Gather<T>(xs: seq<T>, f: T -> seq<Recommendation>): seq<Recommendation>
    decreases |xs|
  {
    if xs == [] then [] else Gather(xs[..|xs| - 1], f) + f(xs[|xs| - 1])
  }

  /** `suitable_directions` after the scan of the programs `es`. */
  function Suitable(es: seq<Entry>, n1: string, n2: string, ball: real): seq<Recommendation> {
    Gather(es, e => Kept(Evaluate(e, n1, n2, ball)))
  }

  /** `t` is sorted by passing score, highest first. */
  predicate Descending(t: seq<Recommendation>) {
    forall i, j :: 0 <= i < j < |t| ==> t[i].passingScore >= t[j].passingScore
  }

  /** `x` placed after every element of `t` whose score is at least its own. */
  function Insert(t: seq<Recommendation>, x: Recommendation): (r: seq<Recommendation>)
    ensures |r| == |t| + 1
    decreases |t|
  {
    if t == [] then [x]
    else if t[|t| - 1].passingScore >= x.passingScore then t + [x]
    else Insert(t[..|t| - 1], x) + [t[|t| - 1]]
  }

  /** `sorted(s, key=lambda x: x['passing_score'], reverse=True)`: a stable sort, highest score first. */
  function SortDesc(s: seq<Recommendation>): (r: seq<Recommendation>)
    ensures |r| == |s|
    decreases |s|
  {
    if s == [] then [] else Insert(SortDesc(s[..|s| - 1]), s[|s| - 1])
  }

  /** The slice `[:5]`. */
  function TopFive(s: seq<Recommendation>): (r: seq<Recommendation>)
    ensures |r| <= 5 && r <= s
    ensures |s| >= 5 ==> |r| == 5
  {
    if |s| <= 5 then s else s[..5]
  }

  /** `find_recommendations` for the user's subjects, ball and the catalog `data`. */
  function Recommend(fan1: string, fan2: string, ball: real, data: Json): Result<seq<Recommendation>> {
    if !Truthy(data) then Ok([])
    else
      var es :- Entries(data);
      Ok(TopFive(SortDesc(Suitable(es, Normalize(Str(fan1)), Normalize(Str(fan2)), ball))))
  }

  // ---- Sorting ----

  lemma {:induction false} InsertDescending(t: seq<Recommendation>, x: Recommendation)
    requires Descending(t)
    ensures Descending(Insert(t, x))
    decreases |t|
  {
    if t == [] {
    } else if t[|t| - 1].passingScore >= x.passingScore {
      DescendingSnoc(t, x);
    } else {
      var init := t[..|t| - 1];
      var last := t[|t| - 1];
      assert Descending(init) by {
        forall i, j | 0 <= i < j < |init| ensures init[i].passingScore >= init[j].passingScore {
          assert init[i] == t[i] && init[j] == t[j];
        }
      }
      assert forall i :: 0 <= i < |init| ==> init[i].passingScore >= last.passingScore by {
        forall i | 0 <= i < |init| ensures init[i].passingScore >= last.passingScore {
          assert init[i] == t[i];
        }
      }
      InsertDescending(init, x);
      InsertBounded(init, x, last.passingScore);
      DescendingSnoc(Insert(init, x), last);
    }
  }

  /** Appending a record no higher than any of `t` keeps `t` descending. */
  lemma DescendingSnoc(t: seq<Recommendation>, y: Recommendation)
    requires Descending(t)
    requires forall i :: 0 <= i < |t| ==> t[i].passingScore >= y.passingScore
    ensures Descending(t + [y])
  {
    forall i, j | 0 <= i < j < |t| + 1 ensures (t + [y])[i].passingScore >= (t + [y])[j].passingScore {
      assert (t + [y])[i] == t[i];
    }
  }

  /** Insertion adds exactly `x`. */
  lemma {:induction false} InsertPermutes(t: seq<Recommendation>, x: Recommendation)
    ensures multiset(Insert(t, x)) == multiset(t) + multiset{x}
    decreases |t|
  {
    if t != [] && t[|t| - 1].passingScore < x.passingScore {
      var init := t[..|t| - 1];
      assert t == init + [t[|t| - 1]];
      InsertPermutes(init, x);
    }
  }

  /** Every score in `Insert(t, x)` is at least `b` when every score in `t` and `x`'s are. */
  lemma {:induction false} InsertBounded(t: seq<Recommendation>, x: Recommendation, b: real)
    requires forall i :: 0 <= i < |t| ==> t[i].passingScore >= b
    requires x.passingScore >= b
    ensures forall i :: 0 <= i < |Insert(t, x)| ==> Insert(t, x)[i].passingScore >= b
    decreases |t|
  {
    if t != [] && t[|t| - 1].passingScore < x.passingScore {
      InsertBounded(t[..|t| - 1], x, b);
    }
  }

  /** The records with score `v`, in order. */
  function WithScore(s: seq<Recommendation>, v: real): seq<Recommendation>
    decreases |s|
  {
    if s == [] then []
    else WithScore(s[..|s| - 1], v) + (if s[|s| - 1].passingScore == v then [s[|s| - 1]] else [])
  }

  lemma {:induction false} WithScoreConcat(a: seq<Recommendation>, b: seq<Recommendation>, v: real)
    ensures WithScore(a + b, v) == WithScore(a, v) + WithScore(b, v)
    decreases |b|
  {
    if b == [] {
      assert a + b == a;
    } else {
      assert (a + b)[..|a + b| - 1] == a + b[..|b| - 1];
      WithScoreConcat(a, b[..|b| - 1], v);
    }
  }

  lemma WithScoreSingle(y: Recommendation, v: real)
    ensures WithScore([y], v) == if y.passingScore == v then [y] else []
  {
    assert [y][..0] == [];
  }

  /** Two records with different scores never both have score `v`, so their selections commute. */
  lemma WithScoreSwap(x: Recommendation, y: Recommendation, v: real)
    requires x.passingScore != y.passingScore
    ensures WithScore([x], v) + WithScore([y], v) == WithScore([y], v) + WithScore([x], v)
  {
    WithScoreSingle(x, v);
    WithScoreSingle(y, v);
  }

  lemma {:induction false} InsertStable(t: seq<Recommendation>, x: Recommendation, v: real)
    ensures WithScore(Insert(t, x), v) == WithScore(t, v) + WithScore([x], v)
    decreases |t|
  {
    if t == [] {
    } else if t[|t| - 1].passingScore >= x.passingScore {
      WithScoreConcat(t, [x], v);
    } else {
      var init := t[..|t| - 1];
      var last := t[|t| - 1];
      var r := Insert(init, x);
      assert Insert(t, x) == r + [last];
      assert t == init + [last];
      var wi, wx, wl := WithScore(init, v), WithScore([x], v), WithScore([last], v);
      InsertStable(init, x, v);
      WithScoreConcat(r, [last], v);
      WithScoreConcat(init, [last], v);
      WithScoreSwap(x, last, v);
      calc {
        WithScore(Insert(t, x), v);
        WithScore(r, v) + wl;
        (wi + wx) + wl;
        wi + (wx + wl);
        wi + (wl + wx);
        (wi + wl) + wx;
        WithScore(t, v) + wx;
      }
    }
  }

  /** The sort orders by score, highest first, and is a permutation. */
  lemma {:induction false} SortDescSorts(s: seq<Recommendation>)
    ensures Descending(SortDesc(s))
    ensures multiset(SortDesc(s)) == multiset(s)
    decreases |s|
  {
    if s != [] {
      var init := s[..|s| - 1];
      SortDescSorts(init);
      InsertDescending(SortDesc(init), s[|s| - 1]);
      InsertPermutes(SortDesc(init), s[|s| - 1]);
      assert s == init + [s[|s| - 1]];
    }
  }

  /** The sort is stable: records with equal scores keep the order of the scan. */
  lemma {:induction false} SortDescStable(s: seq<Recommendation>, v: real)
    ensures WithScore(SortDesc(s), v) == WithScore(s, v)
    decreases |s|
  {
    if s != [] {
      var init := s[..|s| - 1];
      SortDescStable(init, v);
      InsertStable(SortDesc(init), s[|s| - 1], v);
      WithScoreConcat(init, [s[|s| - 1]], v);
      assert s == init + [s[|s| - 1]];
    }
  }

  // ---- Properties of one program ----

  /** Grant-first resolution: grant when its score qualifies; else contract when that one does; else nothing. The verdict carries the winning series' score and descriptor. */
  lemma StatusResolution(ball: real, grant: Option<Comparison>, kontrakt: Option<Comparison>)
    requires Resolve(ball, grant, kontrakt).Ok?
    ensures var v := Resolve(ball, grant, kontrakt).value;
      && (Qualifies(ball, grant).Ok? && Qualifies(ball, grant).value.Some? ==>
            v == Some(Verdict(Grant, Qualifies(ball, grant).value.value, grant.value.info)))
      && (v.Some? && v.value.status == Grant ==> Qualifies(ball, grant) == Ok(Some(v.value.score)) && v.value.info == grant.value.info)
      && (v.Some? && v.value.status == Kontrakt ==>
            && Qualifies(ball, grant) == Ok(None)
            && Qualifies(ball, kontrakt) == Ok(Some(v.value.score)) && v.value.info == kontrakt.value.info)
      && (v.None? <==> Qualifies(ball, grant) == Ok(None) && Qualifies(ball, kontrakt) == Ok(None))
  {
  }

  /**
   * `if score and user_ball >= score` on one series: it qualifies with
   * score `x` exactly when the series has a truthy numeric score `x` the
   * ball reaches, and it raises exactly when the score is truthy but not a
   * number.
   */
  lemma QualifyingScore(ball: real, c: Option<Comparison>, x: real)
    ensures Qualifies(ball, c) == Ok(Some(x)) <==>
      c.Some? && Truthy(c.value.score) && AsReal(c.value.score) == Some(x) && ball >= x
    ensures Qualifies(ball, c).Raised? <==> c.Some? && Truthy(c.value.score) && AsReal(c.value.score).None?
    ensures Qualifies(ball, c) == Ok(Some(x)) ==> x != 0.0
  {
  }

  lemma BoundStep(lo: real, hi: real, n: real, total: real, x: real)
    requires lo * n <= total <= hi * n && lo <= x <= hi
    ensures lo * (n + 1.0) <= total + x <= hi * (n + 1.0)
  {
  }

  lemma {:induction false} SumBounds(fields: seq<(string, Json)>, lo: real, hi: real)
    requires forall i :: 0 <= i < |fields| ==> AsReal(fields[i].1).Some? && lo <= AsReal(fields[i].1).value <= hi
    ensures SumValues(fields).Ok?
    ensures lo * |fields| as real <= SumValues(fields).value <= hi * |fields| as real
    decreases |fields|
  {
    if fields != [] {
      var init := fields[..|fields| - 1];
      assert forall i :: 0 <= i < |init| ==> init[i] == fields[i];
      SumBounds(init, lo, hi);
      var n := |init| as real;
      var x := AsReal(fields[|fields| - 1].1).value;
      assert SumValues(fields).value == SumValues(init).value + x;
      BoundStep(lo, hi, n, SumValues(init).value, x);
      assert |fields| as real == n + 1.0;
    }
  }

  /** `sum(d.values())` is the sum of the series' numbers. */
  lemma {:induction false} SumValuesIsSum(fields: seq<(string, Json)>)
    requires forall i :: 0 <= i < |fields| ==> AsReal(fields[i].1).Some?
    ensures SumValues(fields) == Ok(Sum(Values(fields)))
    decreases |fields|
  {
    if fields != [] {
      var init := fields[..|fields| - 1];
      assert forall i :: 0 <= i < |init| ==> init[i] == fields[i];
      SumValuesIsSum(init);
      assert Values(fields)[..|fields| - 1] == Values(init);
    }
  }

  /** A series of two or more years compares with the mean of its values, which lies within their range. */
  lemma SeriesMean(fields: seq<(string, Json)>, lo: real, hi: real)
    requires |fields| >= 2
    requires forall i :: 0 <= i < |fields| ==> AsReal(fields[i].1).Some? && lo <= AsReal(fields[i].1).value <= hi
    ensures SeriesScore(Obj(fields)).Ok? && SeriesScore(Obj(fields)).value.Some?
    ensures var c := SeriesScore(Obj(fields)).value.value;
      && c.info == IntToString(|fields|) + " yillik o'rtacha"
      && c.score == Num(Sum(Values(fields)) / |fields| as real)
      && lo <= c.score.x <= hi
  {
    SumValuesIsSum(fields);
    SumBounds(fields, lo, hi);
    var n := |fields| as real;
    var total := SumValues(fields).value;
    assert lo * n <= total <= hi * n;
    MeanWithin(lo, hi, n, total);
  }

  /** A total between `lo * n` and `hi * n` has its `n`-th part between `lo` and `hi`. */
  lemma MeanWithin(lo: real, hi: real, n: real, total: real)
    requires n > 0.0 && lo * n <= total <= hi * n
    ensures lo <= total / n <= hi
  {
    assert (total / n) * n == total;
  }

  /** Two years, 140 and 160, compare with their mean 150 as the two-year average. */
  lemma SeriesMeanTwoYears()
    ensures SeriesScore(Obj([("2022", Num(140.0)), ("2023", Num(160.0))])) == Ok(Some(Comparison(Num(150.0), "2 yillik o'rtacha")))
  {
    var fields := [("2022", Num(140.0)), ("2023", Num(160.0))];
    SeriesMean(fields, 140.0, 160.0);
    assert Values(fields) == [140.0, 160.0];
    assert Sum([140.0, 160.0]) == 300.0 by {
      assert [140.0, 160.0][..1] == [140.0];
      assert [140.0][..0] == [];
    }
    assert IntToString(2) == "2";
    assert IntToString(2) + " yillik o'rtacha" == "2 yillik o'rtacha";
  }

  /** A series of one year compares with that year's value, described as `"<year>-yil"`. */
  lemma SeriesSingleYear(year: string, value: Json)
    ensures SeriesScore(Obj([(year, value)])) == Ok(Some(Comparison(value, year + "-yil")))
  {
    assert LatestYear([(year, value)]) == 0;
  }

  /** An empty (or otherwise falsy) series gives no comparison score. */
  lemma SeriesEmpty(series: Json)
    requires !Truthy(series)
    ensures SeriesScore(series) == Ok(None)
  {
  }

  /**
   * A record is emitted only for a program that asks for the user's pair;
   * its status, passing score and descriptor are those of the verdict on
   * the program's grant and contract series, its score rounded, and the
   * ball reaches the unrounded score.
   */
  lemma EmittedQualifies(e: Entry, n1: string, n2: string, ball: real)
    requires Evaluate(e, n1, n2, ball).Ok? && Evaluate(e, n1, n2, ball).value.Some?
    ensures RequiresPair(e.program, n1, n2) && e.otm.Obj?
    ensures var rec := Evaluate(e, n1, n2, ball).value.value;
      var ballari := Field(e.program, "o'tish_ballari", Obj([]));
      && ballari.Obj?
      && var grant := SeriesScore(Field(ballari, "grant", Obj([])));
      && var kontrakt := SeriesScore(Field(ballari, "kontrakt", Obj([])));
      && grant.Ok? && kontrakt.Ok?
      && Resolve(ball, grant.value, kontrakt.value).Ok? && Resolve(ball, grant.value, kontrakt.value).value.Some?
      && var v := Resolve(ball, grant.value, kontrakt.value).value.value;
      && rec.status == v.status && rec.passingScore == RoundTenth(v.score) && rec.year == v.info
      && ball >= v.score
    ensures var rec := Evaluate(e, n1, n2, ball).value.value;
      && Field(e.otm, "otm_nomi", Str("N/A")).Str?
      && rec.institution == Capitalize(Field(e.otm, "otm_nomi", Str("N/A")).s)
      && rec.region == Field(e.otm, "otm_hududi", Str("N/A"))
      && rec.program == Field(e.program, "ta'lim_yo'nalishi_nomi", Str("N/A"))
      && rec.educationForm == Field(e.program, "education_form", Str("N/A"))
      && rec.language == Field(e.program, "language", Str("N/A"))
      && rec.fee == Field(e.program, "kontrakt_miqdori", Num(0.0))
  {
    SubjectsMatchMeansPair(e.program, n1, n2);
    var ballari := Field(e.program, "o'tish_ballari", Obj([]));
    var grant := SeriesScore(Field(ballari, "grant", Obj([]))).value;
    var kontrakt := SeriesScore(Field(ballari, "kontrakt", Obj([]))).value;
    var v := Resolve(ball, grant, kontrakt).value.value;
    assert Evaluate(e, n1, n2, ball).value.value.passingScore == RoundTenth(v.score);
  }

  /**
   * The converse: a program that asks for the pair, whose series are read
   * without raising and resolve to a verdict, at an institution with a
   * textual name, is recommended with that verdict.
   */
  lemma QualifyingRecommended(e: Entry, n1: string, n2: string, ball: real, v: Verdict)
    requires RequiresPair(e.program, n1, n2)
    requires var ballari := Field(e.program, "o'tish_ballari", Obj([]));
      && ballari.Obj?
      && var grant := SeriesScore(Field(ballari, "grant", Obj([])));
      && var kontrakt := SeriesScore(Field(ballari, "kontrakt", Obj([])));
      && grant.Ok? && kontrakt.Ok?
      && Resolve(ball, grant.value, kontrakt.value) == Ok(Some(v))
    requires e.otm.Obj? && Field(e.otm, "otm_nomi", Str("N/A")).Str?
    ensures Evaluate(e, n1, n2, ball).Ok? && Evaluate(e, n1, n2, ball).value.Some?
    ensures var rec := Evaluate(e, n1, n2, ball).value.value;
      && rec.institution == Capitalize(Field(e.otm, "otm_nomi", Str("N/A")).s)
      && rec.region == Field(e.otm, "otm_hududi", Str("N/A"))
      && rec.program == Field(e.program, "ta'lim_yo'nalishi_nomi", Str("N/A"))
      && rec.status == v.status && rec.passingScore == RoundTenth(v.score) && rec.year == v.info
      && rec.educationForm == Field(e.program, "education_form", Str("N/A"))
      && rec.language == Field(e.program, "language", Str("N/A"))
      && rec.fee == Field(e.program, "kontrakt_miqdori", Num(0.0))
  {
    SubjectsMatchMeansPair(e.program, n1, n2);
  }

  /** A score already given in tenths is left as it is by the rounding. */
  lemma RoundTenthExact(k: int)
    ensures RoundTenth(k as real / 10.0) == k as real / 10.0
  {
    assert k as real / 10.0 * 10.0 == k as real;
  }

  /**
   * The series `{"kontrakt": {"2023": 150}}` with a ball of 180 resolve to
   * a contract verdict on 150 described as `"2023-yil"`.
   */
  lemma ContractOnlyVerdict(ballari: Json)
    requires ballari == Obj([("kontrakt", Obj([("2023", Num(150.0))]))])
    ensures SeriesScore(Field(ballari, "grant", Obj([]))) == Ok(None)
    ensures SeriesScore(Field(ballari, "kontrakt", Obj([]))).Ok?
    ensures Resolve(180.0, None, SeriesScore(Field(ballari, "kontrakt", Obj([]))).value)
      == Ok(Some(Verdict(Kontrakt, 150.0, "2023-yil")))
  {
    assert Field(ballari, "grant", Obj([])) == Obj([]);
    assert Field(ballari, "kontrakt", Obj([])) == Obj([("2023", Num(150.0))]);
    SeriesEmpty(Obj([]));
    SeriesSingleYear("2023", Num(150.0));
    var info := "2023" + "-yil";
    assert info == "2023-yil";
    QualifyingScore(180.0, Some(Comparison(Num(150.0), info)), 150.0);
  }

  /**
   * A single-year contract series `{"2023": 150}`, no grant series and a
   * ball of 180 give exactly one record: `Kontrakt`, 150.0, `"2023-yil"`.
   */
  lemma ContractOnlyExample(otm: Json, prog: Json, n1: string, n2: string)
    requires RequiresPair(prog, n1, n2)
    requires Field(prog, "o'tish_ballari", Obj([])) == Obj([("kontrakt", Obj([("2023", Num(150.0))]))])
    requires otm.Obj? && Field(otm, "otm_nomi", Str("N/A")).Str?
    ensures var out := Suitable([Entry(otm, prog)], n1, n2, 180.0);
      && |out| == 1 && out[0].status == Kontrakt && out[0].passingScore == 150.0 && out[0].year == "2023-yil"
  {
    ContractOnlyVerdict(Field(prog, "o'tish_ballari", Obj([])));
    RoundTenthExact(1500);
    var e := Entry(otm, prog);
    QualifyingRecommended(e, n1, n2, 180.0, Verdict(Kontrakt, 150.0, "2023-yil"));
    SuitableSingle(e, n1, n2, 180.0, Evaluate(e, n1, n2, 180.0).value.value);
  }

  /** The scan of one program keeps exactly the record it emits. */
  lemma SuitableSingle(e: Entry, n1: string, n2: string, ball: real, rec: Recommendation)
    requires Evaluate(e, n1, n2, ball) == Ok(Some(rec))
    ensures Suitable([e], n1, n2, ball) == [rec]
  {
    SuitableSnoc([], e, n1, n2, ball);
    assert [] + [e] == [e];
  }

  // ---- Properties of the scan ----

  lemma GatherSnoc<T>(xs: seq<T>, x: T, f: T -> seq<Recommendation>)
    ensures Gather(xs + [x], f) == Gather(xs, f) + f(x)
  {
    assert (xs + [x])[..|xs|] == xs;
  }

  lemma {:induction false} GatherConcat<T>(a: seq<T>, b: seq<T>, f: T -> seq<Recommendation>)
    ensures Gather(a + b, f) == Gather(a, f) + Gather(b, f)
    decreases |b|
  {
    if b == [] {
      assert a + b == a;
    } else {
      var init := b[..|b| - 1];
      var x := b[|b| - 1];
      GatherConcat(a, init, f);
      assert a + b == (a + init) + [x];
      GatherSnoc(a + init, x, f);
      assert Gather(b, f) == Gather(init, f) + f(x);
    }
  }

  /** Scanning one more program appends what that program yields. */
  lemma SuitableSnoc(s: seq<Entry>, x: Entry, n1: string, n2: string, ball: real)
    ensures Suitable(s + [x], n1, n2, ball) == Suitable(s, n1, n2, ball) + Kept(Evaluate(x, n1, n2, ball))
  {
    GatherSnoc(s, x, e => Kept(Evaluate(e, n1, n2, ball)));
  }

  /** The scan of `a + b` keeps the records of `a`, then those of `b`. */
  lemma SuitableConcat(a: seq<Entry>, b: seq<Entry>, n1: string, n2: string, ball: real)
    ensures Suitable(a + b, n1, n2, ball) == Suitable(a, n1, n2, ball) + Suitable(b, n1, n2, ball)
  {
    GatherConcat(a, b, e => Kept(Evaluate(e, n1, n2, ball)));
  }

  /** A program whose processing raises is skipped and the scan goes on. */
  lemma RaisingProgramSkipped(a: seq<Entry>, bad: Entry, b: seq<Entry>, n1: string, n2: string, ball: real)
    requires Evaluate(bad, n1, n2, ball).Raised?
    ensures Suitable(a + [bad] + b, n1, n2, ball) == Suitable(a, n1, n2, ball) + Suitable(b, n1, n2, ball)
  {
    SuitableConcat(a + [bad], b, n1, n2, ball);
    SuitableConcat(a, [bad], n1, n2, ball);
  }

  /** Without a program that asks for the user's pair there is nothing to recommend. */
  lemma {:induction false} NoMatchNothingSuitable(es: seq<Entry>, n1: string, n2: string, ball: real)
    requires forall e :: e in es ==> !RequiresPair(e.program, n1, n2)
    ensures Suitable(es, n1, n2, ball) == []
    decreases |es|
  {
    if es != [] {
      var init := es[..|es| - 1];
      var last := es[|es| - 1];
      assert last in es;
      SubjectsMatchMeansPair(last.program, n1, n2);
      assert forall e :: e in init ==> e in es;
      NoMatchNothingSuitable(init, n1, n2, ball);
      assert es == init + [last];
      SuitableSnoc(init, last, n1, n2, ball);
    }
  }

  /** Every suitable record was emitted for a matching program and has a score the ball reaches, up to rounding. */
  lemma {:induction false} SuitableRecords(es: seq<Entry>, n1: string, n2: string, ball: real)
    ensures forall rec :: rec in Suitable(es, n1, n2, ball) ==>
      exists e :: e in es && Evaluate(e, n1, n2, ball) == Ok(Some(rec))
    decreases |es|
  {
    if es != [] {
      var init := es[..|es| - 1];
      var last := es[|es| - 1];
      SuitableRecords(init, n1, n2, ball);
      assert forall e :: e in init ==> e in es;
      assert last in es;
      assert es == init + [last];
      SuitableSnoc(init, last, n1, n2, ball);
    }
  }

  /** Whatever `f` yields for an element of `xs` is in their concatenation. */
  lemma {:induction false} GatherIncludes<T>(xs: seq<T>, x: T, f: T -> seq<Recommendation>, rec: Recommendation)
    requires x in xs && rec in f(x)
    ensures rec in Gather(xs, f)
    decreases |xs|
  {
    var init := xs[..|xs| - 1];
    assert xs == init + [xs[|xs| - 1]];
    if x != xs[|xs| - 1] {
      assert x in init;
      GatherIncludes(init, x, f, rec);
    }
  }

  /** Every record a scanned program yields is among the suitable ones. */
  lemma SuitableIncludes(es: seq<Entry>, e: Entry, n1: string, n2: string, ball: real, rec: Recommendation)
    requires e in es && Evaluate(e, n1, n2, ball) == Ok(Some(rec))
    ensures rec in Suitable(es, n1, n2, ball)
  {
    var f := e => Kept(Evaluate(e, n1, n2, ball));
    assert f(e) == [rec];
    GatherIncludes(es, e, f, rec);
  }

  /** Every suitable record has a passing score at most a twentieth above the ball. */
  lemma SuitableWithinBall(es: seq<Entry>, n1: string, n2: string, ball: real)
    ensures forall rec :: rec in Suitable(es, n1, n2, ball) ==> rec.passingScore <= ball + 1.0 / 20.0
  {
    SuitableRecords(es, n1, n2, ball);
    forall rec | rec in Suitable(es, n1, n2, ball) ensures rec.passingScore <= ball + 1.0 / 20.0 {
      var e :| e in es && Evaluate(e, n1, n2, ball) == Ok(Some(rec));
      EmittedQualifies(e, n1, n2, ball);
    }
  }

  /**
   * The top five of the stable sort: at most five records, highest score
   * first, a prefix of the ranking that scores at least as high as
   * everything left out; the ranking permutes the records and keeps the
   * order among equal scores.
   */
  lemma RankedTopFive(suitable: seq<Recommendation>)
    ensures var ranked := SortDesc(suitable);
      var out := TopFive(ranked);
      && |out| <= 5
      && (|suitable| >= 5 ==> |out| == 5)
      && (|suitable| < 5 ==> |out| == |suitable|)
      && Descending(out)
      && out <= ranked
      && multiset(ranked) == multiset(suitable)
      && (forall i, j :: 0 <= i < |out| <= j < |ranked| ==> ranked[j].passingScore <= out[i].passingScore)
      && (forall v :: WithScore(ranked, v) == WithScore(suitable, v))
      && (forall rec :: rec in out ==> rec in suitable)
  {
    var ranked := SortDesc(suitable);
    var out := TopFive(ranked);
    SortDescSorts(suitable);
    forall v ensures WithScore(ranked, v) == WithScore(suitable, v) {
      SortDescStable(suitable, v);
    }
    forall rec | rec in out ensures rec in suitable {
      assert rec in ranked;
      assert rec in multiset(ranked);
    }
  }

  /**
   * The output of `find_recommendations`: at most five records, highest
   * rounded passing score first, taken from the top of a stable sort of
   * every suitable record, each with a score the ball reaches (up to the
   * rounding to a tenth).
   */
  lemma RecommendShape(fan1: string, fan2: string, ball: real, data: Json)
    requires Recommend(fan1, fan2, ball, data).Ok? && Truthy(data)
    ensures var out := Recommend(fan1, fan2, ball, data).value;
      var suitable := Suitable(Entries(data).value, Normalize(Str(fan1)), Normalize(Str(fan2)), ball);
      var ranked := SortDesc(suitable);
      && |out| <= 5
      && (|suitable| >= 5 ==> |out| == 5)
      && (|suitable| < 5 ==> |out| == |suitable|)
      && Descending(out)
      && out <= ranked
      && multiset(ranked) == multiset(suitable)
      && (forall i, j :: 0 <= i < |out| <= j < |ranked| ==> ranked[j].passingScore <= out[i].passingScore)
      && (forall v :: WithScore(ranked, v) == WithScore(suitable, v))
      && (forall rec :: rec in out ==> rec.passingScore <= ball + 1.0 / 20.0)
  {
    var n1, n2 := Normalize(Str(fan1)), Normalize(Str(fan2));
    var suitable := Suitable(Entries(data).value, n1, n2, ball);
    assert Recommend(fan1, fan2, ball, data).value == TopFive(SortDesc(suitable));
    RankedTopFive(suitable);
    SuitableWithinBall(Entries(data).value, n1, n2, ball);
  }

  /** A catalog in which no program asks for the user's pair gives no recommendation. */
  lemma NoMatchNoRecommendation(fan1: string, fan2: string, ball: real, data: Json)
    requires Entries(data).Ok?
    requires forall e :: e in Entries(data).value ==> !RequiresPair(e.program, Normalize(Str(fan1)), Normalize(Str(fan2)))
    ensures Recommend(fan1, fan2, ball, data) == Ok([])
  {
    if Truthy(data) {
      NoMatchNothingSuitable(Entries(data).value, Normalize(Str(fan1)), Normalize(Str(fan2)), ball);
    }
  }

  /** Once the pre-check has walked the catalog without raising, the recommendation scan cannot raise either: it skips what it cannot read. */
  lemma RecommendAfterPreCheck(fan1: string, fan2: string, ball: real, data: Json)
    requires MinPassing(fan1, fan2, data).Ok?
    ensures Recommend(fan1, fan2, ball, data).Ok?
  {
  }

  // ---- The loops ----

  /**
   * The nested loops of main_bot.py:236-261. The walk over institutions
   * lies outside the `try`, so an institution that cannot be walked makes
   * the whole call raise.
   */
  method FindRecommendations(fan1: string, fan2: string, ball: real, data: Json) returns (r: Result<seq<Recommendation>>)
    ensures r == Recommend(fan1, fan2, ball, data)
  {
    if !Truthy(data) {
      return Ok([]);
    }
    var n1 := Normalize(Str(fan1));
    var n2 := Normalize(Str(fan2));
    var suitable: seq<Recommendation> := [];
    var insts :- Institutions(data);
    var i := 0;
    while i < |insts|
      invariant 0 <= i <= |insts|
      invariant EntriesOf(insts[..i]).Ok?
      invariant suitable == Suitable(EntriesOf(insts[..i]).value, n1, n2, ball)
    {
      EntriesOfStep(insts, i);
      if Programs(insts[i]).Raised? {
        return Raised;
      }
      var progs := Programs(insts[i]).value;
      suitable := CollectSuitable(insts[i], progs, n1, n2, ball, suitable, EntriesOf(insts[..i]).value);
      i := i + 1;
    }
    assert insts[..|insts|] == insts;
    return Ok(TopFive(SortDesc(suitable)));
  }

  /** The inner loop of main_bot.py:241-260: each program's `try` body, appending what it recommends. */
  method CollectSuitable(otm: Json, progs: seq<Json>, n1: string, n2: string, ball: real,
                         acc: seq<Recommendation>, ghost before: seq<Entry>)
    returns (suitable: seq<Recommendation>)
    requires acc == Suitable(before, n1, n2, ball)
    ensures suitable == Suitable(before + Rows(otm, progs), n1, n2, ball)
  {
    suitable := acc;
    var j := 0;
    assert progs[..0] == [] && before + [] == before;
    while j < |progs|
      invariant 0 <= j <= |progs|
      invariant suitable == Suitable(before + Rows(otm, progs[..j]), n1, n2, ball)
    {
      var outcome := Evaluate(Entry(otm, progs[j]), n1, n2, ball);
      if outcome.Ok? && outcome.value.Some? {
        suitable := suitable + [outcome.value.value];
      }
      CollectStep(before, otm, progs, j, n1, n2, ball);
      j := j + 1;
    }
    assert progs[..|progs|] == progs;
  }

  /** One more program of the inner loop appends what it yields. */
  lemma CollectStep(before: seq<Entry>, otm: Json, progs: seq<Json>, j: nat, n1: string, n2: string, ball: real)
    requires j < |progs|
    ensures Suitable(before + Rows(otm, progs[..j + 1]), n1, n2, ball)
      == Suitable(before + Rows(otm, progs[..j]), n1, n2, ball) + Kept(Evaluate(Entry(otm, progs[j]), n1, n2, ball))
  {
    RowsStep(otm, progs, j);
    assert before + Rows(otm, progs[..j + 1]) == (before + Rows(otm, progs[..j])) + [Entry(otm, progs[j])];
    SuitableSnoc(before + Rows(otm, progs[..j]), Entry(otm, progs[j]), n1, n2, ball);
  }
}
