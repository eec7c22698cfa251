/**
 * The eligibility pre-check `get_minimum_passing_score`
 * (main_bot.py:106-120): the lowest latest-year contract score over the
 * programs that ask for the user's subject pair.
 */
module Eligibility {
  import opened Py
  import opened Text
  import opened Normalizer
  import opened Catalog

  /** The keys of a dict, in order. */
  function Keys(fields: seq<(string, Json)>): (ks: seq<string>)
    ensures |ks| == |fields| && forall i :: 0 <= i < |fields| ==> ks[i] == fields[i].0
  {
    seq(|fields|, i requires 0 <= i < |fields| => fields[i].0)
  }

  /** The position of `max(d.keys())`: the latest year, as year keys are compared as strings. */
  function LatestYear(fields: seq<(string, Json)>): (i: nat)
    requires fields != []
    ensures i < |fields|
    ensures forall j :: 0 <= j < |fields| ==> !StrLess(fields[i].0, fields[j].0)
  {
    MaxIndexIsMaximal(Keys(fields));
    MaxIndex(Keys(fields))
  }

  /**
   * What one program contributes to the minimum (main_bot.py:111-119):
   * nothing unless its subjects match and its contract series is truthy;
   * then the latest-year contract score. Comparing that score with the
   * running minimum raises unless it is a number.
   */
  function ContractFloor(e: Entry, n1: string, n2: string): (r: Result<Option<real>>)
    ensures r.Ok? && r.value.Some? ==> SubjectsMatch(e.program, n1, n2) == Ok(true)
  {
    var matched :- SubjectsMatch(e.program, n1, n2);
    if !matched then Ok(None)
    else
      // the program is a dict here: its "fanlar" was read
      var ballari := Field(e.program, "o'tish_ballari", Obj([]));
      var kontrakt :- Get(ballari, "kontrakt", Obj([]));
      if !Truthy(kontrakt) then Ok(None)
      else
        match kontrakt
        case Obj(fields) =>
          (match AsReal(fields[LatestYear(fields)].1)
           case Some(score) => Ok(Some(score))
           case None => Raised)
        case _ => Raised
  }

  /** One step of the running minimum: `if score < min_score: min_score = score`, where no minimum yet stands for `float('inf')`. */
  function MinOpt(acc: Option<real>, score: Option<real>): (r: Option<real>)
    ensures r.None? <==> acc.None? && score.None?
    ensures acc.Some? && r.Some? ==> r.value <= acc.value
    ensures score.Some? ==> r.Some? && r.value <= score.value
    ensures r.Some? ==> r == acc || r == score
  {
    match score
    case None => acc
    case Some(x) =>
      if acc.None? || x < acc.value then score else acc
  }

  /** The minimum over the walked programs; the first program whose contribution raises makes it raise. */
  function FloorsMin(es: seq<Entry>, n1: string, n2: string): Result<Option<real>>
    decreases |es|
  {
    if es == [] then Ok(None)
    else
      var acc :- FloorsMin(es[..|es| - 1], n1, n2);
      var score :- ContractFloor(es[|es| - 1], n1, n2);
      Ok(MinOpt(acc, score))
  }

  /** The minimum over the whole walk, for the normalized subjects `n1`, `n2`. */
  function MinPassingFor(n1: string, n2: string, data: Json): Result<Option<real>> {
    var es :- Entries(data);
    FloorsMin(es, n1, n2)
  }

  /** `get_minimum_passing_score` for the user's subjects `fan1`, `fan2` and the catalog `data`. */
  function MinPassing(fan1: string, fan2: string, data: Json): Result<Option<real>> {
    MinPassingFor(Normalize(Str(fan1)), Normalize(Str(fan2)), data)
  }

  /** A program contributes a score. */
  predicate Contributes(e: Entry, n1: string, n2: string, x: real) {
    ContractFloor(e, n1, n2) == Ok(Some(x))
  }

  /** The program asks for the pair and its latest-year contract score is the number `x`. */
  predicate HasFloor(prog: Json, n1: string, n2: string, x: real) {
    && RequiresPair(prog, n1, n2)
    && var ballari := Field(prog, "o'tish_ballari", Obj([]));
    && ballari.Obj?
    && var kontrakt := Field(ballari, "kontrakt", Obj([]));
    && kontrakt.Obj? && kontrakt.fields != []
    && AsReal(kontrakt.fields[LatestYear(kontrakt.fields)].1) == Some(x)
  }

  /** The program asks for the pair and its contract series is truthy. */
  predicate AsksWithContract(prog: Json, n1: string, n2: string) {
    && RequiresPair(prog, n1, n2)
    && var ballari := Field(prog, "o'tish_ballari", Obj([]));
    && ballari.Obj? && Truthy(Field(ballari, "kontrakt", Obj([])))
  }

  /** A program contributes `x` exactly when it asks for the pair and its latest contract score is `x`. */
  lemma ContributesMeansFloor(e: Entry, n1: string, n2: string, x: real)
    ensures Contributes(e, n1, n2, x) <==> HasFloor(e.program, n1, n2, x)
  {
    if Contributes(e, n1, n2, x) {
      ContributorAsksForPair(e, n1, n2, x);
      ContributionIsLatestContract(e, n1, n2, x);
    }
    if HasFloor(e.program, n1, n2, x) {
      FloorContributes(e, n1, n2, x);
    }
  }

  /** A program that asks for the pair with a numeric latest contract score contributes it. */
  lemma FloorContributes(e: Entry, n1: string, n2: string, x: real)
    requires HasFloor(e.program, n1, n2, x)
    ensures Contributes(e, n1, n2, x)
  {
    SubjectsMatchMeansPair(e.program, n1, n2);
    var ballari := Field(e.program, "o'tish_ballari", Obj([]));
    var kontrakt := Field(ballari, "kontrakt", Obj([]));
    assert Get(ballari, "kontrakt", Obj([])) == Ok(kontrakt);
    assert Truthy(kontrakt);
  }

  /** A program that does not raise contributes nothing exactly when it does not ask for the pair with a contract series. */
  lemma NoFloorMeansNoContract(e: Entry, n1: string, n2: string)
    requires ContractFloor(e, n1, n2).Ok?
    ensures ContractFloor(e, n1, n2).value.None? <==> !AsksWithContract(e.program, n1, n2)
  {
    SubjectsMatchMeansPair(e.program, n1, n2);
  }

  lemma FloorsMinSnoc(es: seq<Entry>, e: Entry, n1: string, n2: string)
    ensures FloorsMin(es + [e], n1, n2) ==
      (match FloorsMin(es, n1, n2)
       case Raised => Raised
       case Ok(acc) =>
         (match ContractFloor(e, n1, n2)
          case Raised => Raised
          case Ok(score) => Ok(MinOpt(acc, score))))
  {
    assert (es + [e])[..|es|] == es;
  }

  /** Once a prefix of the walk raises, the whole walk does. */
  lemma {:induction false} FloorsMinRaisedPrefix(a: seq<Entry>, b: seq<Entry>, n1: string, n2: string)
    requires a <= b && FloorsMin(a, n1, n2).Raised?
    ensures FloorsMin(b, n1, n2).Raised?
    decreases |b|
  {
    if |a| < |b| {
      var init := b[..|b| - 1];
      assert a <= init;
      FloorsMinRaisedPrefix(a, init, n1, n2);
    } else {
      assert a == b;
    }
  }

  /** A walk that does not raise visits no program that raises. */
  lemma {:induction false} FloorsMinOk(es: seq<Entry>, n1: string, n2: string)
    requires FloorsMin(es, n1, n2).Ok?
    ensures forall e :: e in es ==> ContractFloor(e, n1, n2).Ok?
    decreases |es|
  {
    if es != [] {
      var init := es[..|es| - 1];
      var last := es[|es| - 1];
      FloorsMinOkStep(es, n1, n2);
      FloorsMinOk(init, n1, n2);
      InInitOrLast(es);
    }
  }

  /** A walk that does not raise did not raise on its last program, nor before it, and its minimum takes in the last contribution. */
  lemma FloorsMinOkStep(es: seq<Entry>, n1: string, n2: string)
    requires es != [] && FloorsMin(es, n1, n2).Ok?
    ensures FloorsMin(es[..|es| - 1], n1, n2).Ok? && ContractFloor(es[|es| - 1], n1, n2).Ok?
    ensures FloorsMin(es, n1, n2).value
      == MinOpt(FloorsMin(es[..|es| - 1], n1, n2).value, ContractFloor(es[|es| - 1], n1, n2).value)
  {
  }

  /** The programs of a non-empty walk are those before the last one and the last one. */
  lemma InInitOrLast(es: seq<Entry>)
    requires es != []
    ensures forall e :: e in es <==> e in es[..|es| - 1] || e == es[|es| - 1]
  {
    forall e | e in es && e != es[|es| - 1] ensures e in es[..|es| - 1] {
      var i :| 0 <= i < |es| && es[i] == e;
      assert es[..|es| - 1][i] == e;
    }
  }

  /** No minimum exactly when no walked program contributes. */
  lemma {:induction false} FloorsMinNone(es: seq<Entry>, n1: string, n2: string)
    requires FloorsMin(es, n1, n2).Ok?
    ensures FloorsMin(es, n1, n2).value.None? <==> forall e :: e in es ==> ContractFloor(e, n1, n2) == Ok(None)
    decreases |es|
  {
    if es != [] {
      var init := es[..|es| - 1];
      FloorsMinOkStep(es, n1, n2);
      FloorsMinNone(init, n1, n2);
      InInitOrLast(es);
    }
  }

  /** A minimum is no greater than any contributing score, and is one of them. */
  lemma {:induction false} FloorsMinSome(es: seq<Entry>, n1: string, n2: string)
    requires FloorsMin(es, n1, n2).Ok? && FloorsMin(es, n1, n2).value.Some?
    ensures var m := FloorsMin(es, n1, n2).value.value;
      && (forall e, x :: e in es && Contributes(e, n1, n2, x) ==> m <= x)
      && (exists e :: e in es && Contributes(e, n1, n2, m))
    decreases |es|
  {
    var init := es[..|es| - 1];
    var last := es[|es| - 1];
    FloorsMinOkStep(es, n1, n2);
    var acc := FloorsMin(init, n1, n2).value;
    var score := ContractFloor(last, n1, n2).value;
    var m := MinOpt(acc, score).value;
    InInitOrLast(es);
    if acc.Some? {
      FloorsMinSome(init, n1, n2);
    }
    forall e, x | e in es && Contributes(e, n1, n2, x) ensures m <= x {
      if e != last {
        FloorsMinNone(init, n1, n2);
      }
    }
    if score.Some? && m == score.value {
      assert Contributes(last, n1, n2, m);
    }
  }

  /**
   * The property of main_bot.py:106-120 on the whole catalog: no minimum
   * exactly when no program asks for the pair with a truthy contract
   * series; otherwise the lowest latest-year contract score among the
   * programs that ask for the pair.
   */
  lemma MinPassingSpec(fan1: string, fan2: string, data: Json)
    requires MinPassing(fan1, fan2, data).Ok?
    ensures var n1, n2 := Normalize(Str(fan1)), Normalize(Str(fan2));
      var es := Entries(data).value;
      && Entries(data).Ok?
      && (MinPassing(fan1, fan2, data).value.None? <==> forall e :: e in es ==> !AsksWithContract(e.program, n1, n2))
      && (MinPassing(fan1, fan2, data).value.Some? ==>
           var m := MinPassing(fan1, fan2, data).value.value;
           && (forall e, x :: e in es && HasFloor(e.program, n1, n2, x) ==> m <= x)
           && (exists e :: e in es && HasFloor(e.program, n1, n2, m)))
  {
    var es, n1, n2 := Entries(data).value, Normalize(Str(fan1)), Normalize(Str(fan2));
    FloorsMinOk(es, n1, n2);
    FloorsMinNone(es, n1, n2);
    forall e | e in es ensures ContractFloor(e, n1, n2) == Ok(None) <==> !AsksWithContract(e.program, n1, n2) {
      NoFloorMeansNoContract(e, n1, n2);
    }
    if FloorsMin(es, n1, n2).value.Some? {
      FloorsMinSome(es, n1, n2);
      var m := FloorsMin(es, n1, n2).value.value;
      forall e, x | e in es && HasFloor(e.program, n1, n2, x) ensures m <= x {
        ContributesMeansFloor(e, n1, n2, x);
      }
      var w :| w in es && Contributes(w, n1, n2, m);
      ContributesMeansFloor(w, n1, n2, m);
    }
  }

  /** Only a program that asks for the user's pair, in order, can set the minimum. */
  lemma ContributorAsksForPair(e: Entry, n1: string, n2: string, x: real)
    requires Contributes(e, n1, n2, x)
    ensures RequiresPair(e.program, n1, n2)
  {
    SubjectsMatchMeansPair(e.program, n1, n2);
  }

  /** A contributing score is the latest year's contract score. */
  lemma ContributionIsLatestContract(e: Entry, n1: string, n2: string, x: real)
    requires Contributes(e, n1, n2, x)
    ensures e.program.Obj? && Field(e.program, "o'tish_ballari", Obj([])).Obj?
    ensures var kontrakt := Field(Field(e.program, "o'tish_ballari", Obj([])), "kontrakt", Obj([]));
      && kontrakt.Obj? && kontrakt.fields != []
      && AsReal(kontrakt.fields[LatestYear(kontrakt.fields)].1) == Some(x)
  {
  }

  /** The running minimum after one more program, as the loop body updates it. */
  lemma ScanStep(seen: seq<Entry>, e: Entry, n1: string, n2: string, found: bool, minScore: real)
    requires FloorsMin(seen, n1, n2) == Ok(if found then Some(minScore) else None)
    requires ContractFloor(e, n1, n2).Ok?
    ensures var score := ContractFloor(e, n1, n2).value;
      var lower := score.Some? && (!found || score.value < minScore);
      FloorsMin(seen + [e], n1, n2) == Ok(if found || lower then Some(if lower then score.value else minScore) else None)
  {
    FloorsMinSnoc(seen, e, n1, n2);
  }

  /** One turn of the inner loop: the running minimum over the programs up to and including `progs[j]`. */
  lemma ScanAdvance(before: seq<Entry>, otm: Json, progs: seq<Json>, j: nat, n1: string, n2: string, found: bool, minScore: real)
    requires j < |progs|
    requires FloorsMin(before + Rows(otm, progs[..j]), n1, n2) == Ok(if found then Some(minScore) else None)
    requires ContractFloor(Entry(otm, progs[j]), n1, n2).Ok?
    ensures var score := ContractFloor(Entry(otm, progs[j]), n1, n2).value;
      var lower := score.Some? && (!found || score.value < minScore);
      FloorsMin(before + Rows(otm, progs[..j + 1]), n1, n2) == Ok(if found || lower then Some(if lower then score.value else minScore) else None)
  {
    RowsStep(otm, progs, j);
    assert before + Rows(otm, progs[..j + 1]) == (before + Rows(otm, progs[..j])) + [Entry(otm, progs[j])];
    ScanStep(before + Rows(otm, progs[..j]), Entry(otm, progs[j]), n1, n2, found, minScore);
  }

  /**
   * The nested loops of main_bot.py:107-120. `found` false stands for
   * `min_score == float('inf')`; an exception anywhere in the scan
   * propagates as `Raised`.
   */
  method MinimumPassingScore(fan1: string, fan2: string, data: Json) returns (r: Result<Option<real>>)
    ensures r == MinPassing(fan1, fan2, data)
  {
    var n1 := Normalize(Str(fan1));
    var n2 := Normalize(Str(fan2));
    var minScore: real := 0.0;
    var found := false;
    var insts :- Institutions(data);
    var i := 0;
    while i < |insts|
      invariant 0 <= i <= |insts|
      invariant EntriesOf(insts[..i]).Ok?
      invariant FloorsMin(EntriesOf(insts[..i]).value, n1, n2) == Ok(if found then Some(minScore) else None)
    {
      EntriesOfStep(insts, i);
      if Programs(insts[i]).Raised? {
        return Raised;
      }
      var progs := Programs(insts[i]).value;
      var scanned := ScanPrograms(insts[i], progs, n1, n2, found, minScore, EntriesOf(insts[..i]).value);
      if scanned.Raised? {
        InstitutionRaises(insts, i, n1, n2);
        return Raised;
      }
      found, minScore := scanned.value.0, scanned.value.1;
      i := i + 1;
    }
    assert insts[..|insts|] == insts;
    return Ok(if found then Some(minScore) else None);
  }

  /** The inner loop of main_bot.py:110-119 over the programs `progs` of one institution, carrying the running minimum on. */
  method ScanPrograms(otm: Json, progs: seq<Json>, n1: string, n2: string, found0: bool, min0: real, ghost before: seq<Entry>)
    returns (r: Result<(bool, real)>)
    requires FloorsMin(before, n1, n2) == Ok(if found0 then Some(min0) else None)
    ensures r.Raised? <==> FloorsMin(before + Rows(otm, progs), n1, n2).Raised?
    ensures r.Ok? ==> FloorsMin(before + Rows(otm, progs), n1, n2) == Ok(if r.value.0 then Some(r.value.1) else None)
  {
    var found, minScore := found0, min0;
    var j := 0;
    assert before + Rows(otm, progs[..0]) == before;
    while j < |progs|
      invariant 0 <= j <= |progs|
      invariant FloorsMin(before + Rows(otm, progs[..j]), n1, n2) == Ok(if found then Some(minScore) else None)
    {
      var score := ContractFloor(Entry(otm, progs[j]), n1, n2);
      if score.Raised? {
        ProgramRaises(before, otm, progs, j, n1, n2);
        return Raised;
      }
      ScanAdvance(before, otm, progs, j, n1, n2, found, minScore);
      if score.value.Some? && (!found || score.value.value < minScore) {
        minScore := score.value.value;
        found := true;
      }
      j := j + 1;
    }
    assert progs[..|progs|] == progs;
    return Ok((found, minScore));
  }

  /** A program whose contribution raises makes the rest of the scan raise. */
  lemma ProgramRaises(before: seq<Entry>, otm: Json, progs: seq<Json>, j: nat, n1: string, n2: string)
    requires j < |progs| && ContractFloor(Entry(otm, progs[j]), n1, n2).Raised?
    requires FloorsMin(before + Rows(otm, progs[..j]), n1, n2).Ok?
    ensures FloorsMin(before + Rows(otm, progs), n1, n2).Raised?
  {
    RowsStep(otm, progs, j);
    assert before + Rows(otm, progs[..j + 1]) == (before + Rows(otm, progs[..j])) + [Entry(otm, progs[j])];
    FloorsMinSnoc(before + Rows(otm, progs[..j]), Entry(otm, progs[j]), n1, n2);
    assert Rows(otm, progs[..j + 1]) <= Rows(otm, progs);
    FloorsMinRaisedPrefix(before + Rows(otm, progs[..j + 1]), before + Rows(otm, progs), n1, n2);
  }

  /** An institution whose programs make the minimum raise makes the whole pre-check raise. */
  lemma InstitutionRaises(insts: seq<Json>, i: nat, n1: string, n2: string)
    requires i < |insts| && Programs(insts[i]).Ok? && EntriesOf(insts[..i]).Ok?
    requires FloorsMin(EntriesOf(insts[..i]).value + Rows(insts[i], Programs(insts[i]).value), n1, n2).Raised?
    ensures EntriesOf(insts).Raised? || FloorsMin(EntriesOf(insts).value, n1, n2).Raised?
  {
    if EntriesOf(insts).Ok? {
      EntriesOfStep(insts, i);
      EntriesOfPrefix(insts, i + 1);
      FloorsMinRaisedPrefix(EntriesOf(insts[..i + 1]).value, EntriesOf(insts).value, n1, n2);
    }
  }
}
