/**
 * The university catalog (`universities.json`) as the scans of
 * main_bot.py walk it: `data["otmlar"]` lists institutions, each
 * institution's `"ta'lim_yo'nalishlari"` lists its programs, and a
 * program's `"fanlar"` names its two ordered entrance subjects.
 */
module Catalog {
  import opened Py
  import opened Normalizer

  /** One program together with the institution that offers it, in scan order. */
  datatype Entry = Entry(otm: Json, program: Json)

  /** `data.get('otmlar', [])`, iterated. */
  function Institutions(data: Json): (r: Result<seq<Json>>)
    ensures r.Ok? ==> data.Obj?
  {
    var otmlar :- Get(data, "otmlar", Arr([]));
    Iter(otmlar)
  }

  /** `otm.get("ta'lim_yo'nalishlari", [])`, iterated. */
  function Programs(otm: Json): (r: Result<seq<Json>>)
    ensures r.Ok? ==> otm.Obj?
  {
    var list :- Get(otm, "ta'lim_yo'nalishlari", Arr([]));
    Iter(list)
  }

  function Rows(otm: Json, progs: seq<Json>): (r: seq<Entry>)
    ensures |r| == |progs| && forall k :: 0 <= k < |progs| ==> r[k] == Entry(otm, progs[k])
  {
    seq(|progs|, k requires 0 <= k < |progs| => Entry(otm, progs[k]))
  }

  /** The programs of `insts`, in the order the nested loops visit them; an institution that cannot be walked makes the walk raise. */
  function EntriesOf(insts: seq<Json>): (r: Result<seq<Entry>>)
    ensures r.Ok? <==> forall i :: 0 <= i < |insts| ==> Programs(insts[i]).Ok?
    ensures r.Ok? ==> forall e :: e in r.value ==> e.otm in insts && e.otm.Obj?
    decreases |insts|
  {
    if insts == [] then Ok([])
    else
      var init := insts[..|insts| - 1];
      var last := insts[|insts| - 1];
      assert forall i :: 0 <= i < |init| ==> init[i] == insts[i];
      var before :- EntriesOf(init);
      var progs :- Programs(last);
      Ok(before + Rows(last, progs))
  }

  /** Every program the scans of main_bot.py:109-110 and 240-241 visit. */
  function Entries(data: Json): Result<seq<Entry>> {
    var insts :- Institutions(data);
    EntriesOf(insts)
  }

  lemma EntriesOfStep(insts: seq<Json>, i: nat)
    requires i < |insts|
    ensures EntriesOf(insts[..i + 1]) ==
      (match EntriesOf(insts[..i])
       case Raised => Raised
       case Ok(before) =>
         (match Programs(insts[i])
          case Raised => Raised
          case Ok(progs) => Ok(before + Rows(insts[i], progs))))
  {
    assert insts[..i + 1][..i] == insts[..i];
  }

  lemma RowsStep(otm: Json, progs: seq<Json>, j: nat)
    requires j < |progs|
    ensures Rows(otm, progs[..j + 1]) == Rows(otm, progs[..j]) + [Entry(otm, progs[j])]
  {
  }

  /** The programs of the first `i` institutions come first in the walk, then those of institution `i`. */
  lemma {:induction false} EntriesOfPrefix(insts: seq<Json>, i: nat)
    requires i <= |insts| && EntriesOf(insts).Ok?
    ensures EntriesOf(insts[..i]).Ok? && EntriesOf(insts[..i]).value <= EntriesOf(insts).value
    decreases |insts|
  {
    if i == |insts| {
      assert insts[..i] == insts;
    } else {
      var init := insts[..|insts| - 1];
      assert forall k :: 0 <= k < |init| ==> init[k] == insts[k];
      EntriesOfPrefix(init, i);
      assert init[..i] == insts[..i];
    }
  }

  /**
   * The subject test of main_bot.py:111-115 (and 243-246) on one program:
   * exactly two subjects, tagged order 1 and 2, whose normalized names are
   * the user's normalized pair in that order. It raises where Python does:
   * a program or subject that is not a dict, a `"fanlar"` without `len`,
   * and a two-element `"fanlar"` that is a string or a dict (indexing it
   * by 0 fails or gives a one-letter string without `.get`).
   */
  function SubjectsMatch(prog: Json, n1: string, n2: string): (r: Result<bool>)
    ensures r.Ok? ==> prog.Obj?
  {
    var fanlar :- Get(prog, "fanlar", Arr([]));
    var count :- Len(fanlar);
    if count != 2 then Ok(false)
    else
      match fanlar
      case Arr(items) =>
        var t1 :- Get(items[0], "tartib", Null);
        if !EqualsInt(t1, 1) then Ok(false)
        else
          var t2 :- Get(items[1], "tartib", Null);
          if !EqualsInt(t2, 2) then Ok(false)
          else
            // both subjects are dicts here: their "tartib" was read
            Ok(Normalize(Field(items[0], "nomi", Null)) == n1 && Normalize(Field(items[1], "nomi", Null)) == n2)
      case _ => Raised
  }

  /** A program that asks for `n1` then `n2`, stated on the catalog's fields directly. */
  predicate RequiresPair(prog: Json, n1: string, n2: string) {
    && prog.Obj?
    && Lookup(prog.fields, "fanlar").Some?
    && var fanlar := Lookup(prog.fields, "fanlar").value;
    && fanlar.Arr? && |fanlar.items| == 2
    && var first := fanlar.items[0];
    && var second := fanlar.items[1];
    && first.Obj? && second.Obj?
    && AsReal(Field(first, "tartib", Null)) == Some(1.0)
    && AsReal(Field(second, "tartib", Null)) == Some(2.0)
    && Normalize(Field(first, "nomi", Null)) == n1
    && Normalize(Field(second, "nomi", Null)) == n2
  }

  /** The subject test accepts a program exactly when it asks for the user's pair in order. */
  lemma SubjectsMatchMeansPair(prog: Json, n1: string, n2: string)
    ensures SubjectsMatch(prog, n1, n2) == Ok(true) <==> RequiresPair(prog, n1, n2)
  {
    if prog.Obj? {
      var fanlar := Field(prog, "fanlar", Arr([]));
      if fanlar.Arr? && |fanlar.items| == 2 {
        PairTest(prog, fanlar.items, n1, n2);
      } else if fanlar.Arr? {
        assert Len(fanlar) == Ok(|fanlar.items|);
      }
    }
  }

  lemma PairTest(prog: Json, items: seq<Json>, n1: string, n2: string)
    requires prog.Obj? && Field(prog, "fanlar", Arr([])) == Arr(items) && |items| == 2
    ensures SubjectsMatch(prog, n1, n2) == Ok(true) <==> RequiresPair(prog, n1, n2)
  {
  }
}
