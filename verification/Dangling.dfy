/** Delete files that apply to no data file any more, and why dropping them never brings a row back. */
module Dangling {
  import opened Wrappers
  import opened Paths
  import opened Tables
  import opened Sorting
  import opened Producer

  /** A loaded entry with the spec its manifest was written under. */
  datatype Specced = Specced(specId: int, entry: Entry) {
    function View(): Live {
      LiveOf(specId, entry)
    }

    function KeyOfEntry(): Key {
      Key(specId, entry.file.partition)
    }
  }

  function Specs(specId: int, entries: seq<Entry>): (r: seq<Specced>)
    ensures |r| == |entries|
    ensures forall i :: 0 <= i < |r| ==> r[i] == Specced(specId, entries[i])
  {
    seq(|entries|, i requires 0 <= i < |entries| => Specced(specId, entries[i]))
  }

  function SpecsAll(ms: seq<Manifest>): seq<Specced> {
    if ms == [] then [] else Specs(ms[0].specId, Loaded(ms[0].entries)) + SpecsAll(ms[1..])
  }

  function Views(es: seq<Specced>): (r: seq<Live>)
    ensures |r| == |es|
    ensures forall i :: 0 <= i < |r| ==> r[i] == es[i].View()
  {
    seq(|es|, i requires 0 <= i < |es| => es[i].View())
  }

  lemma NoViews()
    ensures Views([]) == []
  {
  }

  lemma ViewsConcat(a: seq<Specced>, b: seq<Specced>)
    ensures Views(a + b) == Views(a) + Views(b)
  {
  }

  lemma ViewsOfOne(m: Manifest)
    ensures Views(Specs(m.specId, Loaded(m.entries))) == LiveIn(m)
  {
    hide Normalize, LiveEntries, LiveOf, Loaded;
    LiveEntriesAt(m.specId, Loaded(m.entries));
  }

  lemma {:induction false} ViewsAreLive(ms: seq<Manifest>)
    ensures Views(SpecsAll(ms)) == LiveAll(ms)
  {
    hide Normalize, Views, LiveIn, Loaded, Specs;
    if ms == [] {
      NoViews();
    } else {
      ViewsAreLive(ms[1..]);
      ViewsConcat(Specs(ms[0].specId, Loaded(ms[0].entries)), SpecsAll(ms[1..]));
      ViewsOfOne(ms[0]);
    }
  }

  lemma {:induction false} SpecsAllMembers(ms: seq<Manifest>, s: Specced)
    requires s in SpecsAll(ms)
    ensures exists m :: m in ms && s.specId == m.specId && s.entry in m.entries && s.entry.status != Deleted
  {
    var head := Specs(ms[0].specId, Loaded(ms[0].entries));
    if s in head {
      var i :| 0 <= i < |head| && head[i] == s;
      assert s.entry == Loaded(ms[0].entries)[i] && s.entry in Loaded(ms[0].entries);
      assert ms[0] in ms;
    } else {
      SpecsAllMembers(ms[1..], s);
    }
  }

  /** The least sequence number a live data file carries, per partition and over the whole table. */
  datatype Floors = Floors(lowest: map<Key, int>, anywhere: Option<int>)

  function IsDeadBySequence(s: Specced, floors: Floors): bool {
    match s.entry.seqNo
    case None => false
    case Some(n) =>
      var eq := s.entry.file.payload.Keys?;
      var key := s.KeyOfEntry();
      var floor := if eq && s.entry.file.partition == [] then floors.anywhere
                   else if key in floors.lowest then Some(floors.lowest[key]) else None;
      match floor
      case None => true
      case Some(f) => if eq then n <= f else n < f
  }

  /** Every numbered data entry of `es` is at or above the floors. */
  ghost predicate Bounds(floors: Floors, es: seq<Specced>) {
    forall s :: s in es && s.entry.file.IsData() && s.entry.seqNo.Some? ==>
                  && s.KeyOfEntry() in floors.lowest && floors.lowest[s.KeyOfEntry()] <= s.entry.seqNo.value
                  && floors.anywhere.Some? && floors.anywhere.value <= s.entry.seqNo.value
  }

  /** Every floor is some numbered data entry's number. */
  ghost predicate Attained(floors: Floors, es: seq<Specced>) {
    && (forall k :: k in floors.lowest ==>
          exists s :: s in es && s.entry.file.IsData() && s.KeyOfEntry() == k && s.entry.seqNo == Some(floors.lowest[k]))
    && (floors.anywhere.Some? ==> exists s :: s in es && s.entry.file.IsData() && s.entry.seqNo == floors.anywhere)
  }

  lemma NoFloors()
    ensures Bounds(Floors(map[], None), []) && Attained(Floors(map[], None), [])
  {
  }

  lemma BoundsStep(floors: Floors, lower: Floors, es: seq<Specced>, s: Specced)
    requires Bounds(floors, es)
    requires forall k :: k in floors.lowest ==> k in lower.lowest && lower.lowest[k] <= floors.lowest[k]
    requires floors.anywhere.Some? ==> lower.anywhere.Some? && lower.anywhere.value <= floors.anywhere.value
    requires s.entry.file.IsData() && s.entry.seqNo.Some? ==>
               && s.KeyOfEntry() in lower.lowest && lower.lowest[s.KeyOfEntry()] <= s.entry.seqNo.value
               && lower.anywhere.Some? && lower.anywhere.value <= s.entry.seqNo.value
    ensures Bounds(lower, es + [s])
  {
    forall x | x in es + [s] && x.entry.file.IsData() && x.entry.seqNo.Some?
      ensures x.KeyOfEntry() in lower.lowest && lower.lowest[x.KeyOfEntry()] <= x.entry.seqNo.value
      ensures lower.anywhere.Some? && lower.anywhere.value <= x.entry.seqNo.value
    {
      assert x in es || x == s;
    }
  }

  /** Floors already there came from the entries before; a floor that moved is the new entry's number. */
  lemma AttainedStep(floors: Floors, lower: Floors, es: seq<Specced>, s: Specced)
    requires Attained(floors, es) && s.entry.file.IsData() && s.entry.seqNo.Some?
    requires forall k :: k in lower.lowest ==> (k in floors.lowest && lower.lowest[k] == floors.lowest[k]) ||
                                               (k == s.KeyOfEntry() && lower.lowest[k] == s.entry.seqNo.value)
    requires lower.anywhere == floors.anywhere || lower.anywhere == s.entry.seqNo
    ensures Attained(lower, es + [s])
  {
    assert s in es + [s] && forall x :: x in es ==> x in es + [s];
    forall k | k in lower.lowest
      ensures exists x :: x in es + [s] && x.entry.file.IsData() && x.KeyOfEntry() == k && x.entry.seqNo == Some(lower.lowest[k])
    {
      if k in floors.lowest && lower.lowest[k] == floors.lowest[k] {
        var x :| x in es && x.entry.file.IsData() && x.KeyOfEntry() == k && x.entry.seqNo == Some(floors.lowest[k]);
        assert x in es + [s];
      }
    }
  }

  lemma AttainedSkips(floors: Floors, es: seq<Specced>, s: Specced)
    requires Attained(floors, es)
    ensures Attained(floors, es + [s])
  {
    assert forall x :: x in es ==> x in es + [s];
  }

  /** The loop that fills `lowest`; an entry without a number is skipped. */
  method FindFloors(es: seq<Specced>) returns (floors: Floors)
    ensures Bounds(floors, es) && Attained(floors, es)
  {
    hide Bounds, Attained;
    floors := Floors(map[], None);
    NoFloors();
    for i := 0 to |es|
      invariant Bounds(floors, es[..i]) && Attained(floors, es[..i])
    {
      var s := es[i];
      PrefixGrows(es, i);
      ghost var before := floors;
      if s.entry.file.IsData() && s.entry.seqNo.Some? {
        var n, key := s.entry.seqNo.value, s.KeyOfEntry();
        var low := if key in floors.lowest && floors.lowest[key] <= n then floors.lowest[key] else n;
        var any := if floors.anywhere.Some? && floors.anywhere.value <= n then floors.anywhere.value else n;
        floors := Floors(floors.lowest[key := low], Some(any));
        AttainedStep(before, floors, es[..i], s);
      } else {
        AttainedSkips(floors, es[..i], s);
      }
      BoundsStep(before, floors, es[..i], s);
    }
    PrefixWhole(es);
  }

  predicate IsDangling(s: Specced, stillApplied: set<string>, floors: Floors) {
    && !s.entry.file.IsData()
    && Normalize(s.entry.file.path) !in stillApplied
    && IsDeadBySequence(s, floors)
  }

  function DanglingPaths(es: seq<Specced>, stillApplied: set<string>, floors: Floors): seq<string> {
    if es == [] then []
    else (if IsDangling(es[0], stillApplied, floors) then [es[0].entry.file.path] else []) +
         DanglingPaths(es[1..], stillApplied, floors)
  }

  lemma {:induction false} DanglingMembers(es: seq<Specced>, stillApplied: set<string>, floors: Floors)
    ensures forall p :: p in DanglingPaths(es, stillApplied, floors) <==>
              exists s :: s in es && IsDangling(s, stillApplied, floors) && s.entry.file.path == p
  {
    if es != [] {
      DanglingMembers(es[1..], stillApplied, floors);
      assert forall s :: s in es <==> s == es[0] || s in es[1..];
    }
  }

  /** `dangling_delete_files`: the delete files both derivations call dead, sorted and named once each. */
  method DanglingDeleteFiles(ms: seq<Manifest>, stillApplied: set<string>) returns (out: seq<string>, ghost floors: Floors)
    ensures Ascending(out)
    ensures Bounds(floors, SpecsAll(ms)) && Attained(floors, SpecsAll(ms))
    ensures forall p :: p in out <==>
              exists s :: s in SpecsAll(ms) && IsDangling(s, stillApplied, floors) && s.entry.file.path == p
  {
    var es := SpecsAll(ms);
    var found := FindFloors(es);
    floors := found;
    var paths := DanglingPaths(es, stillApplied, found);
    DanglingMembers(es, stillApplied, found);
    SortedOnce(paths);
    out := Dedup(SortStrings(paths));
  }

  // ---- Each derivation alone is enough; the sequence argument also holds for ever ----

  ghost predicate DataNumbered(es: seq<Specced>) {
    forall s :: s in es && s.entry.file.IsData() ==> s.entry.seqNo.Some?
  }

  /** A delete file judged dead by sequence numbers applies to no live data file, and to none a later commit adds. */
  lemma DeadAppliesToNone(es: seq<Specced>, floors: Floors, d: Specced, e: Live)
    requires Bounds(floors, es) && DataNumbered(es)
    requires !d.entry.file.IsData() && IsDeadBySequence(d, floors)
    requires e in Views(es) || e.seqNo > d.View().seqNo
    requires e.file.IsData()
    ensures !Applies(d.View(), e)
  {
    if e in Views(es) {
      var i :| 0 <= i < |es| && es[i].View() == e;
      assert es[i] in es;
    }
  }

  /** The sequence argument is exact: a delete it does not condemn, and that names no single file, still applies to
      some live data file. */
  lemma AliveHasATarget(es: seq<Specced>, floors: Floors, d: Specced) returns (e: Specced)
    requires Attained(floors, es)
    requires !d.entry.file.IsData() && d.entry.seqNo.Some? && !IsDeadBySequence(d, floors)
    requires d.entry.file.payload.Positions? ==> d.entry.file.payload.target.None?
    ensures e in es && e.entry.file.IsData() && Applies(d.View(), e.View())
  {
    if d.entry.file.payload.Keys? && d.entry.file.partition == [] {
      e :| e in es && e.entry.file.IsData() && e.entry.seqNo == floors.anywhere;
    } else {
      var k := d.KeyOfEntry();
      e :| e in es && e.entry.file.IsData() && e.KeyOfEntry() == k && e.entry.seqNo == Some(floors.lowest[k]);
    }
  }

  /** `d` is numbered high enough for an entry that counts as numbered zero, in a partition and at a path it reaches. */
  predicate ReachesZero(d: Specced, s: Specced) {
    d.entry.seqNo.Some? &&
    match d.entry.file.payload
    case Rows(_) => false
    case Positions(target, _) =>
      d.KeyOfEntry() == s.KeyOfEntry() && d.entry.seqNo.value >= 0 && (target.None? || target.value == s.entry.file.path)
    case Keys(_, _) => (d.entry.file.partition == [] || d.KeyOfEntry() == s.KeyOfEntry()) && d.entry.seqNo.value > 0
  }

  /** Exactly when a delete judged dead still applies to some live data file: when a data entry without a number lies in
      its reach, and its own number is positive, or for a positional delete not negative. */
  lemma DeadReachesOnlyUnnumbered(es: seq<Specced>, floors: Floors, d: Specced)
    requires Bounds(floors, es) && !d.entry.file.IsData() && IsDeadBySequence(d, floors)
    ensures (exists s :: s in es && s.entry.file.IsData() && Applies(d.View(), s.View())) <==>
            (exists s :: s in es && s.entry.file.IsData() && s.entry.seqNo.None? && ReachesZero(d, s))
  {
    hide Normalize;
    forall s | s in es && s.entry.file.IsData()
      ensures Applies(d.View(), s.View()) <==> s.entry.seqNo.None? && ReachesZero(d, s)
    {
    }
  }

  /** The numbers are needed: a data entry without one is skipped, and a delete that applies to it is called dead. */
  lemma UnnumberedDataIsMissed() returns (es: seq<Specced>, floors: Floors, d: Specced)
    ensures Bounds(floors, es) && Attained(floors, es)
    ensures d in es && !d.entry.file.IsData() && IsDeadBySequence(d, floors)
    ensures exists e :: e in es && e.entry.file.IsData() && Applies(d.View(), e.View())
  {
    var data := Specced(0, Entry(Added, File("a", [], Rows([map[]]), 1, 1, true), None, None, None));
    d := Specced(0, Entry(Added, File("b", [], Keys([1], {map[]}), 1, 1, true), Some(3), None, None));
    es, floors := [data, d], Floors(map[], None);
    assert data in es && Applies(d.View(), data.View());
  }

  /** The ids of deletes some task of the scan carries: what the second derivation starts from. */
  ghost predicate ExactlyApplied(live: seq<Live>, stillApplied: set<string>) {
    forall d, e :: d in live && e in live && e.file.IsData() && Applies(d, e) ==> d.Id() in stillApplied
  }

  /** No live file is both data and delete under one normalized path. */
  ghost predicate DistinctRoles(live: seq<Live>) {
    forall d, e :: d in live && e in live && !d.file.IsData() && e.file.IsData() ==> d.Id() != e.Id()
  }

  /** Dropping what both derivations call dangling leaves every partition's content alone. */
  lemma DanglingRemovalPreserves(live: seq<Live>, stillApplied: set<string>, ids: set<string>, n: int, p: Key)
    requires AllBelow(live, n) && DistinctRoles(live) && ExactlyApplied(live, stillApplied)
    requires forall i | i in ids :: i !in stillApplied && exists d :: d in live && !d.file.IsData() && d.Id() == i
    ensures OnlyIdleDeletes(live, ids) && HoldsWhatGoes(live, ids, [])
    ensures Content(Without(live, ids), p) == Content(live, p)
  {
    assert OnlyIdleDeletes(live, ids);
    WithoutMembers(live, ids);
    forall q
      ensures ReadRows(Within(live, ids), Deletes(live), q) == []
    {
      ReadNoData(Within(live, ids), Deletes(live), q);
    }
    ReplacementPreservesContent(live, ids, [], n, p);
    assert Without(live, ids) + [] == Without(live, ids);
  }
}
