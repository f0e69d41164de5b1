/** Dropping dangling delete files as a commit of its own, and what any commit that replaces files leaves behind. */
module Maintenance {
  import opened Wrappers
  import opened Paths
  import opened Tables
  import opened Producer
  import opened Dangling
  import opened Rewrite
  import opened Compact

  /** A commit that drops what both derivations call dangling, and adds nothing. */
  ghost predicate Drops(t: Table, rewrite: Producer.Rewrite, floors: Floors) {
    var es := SpecsAll(ManifestsAt(t));
    && rewrite.added == []
    && Bounds(floors, es) && Attained(floors, es)
    && forall p :: p in rewrite.removed <==>
         exists s :: s in es && IsDangling(s, DeleteIds(Scan(LiveAt(t))), floors) && s.entry.file.path == p
  }

  /** `has_delete_manifests`. */
  predicate HasDeleteManifests(ms: seq<Manifest>) {
    exists m | m in ms :: m.deletes
  }

  /** No delete file hides in a list without a delete manifest. */
  ghost predicate DeletesAreDeclared(ms: seq<Manifest>) {
    forall s :: s in SpecsAll(ms) && !s.entry.file.IsData() ==> HasDeleteManifests(ms)
  }

  /** `drop_dangling_deletes`, up to the commit. */
  method DropDangling(t: Table, snapshotId: int)
      returns (r: Result<Option<Request>>, ghost rewrite: Producer.Rewrite, ghost floors: Floors)
    ensures r.Ok? && r.value.Some? ==> Replaces(t, rewrite, snapshotId, r.value.value)
    ensures rewrite.removed != [] || DeletesAreDeclared(ManifestsAt(t)) ==> Drops(t, rewrite, floors)
    ensures rewrite.removed == [] ==> r == Ok(None)
    ensures rewrite.removed != [] ==>
              (if t.version.V3? then r == Err(Refused)
               else if !CanRebuild(t, ManifestsAt(t), Ids(rewrite.removed)) then r == Err(BadMetadata)
               else if t.mainHead != CurrentId(t) then r == Err(Refused)
               else r.Ok? && r.value.Some?)
    ensures r.Err? ==> !r.error.IsReplan()
  {
    rewrite := Producer.Rewrite([], []);
    var ms := ManifestsAt(t);
    if t.current.None? || !HasDeleteManifests(ms) {
      floors := FindFloors(SpecsAll(ms));
      return Ok(None), rewrite, floors;
    }
    var stillApplied := DeleteIds(Scan(LiveAt(t)));
    var dangling;
    dangling, floors := DanglingDeleteFiles(ms, stillApplied);
    if dangling == [] {
      return Ok(None), rewrite, floors;
    }
    var asked := Producer.Rewrite(dangling, []);
    rewrite := asked;
    DanglingIsLive(t, asked, floors);
    r := RewriteFiles(t, asked, snapshotId);
  }

  lemma DanglingMember(t: Table, rewrite: Producer.Rewrite, floors: Floors, i: string) returns (d: Live)
    requires Drops(t, rewrite, floors) && i in Ids(rewrite.removed)
    ensures d in LiveAt(t) && !d.file.IsData() && d.Id() == i && i !in DeleteIds(Scan(LiveAt(t)))
  {
    var es := SpecsAll(ManifestsAt(t));
    var p :| p in rewrite.removed && Normalize(p) == i;
    var s :| s in es && IsDangling(s, DeleteIds(Scan(LiveAt(t))), floors) && s.entry.file.path == p;
    ViewsAreLive(ManifestsAt(t));
    var k :| 0 <= k < |es| && es[k] == s;
    assert Views(es)[k] in Views(es);
    d := s.View();
  }

  lemma DanglingIsLive(t: Table, rewrite: Producer.Rewrite, floors: Floors)
    requires Drops(t, rewrite, floors)
    ensures Ids(rewrite.removed) <= LiveIds(LiveAt(t))
  {
    forall i | i in Ids(rewrite.removed)
      ensures i in LiveIds(LiveAt(t))
    {
      var d := DanglingMember(t, rewrite, floors, i);
    }
  }

  /** A scan carries exactly the applicable deletes, so what no task carries applies to no live file. */
  lemma ScanAppliesExactly(live: seq<Live>)
    ensures ExactlyApplied(live, DeleteIds(Scan(live)))
  {
    ScanMembers(live, live);
    forall d, e | d in live && e in live && e.file.IsData() && Applies(d, e)
      ensures d.Id() in DeleteIds(Scan(live))
    {
      var t := Task(e, ApplicableTo(live, e));
      assert t in Scan(live) && d in t.dels;
    }
  }

  /** No live delete file under the id `i` applies to a live data file. */
  ghost predicate Idle(live: seq<Live>, i: string) {
    forall d, e :: d in live && e in live && d.Id() == i && e.file.IsData() ==> !Applies(d, e)
  }

  lemma UnappliedIsIdle(live: seq<Live>, i: string)
    ensures i in DeleteIds(Scan(live)) <==> !Idle(live, i)
  {
    hide Normalize;
    ScanMembers(live, live);
    ScanAppliesExactly(live);
    if i in DeleteIds(Scan(live)) {
      var t, d :| t in Scan(live) && d in t.dels && d.Id() == i;
      assert t.live in live && d in live && Applies(d, t.live);
    }
  }

  /** The commit drops a delete file only if it applies to no live data file; and it does drop every such delete that is numbered
      and names no single file, where every data file is numbered. */
  lemma DroppedIffIdle(t: Table, rewrite: Producer.Rewrite, floors: Floors, d: Specced)
    requires Drops(t, rewrite, floors) && d in SpecsAll(ManifestsAt(t)) && !d.entry.file.IsData()
    ensures d.View().Id() in Ids(rewrite.removed) ==> Idle(LiveAt(t), d.View().Id())
    ensures Idle(LiveAt(t), d.View().Id()) && DataNumbered(SpecsAll(ManifestsAt(t))) && d.entry.seqNo.Some?
            && (d.entry.file.payload.Positions? ==> d.entry.file.payload.target.None?) ==>
              d.entry.file.path in rewrite.removed && d.View().Id() in Ids(rewrite.removed)
  {
    hide Normalize, SpecsAll, Scan, DeleteIds, IsDeadBySequence, Applies;
    var es, live := SpecsAll(ManifestsAt(t)), LiveAt(t);
    ViewsAreLive(ManifestsAt(t));
    UnappliedIsIdle(live, d.View().Id());
    if d.View().Id() in Ids(rewrite.removed) {
      var gone := DanglingMember(t, rewrite, floors, d.View().Id());
    }
    if Idle(live, d.View().Id()) && DataNumbered(es) && d.entry.seqNo.Some? && (d.entry.file.payload.Positions? ==> d.entry.file.payload.target.None?) {
      if !IsDeadBySequence(d, floors) {
        var e := AliveHasATarget(es, floors, d);
        ViewIsLive(es, d);
        ViewIsLive(es, e);
      }
      assert IsDangling(d, DeleteIds(Scan(live)), floors);
    }
  }

  lemma ViewIsLive(es: seq<Specced>, s: Specced)
    requires s in es
    ensures s.View() in Views(es)
  {
    var k :| 0 <= k < |es| && es[k] == s;
    assert Views(es)[k] == s.View();
  }

  // ---- What is left once everything dangling is dropped ----

  /** Every delete file that names no single data file still applies to one. */
  ghost predicate NoneDangles(live: seq<Live>) {
    forall d :: d in live && !d.file.IsData() && (d.file.payload.Positions? ==> d.file.payload.target.None?) ==> HasATarget(live, d)
  }

  ghost predicate HasATarget(live: seq<Live>, d: Live) {
    exists e :: e in live && e.file.IsData() && Applies(d, e)
  }

  lemma OrderlyNumbers(t: Table)
    requires Orderly(t)
    ensures DataNumbered(SpecsAll(ManifestsAt(t))) && DeletesAreDeclared(ManifestsAt(t))
    ensures forall s :: s in SpecsAll(ManifestsAt(t)) ==> s.entry.seqNo.Some?
  {
    hide SpecsAll;
    forall s | s in SpecsAll(ManifestsAt(t))
      ensures s.entry.seqNo.Some? && (!s.entry.file.IsData() ==> HasDeleteManifests(ManifestsAt(t)))
    {
      SpecsAllMembers(ManifestsAt(t), s);
      var m :| m in ManifestsAt(t) && s.entry in m.entries && s.entry.status != Deleted;
      assert OrderlyManifest(m);
    }
  }

  lemma LiveIsSpecced(ms: seq<Manifest>, d: Live) returns (s: Specced)
    requires d in LiveAll(ms)
    ensures s in SpecsAll(ms) && s.View() == d
  {
    hide SpecsAll, LiveAll;
    ViewsAreLive(ms);
    var i :| 0 <= i < |LiveAll(ms)| && LiveAll(ms)[i] == d;
    s := SpecsAll(ms)[i];
  }

  /** Nothing but deletes goes, so what stays dangling after the removal dangled before it. */
  lemma StillDangling(t: Table, rewrite: Producer.Rewrite, floors: Floors, now: seq<Live>, d: Live)
    requires Sound(t) && Drops(t, rewrite, floors) && now == Without(LiveAt(t), Ids(rewrite.removed))
    requires d in now && !d.file.IsData() && !HasATarget(now, d)
    ensures d in LiveAt(t) && d.Id() !in Ids(rewrite.removed) && Idle(LiveAt(t), d.Id())
  {
    hide Normalize, Applies, LiveAt, Drops, Ids;
    WithoutMembers(LiveAt(t), Ids(rewrite.removed));
    SoundLive(t);
    forall x, e | x in LiveAt(t) && e in LiveAt(t) && x.Id() == d.Id() && e.file.IsData()
      ensures !Applies(x, e)
    {
      assert x == d;
      if e.Id() in Ids(rewrite.removed) {
        var gone := DanglingMember(t, rewrite, floors, e.Id());
      }
    }
  }

  lemma SoundLive(t: Table)
    requires Sound(t)
    ensures UniqueIds(LiveAt(t))
  {
  }

  /** On a table whose entries are numbered and whose delete files are declared, the removal leaves no delete file without a target,
      except ones that name a single data file. */
  lemma DropLeavesNone(t: Table, rewrite: Producer.Rewrite, floors: Floors)
    requires Sound(t) && Orderly(t) && Drops(t, rewrite, floors)
    ensures NoneDangles(Without(LiveAt(t), Ids(rewrite.removed)))
  {
    hide Normalize, Applies, LiveAt, Drops, Ids, SpecsAll, Idle, DataNumbered, DeletesAreDeclared, HasATarget, Orderly, Sound;
    var now := Without(LiveAt(t), Ids(rewrite.removed));
    OrderlyNumbers(t);
    forall d | d in now && !d.file.IsData() && (d.file.payload.Positions? ==> d.file.payload.target.None?)
      ensures HasATarget(now, d)
    {
      if !HasATarget(now, d) {
        StillDangling(t, rewrite, floors, now, d);
        LiveAtIs(t);
        var s := LiveIsSpecced(ManifestsAt(t), d);
        DroppedIffIdle(t, rewrite, floors, s);
      }
    }
  }

  lemma LiveAtIs(t: Table)
    ensures LiveAt(t) == LiveAll(ManifestsAt(t))
  {
  }

  /** Dropping dangling deletes is invisible to readers. */
  lemma DropPreservesContent(t: Table, rewrite: Producer.Rewrite, floors: Floors, snapshotId: int, req: Request, p: Key)
    requires Sound(t) && Drops(t, rewrite, floors) && Replaces(t, rewrite, snapshotId, req)
    ensures Content(LiveAll(req.snapshot.manifests), p) == Content(LiveAt(t), p)
  {
    var live, ids := LiveAt(t), Ids(rewrite.removed);
    forall i | i in ids
      ensures i !in DeleteIds(Scan(live)) && exists d :: d in live && !d.file.IsData() && d.Id() == i
    {
      var d := DanglingMember(t, rewrite, floors, i);
    }
    ScanAppliesExactly(live);
    DanglingRemovalPreserves(live, DeleteIds(Scan(live)), ids, t.lastSeq + 1, p);
    assert Without(live, ids) + Placed(t.defaultSpec, [], t.lastSeq + 1) == Without(live, ids);
  }
}
