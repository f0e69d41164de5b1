/** A compaction commit is invisible to readers: now, and under everything writers commit afterwards. */
module CompactionSafety {
  import opened Paths
  import opened Tables
  import opened Foreground
  import opened Producer
  import opened Rewrite
  import opened AntiJoin
  import opened Compact

  lemma WholeFileReads(a: Live, p: Key)
    ensures ReadRows([a], {}, p) == if a.key == p then a.Data() else []
  {
    ReadOne(a, {}, p);
    SeenUndeleted({}, a, |a.Data()|);
  }

  lemma {:induction false} PlacedReads(specId: int, files: seq<File>, n: int, values: seq<Value>, p: Key)
    requires forall f | f in files :: f.IsData() && f.partition == values
    ensures ReadRows(Placed(specId, files, n), {}, p) == if p == Key(specId, values) then RowsOf(files) else []
  {
    hide ReadRows;
    ReadNone({}, p);
    if files != [] {
      assert files[0] in files && forall f | f in files[1..] :: f in files;
      var a := Live(Key(specId, files[0].partition), files[0], n);
      assert Placed(specId, files, n) == [a] + Placed(specId, files[1..], n);
      PlacedReads(specId, files[1..], n, values, p);
      WholeFileReads(a, p);
      ReadCons(a, Placed(specId, files[1..], n), {}, p);
    }
  }

  /** Among data files, the removed ids are the wanted ones, and those all lie in one partition. */
  ghost predicate PicksData(live: seq<Live>, ids: set<string>, wanted: set<string>, k: Key) {
    forall e :: e in live && e.file.IsData() ==> (e.Id() in ids <==> e.Id() in wanted) && (e.Id() in wanted ==> e.key == k)
  }

  lemma {:induction false} WithinReads(part: seq<Live>, all: seq<Live>, ids: set<string>, wanted: set<string>, k: Key, p: Key)
    requires PicksData(part, ids, wanted, k)
    ensures ReadRows(Within(part, ids), Deletes(all), p) ==
            if p == k then ReadTasks(Select(ScanOf(part, all), wanted)) else []
  {
    if part != [] {
      var e, rest := part[0], part[1..];
      assert e in part && forall x | x in rest :: x in part;
      WithinReads(rest, all, ids, wanted, k, p);
      var head := if e.Id() in ids then [e] else [];
      ReadConcat(head, Within(rest, ids), Deletes(all), p);
      ReadOne(e, Deletes(all), p);
      if e.file.IsData() {
        var t := Task(e, ApplicableTo(all, e));
        SeenByApplicable(Deletes(all), t.All(), e);
        SelectHead(t, ScanOf(rest, all), wanted);
        assert ScanOf(part, all) == [t] + ScanOf(rest, all);
        if e.Id() !in ids {
          assert Within(part, ids) == Within(rest, ids);
        }
      } else {
        assert Seen(Deletes(all), e) == [];
        assert ScanOf(part, all) == ScanOf(rest, all);
        assert ReadRows(head, Deletes(all), p) == [];
      }
    }
  }

  lemma SelectHead(t: Task, rest: seq<Task>, wanted: set<string>)
    ensures ReadTasks(Select([t] + rest, wanted)) ==
            (if t.live.Id() in wanted then Seen(t.All(), t.live) else []) + ReadTasks(Select(rest, wanted))
  {
    assert ([t] + rest)[1..] == rest;
    var more := Select(rest, wanted);
    assert ([t] + more)[1..] == more;
    assert [] + more == more;
  }

  /** The ids a group's commit removes pick out, among data files, exactly the group. */
  lemma GroupPicksData(live: seq<Live>, tasks: seq<Task>, wanted: set<string>, k: Key)
    requires UniqueIds(live) && tasks == Select(Scan(live), wanted)
    requires forall x | x in tasks :: x.live.key == k
    ensures PicksData(live, TaskIds(tasks) + RetirableDeletes(tasks, Scan(live)), wanted, k)
  {
    hide Normalize, Applies;
    ScanMembers(live, live);
    SelectMembers(Scan(live), wanted);
    forall e | e in live && e.file.IsData()
      ensures e.Id() in TaskIds(tasks) + RetirableDeletes(tasks, Scan(live)) <==> e.Id() in wanted
      ensures e.Id() in wanted ==> e.key == k
    {
      var t := Task(e, ApplicableTo(live, e));
      assert t in Scan(live);
      if e.Id() in wanted {
        assert t in tasks;
      }
    }
  }

  /** A delete that applies to a file outside the group is not retired. */
  lemma AppliesOutside(live: seq<Live>, tasks: seq<Task>, d: Live, e: Live)
    requires d in live && e in live && e.file.IsData() && !d.file.IsData() && Applies(d, e) && e.Id() !in TaskIds(tasks)
    ensures d.Id() !in RetirableDeletes(tasks, Scan(live))
  {
    hide Normalize, Applies;
    ScanMembers(live, live);
    var t := Task(e, ApplicableTo(live, e));
    assert t in Outside(Scan(live), TaskIds(tasks)) && d in t.dels;
  }

  lemma OnlyDeletesApply(d: Live, e: Live)
    requires Applies(d, e)
    ensures !d.file.IsData()
  {
  }

  /** The files of a group are data, so none of its ids is a delete's. */
  lemma GroupIdsAreData(live: seq<Live>, tasks: seq<Task>, d: Live)
    requires UniqueIds(live) && forall x | x in tasks :: x in Scan(live)
    requires d in live && !d.file.IsData()
    ensures d.Id() !in TaskIds(tasks)
  {
    hide Normalize, Applies;
    ScanMembers(live, live);
  }

  /** No retired delete applies to a data file that stays. */
  lemma GroupRetiresIdle(live: seq<Live>, tasks: seq<Task>)
    requires UniqueIds(live)
    requires forall x | x in tasks :: x in Scan(live)
    ensures OnlyIdleDeletes(live, TaskIds(tasks) + RetirableDeletes(tasks, Scan(live)))
  {
    hide Normalize, Applies, Scan, TaskIds, RetirableDeletes;
    forall d, e | d in live && e in live && e.file.IsData() && Applies(d, e) && e.Id() !in TaskIds(tasks) + RetirableDeletes(tasks, Scan(live))
      ensures d.Id() !in TaskIds(tasks) + RetirableDeletes(tasks, Scan(live))
    {
      OnlyDeletesApply(d, e);
      GroupIdsAreData(live, tasks, d);
      AppliesOutside(live, tasks, d, e);
    }
  }

  /** One compaction commit leaves every partition's rows as they were. */
  lemma CompactionPreservesContent(t: Table, tasks: seq<Task>, wanted: set<string>, rewrite: Producer.Rewrite,
                                   nameOf: nat -> string, snapshotId: int, req: Request, p: Key)
    requires Sound(t) && tasks == Select(Scan(LiveAt(t)), wanted)
    requires GroupRewrite(t, tasks, rewrite, nameOf) && Replaces(t, rewrite, snapshotId, req)
    ensures Content(LiveAll(req.snapshot.manifests), p) == Content(LiveAt(t), p)
  {
    hide Normalize, LiveAll;
    var live, n := LiveAt(t), t.lastSeq + 1;
    var ids := Ids(rewrite.removed);
    var k: Key :| k.specId == t.defaultSpec && OfPartition(tasks, rewrite.added, k, nameOf);
    var added := Placed(t.defaultSpec, rewrite.added, n);
    SelectMembers(Scan(live), wanted);
    GroupPicksData(live, tasks, wanted, k);
    GroupRetiresIdle(live, tasks);
    forall q
      ensures multiset(ReadRows(added, {}, q)) == multiset(ReadRows(Within(live, ids), Deletes(live), q))
    {
      WithinReads(live, live, ids, wanted, k, q);
      PlacedReads(t.defaultSpec, rewrite.added, n, k.values, q);
    }
    ReplacementPreservesContent(live, ids, added, n, p);
  }

  /** And after it, any later run of appends and equality deletes finds the same rows to act on: with or without the
      compaction, every partition reads alike. */
  lemma CompactionCommutesWithLaterWrites(t: Table, tasks: seq<Task>, wanted: set<string>, rewrite: Producer.Rewrite,
                                          nameOf: nat -> string, snapshotId: int, req: Request, intents: seq<Intent>, p: Key)
    requires Sound(t) && tasks == Select(Scan(LiveAt(t)), wanted)
    requires GroupRewrite(t, tasks, rewrite, nameOf) && Replaces(t, rewrite, snapshotId, req)
    requires forall i | i in intents :: IntentOk(i)
    ensures Content(PerformAll(LiveAll(req.snapshot.manifests), t.lastSeq + 2, intents), p) ==
            Content(PerformAll(LiveAt(t), t.lastSeq + 1, intents), p)
  {
    forall q
      ensures Content(LiveAll(req.snapshot.manifests), q) == Content(LiveAt(t), q)
    {
      CompactionPreservesContent(t, tasks, wanted, rewrite, nameOf, snapshotId, req, q);
    }
    WithoutMembers(LiveAt(t), Ids(rewrite.removed));
    SameRowsStaySame(LiveAll(req.snapshot.manifests), t.lastSeq + 2, LiveAt(t), t.lastSeq + 1, intents, p);
  }
}
