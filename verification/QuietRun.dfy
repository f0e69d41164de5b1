/** A whole compaction run on a table nobody else writes to: every group commits at its first attempt, and afterwards no
    targeted file has a delete to apply and no delete that only such files needed is left. */
module QuietRun {
  import opened Wrappers
  import opened Paths
  import opened Tables
  import opened Sorting
  import opened Producer
  import opened Dangling
  import opened Rewrite
  import opened AntiJoin
  import opened Grouping
  import opened Compact
  import opened CompactionSafety
  import opened Maintenance
  import opened Protocol

  const MAX_CONSECUTIVE_GROUP_FAILURES := 3

  ghost predicate ListedOnce(live: seq<Live>) {
    forall i, j :: 0 <= i < j < |live| ==> live[i].Id() != live[j].Id()
  }

  /** The normalized name of output `i` of group `g`. */
  function OutName(envOf: nat -> Env, g: nat, i: nat): string {
    Normalize(envOf(g).nameOf(i))
  }

  /** No two outputs of the run share a name, and none takes a live file's. */
  ghost predicate FreshEnvs(t: Table, envOf: nat -> Env) {
    && (forall g: nat, i: nat :: OutName(envOf, g, i) !in LiveIds(LiveAt(t)))
    && (forall g: nat, i: nat, h: nat, j: nat :: OutName(envOf, g, i) == OutName(envOf, h, j) ==> g == h && i == j)
  }

  // ---- Where the run stands after `g` groups ----

  /** Whatever is live and was not at the start is an output of an earlier group, newer than every delete. */
  ghost predicate NewAreOutputs(t0: Table, t: Table, envOf: nat -> Env, g: nat) {
    forall e :: e in LiveAt(t) && e !in LiveAt(t0) ==>
      e.file.IsData() && e.seqNo > t0.lastSeq && exists h: nat, i: nat :: h < g && e.Id() == OutName(envOf, h, i)
  }

  /** A file still there still has all its deletes. */
  ghost predicate DeletesStay(t0: Table, t: Table) {
    forall d, e :: d in LiveAt(t0) && e in LiveAt(t0) && e in LiveAt(t) && e.file.IsData() && Applies(d, e) ==> d in LiveAt(t)
  }

  /** A delete still there that applied to something still does. */
  ghost predicate TargetsStay(t0: Table, t: Table) {
    forall d :: d in LiveAt(t) && !d.file.IsData() && AppliesSomewhere(d, t0) ==> AppliesSomewhere(d, t)
  }

  ghost predicate AppliesSomewhere(d: Live, t: Table) {
    exists e :: e in LiveAt(t) && e.file.IsData() && Applies(d, e)
  }

  /** No file of a later group has been touched. */
  ghost predicate LaterUntouched(t: Table, groups: seq<Group>, g: nat) {
    forall h, x :: g <= h < |groups| && x in groups[h].tasks ==> x.live in LiveAt(t)
  }

  ghost predicate Rewritten(t: Table, groups: seq<Group>, g: nat) {
    forall h, x :: 0 <= h < g && h < |groups| && x in groups[h].tasks ==> x.live !in LiveAt(t)
  }

  ghost predicate SameShape(t0: Table, t: Table) {
    t.defaultSpec == t0.defaultSpec && t.specs == t0.specs && t0.lastSeq <= t.lastSeq
  }

  ghost predicate Stands(t0: Table, t: Table, envOf: nat -> Env, groups: seq<Group>, g: nat) {
    && Sound(t) && SameShape(t0, t)
    && NewAreOutputs(t0, t, envOf, g) && DeletesStay(t0, t) && TargetsStay(t0, t) && LaterUntouched(t, groups, g)
  }

  /** Every task offered was scanned at the start, in a targeted partition of the current spec, and none twice. */
  ghost predicate Offer(t0: Table, s: Settings, partitions: seq<Key>, groups: seq<Group>) {
    && (forall g | g in groups :: Offered(s, g, Scan(LiveAt(t0)), partitions, t0.defaultSpec))
    && (forall x :: multiset(GroupTasks(groups))[x] <= 1)
  }

  // ---- No file twice ----

  lemma HeadListedOnce(part: seq<Live>)
    requires ListedOnce(part) && part != []
    ensures ListedOnce(part[1..]) && part[0] !in part[1..]
  {
    hide Normalize;
    forall k | 0 <= k < |part[1..]|
      ensures part[1..][k] != part[0]
    {
      assert part[0].Id() != part[k + 1].Id();
    }
  }

  lemma {:induction false} ScanOnce(part: seq<Live>, live: seq<Live>, x: Task)
    requires ListedOnce(part)
    ensures multiset(ScanOf(part, live))[x] <= 1
  {
    hide ListedOnce, ApplicableTo;
    if part != [] {
      HeadListedOnce(part);
      ScanOnce(part[1..], live, x);
      ScanMembers(part[1..], live);
    }
  }

  lemma {:induction false} InGroupTasks(groups: seq<Group>, h: nat, x: Task)
    requires h < |groups| && x in groups[h].tasks
    ensures x in GroupTasks(groups)
  {
    if h > 0 {
      InGroupTasks(groups[1..], h - 1, x);
    }
  }

  /** A task two groups share counts twice. */
  lemma SharedCountsTwice(groups: seq<Group>, g: nat, h: nat, x: Task)
    requires g < h < |groups| && x in groups[g].tasks && x in groups[h].tasks
    ensures multiset(GroupTasks(groups))[x] >= 2
  {
    hide GroupTasks;
    var rest := groups[..g] + groups[g + 1..];
    GroupTasksTakeOut(groups, g);
    assert rest[h - 1] == groups[h];
    InGroupTasks(rest, h - 1, x);
    assert multiset(GroupTasks(rest))[x] >= 1 && multiset(groups[g].tasks)[x] >= 1;
  }

  lemma TwiceCountsTwice<T>(s: seq<T>)
    requires |s| > 1 && s[0] == s[1]
    ensures multiset(s)[s[0]] >= 2
  {
    assert s == [s[0], s[1]] + s[2..];
  }

  lemma RepeatCountsTwice(groups: seq<Group>, g: nat)
    requires g < |groups| && |groups[g].tasks| > 1 && groups[g].tasks[0] == groups[g].tasks[1]
    ensures multiset(GroupTasks(groups))[groups[g].tasks[0]] >= 2
  {
    hide GroupTasks;
    GroupTasksTakeOut(groups, g);
    TwiceCountsTwice(groups[g].tasks);
  }

  // ---- A group finds its files as it left them ----

  function Wanted(g: Group): set<string> {
    set x | x in g.tasks :: x.live.Id()
  }

  function Selected(t: Table, g: Group): seq<Task> {
    Select(Scan(LiveAt(t)), Wanted(g))
  }

  /** An offered task's file, scanned again. */
  lemma StillSelected(t0: Table, t: Table, g: Group, x: Task, partitions: seq<Key>, s: Settings)
    requires Sound(t) && Offered(s, g, Scan(LiveAt(t0)), partitions, t0.defaultSpec)
    requires x in g.tasks && x.live in LiveAt(t)
    ensures Task(x.live, ApplicableTo(LiveAt(t), x.live)) in Selected(t, g)
  {
    hide Normalize, Sound, Applies;
    ScanMembers(LiveAt(t0), LiveAt(t0));
    ScanMembers(LiveAt(t), LiveAt(t));
    SelectMembers(Scan(LiveAt(t)), Wanted(g));
  }

  /** Whatever a group's names select is a file of the group, of its partition. */
  lemma SelectedIsOffered(t0: Table, t: Table, g: Group, partitions: seq<Key>, s: Settings)
    requires Sound(t) && Offered(s, g, Scan(LiveAt(t0)), partitions, t0.defaultSpec)
    requires forall x :: x in g.tasks ==> x.live in LiveAt(t)
    ensures forall y :: y in Selected(t, g) ==> y in Scan(LiveAt(t)) && y.live.key == g.partition
    ensures forall y :: y in Selected(t, g) ==> exists x :: x in g.tasks && x.live == y.live
  {
    hide Normalize, Applies;
    ScanMembers(LiveAt(t), LiveAt(t));
    SelectMembers(Scan(LiveAt(t)), Wanted(g));
    forall y | y in Selected(t, g)
      ensures exists x :: x in g.tasks && x.live == y.live
    {
      var x :| x in g.tasks && x.live.Id() == y.live.Id();
      assert UniqueIds(LiveAt(t));
    }
  }

  lemma TwoMembers<T>(s: seq<T>, a: T, b: T)
    requires a in s && b in s && a != b
    ensures |s| > 1
  {
  }

  lemma StillTwo(t0: Table, t: Table, groups: seq<Group>, g: nat, partitions: seq<Key>, s: Settings)
    requires Sound(t) && Offer(t0, s, partitions, groups) && g < |groups|
    requires LaterUntouched(t, groups, g) && |groups[g].tasks| > 1
    ensures |Selected(t, groups[g])| > 1
  {
    hide Normalize, Sound, Applies, Scan, Selected, GroupTasks, Offered, ApplicableTo;
    var group := groups[g];
    assert group in groups;
    ScannedTasks(t0, group, partitions, s);
    var first, second := group.tasks[0], group.tasks[1];
    StillSelected(t0, t, group, first, partitions, s);
    StillSelected(t0, t, group, second, partitions, s);
    if first == second {
      RepeatCountsTwice(groups, g);
    }
    TwoMembers(Selected(t, group), Task(first.live, ApplicableTo(LiveAt(t), first.live)), Task(second.live, ApplicableTo(LiveAt(t), second.live)));
  }

  lemma StillDeleted(t0: Table, t: Table, x: Task)
    requires DeletesStay(t0, t) && x.live in LiveAt(t0) && x.live in LiveAt(t) && x.live.file.IsData()
    requires x.dels == ApplicableTo(LiveAt(t0), x.live) && x.dels != []
    ensures ApplicableTo(LiveAt(t), x.live) != []
  {
    hide Normalize, Applies;
    assert x.dels[0] in x.dels;
    assert x.dels[0] in ApplicableTo(LiveAt(t), x.live);
  }

  /** And it is still worth a commit: as many files, with the deletes they had. */
  lemma StillWorth(t0: Table, t: Table, groups: seq<Group>, g: nat, partitions: seq<Key>, s: Settings)
    requires Sound(t) && Offer(t0, s, partitions, groups) && g < |groups|
    requires DeletesStay(t0, t) && LaterUntouched(t, groups, g)
    ensures s.WorthRewriting(Selected(t, groups[g]))
  {
    hide Normalize, Sound, Applies, Scan, Selected, GroupTasks, ApplicableTo, DeletesStay;
    var group := groups[g];
    assert group in groups;
    ScannedTasks(t0, group, partitions, s);
    assert s.WorthRewriting(group.tasks) && group.tasks[0] in group.tasks;
    StillSelected(t0, t, group, group.tasks[0], partitions, s);
    if |group.tasks| > 1 {
      StillTwo(t0, t, groups, g, partitions, s);
    } else if exists x | x in group.tasks :: x.dels != [] {
      var x :| x in group.tasks && x.dels != [];
      StillSelected(t0, t, group, x, partitions, s);
      StillDeleted(t0, t, x);
    } else {
      var x :| x in group.tasks && x.live.file.size > s.large;
      StillSelected(t0, t, group, x, partitions, s);
    }
  }

  lemma ScannedTasks(t0: Table, g: Group, partitions: seq<Key>, s: Settings)
    requires Offered(s, g, Scan(LiveAt(t0)), partitions, t0.defaultSpec)
    ensures forall x :: x in g.tasks ==> x.live in LiveAt(t0) && x.live.file.IsData() && x.dels == ApplicableTo(LiveAt(t0), x.live)
  {
    hide Normalize, Applies;
    ScanMembers(LiveAt(t0), LiveAt(t0));
  }

  // ---- One group's commit ----

  /** What the commit of group `g` does to the listing: its files and the deletes only it needed go, its outputs come. */
  ghost predicate Commits(t: Table, live': seq<Live>, ids: set<string>, n: int, envOf: nat -> Env, g: nat) {
    && n == t.lastSeq + 1
    && (forall e :: e in live' <==> (e in LiveAt(t) && e.Id() !in ids) || (e in live' && e.seqNo == n))
    && (forall e :: e in live' && e.seqNo == n ==> e.file.IsData() && exists i: nat :: e.Id() == OutName(envOf, g, i))
  }

  lemma CommitsAfter(t: Table, g: nat, envOf: nat -> Env, tasks: seq<Task>, rewrite: Producer.Rewrite, req: Request)
    requires Sound(t) && GroupShape(t, tasks, rewrite, envOf(g).nameOf) && Replaces(t, rewrite, envOf(g).snapshotId, req)
    ensures Commits(t, LiveAll(req.snapshot.manifests), TaskIds(tasks) + RetirableDeletes(tasks, Scan(LiveAt(t))), t.lastSeq + 1, envOf, g)
  {
    hide Normalize, Scan, LiveAll;
    var ids, n := Ids(rewrite.removed), t.lastSeq + 1;
    var k: Key :| k.specId == t.defaultSpec && OfPartition(tasks, rewrite.added, k, envOf(g).nameOf);
    WithoutMembers(LiveAt(t), ids);
    var placed := Placed(t.defaultSpec, rewrite.added, n);
    forall e | e in placed
      ensures e.file.IsData() && e.seqNo == n && exists i: nat :: e.Id() == OutName(envOf, g, i)
    {
      var i :| 0 <= i < |placed| && placed[i] == e;
      assert WrittenAs(rewrite.added[i], k.values, envOf(g).nameOf(i));
      assert e.Id() == OutName(envOf, g, i);
    }
  }

  lemma OutputsAreNew(t0: Table, t: Table, live': seq<Live>, ids: set<string>, envOf: nat -> Env, g: nat)
    requires Commits(t, live', ids, t.lastSeq + 1, envOf, g) && SameShape(t0, t) && NewAreOutputs(t0, t, envOf, g)
    ensures forall e :: e in live' && e !in LiveAt(t0) ==>
              e.file.IsData() && e.seqNo > t0.lastSeq && exists h: nat, i: nat :: h < g + 1 && e.Id() == OutName(envOf, h, i)
  {
    hide Normalize, OutName;
    forall e | e in live' && e !in LiveAt(t0)
      ensures e.file.IsData() && e.seqNo > t0.lastSeq && exists h: nat, i: nat :: h < g + 1 && e.Id() == OutName(envOf, h, i)
    {
      if e.seqNo == t.lastSeq + 1 {
        var i: nat :| e.Id() == OutName(envOf, g, i);
      } else {
        var h: nat, i: nat :| h < g && e.Id() == OutName(envOf, h, i);
      }
    }
  }

  lemma DeletesStayOn(t0: Table, t: Table, live': seq<Live>, ids: set<string>, envOf: nat -> Env, g: nat)
    requires Sound(t0) && Commits(t, live', ids, t.lastSeq + 1, envOf, g) && SameShape(t0, t)
    requires DeletesStay(t0, t) && OnlyIdleDeletes(LiveAt(t), ids)
    ensures forall d, e :: d in LiveAt(t0) && e in LiveAt(t0) && e in live' && e.file.IsData() && Applies(d, e) ==> d in live'
  {
    hide Normalize, Applies;
    forall d, e | d in LiveAt(t0) && e in LiveAt(t0) && e in live' && e.file.IsData() && Applies(d, e)
      ensures d in live'
    {
      assert e.seqNo <= t0.lastSeq;
      assert e in LiveAt(t) && e.Id() !in ids;
      assert d in LiveAt(t);
    }
  }

  /** A delete that stays and applied to a file of the group was kept for another file's sake. */
  lemma KeptForAnother(live: seq<Live>, tasks: seq<Task>, d: Live, e: Live) returns (other: Live)
    requires UniqueIds(live) && forall x | x in tasks :: x in Scan(live)
    requires d in live && e in live && e.file.IsData() && !d.file.IsData() && Applies(d, e)
    requires d.Id() !in TaskIds(tasks) + RetirableDeletes(tasks, Scan(live))
    ensures other in live && other.file.IsData() && Applies(d, other)
    ensures other.Id() !in TaskIds(tasks) + RetirableDeletes(tasks, Scan(live))
  {
    hide Normalize, Applies;
    ScanMembers(live, live);
    if e.Id() in TaskIds(tasks) {
      var x :| x in tasks && x.live.Id() == e.Id();
      assert x.live == e && d in x.dels;
      assert d.Id() in DeleteIds(tasks);
      assert d.Id() in DeleteIds(Outside(Scan(live), TaskIds(tasks)));
      var u, d' :| u in Outside(Scan(live), TaskIds(tasks)) && d' in u.dels && d'.Id() == d.Id();
      assert d' == d;
      other := u.live;
    } else {
      other := e;
    }
    RetiredAreDeletes(live, tasks, other);
  }

  lemma RetiredAreDeletes(live: seq<Live>, tasks: seq<Task>, e: Live)
    requires UniqueIds(live) && forall x | x in tasks :: x in Scan(live)
    requires e in live && e.file.IsData()
    ensures e.Id() !in RetirableDeletes(tasks, Scan(live))
  {
    hide Normalize, Applies;
    ScanMembers(live, live);
  }

  lemma TargetsStayOn(t0: Table, t: Table, live': seq<Live>, tasks: seq<Task>, envOf: nat -> Env, g: nat)
    requires Sound(t) && TargetsStay(t0, t) && forall x | x in tasks :: x in Scan(LiveAt(t))
    requires Commits(t, live', TaskIds(tasks) + RetirableDeletes(tasks, Scan(LiveAt(t))), t.lastSeq + 1, envOf, g)
    ensures forall d :: d in live' && !d.file.IsData() && AppliesSomewhere(d, t0) ==>
              exists e :: e in live' && e.file.IsData() && Applies(d, e)
  {
    hide Normalize, Applies, Scan, RetirableDeletes;
    forall d | d in live' && !d.file.IsData() && AppliesSomewhere(d, t0)
      ensures exists e :: e in live' && e.file.IsData() && Applies(d, e)
    {
      var e :| e in LiveAt(t) && e.file.IsData() && Applies(d, e);
      var other := KeptForAnother(LiveAt(t), tasks, d, e);
      assert other in live';
    }
  }

  lemma OutputsFresh(t0: Table, t: Table, envOf: nat -> Env, g: nat, tasks: seq<Task>, added: seq<File>, k: Key)
    requires FreshEnvs(t0, envOf) && NewAreOutputs(t0, t, envOf, g)
    requires OfPartition(tasks, added, k, envOf(g).nameOf)
    ensures DistinctPaths(added)
    ensures forall f | f in added :: Normalize(f.path) !in LiveIds(LiveAt(t))
  {
    hide Normalize;
    forall i | 0 <= i < |added|
      ensures Normalize(added[i].path) == OutName(envOf, g, i)
    {
      assert WrittenAs(added[i], k.values, envOf(g).nameOf(i));
    }
    forall f | f in added
      ensures Normalize(f.path) !in LiveIds(LiveAt(t))
    {
      var i :| 0 <= i < |added| && added[i] == f;
    }
  }

  lemma SoundMoved(t: Table, p: Post)
    requires Sound(t) && p.base == t && Derives(p)
    ensures Sound(Moved(t, p.request.snapshot)) && SameShape(t, Moved(t, p.request.snapshot))
  {
    hide Normalize;
  }

  /** The commit of one group leaves a sound table. */
  lemma GroupIsSound(t0: Table, t: Table, envOf: nat -> Env, groups: seq<Group>, g: nat, wanted: set<string>,
                     rewrite: Producer.Rewrite, req: Request)
    requires Stands(t0, t, envOf, groups, g) && FreshEnvs(t0, envOf)
    requires Select(Scan(LiveAt(t)), wanted) != []
    requires GroupShape(t, Select(Scan(LiveAt(t)), wanted), rewrite, envOf(g).nameOf) && Replaces(t, rewrite, envOf(g).snapshotId, req)
    ensures Sound(Moved(t, req.snapshot))
  {
    hide Normalize, Scan, Select, Sound, LiveAll, FreshEnvs, NewAreOutputs, DeletesStay, TargetsStay, LaterUntouched, Derives;
    var tasks := Select(Scan(LiveAt(t)), wanted);
    var p := Post(t, Compaction(wanted, rewrite), req);
    var k: Key :| k.specId == t.defaultSpec && OfPartition(tasks, rewrite.added, k, envOf(g).nameOf);
    OutputsFresh(t0, t, envOf, g, tasks, rewrite.added, k);
    assert Shaped(p);
    CompactionDerives(p, LiveIds(LiveAt(t)));
    SoundMoved(t, p);
  }

  /** A delete some scanned file has now, it had at the start. */
  lemma HadItsDelete(t0: Table, t: Table, envOf: nat -> Env, g: nat, x: Task, y: Task, d: Live)
    requires NewAreOutputs(t0, t, envOf, g) && y in Scan(LiveAt(t)) && d in y.dels
    requires x.live == y.live && x.dels == ApplicableTo(LiveAt(t0), x.live)
    ensures d in x.dels
  {
    hide Normalize, Applies, OutName, LiveAt;
    ScanMembers(LiveAt(t), LiveAt(t));
  }

  lemma OfferedAddressed(groups: seq<Group>, g: nat, x: Task, d: Live, schema: Schema)
    requires g < |groups| && x in groups[g].tasks && d in x.EqDels() && AllAddressed(schema, GroupTasks(groups))
    ensures Addressed(schema, d)
  {
    hide Addressed, GroupTasks;
    InGroupTasks(groups, g, x);
  }

  lemma StandsParts(t0: Table, t: Table, envOf: nat -> Env, groups: seq<Group>, g: nat)
    requires Stands(t0, t, envOf, groups, g)
    ensures Sound(t) && NewAreOutputs(t0, t, envOf, g) && LaterUntouched(t, groups, g)
  {
  }

  /** The deletes a later group's files have were theirs when the groups were offered. */
  lemma SelectedAddressed(t0: Table, t: Table, envOf: nat -> Env, groups: seq<Group>, g: nat, s: Settings, partitions: seq<Key>, schema: Schema)
    requires Stands(t0, t, envOf, groups, g) && Offer(t0, s, partitions, groups) && g < |groups|
    requires AllAddressed(schema, GroupTasks(groups))
    ensures AllAddressed(schema, Selected(t, groups[g]))
  {
    hide Normalize, Applies, Scan, Selected, GroupTasks, Addressed, Sound, OutName, LiveAt, Stands, NewAreOutputs, LaterUntouched, Offered;
    StandsParts(t0, t, envOf, groups, g);
    assert groups[g] in groups;
    TasksStillLive(t, groups, g);
    SelectedIsOffered(t0, t, groups[g], partitions, s);
    ScannedTasks(t0, groups[g], partitions, s);
    forall y, d | y in Selected(t, groups[g]) && d in y.EqDels()
      ensures Addressed(schema, d)
    {
      var x :| x in groups[g].tasks && x.live == y.live;
      HadItsDelete(t0, t, envOf, g, x, y, d);
      OfferedAddressed(groups, g, x, d, schema);
    }
  }

  // ---- Nothing fails that can be rewritten ----

  ghost predicate AllPlain(schema: Schema, groups: seq<Group>) {
    forall g, x :: g in groups && x in g.tasks ==> Plain(schema, x)
  }

  /** A group of plain files, offered at any version a quiet run reaches from a healthy table, gets as far as its commit. */
  lemma SelectedIsCommittable(t0: Table, t: Table, envOf: nat -> Env, groups: seq<Group>, g: nat, s: Settings, partitions: seq<Key>, schema: Schema)
    requires Stands(t0, t, envOf, groups, g) && Offer(t0, s, partitions, groups) && g < |groups|
    requires Healthy(t) && AllPlain(schema, groups) && t.defaultSpec in t.specs && Selected(t, groups[g]) != []
    ensures Committable(t, Selected(t, groups[g]), schema)
  {
    hide Normalize, Applies, Scan, Selected, GroupTasks, Sound, OutName, LiveAt, Stands, NewAreOutputs, LaterUntouched, Offered, Healthy,
         Committable, Readable;
    StandsParts(t0, t, envOf, groups, g);
    assert groups[g] in groups;
    TasksStillLive(t, groups, g);
    SelectedIsOffered(t0, t, groups[g], partitions, s);
    ScannedTasks(t0, groups[g], partitions, s);
    forall y | y in Selected(t, groups[g])
      ensures Plain(schema, y)
    {
      var x :| x in groups[g].tasks && x.live == y.live;
      assert Plain(schema, x);
      forall d | d in y.dels
        ensures d in x.dels
      {
        HadItsDelete(t0, t, envOf, g, x, y, d);
      }
    }
    PlainIsCommittable(t, Selected(t, groups[g]), groups[g].partition, schema);
  }

  lemma ReadsAlikeTransitive(a: seq<Live>, b: seq<Live>, c: seq<Live>)
    requires ReadsAlike(a, b) && ReadsAlike(b, c)
    ensures ReadsAlike(a, c)
  {
    hide Content;
  }

  /** The files of later groups are not this one's. */
  lemma LaterUntouchedOn(t0: Table, t: Table, live': seq<Live>, groups: seq<Group>, g: nat, s: Settings, partitions: seq<Key>, envOf: nat -> Env)
    requires Sound(t) && Offer(t0, s, partitions, groups) && g < |groups| && LaterUntouched(t, groups, g)
    requires var tasks := Selected(t, groups[g]);
             Commits(t, live', TaskIds(tasks) + RetirableDeletes(tasks, Scan(LiveAt(t))), t.lastSeq + 1, envOf, g)
    ensures forall h, x :: g + 1 <= h < |groups| && x in groups[h].tasks ==> x.live in live'
    ensures forall x :: x in groups[g].tasks ==> x.live !in live'
  {
    hide Normalize, Applies, Scan, GroupTasks, Selected, RetirableDeletes;
    var tasks := Selected(t, groups[g]);
    assert groups[g] in groups;
    SelectedIsOffered(t0, t, groups[g], partitions, s);
    forall h, x | g + 1 <= h < |groups| && x in groups[h].tasks
      ensures x.live in live'
    {
      assert groups[h] in groups;
      ScannedTasks(t0, groups[h], partitions, s);
      ScannedTasks(t0, groups[g], partitions, s);
      RetiredAreDeletes(LiveAt(t), tasks, x.live);
      if x.live.Id() in TaskIds(tasks) {
        var y :| y in tasks && y.live.Id() == x.live.Id();
        var z :| z in groups[g].tasks && z.live == y.live;
        assert z == x by {
          SameLiveSame(t, y.live, x.live);
        }
        SharedCountsTwice(groups, g, h, x);
      }
    }
    forall x | x in groups[g].tasks
      ensures x.live !in live'
    {
      StillSelected(t0, t, groups[g], x, partitions, s);
      assert x.live.Id() in TaskIds(tasks);
      assert x.live in LiveAt(t);
    }
  }

  lemma SameLiveSame(t: Table, a: Live, b: Live)
    requires Sound(t) && a in LiveAt(t) && b in LiveAt(t) && a.Id() == b.Id()
    ensures a == b
  {
  }

  /** One group's commit keeps the run standing, with the group's own files gone. */
  lemma GroupStands(t0: Table, t: Table, envOf: nat -> Env, groups: seq<Group>, g: nat, s: Settings, partitions: seq<Key>,
                    rewrite: Producer.Rewrite, req: Request)
    requires Sound(t0) && Stands(t0, t, envOf, groups, g) && FreshEnvs(t0, envOf) && Offer(t0, s, partitions, groups) && g < |groups|
    requires Selected(t, groups[g]) != []
    requires GroupShape(t, Selected(t, groups[g]), rewrite, envOf(g).nameOf) && Replaces(t, rewrite, envOf(g).snapshotId, req)
    ensures Stands(t0, Moved(t, req.snapshot), envOf, groups, g + 1)
    ensures Rewritten(t, groups, g) ==> Rewritten(Moved(t, req.snapshot), groups, g + 1)
  {
    hide Normalize, Scan, Sound, LiveAll, FreshEnvs, Offer, NewAreOutputs, DeletesStay, TargetsStay, LaterUntouched, GroupShape, Replaces,
         Commits, RetirableDeletes, Rewritten, Selected, SameShape, Select, OnlyIdleDeletes, TaskIds;
    var tasks, t' := Selected(t, groups[g]), Moved(t, req.snapshot);
    SelectedIs(t, groups[g]);
    GroupIsSound(t0, t, envOf, groups, g, Wanted(groups[g]), rewrite, req);
    MovedFacts(t0, t, req);
    CommitsAfter(t, g, envOf, tasks, rewrite, req);
    SelectedScanned(t, groups[g]);
    SoundUnique(t);
    GroupRetiresIdle(LiveAt(t), tasks);
    var ids := TaskIds(tasks) + RetirableDeletes(tasks, Scan(LiveAt(t)));
    OutputsOn(t0, t, t', ids, envOf, g);
    DeletesOn(t0, t, t', ids, envOf, g);
    TargetsOn(t0, t, t', tasks, envOf, g);
    LaterOn(t0, t, t', groups, g, s, partitions, envOf);
  }

  lemma SelectedIs(t: Table, g: Group)
    ensures Selected(t, g) == Select(Scan(LiveAt(t)), Wanted(g))
  {
  }

  lemma SelectedScanned(t: Table, g: Group)
    ensures forall x | x in Selected(t, g) :: x in Scan(LiveAt(t))
  {
    SelectMembers(Scan(LiveAt(t)), Wanted(g));
  }

  lemma SoundUnique(t: Table)
    requires Sound(t)
    ensures UniqueIds(LiveAt(t)) && AllBelow(LiveAt(t), t.lastSeq + 1)
  {
  }

  lemma MovedFacts(t0: Table, t: Table, req: Request)
    requires SameShape(t0, t)
    ensures SameShape(t0, Moved(t, req.snapshot)) && LiveAt(Moved(t, req.snapshot)) == LiveAll(req.snapshot.manifests)
  {
    hide LiveAll;
  }

  lemma OutputsOn(t0: Table, t: Table, t': Table, ids: set<string>, envOf: nat -> Env, g: nat)
    requires Commits(t, LiveAt(t'), ids, t.lastSeq + 1, envOf, g) && SameShape(t0, t) && NewAreOutputs(t0, t, envOf, g)
    ensures NewAreOutputs(t0, t', envOf, g + 1)
  {
    hide Normalize, Commits, LiveAt, OutName;
    OutputsAreNew(t0, t, LiveAt(t'), ids, envOf, g);
  }

  lemma DeletesOn(t0: Table, t: Table, t': Table, ids: set<string>, envOf: nat -> Env, g: nat)
    requires Sound(t0) && Commits(t, LiveAt(t'), ids, t.lastSeq + 1, envOf, g) && SameShape(t0, t)
    requires DeletesStay(t0, t) && OnlyIdleDeletes(LiveAt(t), ids)
    ensures DeletesStay(t0, t')
  {
    hide Normalize, Commits, LiveAt, Sound, Applies, OnlyIdleDeletes;
    DeletesStayOn(t0, t, LiveAt(t'), ids, envOf, g);
  }

  lemma TargetsOn(t0: Table, t: Table, t': Table, tasks: seq<Task>, envOf: nat -> Env, g: nat)
    requires Sound(t) && TargetsStay(t0, t) && forall x | x in tasks :: x in Scan(LiveAt(t))
    requires Commits(t, LiveAt(t'), TaskIds(tasks) + RetirableDeletes(tasks, Scan(LiveAt(t))), t.lastSeq + 1, envOf, g)
    ensures TargetsStay(t0, t')
  {
    hide Normalize, Commits, LiveAt, Sound, Applies, Scan;
    TargetsStayOn(t0, t, LiveAt(t'), tasks, envOf, g);
  }

  lemma LaterOn(t0: Table, t: Table, t': Table, groups: seq<Group>, g: nat, s: Settings, partitions: seq<Key>, envOf: nat -> Env)
    requires Sound(t0) && SameShape(t0, t)
    requires Sound(t) && Offer(t0, s, partitions, groups) && g < |groups| && LaterUntouched(t, groups, g)
    requires var tasks := Selected(t, groups[g]);
             Commits(t, LiveAt(t'), TaskIds(tasks) + RetirableDeletes(tasks, Scan(LiveAt(t))), t.lastSeq + 1, envOf, g)
    ensures LaterUntouched(t', groups, g + 1)
    ensures Rewritten(t, groups, g) ==> Rewritten(t', groups, g + 1)
  {
    hide Normalize, LiveAt, Sound, Applies, Scan, Selected, RetirableDeletes, TaskIds, Offer, NewAreOutputs, OutName;
    LaterUntouchedOn(t0, t, LiveAt(t'), groups, g, s, partitions, envOf);
    if Rewritten(t, groups, g) {
      forall h, x | 0 <= h < g + 1 && h < |groups| && x in groups[h].tasks
        ensures x.live !in LiveAt(t')
      {
        if h < g {
          OldAreOld(t0, t, groups, h, x, s, partitions);
          SoundUnique(t0);
        }
      }
    }
  }

  lemma OldAreOld(t0: Table, t: Table, groups: seq<Group>, h: nat, x: Task, s: Settings, partitions: seq<Key>)
    requires Offer(t0, s, partitions, groups) && h < |groups| && x in groups[h].tasks
    ensures x.live in LiveAt(t0)
  {
    hide Normalize, LiveAt;
    assert groups[h] in groups;
    ScannedTasks(t0, groups[h], partitions, s);
  }

  // ---- What a finished run leaves ----

  predicate Targeted(e: Live, partitions: seq<Key>, specId: int) {
    e.file.IsData() && e.key in partitions && e.key.specId == specId
  }

  /** No file in a targeted partition has a delete to apply. */
  ghost predicate TargetsClean(t: Table, partitions: seq<Key>, specId: int) {
    forall d, e :: d in LiveAt(t) && e in LiveAt(t) && Targeted(e, partitions, specId) ==> !Applies(d, e)
  }

  /** Every delete file that applied to some file at the start, and to targeted files only, is gone, shared between groups
      or not. */
  ghost predicate OwnDeletesGone(t0: Table, t: Table, partitions: seq<Key>, specId: int) {
    forall d :: d in LiveAt(t0) && AppliesSomewhere(d, t0)
                && (forall e :: e in LiveAt(t0) && e.file.IsData() && Applies(d, e) ==> Targeted(e, partitions, specId)) ==>
      d !in LiveAt(t)
  }

  lemma DeletesAreOld(t0: Table, t: Table, envOf: nat -> Env, groups: seq<Group>, g: nat, d: Live, e: Live)
    requires Sound(t0) && Stands(t0, t, envOf, groups, g) && d in LiveAt(t) && e in LiveAt(t) && e.file.IsData() && Applies(d, e)
    ensures d in LiveAt(t0) && e in LiveAt(t0)
  {
    hide Normalize, LiveAt, OutName;
    SoundUnique(t0);
  }

  lemma CleanAtTheEnd(t0: Table, t: Table, envOf: nat -> Env, groups: seq<Group>, partitions: seq<Key>)
    requires Sound(t0) && Stands(t0, t, envOf, groups, |groups|) && Rewritten(t, groups, |groups|)
    requires forall k | k in partitions && k.specId == t0.defaultSpec :: TakesDeleted(groups, Scan(LiveAt(t0)), k)
    ensures TargetsClean(t, partitions, t0.defaultSpec)
  {
    hide Normalize, LiveAt, Applies, Sound, Stands, Scan;
    forall d, e | d in LiveAt(t) && e in LiveAt(t) && Targeted(e, partitions, t0.defaultSpec)
      ensures !Applies(d, e)
    {
      if Applies(d, e) {
        DeletesAreOld(t0, t, envOf, groups, |groups|, d, e);
        TakenIfDeleted(t0, groups, d, e);
      }
    }
  }

  lemma TakenIfDeleted(t0: Table, groups: seq<Group>, d: Live, e: Live)
    requires d in LiveAt(t0) && e in LiveAt(t0) && e.file.IsData() && Applies(d, e)
    requires TakesDeleted(groups, Scan(LiveAt(t0)), e.key)
    ensures exists h, x :: 0 <= h < |groups| && x in groups[h].tasks && x.live == e
  {
    hide Normalize;
    ScanMembers(LiveAt(t0), LiveAt(t0));
    var x := Task(e, ApplicableTo(LiveAt(t0), e));
    assert d in x.dels;
    assert x in Scan(LiveAt(t0)) && x.live.key == e.key && x.dels != [];
    var g :| g in groups && x in g.tasks;
    var h :| 0 <= h < |groups| && groups[h] == g;
  }

  lemma OwnGoneAtTheEnd(t0: Table, t: Table, envOf: nat -> Env, groups: seq<Group>, partitions: seq<Key>)
    requires Sound(t0) && Stands(t0, t, envOf, groups, |groups|) && TargetsClean(t, partitions, t0.defaultSpec)
    ensures OwnDeletesGone(t0, t, partitions, t0.defaultSpec)
  {
    hide Normalize, LiveAt, Sound, Scan;
    forall d | d in LiveAt(t0) && AppliesSomewhere(d, t0)
               && (forall e :: e in LiveAt(t0) && e.file.IsData() && Applies(d, e) ==> Targeted(e, partitions, t0.defaultSpec))
      ensures d !in LiveAt(t)
    {
      var e0 :| e0 in LiveAt(t0) && e0.file.IsData() && Applies(d, e0);
      assert !d.file.IsData();
      if d in LiveAt(t) {
        assert AppliesSomewhere(d, t);
        var e :| e in LiveAt(t) && e.file.IsData() && Applies(d, e);
        DeletesAreOld(t0, t, envOf, groups, |groups|, d, e);
      }
    }
  }

  lemma Starts(t0: Table, envOf: nat -> Env, groups: seq<Group>, s: Settings, partitions: seq<Key>)
    requires Sound(t0) && Offer(t0, s, partitions, groups)
    ensures Stands(t0, t0, envOf, groups, 0) && Rewritten(t0, groups, 0)
  {
    hide Normalize, Scan, Content;
    forall h, x | 0 <= h < |groups| && x in groups[h].tasks
      ensures x.live in LiveAt(t0)
    {
      OldAreOld(t0, t0, groups, h, x, s, partitions);
    }
  }

  lemma OfferOnce(t0: Table, s: Settings, partitions: seq<Key>, groups: seq<Group>)
    requires ListedOnce(LiveAt(t0))
    requires forall g | g in groups :: Offered(s, g, Scan(LiveAt(t0)), partitions, t0.defaultSpec)
    requires multiset(GroupTasks(groups)) <= multiset(Scan(LiveAt(t0)))
    ensures Offer(t0, s, partitions, groups)
  {
    hide Normalize, GroupTasks, ScanOf, ListedOnce, Offered;
    forall x
      ensures multiset(GroupTasks(groups))[x] <= 1
    {
      ScanOnce(LiveAt(t0), LiveAt(t0), x);
    }
  }

  /** A dropped file leaves everything else where it was. */
  lemma DropLeaves(t: Table, rewrite: Producer.Rewrite, floors: Floors, snapshotId: int, req: Request)
    requires Sound(t) && Drops(t, rewrite, floors) && Replaces(t, rewrite, snapshotId, req)
    ensures forall e :: e in LiveAll(req.snapshot.manifests) ==> e in LiveAt(t)
    ensures ReadsAlike(LiveAt(t), LiveAll(req.snapshot.manifests))
  {
    hide Normalize, LiveAll, LiveAt, Content, SpecsAll;
    WithoutMembers(LiveAt(t), Ids(rewrite.removed));
    forall k
      ensures Content(LiveAll(req.snapshot.manifests), k) == Content(LiveAt(t), k)
    {
      DropPreservesContent(t, rewrite, floors, snapshotId, req, k);
    }
  }

  lemma FewerLive(t0: Table, t: Table, t': Table, groups: seq<Group>, partitions: seq<Key>, specId: int)
    requires forall e :: e in LiveAt(t') ==> e in LiveAt(t)
    requires TargetsClean(t, partitions, specId) && OwnDeletesGone(t0, t, partitions, specId) && Rewritten(t, groups, |groups|)
    ensures TargetsClean(t', partitions, specId) && OwnDeletesGone(t0, t', partitions, specId) && Rewritten(t', groups, |groups|)
  {
    hide Normalize, LiveAt, Applies;
  }

  /** What a run did: groups committed, groups it found already done by a commit nobody confirmed, groups failed, whether it
      stopped because the table could not be read again, and whether a dangling removal was committed. */
  datatype Report = Report(committed: nat, silent: nat, failed: nat, stopped: bool, dropped: bool)

  /** Group `g` can be brought as far as a commit at `t`. */
  ghost predicate Builds(schema: Schema, groups: seq<Group>, g: nat, t: Table)
    requires g < |groups|
  {
    var tasks := Selected(t, groups[g]);
    tasks != [] && t.defaultSpec in t.specs && Committable(t, tasks, schema)
  }

  /** One attempt at a group: its files as a version of the table has them, rewritten under `env`. On a quiet table, whatever
      version a run holds, the group is never found gone or not worth it. */
  method Attempt(t0: Table, t: Table, s: Settings, schema: Schema, groups: seq<Group>, g: nat, ghost partitions: seq<Key>,
                 ghost envOf: nat -> Env, env: Env)
      returns (r: Result<Request>, ghost rewrite: Producer.Rewrite)
    requires g < |groups| && env.settings == s && env.schema == schema && Sound(t0)
    requires Stands(t0, t, envOf, groups, g) && Offer(t0, s, partitions, groups)
    ensures r.Ok? <==> Builds(schema, groups, g, t)
    ensures Healthy(t) && AllPlain(schema, groups) ==> r.Ok?
    ensures r.Ok? ==> Replaces(t, rewrite, env.snapshotId, r.value) && GroupShape(t, Selected(t, groups[g]), rewrite, env.nameOf)
    ensures r.Ok? && AllAddressed(schema, Selected(t, groups[g])) ==> GroupRewrite(t, Selected(t, groups[g]), rewrite, env.nameOf)
    ensures r.Err? ==> !r.error.IsReplan()
  {
    hide Normalize, Scan, Sound, LiveAll, LiveAt, NewAreOutputs, DeletesStay, TargetsStay, LaterUntouched, GroupShape, GroupRewrite,
         RetirableDeletes, Select, SameShape, OutName, GroupTasks, AllAddressed, AllResolvable, OnSpec, Unwritable, RefusesDelete, Streamed,
         Healthy, AllPlain, Committable;
    StandsParts(t0, t, envOf, groups, g);
    SoundSpec(t);
    assert groups[g] in groups;
    TasksStillLive(t, groups, g);
    SelectedIsOffered(t0, t, groups[g], partitions, s);
    StillWorth(t0, t, groups, g, partitions, s);
    OfferedSpec(t0, s, groups, g, partitions);
    SameSpec(t0, t);
    var tasks := Select(Scan(LiveAt(t)), Wanted(groups[g]));
    SelectedIs(t, groups[g]);
    OnPartition(t, tasks, groups[g].partition);
    assert tasks != [];
    if Healthy(t) && AllPlain(schema, groups) {
      SelectedIsCommittable(t0, t, envOf, groups, g, s, partitions, schema);
    }
    var built;
    built, rewrite := RewriteOnce(t, tasks, env);
    if built.Err? {
      return Err(built.error), rewrite;
    }
    r := Ok(built.value.value);
  }

  /** One group, built at the version `main` holds; `r` is the table its commit makes. */
  method OfferGroup(t0: Table, t: Table, s: Settings, schema: Schema, groups: seq<Group>, g: nat, ghost partitions: seq<Key>, envOf: nat -> Env)
      returns (r: Result<Table>)
    requires g < |groups| && envOf(g).settings == s && envOf(g).schema == schema && Sound(t0)
    requires Stands(t0, t, envOf, groups, g) && FreshEnvs(t0, envOf) && Offer(t0, s, partitions, groups)
    ensures r.Ok? ==> Stands(t0, r.value, envOf, groups, g + 1)
    ensures r.Ok? ==> r.value.mainHead == Some(envOf(g).snapshotId) && r.value.current.Some? && r.value.current.value.parent == t.mainHead
    ensures r.Ok? && Rewritten(t, groups, g) ==> Rewritten(r.value, groups, g + 1)
    ensures r.Ok? && AllAddressed(schema, GroupTasks(groups)) ==> ReadsAlike(LiveAt(t), LiveAt(r.value))
    ensures r.Ok? <==> Builds(schema, groups, g, t)
    ensures Healthy(t) && AllPlain(schema, groups) ==> r.Ok?
    ensures r.Ok? ==> (Healthy(t) ==> Healthy(r.value)) && (Orderly(t) ==> Orderly(r.value))
    ensures r.Err? ==> !r.error.IsReplan()
  {
    hide Normalize, Scan, Sound, LiveAll, LiveAt, NewAreOutputs, DeletesStay, TargetsStay, LaterUntouched, GroupShape, GroupRewrite,
         RetirableDeletes, ReadsAlike, Rewritten, Select, SameShape, OutName, GroupTasks, AllAddressed, Offer, Healthy, AllPlain, Committable,
         Orderly, Replaces;
    ghost var rewrite;
    var built;
    built, rewrite := Attempt(t0, t, s, schema, groups, g, partitions, envOf, envOf(g));
    if built.Err? {
      return Err(built.error);
    }
    var req := built.value;
    GroupStands(t0, t, envOf, groups, g, s, partitions, rewrite, req);
    MovedLive(t, req);
    ReplacementMoves(t, rewrite, envOf(g).snapshotId, req);
    if AllAddressed(schema, GroupTasks(groups)) {
      SelectedAddressed(t0, t, envOf, groups, g, s, partitions, schema);
      SelectedIs(t, groups[g]);
      CompactionReadsAlike(t, Selected(t, groups[g]), Wanted(groups[g]), rewrite, envOf(g).nameOf, req);
    }
    r := Ok(Moved(t, req.snapshot));
    StandsParts(t0, t, envOf, groups, g);
    MovedStaysFit(t, rewrite, envOf(g).snapshotId, req);
    ShapedAddsData(t, Selected(t, groups[g]), rewrite, envOf(g).nameOf);
  }

  lemma ShapedAddsData(t: Table, tasks: seq<Task>, rewrite: Producer.Rewrite, nameOf: nat -> string)
    requires GroupShape(t, tasks, rewrite, nameOf)
    ensures forall f :: f in rewrite.added ==> f.IsData()
  {
    hide Normalize, RetirableDeletes;
  }

  lemma MovedStaysFit(t: Table, rewrite: Producer.Rewrite, snapshotId: int, req: Request)
    requires Sound(t) && Replaces(t, rewrite, snapshotId, req)
    ensures Healthy(t) ==> Healthy(Moved(t, req.snapshot))
    ensures Orderly(t) && (forall f :: f in rewrite.added ==> f.IsData()) ==> Orderly(Moved(t, req.snapshot))
  {
    hide Sound, Replaces, OrderlyManifest;
    if Healthy(t) {
      HealthyMoves(t, rewrite, snapshotId, req);
    }
    if Orderly(t) && forall f :: f in rewrite.added ==> f.IsData() {
      OrderlyMoves(t, rewrite, snapshotId, req);
    }
  }

  lemma ReplacementMoves(t: Table, rewrite: Producer.Rewrite, snapshotId: int, req: Request)
    requires Replaces(t, rewrite, snapshotId, req)
    ensures req.snapshot.id == snapshotId && req.snapshot.parent == t.mainHead
  {
  }

  lemma OnPartition(t: Table, tasks: seq<Task>, k: Key)
    requires k.specId == t.defaultSpec && forall y :: y in tasks ==> y.live.key == k
    ensures OnSpec(t, tasks)
  {
  }

  lemma TasksStillLive(t: Table, groups: seq<Group>, g: nat)
    requires LaterUntouched(t, groups, g) && g < |groups|
    ensures forall x :: x in groups[g].tasks ==> x.live in LiveAt(t)
  {
  }

  lemma OfferedSpec(t0: Table, s: Settings, groups: seq<Group>, g: nat, partitions: seq<Key>)
    requires Offer(t0, s, partitions, groups) && g < |groups|
    ensures groups[g].partition.specId == t0.defaultSpec
  {
    assert groups[g] in groups;
  }

  lemma SameSpec(t0: Table, t: Table)
    requires SameShape(t0, t)
    ensures t.defaultSpec == t0.defaultSpec
  {
  }

  lemma SkipStands(t0: Table, t: Table, envOf: nat -> Env, groups: seq<Group>, g: nat)
    requires Stands(t0, t, envOf, groups, g)
    ensures Stands(t0, t, envOf, groups, g + 1)
  {
    hide Normalize, LiveAt, Sound, Content, OutName;
  }

  lemma StandsSound(t0: Table, t: Table, envOf: nat -> Env, groups: seq<Group>, g: nat)
    requires Stands(t0, t, envOf, groups, g)
    ensures Sound(t)
  {
  }

  /** What becomes of a group's commit: it takes effect and its worker is told; it takes effect, its worker is told it lost
      and finds at the reload that nothing of the group is left; or its worker is told of a failure, whether or not it took
      effect. */
  datatype Fate = Confirmed | Vanished | Failed(landed: bool) {
    predicate Lands() {
      !Failed? || landed
    }

    /** The worker goes on without knowing that `main` has moved. */
    predicate Hides() {
      Lands() && !Confirmed?
    }
  }

  /** What the world does to a run: the fate of each group's commit, whether a group that lost its first commit gets its
      answer and a reload to build again from, whether the table can be read again after a commit, and the same for the
      dangling removal. */
  datatype Answers = Answers(commits: nat -> Fate, rebuilds: nat -> bool, readable: nat -> bool, dropReadable: bool, dropCommit: Fate) {
    /** No answer is a failure. */
    ghost predicate Good() {
      (forall g: nat :: !commits(g).Failed? && rebuilds(g)) && (forall g: nat :: readable(g))
    }
  }

  // ---- The story of a run, group by group ----

  datatype Ending = Committed | Unseen | Lost

  /** One group's turn: what `main` held, what the loop had read of it last, whether that was behind, and how it ended. */
  datatype Offering = Offering(main: Table, read: Table, behind: bool, ending: Ending)

  /** The group gets as far as a commit at `main`: at once, or after a first commit from the version read, which is lost. */
  ghost predicate Gets(o: Offering, schema: Schema, groups: seq<Group>, g: nat, answers: Answers)
    requires g < |groups|
  {
    Builds(schema, groups, g, o.main) && (o.behind ==> Builds(schema, groups, g, o.read) && answers.rebuilds(g))
  }

  /** It ends as its commit does; a group that gets to none is lost. */
  ghost predicate Explained(o: Offering, schema: Schema, groups: seq<Group>, g: nat, answers: Answers)
    requires g < |groups|
  {
    o.ending == if !Gets(o, schema, groups, g, answers) then Lost
                else match answers.commits(g) case Confirmed => Committed case Vanished => Unseen case Failed(_) => Lost
  }

  /** `main` moves exactly when the group's commit lands, and then to that commit. */
  ghost predicate LeavesMain(o: Offering, schema: Schema, groups: seq<Group>, g: nat, answers: Answers, envOf: nat -> Env, main: Table)
    requires g < |groups|
  {
    if Gets(o, schema, groups, g, answers) && answers.commits(g).Lands()
    then main.mainHead == Some(envOf(g).snapshotId) && main.current.Some? && main.current.value.parent == o.main.mainHead
    else main == o.main
  }

  /** The loop reads the table again after a commit it was told of, and only then. */
  ghost predicate LeavesRead(o: Offering, schema: Schema, groups: seq<Group>, g: nat, answers: Answers, main: Table, read: Table, behind: bool)
    requires g < |groups|
  {
    if o.ending == Committed then read == main && !behind
    else read == o.read && (behind <==> o.behind || (Gets(o, schema, groups, g, answers) && answers.commits(g).Lands()))
  }

  ghost predicate Leads(o: Offering, schema: Schema, groups: seq<Group>, g: nat, answers: Answers, envOf: nat -> Env,
                        main: Table, read: Table, behind: bool)
    requires g < |groups|
  {
    LeavesMain(o, schema, groups, g, answers, envOf, main) && LeavesRead(o, schema, groups, g, answers, main, read, behind)
  }

  ghost predicate Follows(a: Offering, b: Offering, schema: Schema, groups: seq<Group>, g: nat, answers: Answers, envOf: nat -> Env)
    requires g < |groups|
  {
    Leads(a, schema, groups, g, answers, envOf, b.main, b.read, b.behind)
  }

  /** The groups offered so far, in order, each for its own reason and from where the one before left things. */
  ghost predicate Story(story: seq<Offering>, t0: Table, schema: Schema, groups: seq<Group>, answers: Answers, envOf: nat -> Env) {
    && |story| <= |groups|
    && (story != [] ==> story[0].main == story[0].read == t0 && !story[0].behind)
    && (forall i :: 0 <= i < |story| ==> Explained(story[i], schema, groups, i, answers))
    && (forall i :: 0 <= i < |story| - 1 ==> Follows(story[i], story[i + 1], schema, groups, i, answers, envOf))
  }

  /** How many groups in a row were lost last, ones nobody heard of left aside. */
  function Streak(story: seq<Offering>): nat {
    if story == [] then 0
    else match story[|story| - 1].ending
         case Committed => 0
         case Unseen => Streak(story[..|story| - 1])
         case Lost => Streak(story[..|story| - 1]) + 1
  }

  function Count(story: seq<Offering>, ending: Ending): nat {
    if story == [] then 0 else Count(story[..|story| - 1], ending) + if story[|story| - 1].ending == ending then 1 else 0
  }

  /** The loop gives up only after three lost in a row, or when it cannot read a commit of its own back. */
  ghost predicate GoesOn(story: seq<Offering>, answers: Answers) {
    && (forall i :: 0 <= i < |story| ==> Streak(story[..i]) < 3)
    && (forall i :: 0 <= i < |story| - 1 && story[i].ending == Committed ==> answers.readable(i))
  }

  /** What the report says of the story, and why it ended where it did. */
  ghost predicate Tells(r: Report, story: seq<Offering>, groups: seq<Group>, answers: Answers) {
    && r.committed == Count(story, Committed) && r.silent == Count(story, Unseen) && r.failed == Count(story, Lost)
    && (r.stopped <==> story != [] && story[|story| - 1].ending == Committed && !answers.readable(|story| - 1))
    && (r.stopped || Streak(story) == 3 || |story| == |groups|)
  }

  lemma StoryGrows(story: seq<Offering>, o: Offering, t0: Table, schema: Schema, groups: seq<Group>, answers: Answers, envOf: nat -> Env)
    requires Story(story, t0, schema, groups, answers, envOf) && |story| < |groups| && Explained(o, schema, groups, |story|, answers)
    requires if story == [] then o.main == o.read == t0 && !o.behind
             else Follows(story[|story| - 1], o, schema, groups, |story| - 1, answers, envOf)
    ensures Story(story + [o], t0, schema, groups, answers, envOf)
  {
    hide Explained, Follows;
    var more := story + [o];
    forall i | 0 <= i < |more| - 1
      ensures Follows(more[i], more[i + 1], schema, groups, i, answers, envOf)
    {
      if i + 1 < |story| {
        assert Follows(story[i], story[i + 1], schema, groups, i, answers, envOf);
      }
    }
  }

  lemma CountsGrow(story: seq<Offering>, o: Offering, ending: Ending)
    ensures Count(story + [o], ending) == Count(story, ending) + if o.ending == ending then 1 else 0
    ensures Streak(story + [o]) == match o.ending case Committed => 0 case Unseen => Streak(story) case Lost => Streak(story) + 1
  {
    assert (story + [o])[..|story + [o]| - 1] == story;
  }

  lemma GoesOnGrows(story: seq<Offering>, o: Offering, answers: Answers)
    requires GoesOn(story, answers) && Streak(story) < 3
    requires story != [] && story[|story| - 1].ending == Committed ==> answers.readable(|story| - 1)
    ensures GoesOn(story + [o], answers)
  {
    hide Streak;
    var more := story + [o];
    forall i | 0 <= i < |more|
      ensures Streak(more[..i]) < 3
    {
      if i < |story| {
        assert more[..i] == story[..i];
      } else {
        assert more[..i] == story;
      }
    }
  }

  /** No group failed, and none was left for want of a reading. */
  predicate AllWell(r: Report) {
    r.failed == 0 && !r.stopped
  }

  /** Whether a group offered at `state` can be built at `main`: at once when `state` is `main`; otherwise its first commit is
      lost, and it is built again if it is told so and can reload. `spare` is what the lost attempt writes under. */
  method Reaches(t0: Table, state: Table, stale: bool, s: Settings, schema: Schema, groups: seq<Group>, g: nat, ghost partitions: seq<Key>,
                 ghost envOf: nat -> Env, spare: Env, rebuilds: bool)
      returns (ready: bool)
    requires g < |groups| && spare.settings == s && spare.schema == schema && Sound(t0)
    requires Stands(t0, state, envOf, groups, g) && Offer(t0, s, partitions, groups)
    ensures ready <==> (stale ==> Builds(schema, groups, g, state) && rebuilds)
    ensures rebuilds && Healthy(state) && AllPlain(schema, groups) ==> ready
  {
    hide Builds, Stands, Offer, Healthy, AllPlain, Sound;
    if !stale {
      return true;
    }
    ghost var rewrite;
    var first;
    first, rewrite := Attempt(t0, state, s, schema, groups, g, partitions, envOf, spare);
    ready := first.Ok? && rebuilds;
  }

  /** One group's turn in the loop. `behind` says whether `read` is behind `main` afterwards, if the loop does not read again. */
  method TakeTurn(t0: Table, t: Table, state: Table, stale: bool, s: Settings, schema: Schema, groups: seq<Group>, g: nat,
                  ghost partitions: seq<Key>, envOf: nat -> Env, spareOf: nat -> Env, answers: Answers)
      returns (main: Table, behind: bool, ending: Ending, again: bool)
    requires g < |groups| && Sound(t0) && FreshEnvs(t0, envOf) && Offer(t0, s, partitions, groups)
    requires forall h: nat :: envOf(h).settings == spareOf(h).settings == s && envOf(h).schema == spareOf(h).schema == schema
    requires Stands(t0, t, envOf, groups, g) && Stands(t0, state, envOf, groups, g) && (!stale ==> state == t)
    ensures var o := Offering(t, state, stale, ending);
            && Explained(o, schema, groups, g, answers) && LeavesMain(o, schema, groups, g, answers, envOf, main)
            && (ending != Committed ==> LeavesRead(o, schema, groups, g, answers, main, state, behind))
    ensures Stands(t0, main, envOf, groups, g + 1) && Stands(t0, state, envOf, groups, g + 1) && (!behind ==> state == main)
    ensures ending != Lost && Rewritten(t, groups, g) ==> Rewritten(main, groups, g + 1)
    ensures AllAddressed(schema, GroupTasks(groups)) ==> ReadsAlike(LiveAt(t), LiveAt(main))
    ensures !answers.commits(g).Hides() && !stale ==> ending != Unseen && !again && (ending == Lost ==> !behind)
    ensures (Healthy(t) ==> Healthy(main)) && (Orderly(t) ==> Orderly(main))
    ensures Healthy(t) && Healthy(state) && AllPlain(schema, groups) && !answers.commits(g).Failed? && answers.rebuilds(g) ==> ending != Lost
  {
    hide Normalize, Scan, Sound, LiveAll, LiveAt, ReadsAlike, Rewritten, OutName, GroupTasks, Stands, FreshEnvs, Offer, AllAddressed,
         Healthy, AllPlain, Committable, Selected, Orderly, Builds;
    var fate := answers.commits(g);
    main, behind, ending, again := t, stale, Lost, false;
    AlikeItself(LiveAt(t));
    SkipStands(t0, t, envOf, groups, g);
    SkipStands(t0, state, envOf, groups, g);
    var ready := Reaches(t0, state, stale, s, schema, groups, g, partitions, envOf, spareOf(g), answers.rebuilds(g));
    if !ready {
      return;
    }
    again := stale;
    var moved := OfferGroup(t0, t, s, schema, groups, g, partitions, envOf);
    if moved.Err? {
      return;
    }
    ending := match fate case Confirmed => Committed case Vanished => Unseen case Failed(_) => Lost;
    if fate.Lands() {
      main, behind := moved.value, true;
    }
  }

  /** The loop over groups: each commits on its own against the version last read; a run of failures, or a table that cannot
      be read again after a commit, ends it. A commit that took effect unnoticed leaves the loop on a stale version: the next
      group's first commit is then lost, and the group built again from a reload. */
  method OfferAll(t0: Table, s: Settings, schema: Schema, groups: seq<Group>, ghost partitions: seq<Key>, envOf: nat -> Env,
                  spareOf: nat -> Env, answers: Answers)
      returns (r: Report, t: Table, ghost story: seq<Offering>, ghost rebuilt: nat)
    requires Sound(t0) && FreshEnvs(t0, envOf) && Offer(t0, s, partitions, groups)
    requires forall g: nat :: envOf(g).settings == spareOf(g).settings == s && envOf(g).schema == spareOf(g).schema == schema
    ensures Story(story, t0, schema, groups, answers, envOf) && GoesOn(story, answers)
    ensures story == [] ==> t == t0
    ensures story != [] ==> LeavesMain(story[|story| - 1], schema, groups, |story| - 1, answers, envOf, t)
    ensures Tells(r, story, groups, answers) && r.committed + r.silent + r.failed == |story| && !r.dropped
    ensures Stands(t0, t, envOf, groups, |story|)
    ensures AllWell(r) ==> |story| == |groups| && Rewritten(t, groups, |groups|)
    ensures AllAddressed(schema, GroupTasks(groups)) ==> ReadsAlike(LiveAt(t0), LiveAt(t))
    ensures (forall g: nat :: !answers.commits(g).Hides()) ==> r.silent == 0 && rebuilt == 0
    ensures (forall g: nat :: answers.readable(g)) ==> !r.stopped
    ensures Healthy(t0) && AllPlain(schema, groups) && (forall g: nat :: !answers.commits(g).Failed? && answers.rebuilds(g)) ==> r.failed == 0
    ensures (Healthy(t0) ==> Healthy(t)) && (Orderly(t0) ==> Orderly(t))
  {
    hide Normalize, Scan, Sound, LiveAll, LiveAt, ReadsAlike, Rewritten, OutName, GroupTasks, Stands, FreshEnvs, Offer, AllAddressed,
         Healthy, AllPlain, Committable, Selected, Orderly, Builds, Story, GoesOn, Streak, Count, Explained, LeavesMain, LeavesRead,
         Tells;
    t := t0;
    AlikeItself(LiveAt(t0));
    Starts(t0, envOf, groups, s, partitions);
    NothingTold(t0, schema, groups, answers, envOf);
    var state, stale := t0, false;
    var committed, silent, failed, consecutive := 0, 0, 0, 0;
    rebuilt, story := 0, [];
    for next := 0 to |groups|
      invariant |story| == next && Story(story, t0, schema, groups, answers, envOf) && GoesOn(story, answers)
      invariant if story == [] then t == state == t0 && !stale
                else Leads(story[|story| - 1], schema, groups, |story| - 1, answers, envOf, t, state, stale)
      invariant story != [] && story[|story| - 1].ending == Committed ==> answers.readable(|story| - 1)
      invariant committed == Count(story, Committed) && silent == Count(story, Unseen) && failed == Count(story, Lost)
      invariant committed + silent + failed == next && consecutive == Streak(story) < 3
      invariant Stands(t0, t, envOf, groups, next) && Stands(t0, state, envOf, groups, next) && (!stale ==> state == t)
      invariant failed == 0 ==> Rewritten(t, groups, next)
      invariant AllAddressed(schema, GroupTasks(groups)) ==> ReadsAlike(LiveAt(t0), LiveAt(t))
      invariant (forall g: nat :: !answers.commits(g).Hides()) ==> silent == 0 && rebuilt == 0 && !stale
      invariant (Healthy(t0) ==> Healthy(t) && Healthy(state)) && (Orderly(t0) ==> Orderly(t))
      invariant Healthy(t0) && AllPlain(schema, groups) && (forall g: nat :: !answers.commits(g).Failed? && answers.rebuilds(g)) ==> failed == 0
    {
      var main, behind, ending, again := TakeTurn(t0, t, state, stale, s, schema, groups, next, partitions, envOf, spareOf, answers);
      ghost var o := Offering(t, state, stale, ending);
      if AllAddressed(schema, GroupTasks(groups)) {
        ReadsAlikeTransitive(LiveAt(t0), LiveAt(t), LiveAt(main));
      }
      StoryGrows(story, o, t0, schema, groups, answers, envOf);
      GoesOnGrows(story, o, answers);
      CountsGrow(story, o, Committed);
      CountsGrow(story, o, Unseen);
      CountsGrow(story, o, Lost);
      story := story + [o];
      rebuilt := rebuilt + if again then 1 else 0;
      t, stale := main, behind;
      match ending
      case Committed =>
        committed, consecutive := committed + 1, 0;
        if !answers.readable(next) {
          r := Report(committed, silent, failed, true, false);
          ToldSo(r, story, groups, answers);
          return;
        }
        CommittedReads(o, schema, groups, next, answers, t);
        state, stale := t, false;
      case Unseen =>
        silent := silent + 1;
      case Lost =>
        failed, consecutive := failed + 1, consecutive + 1;
        if consecutive >= MAX_CONSECUTIVE_GROUP_FAILURES {
          break;
        }
    }
    r := Report(committed, silent, failed, false, false);
    ToldSo(r, story, groups, answers);
  }

  lemma ToldSo(r: Report, story: seq<Offering>, groups: seq<Group>, answers: Answers)
    requires r.committed == Count(story, Committed) && r.silent == Count(story, Unseen) && r.failed == Count(story, Lost)
    requires r.stopped <==> story != [] && story[|story| - 1].ending == Committed && !answers.readable(|story| - 1)
    requires r.stopped || Streak(story) == 3 || |story| == |groups|
    ensures Tells(r, story, groups, answers)
  {
  }

  lemma CommittedReads(o: Offering, schema: Schema, groups: seq<Group>, g: nat, answers: Answers, main: Table)
    requires g < |groups| && o.ending == Committed
    ensures LeavesRead(o, schema, groups, g, answers, main, main, false)
  {
  }

  lemma NothingTold(t0: Table, schema: Schema, groups: seq<Group>, answers: Answers, envOf: nat -> Env)
    ensures Story([], t0, schema, groups, answers, envOf) && GoesOn([], answers)
    ensures Streak([]) == Count([], Committed) == Count([], Unseen) == Count([], Lost) == 0
  {
  }

  /** `run` on a quiet table. Where the names of the groups' key fields find them, every partition reads as before, whatever
      fails or goes unnoticed. If no group fails, every group is committed, no targeted file has a delete to apply, and no
      delete that only such files needed is left. */
  method Run(t0: Table, s: Settings, schema: Schema, partitions: seq<Key>, envOf: nat -> Env, spareOf: nat -> Env, dropId: int, answers: Answers)
      returns (r: Result<Report>, t: Table, groups: seq<Group>, ghost rebuilt: nat, ghost story: seq<Offering>)
    requires Sound(t0) && ListedOnce(LiveAt(t0)) && NoRepeats(partitions)
    requires FreshEnvs(t0, envOf)
    requires forall g: nat :: envOf(g).settings == spareOf(g).settings == s && envOf(g).schema == spareOf(g).schema == schema
    ensures t0.current.None? ==> r == Ok(Report(0, 0, 0, false, false)) && t == t0
    ensures t0.current.Some? && t0.version.V3? ==> r == Err(Refused) && t == t0
    ensures t0.current.Some? && !t0.version.V3? ==>
              && r.Ok? && Tells(r.value, story, groups, answers)
              && Story(story, t0, schema, groups, answers, envOf) && GoesOn(story, answers)
              && (forall k | k in partitions && k.specId == t0.defaultSpec ::
                    TakesDeleted(groups, Scan(LiveAt(t0)), k) && TakesSizes(s, groups, Scan(LiveAt(t0)), k))
              && (forall g | g in groups :: WellChosen(s, g))
    ensures AllAddressed(schema, GroupTasks(groups)) ==> ReadsAlike(LiveAt(t0), LiveAt(t))
    ensures r.Ok? && t0.current.Some? && AllWell(r.value) ==>
              && r.value.committed + r.value.silent == |groups| && Rewritten(t, groups, |groups|)
              && TargetsClean(t, partitions, t0.defaultSpec)
              && OwnDeletesGone(t0, t, partitions, t0.defaultSpec)
    ensures r.Ok? && (forall g: nat :: !answers.commits(g).Hides()) ==> r.value.silent == 0 && rebuilt == 0
    ensures t0.current.Some? && Healthy(t0) && AllPlain(schema, groups) && answers.Good() ==>
              r.Ok? && AllWell(r.value)
    ensures t0.current.Some? && Healthy(t0) && Orderly(t0) && answers.dropReadable && answers.dropCommit.Lands() ==> NoneDangles(LiveAt(t))
  {
    hide Normalize, Scan, Sound, LiveAll, LiveAt, ReadsAlike, Rewritten, OutName, GroupTasks, Stands, FreshEnvs, Offer, ListedOnce, TakesDeleted,
         Offered, TargetsClean, OwnDeletesGone, Content, Drops, Replaces, AllAddressed, AllPlain, Healthy,
         Orderly, NoneDangles, CanRebuild, Story, GoesOn, LeavesMain, Tells, TakesSizes, WellChosen;
    t, groups, rebuilt, story := t0, [], 0, [];
    AlikeItself(LiveAt(t0));
    if t0.current.None? {
      return Ok(Report(0, 0, 0, false, false)), t, groups, rebuilt, story;
    }
    HealthyFormat(t0);
    if t0.version.V3? {
      return Err(Refused), t, groups, rebuilt, story;
    }
    groups := BuildGroups(s, Scan(LiveAt(t0)), partitions, t0.defaultSpec);
    OfferOnce(t0, s, partitions, groups);
    var report;
    report, t, story, rebuilt := OfferAll(t0, s, schema, groups, partitions, envOf, spareOf, answers);
    StandsSound(t0, t, envOf, groups, |story|);
    if AllWell(report) {
      CleanAtTheEnd(t0, t, envOf, groups, partitions);
      OwnGoneAtTheEnd(t0, t, envOf, groups, partitions);
    }
    if !answers.dropReadable {
      return Ok(report), t, groups, rebuilt, story;
    }
    var drop;
    ghost var rewrite, floors;
    drop, rewrite, floors := DropDangling(t, dropId);
    if Healthy(t) && Orderly(t) {
      SweptClean(t, rewrite, floors);
    }
    if drop.Err? || drop.value.None? || !answers.dropCommit.Lands() {
      return Ok(report), t, groups, rebuilt, story;
    }
    var req := drop.value.value;
    DropLeaves(t, rewrite, floors, dropId, req);
    DroppedIs(t, rewrite, floors, dropId, req);
    MovedLive(t, req);
    if AllWell(report) {
      FewerLive(t0, t, Moved(t, req.snapshot), groups, partitions, t0.defaultSpec);
    }
    if AllAddressed(schema, GroupTasks(groups)) {
      ReadsAlikeTransitive(LiveAt(t0), LiveAt(t), LiveAt(Moved(t, req.snapshot)));
    }
    t := Moved(t, req.snapshot);
    TellsAnyway(report, answers.dropCommit.Confirmed?, story, groups, answers);
    r := Ok(report.(dropped := answers.dropCommit.Confirmed?));
  }

  lemma TellsAnyway(r: Report, dropped: bool, story: seq<Offering>, groups: seq<Group>, answers: Answers)
    requires Tells(r, story, groups, answers)
    ensures Tells(r.(dropped := dropped), story, groups, answers)
  {
    hide Count, Streak;
  }

  lemma HealthyFormat(t: Table)
    ensures Healthy(t) ==> !t.version.V3?
  {
  }

  /** The removal can be written on such a table, and nothing dangles after it. */
  lemma SweptClean(t: Table, rewrite: Producer.Rewrite, floors: Floors)
    requires Sound(t) && Healthy(t) && Orderly(t)
    requires rewrite.removed != [] || DeletesAreDeclared(ManifestsAt(t)) ==> Drops(t, rewrite, floors)
    ensures !t.version.V3? && CanRebuild(t, ManifestsAt(t), Ids(rewrite.removed)) && t.mainHead == CurrentId(t)
    ensures NoneDangles(Without(LiveAt(t), Ids(rewrite.removed)))
    ensures rewrite.removed == [] ==> NoneDangles(LiveAt(t))
  {
    hide Normalize, LiveAt, Drops, NoneDangles, Orderly, Loses, Retains;
    OrderlyNumbers(t);
    DropLeavesNone(t, rewrite, floors);
    if rewrite.removed == [] {
      WithoutNothing(LiveAt(t), Ids(rewrite.removed));
    }
  }

  lemma {:induction false} WithoutNothing(live: seq<Live>, ids: set<string>)
    requires ids == {}
    ensures Without(live, ids) == live
  {
    if live != [] {
      WithoutNothing(live[1..], ids);
      assert live == [live[0]] + live[1..];
    }
  }

  lemma DroppedIs(t: Table, rewrite: Producer.Rewrite, floors: Floors, snapshotId: int, req: Request)
    requires Drops(t, rewrite, floors) && Replaces(t, rewrite, snapshotId, req)
    ensures LiveAll(req.snapshot.manifests) == Without(LiveAt(t), Ids(rewrite.removed))
  {
    hide Normalize, LiveAll, LiveAt, ManifestWritten, SpecsAll;
    assert Placed(t.defaultSpec, [], t.lastSeq + 1) == [];
    assert Without(LiveAt(t), Ids(rewrite.removed)) + [] == Without(LiveAt(t), Ids(rewrite.removed));
  }

  lemma AlikeItself(live: seq<Live>)
    ensures ReadsAlike(live, live)
  {
  }

  lemma MovedLive(t: Table, req: Request)
    ensures LiveAt(Moved(t, req.snapshot)) == LiveAll(req.snapshot.manifests)
  {
  }
}
