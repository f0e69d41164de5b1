/** One compaction attempt: the group's files read with their deletes applied, replacements written, and a commit
    built that retires only deletes no other file needs. */
module Compact {
  import opened Wrappers
  import opened Paths
  import opened Tables
  import opened Sorting
  import opened Producer
  import opened Rewrite
  import opened AntiJoin
  import opened Grouping

  // ---- The scan ----

  function ApplicableTo(live: seq<Live>, e: Live): (r: seq<Live>)
    ensures forall d :: d in r <==> d in live && !d.file.IsData() && Applies(d, e)
  {
    if live == [] then []
    else
      assert live == [live[0]] + live[1..];
      (if !live[0].file.IsData() && Applies(live[0], e) then [live[0]] else []) + ApplicableTo(live[1..], e)
  }

  /** A full scan: one task per live data file, carrying exactly the deletes that apply to it. */
  function ScanOf(part: seq<Live>, live: seq<Live>): seq<Task> {
    if part == [] then []
    else (if part[0].file.IsData() then [Task(part[0], ApplicableTo(live, part[0]))] else []) + ScanOf(part[1..], live)
  }

  function Scan(live: seq<Live>): seq<Task> {
    ScanOf(live, live)
  }

  /** `TableState::select`: this snapshot's tasks for the wanted paths. */
  function Select(tasks: seq<Task>, wanted: set<string>): seq<Task> {
    if tasks == [] then []
    else (if tasks[0].live.Id() in wanted then [tasks[0]] else []) + Select(tasks[1..], wanted)
  }

  lemma {:induction false} ScanMembers(part: seq<Live>, live: seq<Live>)
    ensures forall t :: t in ScanOf(part, live) <==>
              t.live in part && t.live.file.IsData() && t.dels == ApplicableTo(live, t.live)
  {
    if part != [] {
      ScanMembers(part[1..], live);
      assert forall e :: e in part <==> e == part[0] || e in part[1..];
    }
  }

  lemma {:induction false} SelectMembers(tasks: seq<Task>, wanted: set<string>)
    ensures forall t :: t in Select(tasks, wanted) <==> t in tasks && t.live.Id() in wanted
  {
    if tasks != [] {
      SelectMembers(tasks[1..], wanted);
      assert forall t :: t in tasks <==> t == tasks[0] || t in tasks[1..];
    }
  }

  // ---- retirable_deletes ----

  function DeleteIds(tasks: seq<Task>): set<string> {
    set t, d | t in tasks && d in t.dels :: d.Id()
  }

  function TaskIds(tasks: seq<Task>): set<string> {
    set t | t in tasks :: t.live.Id()
  }

  function Outside(tasks: seq<Task>, inGroup: set<string>): (r: seq<Task>)
    ensures forall t :: t in r <==> t in tasks && t.live.Id() !in inGroup
  {
    if tasks == [] then []
    else
      assert tasks == [tasks[0]] + tasks[1..];
      (if tasks[0].live.Id() in inGroup then [] else [tasks[0]]) + Outside(tasks[1..], inGroup)
  }

  /** The delete files a group may retire: those no task outside it references. */
  function RetirableDeletes(group: seq<Task>, all: seq<Task>): set<string> {
    DeleteIds(group) - DeleteIds(Outside(all, TaskIds(group)))
  }

  // ---- The table an attempt runs on ----

  predicate UniqueIds(live: seq<Live>) {
    forall x, y :: x in live && y in live && x.Id() == y.Id() ==> x == y
  }

  /** One path names one live file; every sequence number has been handed out; tuples fit the default spec. */
  predicate Sound(t: Table) {
    && UniqueIds(LiveAt(t))
    && AllBelow(LiveAt(t), t.lastSeq + 1)
    && t.defaultSpec in t.specs
    && (forall e :: e in LiveAt(t) && e.key.specId == t.defaultSpec && t.specs[t.defaultSpec] == 0 ==> e.key.values == [])
    && (t.current.Some? ==> t.mainHead == Some(t.current.value.id))
    && (t.current.None? ==> t.mainHead == None)
  }

  lemma {:induction false} LiveKeyIsTuple(ms: seq<Manifest>)
    ensures forall e :: e in LiveAll(ms) ==> e.key.values == e.file.partition
  {
    if ms != [] {
      LiveKeyIsTuple(ms[1..]);
      LiveEntriesAt(ms[0].specId, Loaded(ms[0].entries));
    }
  }

  // ---- Row-count contract ----

  datatype ExpectedRows = Exactly(n: nat) | AtMost(n: nat) {
    predicate ViolatedBy(produced: nat) {
      match this
      case Exactly(n) => produced != n
      case AtMost(n) => produced > n
    }
  }

  function Recorded(tasks: seq<Task>): nat {
    if tasks == [] then 0 else tasks[0].live.file.records + Recorded(tasks[1..])
  }

  function Expected(tasks: seq<Task>): ExpectedRows {
    if exists t | t in tasks :: t.dels != [] then AtMost(Recorded(tasks)) else Exactly(Recorded(tasks))
  }

  lemma {:induction false} SeenAtMost(dels: set<Live>, e: Live, n: nat)
    requires n <= |e.Data()|
    ensures |SeenUpTo(dels, e, n)| <= n
  {
    if n > 0 {
      SeenAtMost(dels, e, n - 1);
    }
  }

  lemma {:induction false} ReadAtMost(tasks: seq<Task>)
    requires forall t | t in tasks :: t.live.file.records == |t.live.Data()|
    ensures |ReadTasks(tasks)| <= Recorded(tasks)
    ensures (forall t | t in tasks :: t.dels == []) ==> |ReadTasks(tasks)| == Recorded(tasks)
  {
    if tasks != [] {
      var t := tasks[0];
      assert t in tasks && forall x | x in tasks[1..] :: x in tasks;
      ReadAtMost(tasks[1..]);
      SeenAtMost(t.All(), t.live, |t.live.Data()|);
      if t.dels == [] {
        SeenUndeleted(t.All(), t.live, |t.live.Data()|);
      }
    }
  }

  /** Where the metadata counts rows rightly, an honest rewrite never breaks the row-count contract. */
  lemma HonestRewriteIsAccepted(tasks: seq<Task>, rows: seq<Row>)
    requires forall t | t in tasks :: t.live.file.records == |t.live.Data()|
    requires multiset(rows) == multiset(ReadTasks(tasks))
    ensures !Expected(tasks).ViolatedBy(|rows|)
  {
    ReadAtMost(tasks);
    assert |rows| == |multiset(rows)| == |multiset(ReadTasks(tasks))|;
  }

  // ---- rewrite_once ----

  /** `full` says when the rolling writer closes a file. */
  datatype Env = Env(settings: Settings, schema: Schema, full: seq<Row> -> bool, nameOf: nat -> string, snapshotId: int)

  function PathsOfTasks(tasks: seq<Task>): (r: seq<string>)
    ensures |r| == |tasks|
    ensures forall i :: 0 <= i < |r| ==> r[i] == tasks[i].live.file.path
  {
    seq(|tasks|, i requires 0 <= i < |tasks| => tasks[i].live.file.path)
  }

  /** The tuple every output file is stamped with. */
  function PartitionFor(t: Table, tasks: seq<Task>): Result<seq<Value>>
    requires tasks != [] && t.defaultSpec in t.specs
  {
    if t.specs[t.defaultSpec] == 0 then Ok([])
    else if forall x | x in tasks :: x.live.file.partition == tasks[0].live.file.partition then
      Ok(tasks[0].live.file.partition)
    else Err(Refused)
  }

  /** What a successful attempt asks the catalog to do: drop the group's files and the deletes only it needed, and add
      files of the group's partition. */
  ghost predicate GroupShape(t: Table, tasks: seq<Task>, rewrite: Producer.Rewrite, nameOf: nat -> string) {
    && Ids(rewrite.removed) == TaskIds(tasks) + RetirableDeletes(tasks, Scan(LiveAt(t)))
    && (exists k: Key :: k.specId == t.defaultSpec && OfPartition(tasks, rewrite.added, k, nameOf))
  }

  /** And the files added hold exactly the rows a reader saw in the group. */
  ghost predicate GroupRewrite(t: Table, tasks: seq<Task>, rewrite: Producer.Rewrite, nameOf: nat -> string) {
    GroupShape(t, tasks, rewrite, nameOf) && multiset(RowsOf(rewrite.added)) == multiset(ReadTasks(tasks))
  }

  /** The group's files were written under the spec its output goes out under. */
  predicate OnSpec(t: Table, tasks: seq<Task>) {
    forall x | x in tasks :: x.live.key.specId == t.defaultSpec
  }

  ghost predicate OfPartition(tasks: seq<Task>, added: seq<File>, k: Key, nameOf: nat -> string) {
    && (forall x | x in tasks :: x.live.key == k)
    && (forall i | 0 <= i < |added| :: WrittenAs(added[i], k.values, nameOf(i)))
  }

  method SortedIds(ids: set<string>) returns (out: seq<string>)
    ensures forall i :: i in out <==> i in ids
    ensures Ascending(out)
  {
    var left, found := ids, [];
    while left != {}
      invariant left <= ids && forall i :: i in found <==> i in ids - left
      decreases |left|
    {
      var i :| i in left;
      found, left := found + [i], left - {i};
    }
    SortedOnce(found);
    out := Dedup(SortStrings(found));
  }

  lemma RemovedIds(tasks: seq<Task>, retired: seq<string>, ids: set<string>)
    requires forall i :: i in retired <==> i in ids
    requires forall i | i in ids :: Normalize(i) == i
    ensures Ids(PathsOfTasks(tasks) + retired) == TaskIds(tasks) + ids
  {
    var removed := PathsOfTasks(tasks) + retired;
    forall x
      ensures x in Ids(removed) <==> x in TaskIds(tasks) + ids
    {
      if x in Ids(removed) {
        var p :| p in removed && Normalize(p) == x;
        if p !in retired {
          var i :| 0 <= i < |tasks| && PathsOfTasks(tasks)[i] == p;
          assert tasks[i] in tasks && tasks[i].live.Id() == x;
        }
      }
      if x in TaskIds(tasks) {
        var t :| t in tasks && t.live.Id() == x;
        var i :| 0 <= i < |tasks| && tasks[i] == t;
        assert removed[i] == t.live.file.path && removed[i] in removed;
      }
      if x in ids {
        assert x in removed;
      }
    }
  }

  lemma DeleteIdsNormal(tasks: seq<Task>)
    ensures forall i | i in DeleteIds(tasks) :: Normalize(i) == i
  {
    forall i | i in DeleteIds(tasks)
      ensures Normalize(i) == i
    {
      var t, d :| t in tasks && d in t.dels && d.Id() == i;
      NormalizeIdempotent(d.file.path);
    }
  }

  lemma ScanIsExact(live: seq<Live>, tasks: seq<Task>)
    requires UniqueIds(live)
    requires forall t | t in tasks :: t in Scan(live)
    ensures PathsIdentify(tasks)
    ensures forall t | t in tasks :: Exact(t)
  {
    hide Normalize, Applies;
    ScanMembers(live, live);
    forall t, u, d, e | t in tasks && u in tasks && d in t.dels && e in u.dels && d.file.path == e.file.path
      ensures d == e
    {
      assert d in live && e in live && d.Id() == e.Id();
    }
  }

  /** When an attempt refuses its group before reading any data. */
  function GroupRefusal(tasks: seq<Task>): Option<Error>
    requires tasks != []
  {
    if exists x | x in tasks :: x.live.key.specId != tasks[0].live.key.specId then Some(Refused)
    else if exists x | x in tasks :: !x.live.file.parquet then Some(Refused)
    else if exists x, d | x in tasks && d in x.dels :: !d.file.parquet then Some(Refused)
    else None
  }

  /** The error of some equality delete of the group. */
  ghost predicate RefusesDelete(schema: Schema, tasks: seq<Task>, e: Error) {
    exists x, d :: x in tasks && d in x.EqDels() && Refusal(schema, d) == Some(e)
  }

  /** The group's tuples differ, or what streams breaks the row count its metadata promises. */
  ghost predicate Unwritable(t: Table, tasks: seq<Task>, schema: Schema)
    requires tasks != [] && t.defaultSpec in t.specs
  {
    PartitionFor(t, tasks).Err? || Expected(tasks).ViolatedBy(|Streamed(schema, tasks)|)
  }

  /** An attempt at the group gets as far as a commit: it is not refused, its deletes can be read, its rows can be written, and
      every manifest it touches can be rebuilt. */
  ghost predicate Committable(t: Table, tasks: seq<Task>, schema: Schema)
    requires tasks != [] && t.defaultSpec in t.specs
  {
    && GroupRefusal(tasks).None? && AllResolvable(schema, tasks) && !Unwritable(t, tasks, schema)
    && !t.version.V3? && CanRebuild(t, ManifestsAt(t), TaskIds(tasks) + RetirableDeletes(tasks, Scan(LiveAt(t))))
  }

  /** Read the group and write its replacements. */
  method WriteReplacements(t: Table, tasks: seq<Task>, env: Env) returns (r: Result<seq<File>>)
    requires Sound(t) && tasks != [] && forall x | x in tasks :: x in Scan(LiveAt(t))
    ensures !AllResolvable(env.schema, tasks) ==> r.Err? && RefusesDelete(env.schema, tasks, r.error)
    ensures AllResolvable(env.schema, tasks) ==> (r.Err? <==> Unwritable(t, tasks, env.schema)) && (r.Err? ==> r.error == Refused)
    ensures r.Ok? ==> multiset(RowsOf(r.value)) == multiset(Streamed(env.schema, tasks))
    ensures r.Ok? && OnSpec(t, tasks) ==> exists k: Key :: k.specId == t.defaultSpec && OfPartition(tasks, r.value, k, env.nameOf)
  {
    hide Normalize, Applies, AllResolvable, Streamed, Scan, Sound, LiveAt, Refusal;
    SoundScan(t, tasks);
    SoundSpec(t);
    var stream := StreamGroup(env.schema, tasks);
    if stream.Err? {
      return Err(stream.error);
    }
    SameCount(stream.value, Streamed(env.schema, tasks));
    var partition := PartitionFor(t, tasks);
    if partition.Err? {
      return Err(partition.error);
    }
    var written := Roll(stream.value, partition.value, env.full, env.nameOf);
    if Expected(tasks).ViolatedBy(|stream.value|) {
      return Err(Refused);
    }
    if Persisted(written) != |stream.value| {
      return Err(Refused);
    }
    if OnSpec(t, tasks) {
      SamePartition(t, tasks, partition.value);
      assert OfPartition(tasks, written, Key(t.defaultSpec, partition.value), env.nameOf);
    }
    r := Ok(written);
  }

  lemma SameCount<T>(a: seq<T>, b: seq<T>)
    requires multiset(a) == multiset(b)
    ensures |a| == |b|
  {
    assert |multiset(a)| == |a| && |multiset(b)| == |b|;
  }

  lemma DeleteErrorIsFinal(schema: Schema, tasks: seq<Task>, e: Error)
    requires RefusesDelete(schema, tasks, e)
    ensures !e.IsReplan()
  {
  }

  /** Where the names of the group's key fields find them, what streams is what a reader sees. */
  lemma StreamIsRead(t: Table, tasks: seq<Task>, schema: Schema)
    requires Sound(t) && forall x | x in tasks :: x in Scan(LiveAt(t))
    requires AllAddressed(schema, tasks)
    ensures Streamed(schema, tasks) == ReadTasks(tasks)
  {
    hide Normalize, Applies, AllAddressed, Scan, Sound, LiveAt, Exact;
    SoundScan(t, tasks);
    StreamedIsRead(schema, tasks);
  }

  lemma SoundScan(t: Table, tasks: seq<Task>)
    requires Sound(t) && forall x | x in tasks :: x in Scan(LiveAt(t))
    ensures PathsIdentify(tasks) && forall x | x in tasks :: Exact(x)
  {
    hide Normalize, Applies, Scan, LiveAt;
    ScanIsExact(LiveAt(t), tasks);
  }

  lemma SoundSpec(t: Table)
    requires Sound(t)
    ensures t.defaultSpec in t.specs
  {
  }

  // ---- What never fails ----

  /** The format is one Bergman writes, and every manifest is one it could write again. */
  ghost predicate Healthy(t: Table) {
    !t.version.V3? && AllWritable(t, ManifestsAt(t))
  }

  /** A commit leaves every manifest under a spec the table knows. */
  lemma HealthyMoves(t: Table, rewrite: Producer.Rewrite, snapshotId: int, req: Request)
    requires Sound(t) && Healthy(t) && Replaces(t, rewrite, snapshotId, req)
    ensures forall m :: m in req.snapshot.manifests ==> Writable(t, m)
  {
    hide Normalize, Loses, LiveAll, LiveAt, Keep;
    forall now | now in req.snapshot.manifests
      ensures Writable(t, now)
    {
      assert ManifestWritten(t, ManifestsAt(t), Ids(rewrite.removed), rewrite.added, snapshotId, now);
    }
  }

  /** Every live entry of the manifest is numbered, and no delete file hides among data files. */
  ghost predicate OrderlyManifest(m: Manifest) {
    forall e :: e in m.entries && e.status != Deleted ==> e.seqNo.Some? && (e.file.IsData() || m.deletes)
  }

  ghost predicate Orderly(t: Table) {
    forall m :: m in ManifestsAt(t) ==> OrderlyManifest(m)
  }

  lemma RebuiltIsOrderly(m: Manifest, removed: set<string>, now: Manifest, snapshotId: int)
    requires OrderlyManifest(m) && RebuiltFrom(m, removed, now, snapshotId)
    ensures OrderlyManifest(now)
  {
    hide Normalize;
    var left := Keep(m.entries, Stays(removed));
    KeepMembers(m.entries, Stays(removed));
    forall e | e in now.entries
      ensures e.seqNo.Some? && (e.file.IsData() || now.deletes)
    {
      var i :| 0 <= i < |now.entries| && now.entries[i] == e;
      assert left[i] in left && Continues(left[i], e, snapshotId);
      assert Stays(removed)(left[i]);
    }
  }

  lemma AddedIsOrderly(t: Table, added: seq<File>, snapshotId: int, now: Manifest)
    requires AddsFiles(t, added, snapshotId, now) && forall f :: f in added ==> f.IsData()
    ensures OrderlyManifest(now)
  {
    forall e | e in now.entries
      ensures e.seqNo.Some? && e.file.IsData()
    {
      var i :| 0 <= i < |now.entries| && now.entries[i] == e;
      assert added[i] in added;
    }
  }

  /** A commit that adds data files alone keeps every entry numbered, and delete files where they are declared. */
  lemma OrderlyMoves(t: Table, rewrite: Producer.Rewrite, snapshotId: int, req: Request)
    requires Orderly(t) && Replaces(t, rewrite, snapshotId, req) && forall f :: f in rewrite.added ==> f.IsData()
    ensures forall m :: m in req.snapshot.manifests ==> OrderlyManifest(m)
  {
    hide Normalize, Loses, LiveAll, LiveAt, Keep, OrderlyManifest, RebuiltFrom, AddsFiles;
    var removed := Ids(rewrite.removed);
    forall now | now in req.snapshot.manifests
      ensures OrderlyManifest(now)
    {
      assert ManifestWritten(t, ManifestsAt(t), removed, rewrite.added, snapshotId, now);
      if rewrite.added != [] && AddsFiles(t, rewrite.added, snapshotId, now) {
        AddedIsOrderly(t, rewrite.added, snapshotId, now);
      } else {
        var m :| m in ManifestsAt(t) && if Loses(m, removed) then Writable(t, m) && RebuiltFrom(m, removed, now, snapshotId) else now == m;
        if Loses(m, removed) {
          RebuiltIsOrderly(m, removed, now, snapshotId);
        }
      }
    }
  }

  /** A file compaction can rewrite: it and its deletes are Parquet, its deletes' columns can be read, and its metadata counts
      its rows. */
  ghost predicate Plain(schema: Schema, x: Task) {
    && x.live.file.parquet && x.live.file.records == |x.live.Data()|
    && forall d :: d in x.dels ==> d.file.parquet && (d.file.payload.Keys? ==> Readable(schema, d.file.payload.ids))
  }

  lemma StreamedFew(schema: Schema, t: Task, n: nat)
    requires n <= |t.live.Data()|
    ensures |StreamedUpTo(schema, t, n)| <= n
    ensures t.dels == [] ==> |StreamedUpTo(schema, t, n)| == n
  {
    hide JoinNames, Applies, Names;
    if n > 0 {
      StreamedFew(schema, t, n - 1);
      if t.dels == [] {
        assert t.PosDels() == {} && t.EqDels() == [];
      }
    }
  }

  lemma {:induction false} StreamedAtMost(schema: Schema, tasks: seq<Task>)
    requires forall x :: x in tasks ==> x.live.file.records == |x.live.Data()|
    ensures |Streamed(schema, tasks)| <= Recorded(tasks)
    ensures (forall x :: x in tasks ==> x.dels == []) ==> |Streamed(schema, tasks)| == Recorded(tasks)
  {
    if tasks != [] {
      var x := tasks[0];
      assert x in tasks && forall y :: y in tasks[1..] ==> y in tasks;
      StreamedAtMost(schema, tasks[1..]);
      StreamedFew(schema, x, |x.live.Data()|);
    }
  }

  lemma OneTuple(t: Table, tasks: seq<Task>, k: Key)
    requires Sound(t) && tasks != [] && forall x :: x in tasks ==> x in Scan(LiveAt(t)) && x.live.key == k
    ensures PartitionFor(t, tasks).Ok?
  {
    hide Normalize, Applies;
    ScanMembers(LiveAt(t), LiveAt(t));
    LiveKeyIsTuple(ManifestsAt(t));
    assert tasks[0] in tasks;
  }

  lemma PlainIsWritable(t: Table, tasks: seq<Task>, k: Key, schema: Schema)
    requires Sound(t) && tasks != [] && forall x :: x in tasks ==> x in Scan(LiveAt(t)) && x.live.key == k && Plain(schema, x)
    ensures !Unwritable(t, tasks, schema)
  {
    hide Normalize, Applies, Streamed, Scan, Sound, LiveAt, Readable;
    SoundSpec(t);
    OneTuple(t, tasks, k);
    StreamedAtMost(schema, tasks);
  }

  lemma PlainIsResolvable(tasks: seq<Task>, schema: Schema)
    requires forall x :: x in tasks ==> Plain(schema, x)
    ensures AllResolvable(schema, tasks)
  {
    hide Readable, Refusal;
    forall x, d | x in tasks && d in x.EqDels()
      ensures Resolvable(schema, d)
    {
      assert Plain(schema, x);
      ResolvableIffReadable(schema, d);
    }
  }

  /** An attempt at files of one partition, every one of them plain, on a healthy table, always gets as far as its commit. */
  lemma PlainIsCommittable(t: Table, tasks: seq<Task>, k: Key, schema: Schema)
    requires Sound(t) && Healthy(t) && t.defaultSpec in t.specs
    requires tasks != [] && forall x :: x in tasks ==> x in Scan(LiveAt(t)) && x.live.key == k && Plain(schema, x)
    ensures Committable(t, tasks, schema)
  {
    hide Normalize, Applies, Streamed, Scan, Sound, LiveAt, Readable, AllResolvable, Unwritable, RetirableDeletes, TaskIds, Loses, Retains;
    PlainIsWritable(t, tasks, k, schema);
    PlainIsResolvable(tasks, schema);
    assert tasks[0] in tasks;
  }

  lemma SoundHead(t: Table)
    requires Sound(t)
    ensures t.mainHead == CurrentId(t)
  {
  }

  /** The group's files are of one spec, Parquet with Parquet deletes, and of one tuple unless the table is unpartitioned; and the
      rows written are as many as the metadata counts, or no more where there are deletes to apply. */
  ghost predicate Accountable(t: Table, tasks: seq<Task>, written: nat) {
    && (forall x, y :: x in tasks && y in tasks ==> x.live.key.specId == y.live.key.specId)
    && (forall x :: x in tasks ==> x.live.file.parquet && forall d :: d in x.dels ==> d.file.parquet)
    && (t.defaultSpec in t.specs && t.specs[t.defaultSpec] != 0 ==>
          forall x, y :: x in tasks && y in tasks ==> x.live.file.partition == y.live.file.partition)
    && (if forall x :: x in tasks ==> x.dels == [] then written == Recorded(tasks) else written <= Recorded(tasks))
  }

  lemma CommittableIsAccountable(t: Table, tasks: seq<Task>, schema: Schema, added: seq<File>)
    requires tasks != [] && t.defaultSpec in t.specs && Committable(t, tasks, schema)
    requires multiset(RowsOf(added)) == multiset(Streamed(schema, tasks))
    ensures Accountable(t, tasks, |RowsOf(added)|)
  {
    hide Streamed, RowsOf, Recorded, AllResolvable, CanRebuild;
    assert |RowsOf(added)| == |multiset(RowsOf(added))| == |multiset(Streamed(schema, tasks))|;
  }

  /** One attempt, up to the commit: refused on mixed specs, foreign formats, columns the schema lost, differing tuples or a
      broken row count; otherwise the request its commit sends. */
  method RewriteOnce(t: Table, tasks: seq<Task>, env: Env) returns (r: Result<Option<Request>>, ghost rewrite: Producer.Rewrite)
    requires Sound(t) && forall x | x in tasks :: x in Scan(LiveAt(t))
    ensures tasks == [] ==> r == Ok(None)
    ensures tasks != [] ==> (if Committable(t, tasks, env.schema) then r.Ok? && r.value.Some? else r.Err?)
    ensures tasks != [] && GroupRefusal(tasks).Some? ==> r == Err(GroupRefusal(tasks).value)
    ensures tasks != [] && GroupRefusal(tasks).None? && !AllResolvable(env.schema, tasks) ==>
              r.Err? && RefusesDelete(env.schema, tasks, r.error)
    ensures tasks != [] && GroupRefusal(tasks).None? && AllResolvable(env.schema, tasks) && Unwritable(t, tasks, env.schema) ==>
              r == Err(Refused)
    ensures r.Ok? && r.value.Some? ==> multiset(RowsOf(rewrite.added)) == multiset(Streamed(env.schema, tasks))
    ensures r.Ok? && r.value.Some? ==> Accountable(t, tasks, |RowsOf(rewrite.added)|)
    ensures r.Ok? && r.value.Some? ==> Replaces(t, rewrite, env.snapshotId, r.value.value)
    ensures r.Ok? && r.value.Some? && OnSpec(t, tasks) ==> GroupShape(t, tasks, rewrite, env.nameOf)
    ensures r.Ok? && r.value.Some? && OnSpec(t, tasks) && AllAddressed(env.schema, tasks) ==>
              GroupRewrite(t, tasks, rewrite, env.nameOf)
    ensures r.Err? ==> !r.error.IsReplan()
  {
    hide Normalize, Applies, AllResolvable, AllAddressed, ReadTasks, Streamed, Scan, Sound, LiveAt, RetirableDeletes, OnSpec, OfPartition,
         Replaces, Unwritable, RefusesDelete, CanRebuild, ManifestsAt, TaskIds, Accountable;
    SoundSpec(t);
    SoundHead(t);
    rewrite := Producer.Rewrite([], []);
    if tasks == [] {
      return Ok(None), rewrite;
    }
    if GroupRefusal(tasks).Some? {
      RefusalIsFinal(tasks);
      return Err(GroupRefusal(tasks).value), rewrite;
    }
    var written := WriteReplacements(t, tasks, env);
    if written.Err? {
      if !AllResolvable(env.schema, tasks) {
        DeleteErrorIsFinal(env.schema, tasks, written.error);
      }
      return Err(written.error), rewrite;
    }
    var retirable := RetirableDeletes(tasks, Scan(LiveAt(t)));
    var retired := SortedIds(retirable);
    var asked := Producer.Rewrite(PathsOfTasks(tasks) + retired, written.value);
    rewrite := asked;
    RetirableNormal(tasks, Scan(LiveAt(t)));
    RemovedIds(tasks, retired, retirable);
    NothingMissing(t, tasks, asked);
    NotRefused(t, tasks, asked);
    if AllAddressed(env.schema, tasks) {
      StreamIsRead(t, tasks, env.schema);
    }
    r := RewriteFiles(t, asked, env.snapshotId);
    if r.Ok? {
      CommittableIsAccountable(t, tasks, env.schema, written.value);
    }
  }

  lemma RefusalIsFinal(tasks: seq<Task>)
    requires tasks != [] && GroupRefusal(tasks).Some?
    ensures !GroupRefusal(tasks).value.IsReplan()
  {
  }

  lemma RetirableNormal(tasks: seq<Task>, all: seq<Task>)
    ensures forall i | i in RetirableDeletes(tasks, all) :: Normalize(i) == i
  {
    DeleteIdsNormal(tasks);
  }

  /** What is removed is live, so the plan is not stale. */
  lemma NotRefused(t: Table, tasks: seq<Task>, rewrite: Producer.Rewrite)
    requires tasks != [] && rewrite.removed != [] && Ids(rewrite.removed) <= LiveIds(LiveAt(t))
    ensures RewriteRefusal(t, rewrite) == if t.version.V3? then Some(Refused) else None
  {
    assert Normalize(rewrite.removed[0]) in Ids(rewrite.removed);
  }

  lemma SamePartition(t: Table, tasks: seq<Task>, values: seq<Value>)
    requires Sound(t) && tasks != [] && PartitionFor(t, tasks) == Ok(values)
    requires OnSpec(t, tasks) && forall x | x in tasks :: x in Scan(LiveAt(t))
    ensures forall x | x in tasks :: x.live.key == Key(t.defaultSpec, values)
  {
    ScanMembers(LiveAt(t), LiveAt(t));
    LiveKeyIsTuple(ManifestsAt(t));
    assert tasks[0] in tasks;
  }

  /** Everything an attempt removes was live in the snapshot it read, so its own plan is never stale. */
  lemma NothingMissing(t: Table, tasks: seq<Task>, rewrite: Producer.Rewrite)
    requires tasks != [] && forall x | x in tasks :: x in Scan(LiveAt(t))
    requires Ids(rewrite.removed) == TaskIds(tasks) + RetirableDeletes(tasks, Scan(LiveAt(t)))
    ensures Ids(rewrite.removed) <= LiveIds(LiveAt(t))
  {
    ScanMembers(LiveAt(t), LiveAt(t));
    forall i | i in Ids(rewrite.removed)
      ensures i in LiveIds(LiveAt(t))
    {
      if i in TaskIds(tasks) {
        var x :| x in tasks && x.live.Id() == i;
      } else {
        var x, d :| x in tasks && d in x.dels && d.Id() == i;
      }
    }
  }
}
