/** The commit protocol as a state machine: writers committing, maintenance workers acting on whatever version they
    last loaded, and posted commits that may reach the catalog late, more than once, or never. */
module Protocol {
  import opened Wrappers
  import opened Paths
  import opened Tables
  import opened Foreground
  import opened Producer
  import opened Dangling
  import opened Rewrite
  import opened AntiJoin
  import opened Compact
  import opened CompactionSafety
  import opened Manifests
  import opened Maintenance

  /** What a maintenance worker's commit does. */
  datatype Work =
    | Compaction(wanted: set<string>, rewrite: Producer.Rewrite)
    | DanglingDrop(rewrite: Producer.Rewrite)
    | Repack(packing: Packing)

  function AddedIds(w: Work): set<string> {
    if w.Repack? then {} else set f | f in w.rewrite.added :: Normalize(f.path)
  }

  function RemovedIds(w: Work): set<string> {
    if w.Repack? then {} else Ids(w.rewrite.removed)
  }

  /** `req` is what the worker's code builds from the loaded version `t`. */
  ghost predicate BuiltBy(w: Work, t: Table, req: Request) {
    match w
    case Compaction(wanted, rewrite) =>
      var tasks := Select(Scan(LiveAt(t)), wanted);
      tasks != [] && Replaces(t, rewrite, req.snapshot.id, req) && exists nameOf :: GroupRewrite(t, tasks, rewrite, nameOf)
    case DanglingDrop(rewrite) => Replaces(t, rewrite, req.snapshot.id, req) && exists floors :: Drops(t, rewrite, floors)
    case Repack(packing) => exists env: Setting :: env.snapshotId == req.snapshot.id && Repacks(t, packing, env, req)
  }

  datatype Post = Post(base: Table, work: Work, request: Request)

  /** `loads`: every version some worker has loaded and may still act on. `sent`: every commit ever posted, by workers
      still running or long crashed. `names` and `ids`: file paths and snapshot ids handed out;
      `lived`: the files ever live on `main`. `heads`: what `main`
      has pointed at, oldest first. `changes`: what the writers' commits alone have done. */
  datatype State = State(table: Table, loads: set<Table>, sent: set<Post>, names: set<string>, lived: set<Live>, ids: set<int>,
                         heads: seq<Option<int>>, changes: seq<Change>)

  datatype Step =
    | WriterCommits(write: Write, snapshot: Snapshot)
    | BranchCommits(id: int, lastSeq: int)
    | Loads
    | Posts(post: Post)
    | Delivers(post: Post)

  /** The table once `main` is moved to `snapshot`. */
  function Moved(t: Table, snapshot: Snapshot): Table {
    t.(current := Some(snapshot), mainHead := Some(snapshot.id), lastSeq := if snapshot.seqNo > t.lastSeq then snapshot.seqNo else t.lastSeq)
  }

  /** Files arriving under names nobody has used, one name each. */
  ghost predicate FreshNames(files: seq<Live>, names: set<string>) {
    && (forall f | f in files :: f.Id() !in names)
    && (forall i, j :: 0 <= i < j < |files| ==> files[i].Id() != files[j].Id())
  }

  ghost predicate FitsSpec(t: Table, files: seq<Live>) {
    forall f | f in files && f.key.specId == t.defaultSpec && t.defaultSpec in t.specs && t.specs[t.defaultSpec] == 0 :: f.key.values == []
  }

  /** A writer's commit, at the version it finds. It may list its manifests in any order. */
  ghost predicate Commits(s: State, w: Write, snapshot: Snapshot) {
    && snapshot.id !in s.ids && snapshot.parent == s.table.mainHead && snapshot.seqNo == s.table.lastSeq + 1
    && Legal(LiveAt(s.table), w, s.table.lastSeq + 1)
    && multiset(LiveAll(snapshot.manifests)) == multiset(AfterWrite(LiveAt(s.table), w))
    && FreshNames(w.Added(), s.names) && FitsSpec(s.table, w.Added())
  }

  /** Output names and the snapshot id are fresh when a commit is built. */
  ghost predicate FreshPost(s: State, p: Post) {
    && p.request.snapshot.id !in s.ids
    && AddedIds(p.work) !! s.names
    && (!p.work.Repack? ==> DistinctPaths(p.work.rewrite.added))
  }

  /** The compare-and-swap. */
  predicate Accepted(s: State, p: Post) {
    s.table.mainHead == p.request.parent
  }

  function Files(live: seq<Live>): set<Live> {
    set f | f in live
  }

  function IdsOf(files: set<Live>): set<string> {
    set f | f in files :: f.Id()
  }

  function WithPost(s: State, p: Post): State {
    s.(sent := s.sent + {p}, names := s.names + AddedIds(p.work), ids := s.ids + {p.request.snapshot.id})
  }

  ghost predicate Next(s: State, step: Step, s': State) {
    match step
    case WriterCommits(w, snapshot) =>
      && Commits(s, w, snapshot)
      && s' == s.(table := Moved(s.table, snapshot), names := s.names + LiveIds(w.Added()),
                  lived := s.lived + Files(w.Added()), ids := s.ids + {snapshot.id},
                  heads := s.heads + [Some(snapshot.id)], changes := s.changes + [Meaning(LiveAt(s.table), w)])
    case BranchCommits(id, lastSeq) =>
      && id !in s.ids && lastSeq > s.table.lastSeq
      && s' == s.(table := s.table.(lastSeq := lastSeq), ids := s.ids + {id})
    case Loads => s' == s.(loads := s.loads + {s.table})
    case Posts(p) =>
      && p.base in s.loads && BuiltBy(p.work, p.base, p.request) && FreshPost(s, p)
      && s' == WithPost(s, p)
    case Delivers(p) =>
      && p in s.sent
      && s' == if Accepted(s, p) then s.(table := Moved(s.table, p.request.snapshot), heads := s.heads + [Some(p.request.snapshot.id)],
                                         lived := s.lived + Files(LiveAll(p.request.snapshot.manifests)))
               else s
  }

  /** A sound table nobody has started work on. */
  ghost predicate Init(s: State) {
    && Sound(s.table) && SnapshotOnTop(s.table)
    && s.loads == {} && s.sent == {} && s.changes == []
    && s.heads == [s.table.mainHead] && (s.table.mainHead.Some? ==> s.table.mainHead.value in s.ids)
    && s.lived == Files(LiveAt(s.table)) && LiveIds(LiveAt(s.table)) <= s.names
  }

  /** A snapshot outnumbers nothing it holds, and the table's last number outnumbers no snapshot. */
  ghost predicate SnapshotOnTop(t: Table) {
    t.current.Some? ==> AllBelow(LiveAt(t), t.current.value.seqNo + 1) && t.current.value.seqNo <= t.lastSeq
  }

  // ---- What one posted commit does to the version it was built on ----

  ghost predicate ReadsAlike(was: seq<Live>, now: seq<Live>) {
    forall k :: Content(now, k) == Content(was, k)
  }

  /** Which files `now` may hold: those of `was`, and files under fresh names at number `n`; none that was removed. */
  ghost predicate Derived(was: seq<Live>, now: seq<Live>, removed: set<string>, added: set<string>, n: int) {
    && (forall e :: e in now ==> e in was || (e.Id() in added && e.seqNo == n))
    && removed <= LiveIds(was) && removed !! LiveIds(now)
    && UniqueIds(now)
  }

  /** Where a commit's files come from, settled when it is built. */
  ghost predicate Derives(p: Post) {
    && p.request.parent == p.base.mainHead && p.request.snapshot.seqNo == p.base.lastSeq + 1
    && Derived(LiveAt(p.base), LiveAll(p.request.snapshot.manifests), RemovedIds(p.work), AddedIds(p.work), p.base.lastSeq + 1)
    && FitsSpec(p.base, LiveAll(p.request.snapshot.manifests))
  }

  /** Everything a commit's acceptance relies on. */
  ghost predicate Invisible(p: Post) {
    Derives(p) && ReadsAlike(LiveAt(p.base), LiveAll(p.request.snapshot.manifests))
  }

  /** A group's commit as far as files go: what it removes and where it adds. */
  ghost predicate Shaped(p: Post) {
    && p.work.Compaction?
    && var tasks := Select(Scan(LiveAt(p.base)), p.work.wanted);
       && tasks != [] && Replaces(p.base, p.work.rewrite, p.request.snapshot.id, p.request)
       && exists nameOf :: GroupShape(p.base, tasks, p.work.rewrite, nameOf)
  }

  lemma BuiltIsShaped(p: Post)
    requires p.work.Compaction? && BuiltBy(p.work, p.base, p.request)
    ensures Shaped(p)
  {
    hide Normalize, Scan, Select, Replaces, GroupShape;
    var nameOf :| GroupRewrite(p.base, Select(Scan(LiveAt(p.base)), p.work.wanted), p.work.rewrite, nameOf);
    assert GroupShape(p.base, Select(Scan(LiveAt(p.base)), p.work.wanted), p.work.rewrite, nameOf);
  }

  ghost predicate DistinctPaths(files: seq<File>) {
    forall i, j :: 0 <= i < j < |files| ==> Normalize(files[i].path) != Normalize(files[j].path)
  }

  lemma PlacedIds(specId: int, files: seq<File>, n: int)
    ensures forall e :: e in Placed(specId, files, n) ==>
              e.seqNo == n && e.file in files && e.key == Key(specId, e.file.partition)
  {
  }

  lemma ReplacedIsUnique(live: seq<Live>, ids: set<string>, specId: int, files: seq<File>, n: int)
    requires UniqueIds(live) && DistinctPaths(files)
    requires forall f | f in files :: Normalize(f.path) !in LiveIds(live)
    ensures UniqueIds(Without(live, ids) + Placed(specId, files, n))
  {
    hide Normalize, Without;
    var placed := Placed(specId, files, n);
    WithoutMembers(live, ids);
    forall x, y | x in Without(live, ids) + placed && y in Without(live, ids) + placed && x.Id() == y.Id()
      ensures x == y
    {
      if x in placed && y in placed {
        var i :| 0 <= i < |placed| && placed[i] == x;
        var j :| 0 <= j < |placed| && placed[j] == y;
      }
    }
  }

  lemma ReplacementShape(t: Table, rewrite: Producer.Rewrite, req: Request, names: set<string>, added: set<string>)
    requires Sound(t) && Replaces(t, rewrite, req.snapshot.id, req)
    requires LiveIds(LiveAt(t)) <= names && DistinctPaths(rewrite.added)
    requires added == set f | f in rewrite.added :: Normalize(f.path)
    requires added !! names && Ids(rewrite.removed) <= LiveIds(LiveAt(t))
    ensures Derived(LiveAt(t), LiveAll(req.snapshot.manifests), Ids(rewrite.removed), added, t.lastSeq + 1)
    ensures forall e :: e in LiveAll(req.snapshot.manifests) ==>
              e in LiveAt(t) || (e.file in rewrite.added && e.key == Key(t.defaultSpec, e.file.partition))
  {
    ReplacedIsUnique(LiveAt(t), Ids(rewrite.removed), t.defaultSpec, rewrite.added, t.lastSeq + 1);
    WithoutMembers(LiveAt(t), Ids(rewrite.removed));
    PlacedIds(t.defaultSpec, rewrite.added, t.lastSeq + 1);
  }

  lemma CompactionFits(t: Table, tasks: seq<Task>, wanted: set<string>, rewrite: Producer.Rewrite, nameOf: nat -> string, e: Live)
    requires Sound(t) && tasks == Select(Scan(LiveAt(t)), wanted) && tasks != []
    requires GroupShape(t, tasks, rewrite, nameOf)
    requires e.file in rewrite.added && e.key == Key(t.defaultSpec, e.file.partition) && t.specs[t.defaultSpec] == 0
    ensures e.key.values == []
  {
    var k: Key :| k.specId == t.defaultSpec && OfPartition(tasks, rewrite.added, k, nameOf);
    SelectMembers(Scan(LiveAt(t)), wanted);
    ScanMembers(LiveAt(t), LiveAt(t));
    assert tasks[0] in tasks && tasks[0].live in LiveAt(t);
    var i :| 0 <= i < |rewrite.added| && rewrite.added[i] == e.file;
    assert WrittenAs(rewrite.added[i], k.values, nameOf(i));
  }

  lemma CompactionFitsSpec(t: Table, tasks: seq<Task>, wanted: set<string>, rewrite: Producer.Rewrite, nameOf: nat -> string, now: seq<Live>)
    requires Sound(t) && tasks == Select(Scan(LiveAt(t)), wanted) && tasks != []
    requires GroupShape(t, tasks, rewrite, nameOf)
    requires forall e :: e in now ==> e in LiveAt(t) || (e.file in rewrite.added && e.key == Key(t.defaultSpec, e.file.partition))
    ensures FitsSpec(t, now)
  {
    forall e | e in now && e.key.specId == t.defaultSpec && t.specs[t.defaultSpec] == 0
      ensures e.key.values == []
    {
      if e !in LiveAt(t) {
        CompactionFits(t, tasks, wanted, rewrite, nameOf, e);
      }
    }
  }

  lemma CompactionReadsAlike(t: Table, tasks: seq<Task>, wanted: set<string>, rewrite: Producer.Rewrite, nameOf: nat -> string, req: Request)
    requires Sound(t) && tasks == Select(Scan(LiveAt(t)), wanted)
    requires GroupRewrite(t, tasks, rewrite, nameOf) && Replaces(t, rewrite, req.snapshot.id, req)
    ensures ReadsAlike(LiveAt(t), LiveAll(req.snapshot.manifests))
  {
    forall k
      ensures Content(LiveAll(req.snapshot.manifests), k) == Content(LiveAt(t), k)
    {
      CompactionPreservesContent(t, tasks, wanted, rewrite, nameOf, req.snapshot.id, req, k);
    }
  }

  lemma SelectedAreScanned(live: seq<Live>, wanted: set<string>)
    ensures forall x | x in Select(Scan(live), wanted) :: x in Scan(live)
  {
    SelectMembers(Scan(live), wanted);
  }

  lemma CompactionDerives(p: Post, names: set<string>)
    requires Shaped(p) && Sound(p.base)
    requires LiveIds(LiveAt(p.base)) <= names && AddedIds(p.work) !! names && DistinctPaths(p.work.rewrite.added)
    ensures Derives(p)
  {
    hide Normalize, Derived, FitsSpec, Scan, Select, LiveAll, LiveAt, Sound, RetirableDeletes, OfPartition;
    var t, rewrite, req, wanted := p.base, p.work.rewrite, p.request, p.work.wanted;
    var tasks := Select(Scan(LiveAt(t)), wanted);
    var nameOf :| GroupShape(t, tasks, rewrite, nameOf);
    SelectedAreScanned(LiveAt(t), wanted);
    NothingMissing(t, tasks, rewrite);
    ReplacementShape(t, rewrite, req, names, AddedIds(p.work));
    CompactionFitsSpec(t, tasks, wanted, rewrite, nameOf, LiveAll(req.snapshot.manifests));
  }

  lemma CompactionIsInvisible(p: Post, names: set<string>)
    requires p.work.Compaction? && Sound(p.base) && BuiltBy(p.work, p.base, p.request)
    requires LiveIds(LiveAt(p.base)) <= names && AddedIds(p.work) !! names && DistinctPaths(p.work.rewrite.added)
    ensures Invisible(p)
  {
    hide Normalize, ReadsAlike, Derives, Scan, Select, LiveAll, LiveAt, Sound, Shaped;
    var t, rewrite, req, wanted := p.base, p.work.rewrite, p.request, p.work.wanted;
    var tasks := Select(Scan(LiveAt(t)), wanted);
    var nameOf :| GroupRewrite(t, tasks, rewrite, nameOf);
    CompactionReadsAlike(t, tasks, wanted, rewrite, nameOf, req);
    BuiltIsShaped(p);
    CompactionDerives(p, names);
  }

  lemma DropIsInvisible(p: Post, names: set<string>)
    requires p.work.DanglingDrop? && Sound(p.base) && BuiltBy(p.work, p.base, p.request)
    requires LiveIds(LiveAt(p.base)) <= names && AddedIds(p.work) !! names && DistinctPaths(p.work.rewrite.added)
    ensures Invisible(p)
  {
    var t, rewrite, req := p.base, p.work.rewrite, p.request;
    var floors :| Drops(t, rewrite, floors);
    forall k
      ensures Content(LiveAll(req.snapshot.manifests), k) == Content(LiveAt(t), k)
    {
      DropPreservesContent(t, rewrite, floors, req.snapshot.id, req, k);
    }
    DanglingIsLive(t, rewrite, floors);
    ReplacementShape(t, rewrite, req, names, AddedIds(p.work));
  }

  lemma SameMembers<T>(a: seq<T>, b: seq<T>)
    requires multiset(a) == multiset(b)
    ensures forall x :: x in a <==> x in b
  {
    forall x
      ensures x in a <==> x in b
    {
      assert x in a <==> x in multiset(a);
      assert x in b <==> x in multiset(b);
    }
  }

  lemma SameMembersDerived(was: seq<Live>, now: seq<Live>, n: int)
    requires UniqueIds(was) && multiset(now) == multiset(was)
    ensures Derived(was, now, {}, {}, n)
  {
    SameMembers(now, was);
  }

  lemma RepackIsInvisible(p: Post)
    requires p.work.Repack? && Sound(p.base) && BuiltBy(p.work, p.base, p.request)
    ensures Invisible(p)
  {
    hide Normalize, Derived, LiveAll, Content, Facts;
    var t, req := p.base, p.request;
    var env: Setting :| env.snapshotId == req.snapshot.id && Repacks(t, p.work.packing, env, req);
    RepackPreservesContent(t, p.work.packing, env, req);
    SameMembers(LiveAll(req.snapshot.manifests), LiveAt(t));
    SameMembersDerived(LiveAt(t), LiveAll(req.snapshot.manifests), t.lastSeq + 1);
  }

  /** Whatever a worker's code builds from a sound version is invisible to readers of that version. */
  lemma WorkIsInvisible(p: Post, names: set<string>)
    requires Sound(p.base) && BuiltBy(p.work, p.base, p.request)
    requires LiveIds(LiveAt(p.base)) <= names && AddedIds(p.work) !! names
    requires !p.work.Repack? ==> DistinctPaths(p.work.rewrite.added)
    ensures Invisible(p)
  {
    match p.work
    case Compaction(_, _) => CompactionIsInvisible(p, names);
    case DanglingDrop(_) => DropIsInvisible(p, names);
    case Repack(_) => RepackIsInvisible(p);
  }

  // ---- The invariant ----

  /** A version some worker holds: sound, older or current, and determined as to `main` by the head it saw. */
  ghost predicate Held(s: State, t: Table) {
    && Sound(t) && SnapshotOnTop(t)
    && t.lastSeq <= s.table.lastSeq && t.defaultSpec == s.table.defaultSpec && t.specs == s.table.specs
    && t.mainHead in s.heads && (t.mainHead == s.table.mainHead ==> t.current == s.table.current)
    && Files(LiveAt(t)) <= s.lived
  }

  /** A posted commit: invisible to its base, named afresh, and accepted only on top of its parent. */
  ghost predicate Posted(s: State, p: Post) {
    && Held(s, p.base) && Invisible(p)
    && p.request.snapshot.id in s.ids && AddedIds(p.work) <= s.names
    && (forall i: nat :: i < |s.heads| && s.heads[i] == Some(p.request.snapshot.id) ==> i > 0 && s.heads[i - 1] == p.request.parent)
    && (Some(p.request.snapshot.id) !in s.heads ==> AddedIds(p.work) !! IdsOf(s.lived))
    && (Some(p.request.snapshot.id) in s.heads ==> RemovedIds(p.work) !! LiveIds(LiveAt(s.table)))
  }

  /** `main` never points at one snapshot twice. */
  ghost predicate HeadsFresh(s: State) {
    && s.heads != [] && s.heads[|s.heads| - 1] == s.table.mainHead
    && (forall i, j :: 0 <= i < j < |s.heads| ==> s.heads[i] != s.heads[j])
    && (forall i :: 0 <= i < |s.heads| && s.heads[i].Some? ==> s.heads[i].value in s.ids)
  }

  ghost predicate Apart(s: State) {
    forall p, q :: p in s.sent && q in s.sent && p != q ==>
      p.request.snapshot.id != q.request.snapshot.id && AddedIds(p.work) !! AddedIds(q.work)
  }

  /** A path names one file for ever. */
  ghost predicate NamesIdentify(s: State) {
    && (forall x, y :: x in s.lived && y in s.lived && x.Id() == y.Id() ==> x == y)
    && IdsOf(s.lived) <= s.names
  }

  ghost predicate Inv(s: State) {
    && NamesIdentify(s)
    && Held(s, s.table)
    && HeadsFresh(s)
    && Apart(s)
    && (forall t :: t in s.loads ==> Held(s, t))
    && (forall p :: p in s.sent ==> Posted(s, p))
  }

  lemma InitInv(s: State)
    requires Init(s)
    ensures Inv(s)
  {
  }

  // ---- Every step keeps it ----

  /** What any step does to what is remembered: it only grows, and `main` moves to a new head or stays. */
  ghost predicate Grows(s: State, s': State) {
    && s.table.lastSeq <= s'.table.lastSeq && s.table.defaultSpec == s'.table.defaultSpec && s.table.specs == s'.table.specs
    && s.lived <= s'.lived && s.names <= s'.names && s.ids <= s'.ids
    && ((s'.heads == s.heads && s'.table.mainHead == s.table.mainHead && s'.table.current == s.table.current) ||
        (s'.heads == s.heads + [s'.table.mainHead] && s'.table.mainHead !in s.heads))
  }

  lemma HeldStays(s: State, s': State, t: Table)
    requires Held(s, t) && Grows(s, s')
    ensures Held(s', t)
  {
  }

  /** The version after a move of `main` is one a worker may load. */
  lemma MovedHeld(s: State, s': State, snapshot: Snapshot)
    requires Held(s, s.table) && s'.table == Moved(s.table, snapshot) && s'.heads == s.heads + [Some(snapshot.id)]
    requires UniqueIds(LiveAll(snapshot.manifests)) && FitsSpec(s.table, LiveAll(snapshot.manifests))
    requires AllBelow(LiveAll(snapshot.manifests), snapshot.seqNo + 1)
    requires Files(LiveAll(snapshot.manifests)) <= s'.lived
    ensures Held(s', s'.table)
  {
  }

  lemma AfterWriteShape(live: seq<Live>, w: Write, n: int)
    requires Legal(live, w, n)
    ensures forall e :: e in AfterWrite(live, w) ==> e in live || (e in w.Added() && e.seqNo == n)
  {
    WithoutMembers(live, w.Removed());
  }

  lemma CommittedShape(s: State, w: Write, snapshot: Snapshot)
    requires Commits(s, w, snapshot)
    ensures forall e :: e in LiveAll(snapshot.manifests) ==> e in LiveAt(s.table) || (e in w.Added() && e.seqNo == snapshot.seqNo)
  {
    hide Normalize, LiveAll, LiveAt, AfterWrite, Legal, FreshNames, FitsSpec;
    AfterWriteShape(LiveAt(s.table), w, snapshot.seqNo);
    SameMembers(LiveAll(snapshot.manifests), AfterWrite(LiveAt(s.table), w));
  }

  lemma WriterNames(s: State, w: Write)
    requires Inv(s) && FreshNames(w.Added(), s.names)
    ensures forall x, y :: x in s.lived + Files(w.Added()) && y in s.lived + Files(w.Added()) && x.Id() == y.Id() ==> x == y
  {
    forall x, y | x in s.lived + Files(w.Added()) && y in s.lived + Files(w.Added()) && x.Id() == y.Id()
      ensures x == y
    {
      if x in s.lived {
        assert x.Id() in IdsOf(s.lived);
      }
      if y in s.lived {
        assert y.Id() in IdsOf(s.lived);
      }
      if x !in s.lived && y !in s.lived {
        var i :| 0 <= i < |w.Added()| && w.Added()[i] == x;
        var j :| 0 <= j < |w.Added()| && w.Added()[j] == y;
      }
    }
  }

  lemma WriterGrows(s: State, w: Write, snapshot: Snapshot, s': State)
    requires Inv(s) && Next(s, WriterCommits(w, snapshot), s')
    ensures Grows(s, s') && HeadsFresh(s') && NamesIdentify(s')
  {
    hide Normalize, Meaning, Posted, Held, Legal, LiveAll, LiveAt, FreshNames, Apart;
    assert FreshNames(w.Added(), s.names);
    WriterNames(s, w);
    assert IdsOf(s'.lived) == IdsOf(s.lived) + LiveIds(w.Added());
  }

  lemma WriterMoves(s: State, w: Write, snapshot: Snapshot, s': State)
    requires Inv(s) && Next(s, WriterCommits(w, snapshot), s') && NamesIdentify(s')
    ensures Held(s', s'.table)
  {
    hide Normalize, Meaning, Posted, Legal, AfterWrite, FreshNames, HeadsFresh, Apart, LiveAll;
    CommittedShape(s, w, snapshot);
    assert Files(LiveAll(snapshot.manifests)) <= s'.lived;
    MovedHeld(s, s', snapshot);
  }

  lemma WriterKeepsInv(s: State, w: Write, snapshot: Snapshot, s': State)
    requires Inv(s) && Next(s, WriterCommits(w, snapshot), s')
    ensures Inv(s')
  {
    hide Normalize, Meaning, Posted, Held, HeadsFresh, NamesIdentify, Grows, Commits, Moved;
    WriterGrows(s, w, snapshot, s');
    WriterMoves(s, w, snapshot, s');
    forall t | t in s'.loads
      ensures Held(s', t)
    {
      HeldStays(s, s', t);
    }
    forall p | p in s'.sent
      ensures Posted(s', p)
    {
      PostedUnderWriter(s, w, snapshot, s', p);
    }
  }

  lemma PostedUnderWriter(s: State, w: Write, snapshot: Snapshot, s': State, p: Post)
    requires Inv(s) && Next(s, WriterCommits(w, snapshot), s') && p in s.sent && Grows(s, s')
    ensures Posted(s', p)
  {
    hide Normalize, Invisible, Sound, SnapshotOnTop, Meaning, LiveAll, Legal, AfterWrite, FitsSpec;
    assert Posted(s, p);
    HeldStays(s, s', p.base);
    CommittedShape(s, w, snapshot);
    assert IdsOf(s'.lived) == IdsOf(s.lived) + LiveIds(w.Added());
    RemovedWereLive(s, p);
  }

  lemma RemovedWereLive(s: State, p: Post)
    requires Posted(s, p) && NamesIdentify(s)
    ensures RemovedIds(p.work) <= IdsOf(s.lived) <= s.names
  {
  }

  lemma BranchKeepsInv(s: State, id: int, lastSeq: int, s': State)
    requires Inv(s) && Next(s, BranchCommits(id, lastSeq), s')
    ensures Inv(s')
  {
    hide Normalize, Invisible, LiveAll;
    forall t | t in s.loads
      ensures Held(s', t)
    {
      HeldStays(s, s', t);
    }
    forall p | p in s.sent
      ensures Posted(s', p)
    {
      assert Posted(s, p);
      HeldStays(s, s', p.base);
    }
  }

  lemma LoadKeepsInv(s: State, s': State)
    requires Inv(s) && Next(s, Loads, s')
    ensures Inv(s')
  {
    hide Normalize, Invisible, Sound, SnapshotOnTop, LiveAll, AddedIds, RemovedIds;
    forall p | p in s.sent
      ensures Posted(s', p)
    {
      assert Posted(s, p);
    }
  }

  lemma NewPostIsPosted(s: State, p: Post, s': State)
    requires Inv(s) && Next(s, Posts(p), s')
    ensures Posted(s', p)
  {
    hide Normalize, BuiltBy, Invisible, Sound, SnapshotOnTop, FitsSpec, LiveAll;
    assert Held(s, p.base);
    forall i | i in LiveIds(LiveAt(p.base))
      ensures i in s.names
    {
      assert i in IdsOf(s.lived);
    }
    WorkIsInvisible(p, s.names);
  }

  lemma PostsApart(s: State, p: Post)
    requires Apart(s) && FreshPost(s, p)
    requires forall q :: q in s.sent ==> q.request.snapshot.id in s.ids && AddedIds(q.work) <= s.names
    ensures Apart(WithPost(s, p))
  {
  }

  lemma OldPostsStay(s: State, p: Post, q: Post)
    requires Posted(s, q)
    ensures Posted(WithPost(s, p), q)
  {
    hide Normalize, Invisible, Sound, SnapshotOnTop, LiveAll;
    HeldStays(s, WithPost(s, p), q.base);
  }

  lemma PostedFacts(s: State)
    requires Inv(s)
    ensures forall q :: q in s.sent ==> q.request.snapshot.id in s.ids && AddedIds(q.work) <= s.names
  {
    hide Normalize, Held, Invisible, AddedIds, RemovedIds, IdsOf, NamesIdentify, HeadsFresh, Apart;
    forall q | q in s.sent
      ensures q.request.snapshot.id in s.ids && AddedIds(q.work) <= s.names
    {
      assert Posted(s, q);
    }
  }

  lemma PostKeepsInv(s: State, p: Post, s': State)
    requires Inv(s) && Next(s, Posts(p), s')
    ensures Inv(s')
  {
    hide Normalize, BuiltBy, Posted, Held, HeadsFresh, NamesIdentify, Apart, FreshPost;
    NewPostIsPosted(s, p, s');
    PostedFacts(s);
    PostsApart(s, p);
    OthersUnderPost(s, p);
  }

  lemma OthersUnderPost(s: State, p: Post)
    requires Inv(s)
    ensures Held(WithPost(s, p), s.table) && HeadsFresh(WithPost(s, p)) && NamesIdentify(WithPost(s, p))
    ensures forall t :: t in s.loads ==> Held(WithPost(s, p), t)
    ensures forall q :: q in s.sent ==> Posted(WithPost(s, p), q)
  {
    hide Normalize, Invisible, Sound, SnapshotOnTop, LiveAll, Apart;
    forall t | t in s.loads
      ensures Held(WithPost(s, p), t)
    {
      HeldStays(s, WithPost(s, p), t);
    }
    forall q | q in s.sent
      ensures Posted(WithPost(s, p), q)
    {
      OldPostsStay(s, p, q);
    }
  }

  /** A commit the catalog accepts was built on the very files `main` holds, and was not accepted before. */
  lemma AcceptanceIsFirst(s: State, p: Post)
    requires Inv(s) && p in s.sent && Accepted(s, p)
    ensures p.base.current == s.table.current
    ensures Some(p.request.snapshot.id) !in s.heads
  {
    assert Posted(s, p);
    forall i: nat | i < |s.heads|
      ensures s.heads[i] != Some(p.request.snapshot.id)
    {
      if i > 0 {
        assert s.heads[i - 1] != s.heads[|s.heads| - 1];
      }
    }
  }

  lemma AcceptedGrows(s: State, p: Post, s': State)
    requires Inv(s) && Next(s, Delivers(p), s') && Accepted(s, p)
    ensures Grows(s, s') && HeadsFresh(s') && NamesIdentify(s')
    ensures IdsOf(s'.lived) <= IdsOf(s.lived) + AddedIds(p.work)
    ensures LiveIds(LiveAt(s'.table)) <= LiveIds(LiveAt(s.table)) + AddedIds(p.work)
  {
    hide Normalize, Sound, SnapshotOnTop, LiveAll, FitsSpec, ReadsAlike;
    assert Posted(s, p);
    AcceptanceIsFirst(s, p);
    var after := LiveAll(p.request.snapshot.manifests);
    forall x, y | x in s'.lived && y in s'.lived && x.Id() == y.Id()
      ensures x == y
    {
      if x in s.lived {
        assert x.Id() in IdsOf(s.lived);
      }
      if y in s.lived {
        assert y.Id() in IdsOf(s.lived);
      }
    }
  }

  lemma PostedUnderDelivery(s: State, p: Post, s': State, q: Post)
    requires Inv(s) && Next(s, Delivers(p), s') && Accepted(s, p) && q in s.sent
    ensures Posted(s', q)
  {
    hide Normalize, Sound, SnapshotOnTop, LiveAll, Content, FitsSpec, ReadsAlike, BuiltBy, AddedIds, RemovedIds;
    assert Posted(s, p) && Posted(s, q);
    AcceptanceIsFirst(s, p);
    AcceptedGrows(s, p, s');
    HeldStays(s, s', q.base);
    RemovedWereLive(s, q);
  }

  lemma DeliveryMoves(s: State, p: Post, s': State)
    requires Inv(s) && Next(s, Delivers(p), s') && Accepted(s, p)
    ensures Held(s', s'.table)
  {
    hide Normalize, NamesIdentify, HeadsFresh, Apart, Content;
    assert Posted(s, p);
    AcceptanceIsFirst(s, p);
    MovedHeld(s, s', p.request.snapshot);
  }

  lemma DeliveryKeepsInv(s: State, p: Post, s': State)
    requires Inv(s) && Next(s, Delivers(p), s')
    ensures Inv(s')
  {
    hide Normalize, Posted, Held, HeadsFresh, NamesIdentify, Grows, Moved, Accepted, AddedIds, LiveAll, Files, BuiltBy, Commits;
    if Accepted(s, p) {
      AcceptedGrows(s, p, s');
      DeliveryMoves(s, p, s');
      forall t | t in s'.loads
        ensures Held(s', t)
      {
        HeldStays(s, s', t);
      }
      forall q | q in s'.sent
        ensures Posted(s', q)
      {
        PostedUnderDelivery(s, p, s', q);
      }
    }
  }

  lemma StepKeepsInv(s: State, step: Step, s': State)
    requires Inv(s) && Next(s, step, s')
    ensures Inv(s')
  {
    hide Normalize;
    match step
    case WriterCommits(w, snapshot) => WriterKeepsInv(s, w, snapshot, s');
    case BranchCommits(id, lastSeq) => BranchKeepsInv(s, id, lastSeq, s');
    case Loads => LoadKeepsInv(s, s');
    case Posts(p) => PostKeepsInv(s, p, s');
    case Delivers(p) => DeliveryKeepsInv(s, p, s');
  }

  // ---- Whole runs ----

  /** Any interleaving, from a sound table on. */
  ghost predicate IsRun(states: seq<State>, steps: seq<Step>) {
    && |states| == |steps| + 1
    && Init(states[0])
    && forall i :: 0 <= i < |steps| ==> Next(states[i], steps[i], states[i + 1])
  }

  lemma {:induction false} RunInv(states: seq<State>, steps: seq<Step>, i: nat)
    requires IsRun(states, steps) && i < |states|
    ensures Inv(states[i])
  {
    hide Inv, Init, Next;
    if i == 0 {
      InitInv(states[0]);
    } else {
      RunInv(states, steps, i - 1);
      StepKeepsInv(states[i - 1], steps[i - 1], states[i]);
    }
  }

  /** Everything but a writer's commit is a stuttering step: no partition reads differently. */
  lemma MaintenanceStutters(s: State, step: Step, s': State, k: Key)
    requires Inv(s) && Next(s, step, s') && !step.WriterCommits?
    ensures s'.changes == s.changes
    ensures Content(LiveAt(s'.table), k) == Content(LiveAt(s.table), k)
  {
    if step.Delivers? && Accepted(s, step.post) {
      assert Posted(s, step.post);
      AcceptanceIsFirst(s, step.post);
    }
  }

  lemma CommittedContent(s: State, w: Write, snapshot: Snapshot, k: Key)
    requires Commits(s, w, snapshot)
    ensures Content(LiveAll(snapshot.manifests), k) == Content(AfterWrite(LiveAt(s.table), w), k)
  {
    hide Normalize, LiveAll, LiveAt, AfterWrite, Legal, Content;
    ContentPermuted(LiveAll(snapshot.manifests), AfterWrite(LiveAt(s.table), w), k);
  }

  lemma WriterMeans(s: State, w: Write, snapshot: Snapshot, s': State, k: Key, r: Row)
    requires Inv(s) && Next(s, WriterCommits(w, snapshot), s')
    ensures Content(LiveAt(s'.table), k)[r] == Apply(Meaning(LiveAt(s.table), w), k, r, Content(LiveAt(s.table), k)[r])
  {
    hide Normalize, Content, Meaning, Apply, Posted, NamesIdentify, HeadsFresh, LiveAll;
    WriteMeansItsChange(LiveAt(s.table), w, s.table.lastSeq + 1, k, r);
    CommittedContent(s, w, snapshot, k);
  }

  /** What a reader of partition `k` gets from `main`: how often row `r`. */
  function Reads(s: State, k: Key, r: Row): int {
    Content(LiveAt(s.table), k)[r]
  }

  lemma StepReads(s: State, step: Step, s': State, k: Key, r: Row, first: int)
    requires Inv(s) && Next(s, step, s')
    requires Reads(s, k, r) == Replay(s.changes, k, r, first)
    ensures Reads(s', k, r) == Replay(s'.changes, k, r, first)
  {
    if step.WriterCommits? {
      WriterMeans(s, step.write, step.snapshot, s', k, r);
      assert s'.changes[..|s'.changes| - 1] == s.changes;
    } else {
      MaintenanceStutters(s, step, s', k);
    }
  }

  lemma NothingWritten(s: State, k: Key, r: Row)
    requires Init(s)
    ensures Reads(s, k, r) == Replay(s.changes, k, r, Reads(s, k, r))
  {
  }

  /** In every run, whatever the workers load, build, post, re-post, lose or abandon, and whenever the catalog hears of
      it: `main` reads, partition by partition and row by row, as if the writers had been alone. */
  lemma {:induction false} MainReadsAsWritten(states: seq<State>, steps: seq<Step>, i: nat, k: Key, r: Row)
    requires IsRun(states, steps) && i < |states|
    ensures Reads(states[i], k, r) == Replay(states[i].changes, k, r, Reads(states[0], k, r))
  {
    hide Normalize, Inv, Next, Init, Reads, Replay;
    if i == 0 {
      NothingWritten(states[0], k, r);
    } else {
      MainReadsAsWritten(states, steps, i - 1, k, r);
      RunInv(states, steps, i - 1);
      StepReads(states[i - 1], steps[i - 1], states[i], k, r, Reads(states[0], k, r));
    }
  }

  lemma StepGrowsHeads(s: State, step: Step, s': State)
    requires Next(s, step, s')
    ensures s.heads <= s'.heads && s.sent <= s'.sent
  {
  }

  lemma {:induction false} HeadsOnlyGrow(states: seq<State>, steps: seq<Step>, i: nat, j: nat)
    requires IsRun(states, steps) && i <= j < |states|
    ensures states[i].heads <= states[j].heads && states[i].sent <= states[j].sent
  {
    hide Normalize, Inv, Next, Init;
    if i < j {
      HeadsOnlyGrow(states, steps, i, j - 1);
      StepGrowsHeads(states[j - 1], steps[j - 1], states[j]);
    }
  }

  /** However often a posted commit is delivered, it takes effect at most once. */
  lemma AcceptedAtMostOnce(states: seq<State>, steps: seq<Step>, i: nat, j: nat, p: Post)
    requires IsRun(states, steps) && i < j < |steps|
    requires steps[i] == Delivers(p) && Accepted(states[i], p)
    requires steps[j] == Delivers(p)
    ensures !Accepted(states[j], p) && states[j + 1] == states[j]
  {
    hide Normalize;
    RunInv(states, steps, j);
    assert Next(states[i], steps[i], states[i + 1]) && Next(states[j], steps[j], states[j + 1]);
    var head := Some(p.request.snapshot.id);
    assert head in states[i + 1].heads;
    HeadsOnlyGrow(states, steps, i + 1, j);
    assert head in states[j].heads;
    if Accepted(states[j], p) {
      AcceptanceIsFirst(states[j], p);
    }
  }

  /** A file once on `main` and no longer there. */
  ghost predicate IsGone(s: State, id: string) {
    id in IdsOf(s.lived) && id !in LiveIds(LiveAt(s.table))
  }

  lemma GoneStaysGone(s: State, step: Step, s': State, id: string)
    requires Inv(s) && Next(s, step, s') && IsGone(s, id)
    ensures IsGone(s', id)
  {
    hide Normalize, Invisible, Sound, Content, SnapshotOnTop;
    match step
    case WriterCommits(w, snapshot) =>
      CommittedShape(s, w, snapshot);
    case Delivers(p) =>
      if Accepted(s, p) {
        assert Posted(s, p);
        AcceptanceIsFirst(s, p);
        AcceptedGrows(s, p, s');
      }
    case _ =>
  }

  lemma {:induction false} GoneForGood(states: seq<State>, steps: seq<Step>, i: nat, j: nat, id: string)
    requires IsRun(states, steps) && i <= j < |states| && IsGone(states[i], id)
    ensures IsGone(states[j], id)
  {
    hide Normalize, Next, Init, IsGone;
    if i < j {
      GoneForGood(states, steps, i, j - 1, id);
      GoneOneStep(states, steps, j - 1, id);
    }
  }

  lemma GoneOneStep(states: seq<State>, steps: seq<Step>, i: nat, id: string)
    requires IsRun(states, steps) && i < |steps| && IsGone(states[i], id)
    ensures IsGone(states[i + 1], id)
  {
    RunInv(states, steps, i);
    GoneStaysGone(states[i], steps[i], states[i + 1], id);
  }

  // ---- A commit applied unseen ----

  /** The files `wanted` names in a version, were they all data. */
  ghost predicate NamesData(t: Table, wanted: set<string>) {
    forall e :: e in LiveAt(t) && e.Id() in wanted ==> e.file.IsData()
  }

  /** What a group's accepted commit leaves of it: nothing. */
  lemma AcceptedTakesAll(s: State, p: Post, s': State, id: string)
    requires Inv(s) && Next(s, Delivers(p), s') && Accepted(s, p) && p.work.Compaction?
    requires id in p.work.wanted && id in IdsOf(s.lived) && NamesData(p.base, p.work.wanted)
    requires BuiltBy(p.work, p.base, p.request)
    ensures IsGone(s', id)
  {
    hide Normalize, BuiltBy, Sound, SnapshotOnTop, LiveAll, FitsSpec;
    assert Posted(s, p);
    AcceptanceIsFirst(s, p);
    AcceptedGrows(s, p, s');
    if id in LiveIds(LiveAt(p.base)) {
      BuiltIsShaped(p);
      WantedIsRemoved(p, id);
    }
  }

  lemma WantedIsRemoved(p: Post, id: string)
    requires Shaped(p)
    requires id in p.work.wanted && NamesData(p.base, p.work.wanted) && id in LiveIds(LiveAt(p.base))
    ensures id in RemovedIds(p.work)
  {
    hide Normalize;
    var e :| e in LiveAt(p.base) && e.Id() == id;
    var live := LiveAt(p.base);
    var t := Task(e, ApplicableTo(live, e));
    ScanMembers(live, live);
    SelectMembers(Scan(live), p.work.wanted);
    assert t in Select(Scan(live), p.work.wanted);
  }

  ghost predicate LiveAsData(t: Table, wanted: set<string>) {
    forall id :: id in wanted ==> exists e :: e in LiveAt(t) && e.Id() == id && e.file.IsData()
  }

  /** A plan's files, live as data in some version ever loaded, are known and named by data files for ever. */
  lemma PlannedIsKnown(s: State, planned: Table, t: Table, wanted: set<string>)
    requires Inv(s) && Held(s, planned) && Held(s, t) && LiveAsData(planned, wanted)
    ensures wanted <= IdsOf(s.lived) && NamesData(t, wanted)
  {
    forall id | id in wanted
      ensures id in IdsOf(s.lived)
    {
      var e :| e in LiveAt(planned) && e.Id() == id && e.file.IsData();
      assert e in Files(LiveAt(planned));
    }
    forall e | e in LiveAt(t) && e.Id() in wanted
      ensures e.file.IsData()
    {
      var d :| d in LiveAt(planned) && d.Id() == e.Id() && d.file.IsData();
      assert d in Files(LiveAt(planned)) && e in Files(LiveAt(t));
    }
  }

  lemma {:induction false} SentIsBuilt(states: seq<State>, steps: seq<Step>, i: nat, p: Post)
    requires IsRun(states, steps) && i < |states| && p in states[i].sent
    ensures BuiltBy(p.work, p.base, p.request)
  {
    if i > 0 {
      assert Next(states[i - 1], steps[i - 1], states[i]);
      if p in states[i - 1].sent {
        SentIsBuilt(states, steps, i - 1, p);
      }
    }
  }

  /** Once a group's commit took effect, seen or unseen, no later version offers any of the group's files: whoever
      reloads selects nothing, and ends without a second rewrite. */
  lemma NothingLeftToRewrite(states: seq<State>, steps: seq<Step>, i: nat, j: nat, p: Post, planned: Table)
    requires IsRun(states, steps) && i < j < |states|
    requires steps[i] == Delivers(p) && Accepted(states[i], p)
    requires p.work.Compaction?
    requires planned in states[i].loads && LiveAsData(planned, p.work.wanted)
    ensures Select(Scan(LiveAt(states[j].table)), p.work.wanted) == []
  {
    hide Normalize;
    RunInv(states, steps, i);
    assert Next(states[i], steps[i], states[i + 1]);
    assert Posted(states[i], p);
    SentIsBuilt(states, steps, i, p);
    PlannedIsKnown(states[i], planned, p.base, p.work.wanted);
    forall id | id in p.work.wanted
      ensures id !in LiveIds(LiveAt(states[j].table))
    {
      AcceptedTakesAll(states[i], p, states[i + 1], id);
      GoneForGood(states, steps, i + 1, j, id);
    }
    SelectsNothing(LiveAt(states[j].table), p.work.wanted);
  }

  lemma SelectsNothing(live: seq<Live>, wanted: set<string>)
    requires wanted !! LiveIds(live)
    ensures Select(Scan(live), wanted) == []
  {
    var picked := Select(Scan(live), wanted);
    assert |picked| == 0 || picked[0] in picked;
    SelectMembers(Scan(live), wanted);
    ScanMembers(live, live);
  }

  // ---- Dangling judgments last ----

  /** `d` applies to no data file of `t`. */
  ghost predicate Idle(d: Live, t: Table) {
    forall e :: e in LiveAt(t) && e.file.IsData() ==> !Applies(d, e)
  }

  /** `d` is no newer than what `main` points at. */
  predicate AsOldAsMain(d: Live, t: Table) {
    t.current.Some? && d.seqNo <= t.current.value.seqNo
  }

  /** What arrives outnumbers what `main` pointed at. */
  lemma ArrivalsAreNewer(s: State, step: Step, s': State, e: Live)
    requires Inv(s) && Next(s, step, s')
    requires e in LiveAt(s'.table) && e !in LiveAt(s.table)
    ensures s.table.current.Some? ==> e.seqNo > s.table.current.value.seqNo
  {
    if step.WriterCommits? {
      CommittedShape(s, step.write, step.snapshot);
    } else if step.Delivers? && Accepted(s, step.post) {
      assert Posted(s, step.post);
      AcceptanceIsFirst(s, step.post);
    }
  }

  lemma MainNumbersGrow(s: State, step: Step, s': State)
    requires Inv(s) && Next(s, step, s') && s.table.current.Some?
    ensures s'.table.current.Some? && s'.table.current.value.seqNo >= s.table.current.value.seqNo
  {
    if step.Delivers? && Accepted(s, step.post) {
      assert Posted(s, step.post);
      AcceptanceIsFirst(s, step.post);
    }
  }

  lemma IdleStaysIdle(states: seq<State>, steps: seq<Step>, i: nat, d: Live)
    requires IsRun(states, steps) && i < |steps|
    requires AsOldAsMain(d, states[i].table) && Idle(d, states[i].table)
    ensures AsOldAsMain(d, states[i + 1].table) && Idle(d, states[i + 1].table)
  {
    hide Normalize;
    RunInv(states, steps, i);
    assert Next(states[i], steps[i], states[i + 1]);
    MainNumbersGrow(states[i], steps[i], states[i + 1]);
    forall e | e in LiveAt(states[i + 1].table) && e.file.IsData()
      ensures !Applies(d, e)
    {
      if e !in LiveAt(states[i].table) {
        ArrivalsAreNewer(states[i], steps[i], states[i + 1], e);
      }
    }
  }

  lemma {:induction false} IdleForGood(states: seq<State>, steps: seq<Step>, i: nat, j: nat, d: Live)
    requires IsRun(states, steps) && i <= j < |states|
    requires AsOldAsMain(d, states[i].table) && Idle(d, states[i].table)
    ensures AsOldAsMain(d, states[j].table) && Idle(d, states[j].table)
    decreases j - i
  {
    hide Normalize, Next, Init, Idle, AsOldAsMain;
    if i < j {
      IdleForGood(states, steps, i, j - 1, d);
      IdleStaysIdle(states, steps, j - 1, d);
    }
  }

  lemma DeadIsIdle(t: Table, d: Specced, floors: Floors)
    requires SnapshotOnTop(t) && d in SpecsAll(ManifestsAt(t)) && !d.entry.file.IsData()
    requires Bounds(floors, SpecsAll(ManifestsAt(t))) && DataNumbered(SpecsAll(ManifestsAt(t)))
    requires IsDeadBySequence(d, floors)
    ensures AsOldAsMain(d.View(), t) && Idle(d.View(), t)
  {
    var es := SpecsAll(ManifestsAt(t));
    ViewsAreLive(ManifestsAt(t));
    var k :| 0 <= k < |es| && es[k] == d;
    assert Views(es)[k] in LiveAt(t);
    forall e | e in LiveAt(t) && e.file.IsData()
      ensures !Applies(d.View(), e)
    {
      DeadAppliesToNone(es, floors, d, e);
    }
  }

  /** A delete file judged dead by sequence numbers on some version of `main` applies to no live data file then, nor in
      any later state of any run, so dropping it at any later time brings no row back. */
  lemma DeadForGood(states: seq<State>, steps: seq<Step>, i: nat, j: nat, d: Specced, floors: Floors)
    requires IsRun(states, steps) && i <= j < |states|
    requires d in SpecsAll(ManifestsAt(states[i].table)) && !d.entry.file.IsData()
    requires Bounds(floors, SpecsAll(ManifestsAt(states[i].table))) && DataNumbered(SpecsAll(ManifestsAt(states[i].table)))
    requires IsDeadBySequence(d, floors)
    ensures Idle(d.View(), states[j].table)
  {
    RunInv(states, steps, i);
    DeadIsIdle(states[i].table, d, floors);
    IdleForGood(states, steps, i, j, d.View());
  }
}
