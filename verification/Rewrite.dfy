/** Reading a file group with its deletes applied: buckets of files sharing their equality deletes, one null-safe
    anti-join per set of key columns, the union of the buckets, and the rolling writer behind it. */
module Rewrite {
  import opened Wrappers
  import opened Tables
  import opened Sorting

  predicate IsEquality(d: Live) {
    d.file.payload.Keys?
  }

  /** A scan task: one data file and the deletes that apply to it. */
  datatype Task = Task(live: Live, dels: seq<Live>) {
    function EqDels(): (r: seq<Live>)
      ensures forall d :: d in r <==> d in dels && d.file.payload.Keys?
    {
      KeepMembers(dels, IsEquality);
      Keep(dels, IsEquality)
    }

    function PosDels(): set<Live> {
      set d | d in dels && !d.file.payload.Keys?
    }

    function All(): set<Live> {
      set d | d in dels
    }
  }

  datatype Bucket = Bucket(dels: seq<Live>, tasks: seq<Task>)

  function ByPath(a: Live, b: Live): bool {
    StringLe(a.file.path, b.file.path)
  }

  function PathsOf(dels: seq<Live>): (r: seq<string>)
    ensures |r| == |dels|
    ensures forall i :: 0 <= i < |r| ==> r[i] == dels[i].file.path
  {
    seq(|dels|, i requires 0 <= i < |dels| => dels[i].file.path)
  }

  function SortedEqDels(t: Task): seq<Live> {
    SortBy(t.EqDels(), ByPath)
  }

  function BucketKey(t: Task): seq<string> {
    PathsOf(SortedEqDels(t))
  }

  /** One path names one delete file throughout the group. */
  ghost predicate PathsIdentify(group: seq<Task>) {
    forall t, u, d, e :: t in group && u in group && d in t.dels && e in u.dels && d.file.path == e.file.path ==> d == e
  }

  function TasksOf(buckets: seq<Bucket>): seq<Task> {
    if buckets == [] then [] else buckets[0].tasks + TasksOf(buckets[1..])
  }

  /** Every task of the bucket has exactly the bucket's equality deletes, and there is at least one. */
  ghost predicate Uniform(b: Bucket) {
    && b.tasks != []
    && forall t :: t in b.tasks ==> forall d :: d in b.dels <==> d in t.EqDels()
  }

  // ---- The buckets of a group ----

  function KeyIs(k: seq<string>): Task -> bool {
    (t: Task) => BucketKey(t) == k
  }

  /** The tasks under one key, in the group's order. */
  function Under(group: seq<Task>, k: seq<string>): seq<Task> {
    Keep(group, KeyIs(k))
  }

  /** Their bucket carries the deletes of the first of them. */
  function BucketOf(group: seq<Task>, k: seq<string>): Bucket {
    var tasks := Under(group, k);
    Bucket(if tasks == [] then [] else SortedEqDels(tasks[0]), tasks)
  }

  /** The keys of a group, as they first come up. */
  function KeysOf(group: seq<Task>): (r: seq<seq<string>>)
    ensures NoRepeats(r)
    ensures forall k :: k in r <==> exists t :: t in group && BucketKey(t) == k
  {
    hide BucketKey;
    if group == [] then []
    else
      var front, t := group[..|group| - 1], group[|group| - 1];
      var keys := KeysOf(front);
      assert group == front + [t];
      keys + if BucketKey(t) in keys then [] else [BucketKey(t)]
  }

  function BucketAt(group: seq<Task>): seq<string> -> Bucket {
    (k: seq<string>) => BucketOf(group, k)
  }

  function BucketsAt(group: seq<Task>, keys: seq<seq<string>>): seq<Bucket> {
    Map(keys, BucketAt(group))
  }

  /** What the map of buckets may yield: the group's buckets in any order. */
  ghost predicate Yields(group: seq<Task>, buckets: seq<Bucket>) {
    multiset(buckets) == multiset(BucketsAt(group, KeysOf(group)))
  }

  predicate FirstPathLe(a: Bucket, b: Bucket) {
    a.dels == [] || (b.dels != [] && StringLe(a.dels[0].file.path, b.dels[0].file.path))
  }

  lemma SortedEqDelsMembers(t: Task)
    ensures forall d :: d in SortedEqDels(t) <==> d in t.EqDels()
  {
    forall d
      ensures d in SortedEqDels(t) <==> d in t.EqDels()
    {
      SameElements(t.EqDels(), ByPath, d);
    }
  }

  /** Two tasks with the same sorted delete paths have the same equality deletes. */
  lemma SameKeySameDeletes(group: seq<Task>, t: Task, u: Task)
    requires PathsIdentify(group) && t in group && u in group
    requires BucketKey(t) == BucketKey(u)
    ensures forall d :: d in t.EqDels() <==> d in u.EqDels()
  {
    SortedEqDelsMembers(t);
    SortedEqDelsMembers(u);
    var a, b := SortedEqDels(t), SortedEqDels(u);
    assert |a| == |BucketKey(t)| == |b|;
    forall i | 0 <= i < |a|
      ensures a[i] == b[i]
    {
      assert BucketKey(t)[i] == a[i].file.path && BucketKey(u)[i] == b[i].file.path;
      assert a[i] in t.dels && b[i] in u.dels;
    }
    assert a == b;
  }

  // ---- Filling the map ----

  /** The bucket a task joins: the one under its key, or a new one with the task's own deletes. */
  function Joined(buckets: map<seq<string>, Bucket>, t: Task): Bucket {
    if BucketKey(t) in buckets then Bucket(buckets[BucketKey(t)].dels, buckets[BucketKey(t)].tasks + [t])
    else Bucket(SortedEqDels(t), [t])
  }

  ghost predicate Filled(buckets: map<seq<string>, Bucket>, group: seq<Task>) {
    forall k :: (k in buckets <==> k in KeysOf(group)) && (k in buckets ==> buckets[k] == BucketOf(group, k))
  }

  lemma UnderSome(group: seq<Task>, k: seq<string>)
    ensures Under(group, k) != [] <==> k in KeysOf(group)
    ensures forall t :: t in Under(group, k) <==> t in group && BucketKey(t) == k
  {
    hide BucketKey, Keep;
    KeepMembers(group, KeyIs(k));
    if Under(group, k) != [] {
      assert Under(group, k)[0] in Under(group, k);
    }
  }

  lemma KeysGrow(group: seq<Task>, t: Task)
    ensures KeysOf(group + [t]) == KeysOf(group) + if BucketKey(t) in KeysOf(group) then [] else [BucketKey(t)]
  {
    hide BucketKey;
    assert (group + [t])[..|group + [t]| - 1] == group;
  }

  lemma BucketGrows(buckets: map<seq<string>, Bucket>, group: seq<Task>, t: Task, k: seq<string>)
    requires Filled(buckets, group)
    ensures k == BucketKey(t) ==> BucketOf(group + [t], k) == Joined(buckets, t)
    ensures k != BucketKey(t) ==> BucketOf(group + [t], k) == BucketOf(group, k)
  {
    hide BucketKey, SortedEqDels, Keep, KeysOf;
    KeepAppend(group, t, KeyIs(k));
    UnderSome(group, k);
    assert Under(group, k) + [] == Under(group, k);
  }

  lemma FillTurn(buckets: map<seq<string>, Bucket>, group: seq<Task>, t: Task)
    requires Filled(buckets, group)
    ensures Filled(buckets[BucketKey(t) := Joined(buckets, t)], group + [t])
  {
    hide BucketKey, BucketOf, Joined, KeysOf;
    KeysGrow(group, t);
    forall k
      ensures k == BucketKey(t) ==> BucketOf(group + [t], k) == Joined(buckets, t)
      ensures k != BucketKey(t) ==> BucketOf(group + [t], k) == BucketOf(group, k)
    {
      BucketGrows(buckets, group, t, k);
    }
  }

  /** The first loop of `bucket_by_equality_deletes`. */
  method FillBuckets(group: seq<Task>) returns (buckets: map<seq<string>, Bucket>)
    ensures Filled(buckets, group)
  {
    hide BucketKey, BucketOf;
    buckets := map[];
    for i := 0 to |group|
      invariant Filled(buckets, group[..i])
    {
      FillTurn(buckets, group[..i], group[i]);
      PrefixGrows(group, i);
      buckets := buckets[BucketKey(group[i]) := Joined(buckets, group[i])];
    }
    PrefixWhole(group);
  }

  lemma DrainedYields(buckets: map<seq<string>, Bucket>, group: seq<Task>, keys: seq<seq<string>>, values: seq<Bucket>)
    requires Filled(buckets, group) && NoRepeats(keys) && forall k :: k in keys <==> k in buckets
    requires |values| == |keys| && forall i :: 0 <= i < |keys| ==> keys[i] in buckets && values[i] == buckets[keys[i]]
    ensures Yields(group, values)
  {
    hide BucketOf, KeysOf;
    SameOnce(keys, KeysOf(group));
    MapPermuted(keys, KeysOf(group), BucketAt(group));
    assert values == BucketsAt(group, keys);
  }

  /** `into_values`: every bucket once, in no order anyone promises. */
  method Drain(buckets: map<seq<string>, Bucket>, ghost group: seq<Task>) returns (values: seq<Bucket>)
    requires Filled(buckets, group)
    ensures Yields(group, values)
  {
    hide Filled, Yields;
    values := [];
    var left := buckets.Keys;
    ghost var keys: seq<seq<string>> := [];
    while left != {}
      invariant left <= buckets.Keys && NoRepeats(keys) && forall k :: k in keys <==> k in buckets && k !in left
      invariant |values| == |keys| && forall i :: 0 <= i < |keys| ==> keys[i] in buckets && values[i] == buckets[keys[i]]
      decreases |left|
    {
      var k :| k in left;
      values, keys, left := values + [buckets[k]], keys + [k], left - {k};
    }
    DrainedYields(buckets, group, keys, values);
  }

  // ---- Nothing is lost ----

  lemma {:induction false} TasksOfConcat(a: seq<Bucket>, b: seq<Bucket>)
    ensures TasksOf(a + b) == TasksOf(a) + TasksOf(b)
  {
    if a == [] {
      assert a + b == b;
    } else {
      assert (a + b)[1..] == a[1..] + b;
      TasksOfConcat(a[1..], b);
    }
  }

  lemma TasksOfTakeOut(buckets: seq<Bucket>, i: nat)
    requires i < |buckets|
    ensures multiset(TasksOf(buckets)) == multiset(buckets[i].tasks) + multiset(TasksOf(buckets[..i] + buckets[i + 1..]))
  {
    hide TasksOf;
    var before, x, after := buckets[..i], [buckets[i]], buckets[i + 1..];
    OneBucketTasks(buckets[i]);
    assert buckets == before + (x + after);
    TasksOfConcat(before, x + after);
    TasksOfConcat(x, after);
    TasksOfConcat(before, after);
  }

  lemma OneBucketTasks(b: Bucket)
    ensures TasksOf([b]) == b.tasks
  {
    assert [b][1..] == [];
  }

  /** Reordering buckets reorders their tasks and nothing else. */
  lemma {:induction false} TasksOfPermuted(a: seq<Bucket>, b: seq<Bucket>)
    requires multiset(a) == multiset(b)
    ensures multiset(TasksOf(a)) == multiset(TasksOf(b))
    decreases |a|
  {
    hide TasksOf;
    if a == [] {
      NothingElse(b);
    } else {
      var i := HeadSomewhere(a, b);
      TasksOfPermuted(a[1..], b[..i] + b[i + 1..]);
      TasksOfTakeOut(a, 0);
      TasksOfTakeOut(b, i);
      assert a[..0] + a[1..] == a[1..];
    }
  }

  function KeyIn(keys: seq<seq<string>>): Task -> bool {
    (t: Task) => BucketKey(t) in keys
  }

  /** One more key takes in exactly the tasks under it. */
  lemma {:induction false} KeyInGrows(group: seq<Task>, keys: seq<seq<string>>, k: seq<string>)
    requires k !in keys
    ensures multiset(Keep(group, KeyIn(keys + [k]))) == multiset(Keep(group, KeyIn(keys))) + multiset(Keep(group, KeyIs(k)))
  {
    hide BucketKey, Keep;
    if group == [] {
      KeepNothing(group, KeyIn(keys + [k]));
      KeepNothing(group, KeyIn(keys));
      KeepNothing(group, KeyIs(k));
    } else {
      var t, rest := group[0], group[1..];
      KeyInGrows(rest, keys, k);
      KeepCons(t, rest, KeyIn(keys + [k]));
      KeepCons(t, rest, KeyIn(keys));
      KeepCons(t, rest, KeyIs(k));
      assert group == [t] + rest;
    }
  }

  lemma {:induction false} KeepNone(group: seq<Task>)
    ensures Keep(group, KeyIn([])) == []
  {
    if group != [] {
      KeepNone(group[1..]);
    }
  }

  lemma {:induction false} TasksAt(group: seq<Task>, keys: seq<seq<string>>, n: nat)
    requires NoRepeats(keys) && n <= |keys|
    ensures multiset(TasksOf(BucketsAt(group, keys[..n]))) == multiset(Keep(group, KeyIn(keys[..n])))
  {
    hide Keep, TasksOf, Map;
    if n == 0 {
      NoBuckets(group, keys[..0]);
    } else {
      var front, k := keys[..n - 1], keys[n - 1];
      TasksAt(group, keys, n - 1);
      PrefixGrows(keys, n - 1);
      assert k !in front;
      KeyInGrows(group, front, k);
      assert BucketsAt(group, front + [k]) == BucketsAt(group, front) + [BucketOf(group, k)];
      TasksOfConcat(BucketsAt(group, front), [BucketOf(group, k)]);
      OneBucketTasks(BucketOf(group, k));
    }
  }

  lemma NoBuckets(group: seq<Task>, keys: seq<seq<string>>)
    requires keys == []
    ensures TasksOf(BucketsAt(group, keys)) == [] && Keep(group, KeyIn(keys)) == []
  {
    KeepNone(group);
  }

  /** The buckets hold the group's tasks between them. */
  lemma YieldedTasks(group: seq<Task>, buckets: seq<Bucket>)
    requires Yields(group, buckets)
    ensures multiset(TasksOf(buckets)) == multiset(group)
  {
    hide Keep, TasksOf, BucketOf, Map;
    var keys := KeysOf(group);
    TasksAt(group, keys, |keys|);
    PrefixWhole(keys);
    KeepAll(group, KeyIn(keys));
    TasksOfPermuted(buckets, BucketsAt(group, keys));
  }

  lemma YieldedMembers(group: seq<Task>, buckets: seq<Bucket>, b: Bucket)
    requires Yields(group, buckets)
    ensures b in buckets <==> exists k :: k in KeysOf(group) && b == BucketOf(group, k)
  {
    hide BucketOf, KeysOf;
    var keys := KeysOf(group);
    SameMultisetMembers(buckets, BucketsAt(group, keys), b);
    if b in BucketsAt(group, keys) {
      var i :| 0 <= i < |keys| && BucketsAt(group, keys)[i] == b;
      assert keys[i] in keys;
    }
    if k :| k in keys && b == BucketOf(group, k) {
      var i :| 0 <= i < |keys| && keys[i] == k;
      assert BucketsAt(group, keys)[i] == b;
    }
  }

  /** A bucket's deletes spell its key. */
  lemma BucketSpells(group: seq<Task>, k: seq<string>)
    requires k in KeysOf(group)
    ensures PathsOf(BucketOf(group, k).dels) == k
  {
    hide SortedEqDels, KeysOf, PathsOf;
    UnderSome(group, k);
    assert Under(group, k)[0] in Under(group, k);
  }

  lemma BucketIsUniform(group: seq<Task>, k: seq<string>)
    requires PathsIdentify(group) && k in KeysOf(group)
    ensures Uniform(BucketOf(group, k))
  {
    hide SortedEqDels, KeysOf, BucketKey, PathsIdentify;
    UnderSome(group, k);
    var tasks := Under(group, k);
    assert tasks[0] in tasks;
    SortedEqDelsMembers(tasks[0]);
    forall t | t in tasks
      ensures forall d :: d in SortedEqDels(tasks[0]) <==> d in t.EqDels()
    {
      SameKeySameDeletes(group, tasks[0], t);
    }
  }

  // ---- The order they come in ----

  lemma FirstPathOrder()
    ensures TotalPreorder(FirstPathLe)
  {
    hide StringLe;
    StringOrder();
    forall a: Bucket, b: Bucket
      ensures FirstPathLe(a, b) || FirstPathLe(b, a)
    {
      if a.dels != [] && b.dels != [] {
        assert StringLe(a.dels[0].file.path, b.dels[0].file.path) || StringLe(b.dels[0].file.path, a.dels[0].file.path);
      }
    }
    forall a: Bucket, b: Bucket, c: Bucket | FirstPathLe(a, b) && FirstPathLe(b, c)
      ensures FirstPathLe(a, c)
    {
      if a.dels != [] {
        assert StringLe(a.dels[0].file.path, b.dels[0].file.path) && StringLe(b.dels[0].file.path, c.dels[0].file.path);
      }
    }
  }

  /** `bucket_by_equality_deletes`: the group's buckets, sorted by their first delete's path. Where no two of them share one
      their order is determined; otherwise it is what the map made of it. */
  method BucketByEqualityDeletes(group: seq<Task>) returns (out: seq<Bucket>)
    requires PathsIdentify(group)
    ensures forall b :: b in out ==> Uniform(b)
    ensures multiset(TasksOf(out)) == multiset(group)
    ensures Yields(group, out) && Sorted(out, FirstPathLe)
    ensures OrderIsFixed(group) ==> out == SortBy(BucketsAt(group, KeysOf(group)), FirstPathLe)
  {
    hide BucketOf, SortBy, KeysOf, BucketsAt, TasksOf, Sorted, FirstPathLe;
    var buckets := FillBuckets(group);
    var values := Drain(buckets, group);
    out := SortBy(values, FirstPathLe);
    FirstPathOrder();
    SortBySorted(values, FirstPathLe);
    YieldedTasks(group, out);
    forall b | b in out
      ensures Uniform(b)
    {
      YieldedMembers(group, out, b);
      var k :| k in KeysOf(group) && b == BucketOf(group, k);
      BucketIsUniform(group, k);
    }
  }

  /** Whatever order the map yields its buckets in, sorting leaves one. */
  ghost predicate OrderIsFixed(group: seq<Task>) {
    forall a, b :: Yields(group, a) && Yields(group, b) ==> SortBy(a, FirstPathLe) == SortBy(b, FirstPathLe)
  }

  /** Two files with different equality deletes whose first one, by path, is the same. */
  predicate ShareFirstDelete(t: Task, u: Task) {
    && BucketKey(t) != BucketKey(u) && BucketKey(t) != [] && BucketKey(u) != []
    && BucketKey(t)[0] == BucketKey(u)[0]
  }

  /** Two buckets tie when both have no deletes, or their first paths are one. */
  lemma TieIsSharedPath(group: seq<Task>, k: seq<string>, l: seq<string>)
    requires k in KeysOf(group) && l in KeysOf(group)
    ensures FirstPathLe(BucketOf(group, k), BucketOf(group, l)) && FirstPathLe(BucketOf(group, l), BucketOf(group, k)) <==>
            (k == [] && l == []) || (k != [] && l != [] && k[0] == l[0])
  {
    hide BucketOf, KeysOf, StringLe;
    BucketSpells(group, k);
    BucketSpells(group, l);
    if k != [] && l != [] {
      StringOrder();
      if StringLe(k[0], l[0]) && StringLe(l[0], k[0]) {
        StringAntisymmetric(k[0], l[0]);
      }
    }
  }

  lemma TiesAreShared(group: seq<Task>)
    ensures NoTies(BucketsAt(group, KeysOf(group)), FirstPathLe) <==>
            forall t, u :: t in group && u in group ==> !ShareFirstDelete(t, u)
  {
    hide BucketOf, KeysOf, FirstPathLe, BucketKey, BucketsAt;
    var buckets := BucketsAt(group, KeysOf(group));
    if NoTies(buckets, FirstPathLe) {
      forall t, u | t in group && u in group
        ensures !ShareFirstDelete(t, u)
      {
        if ShareFirstDelete(t, u) {
          var k, l := BucketKey(t), BucketKey(u);
          TieIsSharedPath(group, k, l);
          YieldedMembers(group, buckets, BucketOf(group, k));
          YieldedMembers(group, buckets, BucketOf(group, l));
          BucketSpells(group, k);
          BucketSpells(group, l);
        }
      }
    }
    if forall t, u :: t in group && u in group ==> !ShareFirstDelete(t, u) {
      forall x, y | x in buckets && y in buckets && FirstPathLe(x, y) && FirstPathLe(y, x)
        ensures x == y
      {
        YieldedMembers(group, buckets, x);
        YieldedMembers(group, buckets, y);
        var k :| k in KeysOf(group) && x == BucketOf(group, k);
        var l :| l in KeysOf(group) && y == BucketOf(group, l);
        TieIsSharedPath(group, k, l);
        var t :| t in group && BucketKey(t) == k;
        var u :| u in group && BucketKey(u) == l;
        assert !ShareFirstDelete(t, u);
      }
    }
  }

  /** The order of the buckets is determined if and only if no two files of the group have different equality deletes of
      which the first, by path, is the same. */
  lemma BucketOrderIsFixed(group: seq<Task>)
    ensures OrderIsFixed(group) <==> forall t, u :: t in group && u in group ==> !ShareFirstDelete(t, u)
  {
    hide SortBy, BucketsAt, KeysOf, NoTies, FirstPathLe, ShareFirstDelete, SortsAlike;
    FirstPathOrder();
    TiesAreShared(group);
    SortIsDetermined(BucketsAt(group, KeysOf(group)), FirstPathLe);
    FixedIsSortsAlike(group);
  }

  lemma FixedIsSortsAlike(group: seq<Task>)
    ensures OrderIsFixed(group) <==> SortsAlike(BucketsAt(group, KeysOf(group)), FirstPathLe)
  {
    hide SortBy, BucketsAt, KeysOf, FirstPathLe;
    if OrderIsFixed(group) {
      forall a: seq<Bucket>, b: seq<Bucket>
               | multiset(a) == multiset(BucketsAt(group, KeysOf(group))) && multiset(b) == multiset(BucketsAt(group, KeysOf(group)))
        ensures SortBy(a, FirstPathLe) == SortBy(b, FirstPathLe)
      {
        assert Yields(group, a) && Yields(group, b);
      }
    }
    if SortsAlike(BucketsAt(group, KeysOf(group)), FirstPathLe) {
      forall a, b | Yields(group, a) && Yields(group, b)
        ensures SortBy(a, FirstPathLe) == SortBy(b, FirstPathLe)
      {
      }
    }
  }

  // ---- Where it is not ----

  function LateDelete(path: string, seqNo: int): Live {
    Live(Key(0, []), File(path, [], Keys([1], {map[]}), 1, 1, true), seqNo)
  }

  function OldFile(path: string, seqNo: int, dels: seq<Live>): Task {
    Task(Live(Key(0, []), File(path, [], Rows([]), 0, 1, true), seqNo), dels)
  }

  /** A file written at 5 with a delete at 6, and one written at 3 with that delete and another at 4. */
  function TwoFiles(x: string, y: string, p: string, q: string): seq<Task> {
    [OldFile(x, 5, [LateDelete(p, 6)]), OldFile(y, 3, [LateDelete(p, 6), LateDelete(q, 4)])]
  }

  lemma KeyOfTask(t: Task, paths: seq<string>)
    requires forall d :: d in t.dels ==> IsEquality(d)
    requires SortBy(t.dels, ByPath) == t.dels && PathsOf(t.dels) == paths
    ensures BucketKey(t) == paths && forall d :: d in t.EqDels() <==> d in t.dels
  {
    KeepAll(t.dels, IsEquality);
  }

  lemma OneSorted<T>(x: T, le: (T, T) -> bool)
    ensures SortBy([x], le) == [x]
  {
    assert [x][1..] == [];
  }

  lemma TwoSorted<T>(x: T, y: T, le: (T, T) -> bool)
    requires le(x, y)
    ensures SortBy([x, y], le) == [x, y]
  {
    OneSorted(y, le);
    assert [x, y][1..] == [y];
  }

  /** Each file carries exactly the deletes that apply to it. */
  ghost predicate CarriesApplicable(group: seq<Task>) {
    forall t, u, d :: t in group && u in group && d in u.dels ==> (d in t.dels <==> Applies(d, t.live))
  }

  lemma TwoFilesAre(x: string, y: string, p: string, q: string)
    ensures var d, e := LateDelete(p, 6), LateDelete(q, 4);
            var t, u := OldFile(x, 5, [d]), OldFile(y, 3, [d, e]);
            && (forall z :: z in TwoFiles(x, y, p, q) <==> z == t || z == u)
            && (forall z :: z in t.dels <==> z == d) && (forall z :: z in u.dels <==> z == d || z == e)
  {
    hide LateDelete;
    var d, e := LateDelete(p, 6), LateDelete(q, 4);
    var t, u := OldFile(x, 5, [d]), OldFile(y, 3, [d, e]);
    assert TwoFiles(x, y, p, q)[0] == t && TwoFiles(x, y, p, q)[1] == u;
    assert u.dels[0] == d && u.dels[1] == e && t.dels[0] == d;
  }

  lemma LateApplies(p: string, n: int, x: string, m: int, dels: seq<Live>)
    ensures Applies(LateDelete(p, n), OldFile(x, m, dels).live) <==> m < n
    ensures LateDelete(p, n).file.path == p && LateDelete(p, n).seqNo == n
  {
  }

  lemma TwoFilesAreLegal(x: string, y: string, p: string, q: string)
    requires p != q
    ensures PathsIdentify(TwoFiles(x, y, p, q)) && CarriesApplicable(TwoFiles(x, y, p, q))
  {
    hide Applies, LateDelete, OldFile, TwoFiles;
    var d, e := LateDelete(p, 6), LateDelete(q, 4);
    TwoFilesAre(x, y, p, q);
    LateApplies(p, 6, x, 5, [d]);
    LateApplies(q, 4, x, 5, [d]);
    LateApplies(p, 6, y, 3, [d, e]);
    LateApplies(q, 4, y, 3, [d, e]);
  }

  lemma TwoFilesShare(x: string, y: string, p: string, q: string)
    requires StringLe(p, q)
    ensures exists t, u :: t in TwoFiles(x, y, p, q) && u in TwoFiles(x, y, p, q) && ShareFirstDelete(t, u)
  {
    hide BucketKey, SortBy;
    var d, e := LateDelete(p, 6), LateDelete(q, 4);
    OneSorted(d, ByPath);
    TwoSorted(d, e, ByPath);
    var t, u := OldFile(x, 5, [d]), OldFile(y, 3, [d, e]);
    KeyOfTask(t, [p]);
    KeyOfTask(u, [p, q]);
    assert t == TwoFiles(x, y, p, q)[0] && u == TwoFiles(x, y, p, q)[1];
    assert ShareFirstDelete(t, u);
  }

  /** Ordinary incremental deletes are enough: these two files carry exactly the deletes that apply to them, and their
      buckets come out in either order. */
  lemma BucketOrderCanVary(x: string, y: string, p: string, q: string) returns (a: seq<Bucket>, b: seq<Bucket>)
    requires p != q && StringLe(p, q)
    ensures PathsIdentify(TwoFiles(x, y, p, q)) && CarriesApplicable(TwoFiles(x, y, p, q))
    ensures Yields(TwoFiles(x, y, p, q), a) && Yields(TwoFiles(x, y, p, q), b)
    ensures SortBy(a, FirstPathLe) != SortBy(b, FirstPathLe)
  {
    hide PathsIdentify, CarriesApplicable, Yields, SortBy, FirstPathLe, TwoFiles, ShareFirstDelete;
    var group := TwoFiles(x, y, p, q);
    TwoFilesAreLegal(x, y, p, q);
    TwoFilesShare(x, y, p, q);
    BucketOrderIsFixed(group);
    assert !OrderIsFixed(group);
    a, b :| Yields(group, a) && Yields(group, b) && SortBy(a, FirstPathLe) != SortBy(b, FirstPathLe);
  }
}
