/** Re-packing manifest entries into fewer manifests: a commit that moves metadata and nothing a reader sees. */
module Manifests {
  import opened Wrappers
  import opened Paths
  import opened Tables
  import opened Sorting
  import opened Foreground
  import opened Producer
  import opened Dangling
  import opened Encodings

  datatype Packing = Packing(target: nat, minCount: nat)

  /** What one attempt knows beside the table: how each spec renders its tuples, how many columns the
      schema has, how long a written manifest comes out, and the id its snapshot takes. */
  datatype Setting = Setting(specOf: int -> Encodings.Spec, columns: nat, lengthOf: seq<Entry> -> int, snapshotId: int)

  datatype BucketId = BucketId(specId: int, deletes: bool)

  predicate IdLe(a: BucketId, b: BucketId) {
    a.specId < b.specId || (a.specId == b.specId && (a.deletes ==> b.deletes))
  }

  predicate Small(m: Manifest, target: nat) {
    m.length < target && target > 0
  }

  function Smalls(ms: seq<Manifest>, target: nat): seq<Manifest> {
    Keep(ms, m => Small(m, target))
  }

  function Kept(ms: seq<Manifest>, target: nat): seq<Manifest> {
    Keep(ms, m => !Small(m, target))
  }

  function IdOf(s: Specced): BucketId {
    BucketId(s.specId, !s.entry.file.IsData())
  }

  function InBucket(es: seq<Specced>, b: BucketId): seq<Specced> {
    Keep(es, s => IdOf(s) == b)
  }

  // ---- Facts: what a live entry says, with the writer's defaults for what it does not ----

  datatype Fact = Fact(specId: int, file: File, snapshotId: Option<int>, seqNo: Option<int>, fileSeqNo: Option<int>) {
    function View(): Live {
      Live(Key(specId, file.partition), file, seqNo.UnwrapOr(0))
    }
  }

  /** What the entry itself records. */
  function Recorded(s: Specced): Fact {
    Fact(s.specId, s.entry.file, s.entry.snapshotId, s.entry.seqNo, s.entry.fileSeqNo)
  }

  function FactOf(s: Specced, snapshotId: int): Fact {
    Recorded(s).(snapshotId := if s.entry.snapshotId.Some? then s.entry.snapshotId else Some(snapshotId),
                 seqNo := if s.entry.seqNo.Some? then s.entry.seqNo else Some(0))
  }

  function FactsOf(es: seq<Specced>, snapshotId: int): (r: seq<Fact>)
    ensures |r| == |es|
    ensures forall i :: 0 <= i < |r| ==> r[i] == FactOf(es[i], snapshotId)
  {
    seq(|es|, i requires 0 <= i < |es| => FactOf(es[i], snapshotId))
  }

  function Facts(ms: seq<Manifest>, snapshotId: int): seq<Fact> {
    FactsOf(SpecsAll(ms), snapshotId)
  }

  lemma {:induction false} SpecsAllConcat(a: seq<Manifest>, b: seq<Manifest>)
    ensures SpecsAll(a + b) == SpecsAll(a) + SpecsAll(b)
  {
    if a == [] {
      assert a + b == b;
    } else {
      assert (a + b)[1..] == a[1..] + b;
      SpecsAllConcat(a[1..], b);
    }
  }

  lemma FactsOfConcat(a: seq<Specced>, b: seq<Specced>, snapshotId: int)
    ensures FactsOf(a + b, snapshotId) == FactsOf(a, snapshotId) + FactsOf(b, snapshotId)
  {
    hide FactOf;
  }

  lemma FactsConcat(a: seq<Manifest>, b: seq<Manifest>, snapshotId: int)
    ensures Facts(a + b, snapshotId) == Facts(a, snapshotId) + Facts(b, snapshotId)
  {
    SpecsAllConcat(a, b);
    hide SpecsAll, FactOf;
    FactsOfConcat(SpecsAll(a), SpecsAll(b), snapshotId);
  }

  lemma FactsOne(m: Manifest, snapshotId: int)
    ensures Facts([m], snapshotId) == FactsOf(Specs(m.specId, Loaded(m.entries)), snapshotId)
  {
    assert [m][1..] == [];
    assert SpecsAll([m]) == Specs(m.specId, Loaded(m.entries)) + [];
  }

  lemma FactsGrow(m: Manifest, tail: seq<Manifest>, small: bool, smalls: seq<Manifest>, kept: seq<Manifest>, snapshotId: int)
    requires multiset(Facts(tail, snapshotId)) == multiset(Facts(kept, snapshotId)) + multiset(Facts(smalls, snapshotId))
    ensures multiset(Facts([m] + tail, snapshotId)) ==
            multiset(Facts((if small then [] else [m]) + kept, snapshotId)) +
            multiset(Facts((if small then [m] else []) + smalls, snapshotId))
  {
    var one, none := Facts([m], snapshotId), Facts([], snapshotId);
    FactsConcat([m], tail, snapshotId);
    FactsConcat(if small then [] else [m], kept, snapshotId);
    FactsConcat(if small then [m] else [], smalls, snapshotId);
    SumsGrow(one, if small then none else one, if small then one else none,
             Facts(tail, snapshotId), Facts(kept, snapshotId), Facts(smalls, snapshotId));
  }

  lemma {:induction false} SmallsAndKept(ms: seq<Manifest>, target: nat, snapshotId: int)
    ensures multiset(Facts(ms, snapshotId)) ==
            multiset(Facts(Kept(ms, target), snapshotId)) + multiset(Facts(Smalls(ms, target), snapshotId))
    ensures |ms| == |Kept(ms, target)| + |Smalls(ms, target)|
  {
    if ms != [] {
      SmallsAndKept(ms[1..], target, snapshotId);
      assert ms == [ms[0]] + ms[1..];
      FactsGrow(ms[0], ms[1..], Small(ms[0], target), Smalls(ms[1..], target), Kept(ms[1..], target), snapshotId);
    }
  }

  // ---- Clustering ----

  function ClusterKey(spec: Encodings.Spec, s: Specced): string {
    Encodings.SpecKey(spec, s.entry.file.partition)
  }

  function Clustered(es: seq<Specced>, spec: Encodings.Spec): (r: seq<Specced>)
    ensures multiset(r) == multiset(es) && |r| == |es|
  {
    SortBy(es, (a: Specced, b: Specced) => StringLe(ClusterKey(spec, a), ClusterKey(spec, b)))
  }

  predicate Fitting(es: seq<Specced>, spec: Encodings.Spec) {
    forall s :: s in es ==> Encodings.Fits(spec, s.entry.file.partition)
  }

  lemma ClusterOrder(spec: Encodings.Spec)
    ensures TotalPreorder((a: Specced, b: Specced) => StringLe(ClusterKey(spec, a), ClusterKey(spec, b)))
  {
    var le := (a: Specced, b: Specced) => StringLe(ClusterKey(spec, a), ClusterKey(spec, b));
    forall a, b
      ensures le(a, b) || le(b, a)
    {
      StringTotal(ClusterKey(spec, a), ClusterKey(spec, b));
    }
    forall a, b, c | le(a, b) && le(b, c)
      ensures le(a, c)
    {
      StringTransitive(ClusterKey(spec, a), ClusterKey(spec, b), ClusterKey(spec, c));
    }
  }

  lemma ClusteredFits(es: seq<Specced>, spec: Encodings.Spec)
    requires Fitting(es, spec)
    ensures Fitting(Clustered(es, spec), spec)
  {
    forall s | s in Clustered(es, spec)
      ensures s in es
    {
      assert s in multiset(Clustered(es, spec));
    }
  }

  /** Entries of one partition come out adjacent: anything between two of them is a third. */
  lemma ClusteredAdjacent(es: seq<Specced>, spec: Encodings.Spec, i: nat, j: nat, k: nat)
    requires Encodings.TellsApart(spec) && Fitting(es, spec)
    requires i < j < k < |es|
    requires Clustered(es, spec)[i].entry.file.partition == Clustered(es, spec)[k].entry.file.partition
    ensures Clustered(es, spec)[j].entry.file.partition == Clustered(es, spec)[i].entry.file.partition
  {
    var le := (a: Specced, b: Specced) => StringLe(ClusterKey(spec, a), ClusterKey(spec, b));
    var s := Clustered(es, spec);
    ClusterOrder(spec);
    SortBySorted(es, le);
    ClusteredFits(es, spec);
    assert le(s[i], s[j]) && le(s[j], s[k]);
    assert s[i] in s && s[j] in s;
    StringAntisymmetric(ClusterKey(spec, s[i]), ClusterKey(spec, s[j]));
    Encodings.SpecKeyInjective(spec, s[i].entry.file.partition, s[j].entry.file.partition);
  }

  /** Within a partition, entries keep the order the parent's manifests had. */
  lemma ClusteredKeepsOrder(es: seq<Specced>, spec: Encodings.Spec, partition: seq<Value>)
    ensures Keep(Clustered(es, spec), (s: Specced) => s.entry.file.partition == partition) ==
            Keep(es, (s: Specced) => s.entry.file.partition == partition)
  {
    var le := (a: Specced, b: Specced) => StringLe(ClusterKey(spec, a), ClusterKey(spec, b));
    StringOrder();
    SortByStable(es, le, (s: Specced) => s.entry.file.partition == partition);
  }

  // ---- Packing ----

  const BASE_BYTES := 256
  const COLUMN_BYTES := 48

  function EntryBytes(columns: nat): (n: nat)
    ensures n > 0
  {
    BASE_BYTES + columns * COLUMN_BYTES
  }

  function PerManifest(target: nat, columns: nat): (n: nat)
    ensures n == 1 || n * (256 + 48 * columns) <= target
    ensures n >= 1 && (n + 1) * (256 + 48 * columns) > target
  {
    var fit: int := target / EntryBytes(columns);
    if fit < 1 then 1 else fit
  }

  function EntriesOf(es: seq<Specced>): (r: seq<Entry>)
    ensures |r| == |es|
    ensures forall i :: 0 <= i < |r| ==> r[i] == es[i].entry
  {
    seq(|es|, i requires 0 <= i < |es| => es[i].entry)
  }

  function Min(a: nat, b: nat): nat {
    if a < b then a else b
  }

  /** `slice::chunks`. */
  function Chunks<T>(s: seq<T>, n: nat): (r: seq<seq<T>>)
    requires n > 0
    ensures forall c :: c in r ==> 0 < |c| <= n
  {
    if s == [] then [] else [s[..Min(n, |s|)]] + Chunks(s[Min(n, |s|)..], n)
  }

  function PackOne(b: BucketId, chunk: seq<Specced>, env: Setting): Manifest {
    var written := CarriedAll(EntriesOf(chunk), env.snapshotId);
    Manifest(b.specId, b.deletes, written, env.lengthOf(written))
  }

  function PackChunks(b: BucketId, chunks: seq<seq<Specced>>, env: Setting): (r: seq<Manifest>)
    ensures |r| == |chunks|
    ensures forall i :: 0 <= i < |r| ==> r[i] == PackOne(b, chunks[i], env)
  {
    seq(|chunks|, i requires 0 <= i < |chunks| => PackOne(b, chunks[i], env))
  }

  /** One bucket, clustered, cut into chunks and written. */
  function PackBucket(es: seq<Specced>, b: BucketId, target: nat, env: Setting): seq<Manifest> {
    PackChunks(b, Chunks(Clustered(InBucket(es, b), env.specOf(b.specId)), PerManifest(target, env.columns)), env)
  }

  function PackBuckets(es: seq<Specced>, ids: seq<BucketId>, target: nat, env: Setting): seq<Manifest> {
    if ids == [] then []
    else PackBuckets(es, ids[..|ids| - 1], target, env) + PackBucket(es, ids[|ids| - 1], target, env)
  }

  lemma CarriedSays(specId: int, e: Entry, snapshotId: int)
    ensures FactOf(Specced(specId, Carried(e, snapshotId)), snapshotId) == FactOf(Specced(specId, e), snapshotId)
  {
  }

  lemma PackOneFacts(b: BucketId, chunk: seq<Specced>, env: Setting)
    requires forall s :: s in chunk ==> s.specId == b.specId
    ensures Facts([PackOne(b, chunk, env)], env.snapshotId) == FactsOf(chunk, env.snapshotId)
  {
    var m := PackOne(b, chunk, env);
    FactsOne(m, env.snapshotId);
    LoadedAll(m.entries);
    forall i | 0 <= i < |chunk|
      ensures FactOf(Specs(m.specId, m.entries)[i], env.snapshotId) == FactOf(chunk[i], env.snapshotId)
    {
      assert chunk[i] in chunk;
      CarriedSays(b.specId, chunk[i].entry, env.snapshotId);
    }
  }

  lemma PackStep(b: BucketId, head: seq<Specced>, chunks: seq<seq<Specced>>, rest: seq<Specced>, env: Setting)
    requires forall s :: s in head ==> s.specId == b.specId
    requires Facts(PackChunks(b, chunks, env), env.snapshotId) == FactsOf(rest, env.snapshotId)
    ensures Facts(PackChunks(b, [head] + chunks, env), env.snapshotId) == FactsOf(head + rest, env.snapshotId)
  {
    hide PackOne, Facts, FactOf;
    PackOneFacts(b, head, env);
    FactsOfConcat(head, rest, env.snapshotId);
    assert PackChunks(b, [head] + chunks, env) == [PackOne(b, head, env)] + PackChunks(b, chunks, env);
    FactsConcat([PackOne(b, head, env)], PackChunks(b, chunks, env), env.snapshotId);
  }

  lemma {:induction false} PackChunksFacts(b: BucketId, es: seq<Specced>, n: nat, env: Setting)
    requires n > 0 && forall s :: s in es ==> s.specId == b.specId
    ensures Facts(PackChunks(b, Chunks(es, n), env), env.snapshotId) == FactsOf(es, env.snapshotId)
    decreases |es|
  {
    if es != [] {
      var cut := Min(n, |es|);
      assert es == es[..cut] + es[cut..];
      PackChunksFacts(b, es[cut..], n, env);
      PackStep(b, es[..cut], Chunks(es[cut..], n), es[cut..], env);
    }
  }

  lemma FactsPermuted(a: seq<Specced>, b: seq<Specced>, snapshotId: int)
    requires multiset(a) == multiset(b)
    ensures multiset(FactsOf(a, snapshotId)) == multiset(FactsOf(b, snapshotId))
  {
    var f := (s: Specced) => FactOf(s, snapshotId);
    MapPermuted(a, b, f);
    assert Map(a, f) == FactsOf(a, snapshotId) && Map(b, f) == FactsOf(b, snapshotId);
  }

  lemma InBucketSpec(es: seq<Specced>, b: BucketId)
    ensures forall s :: s in InBucket(es, b) <==> s in es && IdOf(s) == b
  {
    KeepMembers(es, (s: Specced) => IdOf(s) == b);
  }

  /** A bucket's manifests hold the bucket's entries, each with its own numbers. */
  lemma PackBucketFacts(es: seq<Specced>, b: BucketId, target: nat, env: Setting)
    ensures multiset(Facts(PackBucket(es, b, target, env), env.snapshotId)) ==
            multiset(FactsOf(InBucket(es, b), env.snapshotId))
  {
    var bucket := InBucket(es, b);
    var clustered := Clustered(bucket, env.specOf(b.specId));
    InBucketSpec(es, b);
    forall s | s in clustered
      ensures s.specId == b.specId
    {
      assert s in multiset(clustered);
      assert IdOf(s) == b;
    }
    PackChunksFacts(b, clustered, PerManifest(target, env.columns), env);
    FactsPermuted(clustered, bucket, env.snapshotId);
  }

  // ---- All buckets together ----

  ghost predicate EachOnce<T(!new)>(s: seq<T>) {
    forall x :: multiset(s)[x] <= 1
  }

  function InSome(es: seq<Specced>, ids: seq<BucketId>): seq<Specced> {
    Keep(es, s => IdOf(s) in ids)
  }

  lemma {:induction false} KeepDisjoint<T(!new)>(s: seq<T>, p: T -> bool, q: T -> bool, either: T -> bool)
    requires forall x :: !(p(x) && q(x)) && (either(x) <==> p(x) || q(x))
    ensures multiset(Keep(s, either)) == multiset(Keep(s, p) + Keep(s, q))
  {
    if s != [] {
      KeepDisjoint(s[1..], p, q, either);
    }
  }

  lemma {:induction false} KeepAll<T(!new)>(s: seq<T>, p: T -> bool)
    requires forall x :: x in s ==> p(x)
    ensures Keep(s, p) == s
  {
    if s != [] {
      assert s == [s[0]] + s[1..];
      KeepAll(s[1..], p);
    }
  }

  lemma InSomeGrows(es: seq<Specced>, ids: seq<BucketId>, b: BucketId)
    requires b !in ids
    ensures multiset(InSome(es, ids + [b])) == multiset(InSome(es, ids) + InBucket(es, b))
  {
    KeepDisjoint(es, (s: Specced) => IdOf(s) in ids, (s: Specced) => IdOf(s) == b, (s: Specced) => IdOf(s) in ids + [b]);
  }

  lemma LastIsNew<T(!new)>(s: seq<T>)
    requires EachOnce(s) && s != []
    ensures EachOnce(s[..|s| - 1]) && s[|s| - 1] !in s[..|s| - 1]
  {
    var front, last := s[..|s| - 1], s[|s| - 1];
    assert s == front + [last];
    assert multiset(s) == multiset(front) + multiset{last};
    forall x
      ensures multiset(front)[x] + (if x == last then 1 else 0) <= 1
    {
      assert multiset(s)[x] <= 1;
    }
    assert last in front ==> last in multiset(front);
  }

  lemma {:induction false} PackBucketsFacts(es: seq<Specced>, ids: seq<BucketId>, target: nat, env: Setting)
    requires EachOnce(ids)
    ensures multiset(Facts(PackBuckets(es, ids, target, env), env.snapshotId)) ==
            multiset(FactsOf(InSome(es, ids), env.snapshotId))
  {
    if ids == [] {
      NoneInSome(es);
    } else {
      var front, b := ids[..|ids| - 1], ids[|ids| - 1];
      assert ids == front + [b];
      LastIsNew(ids);
      PackBucketsFacts(es, front, target, env);
      PackBucketFacts(es, b, target, env);
      FactsConcat(PackBuckets(es, front, target, env), PackBucket(es, b, target, env), env.snapshotId);
      InSomeGrows(es, front, b);
      FactsPermuted(InSome(es, ids), InSome(es, front) + InBucket(es, b), env.snapshotId);
      FactsOfConcat(InSome(es, front), InBucket(es, b), env.snapshotId);
    }
  }

  lemma {:induction false} NoneInSome(es: seq<Specced>)
    ensures InSome(es, []) == []
  {
    if es != [] {
      NoneInSome(es[1..]);
    }
  }

  // ---- The layout one attempt writes ----

  /** The buckets of `es`, each once. */
  ghost predicate BucketsOf(ids: seq<BucketId>, es: seq<Specced>) {
    EachOnce(ids) && forall b :: b in ids <==> exists s :: s in es && IdOf(s) == b
  }

  function Repacked(ms: seq<Manifest>, ids: seq<BucketId>, target: nat, env: Setting): seq<Manifest> {
    Kept(ms, target) + PackBuckets(SpecsAll(Smalls(ms, target)), ids, target, env)
  }

  /** Re-packing keeps every live entry's facts: its spec, its file, and the numbers it was committed with. */
  lemma RepackedKeepsFacts(ms: seq<Manifest>, ids: seq<BucketId>, target: nat, env: Setting)
    requires BucketsOf(ids, SpecsAll(Smalls(ms, target)))
    ensures multiset(Facts(Repacked(ms, ids, target, env), env.snapshotId)) == multiset(Facts(ms, env.snapshotId))
  {
    var es := SpecsAll(Smalls(ms, target));
    SmallsAndKept(ms, target, env.snapshotId);
    FactsConcat(Kept(ms, target), PackBuckets(es, ids, target, env), env.snapshotId);
    PackBucketsFacts(es, ids, target, env);
    KeepAll(es, (s: Specced) => IdOf(s) in ids);
  }

  /** Facts determine what a reader sees. */
  lemma SameFactsSameLive(a: seq<Manifest>, b: seq<Manifest>, snapshotId: int)
    requires multiset(Facts(a, snapshotId)) == multiset(Facts(b, snapshotId))
    ensures multiset(LiveAll(a)) == multiset(LiveAll(b))
  {
    var f := (x: Fact) => x.View();
    MapPermuted(Facts(a, snapshotId), Facts(b, snapshotId), f);
    ViewsAreLive(a);
    ViewsAreLive(b);
    assert Map(Facts(a, snapshotId), f) == LiveAll(a);
    assert Map(Facts(b, snapshotId), f) == LiveAll(b);
  }

  /** Every entry of a manifest belongs in it: its content kind is the manifest's, and it was written under its spec. */
  ghost predicate Unmixed(m: Manifest, es: seq<Specced>, snapshotId: int) {
    forall e :: e in m.entries ==>
      (m.deletes <==> !e.file.IsData()) && exists s :: s in es && s.specId == m.specId && Continues(s.entry, e, snapshotId)
  }

  lemma {:induction false} ChunkMembers<T(!new)>(s: seq<T>, n: nat)
    requires n > 0
    ensures forall c, x :: c in Chunks(s, n) && x in c ==> x in s
    decreases |s|
  {
    if s != [] {
      ChunkMembers(s[Min(n, |s|)..], n);
    }
  }

  lemma PackOneUnmixed(es: seq<Specced>, b: BucketId, chunk: seq<Specced>, env: Setting)
    requires forall s :: s in chunk ==> s in es && IdOf(s) == b
    ensures Unmixed(PackOne(b, chunk, env), es, env.snapshotId)
  {
    var m := PackOne(b, chunk, env);
    forall e | e in m.entries
      ensures m.deletes <==> !e.file.IsData()
      ensures exists s :: s in es && s.specId == m.specId && Continues(s.entry, e, env.snapshotId)
    {
      var i :| 0 <= i < |m.entries| && m.entries[i] == e;
      assert chunk[i] in chunk && IdOf(chunk[i]) == b;
    }
  }

  lemma PackBucketUnmixed(es: seq<Specced>, b: BucketId, target: nat, env: Setting)
    ensures forall m :: m in PackBucket(es, b, target, env) ==> Unmixed(m, es, env.snapshotId)
  {
    var clustered := Clustered(InBucket(es, b), env.specOf(b.specId));
    var chunks := Chunks(clustered, PerManifest(target, env.columns));
    InBucketSpec(es, b);
    ChunkMembers(clustered, PerManifest(target, env.columns));
    forall i | 0 <= i < |chunks|
      ensures Unmixed(PackOne(b, chunks[i], env), es, env.snapshotId)
    {
      assert chunks[i] in chunks;
      forall s | s in chunks[i]
        ensures s in es && IdOf(s) == b
      {
        assert s in multiset(clustered);
      }
      PackOneUnmixed(es, b, chunks[i], env);
    }
  }

  lemma {:induction false} PackBucketsUnmixed(es: seq<Specced>, ids: seq<BucketId>, target: nat, env: Setting)
    ensures forall m :: m in PackBuckets(es, ids, target, env) ==> Unmixed(m, es, env.snapshotId)
  {
    if ids != [] {
      PackBucketsUnmixed(es, ids[..|ids| - 1], target, env);
      PackBucketUnmixed(es, ids[|ids| - 1], target, env);
    }
  }

  /** A manifest of the new list is one of the parent's, untouched because it was large enough, or an unmixed one. */
  lemma RepackedNeverMixes(ms: seq<Manifest>, ids: seq<BucketId>, target: nat, env: Setting, m: Manifest)
    requires m in Repacked(ms, ids, target, env)
    ensures (m in ms && !Small(m, target)) || Unmixed(m, SpecsAll(Smalls(ms, target)), env.snapshotId)
  {
    KeepMembers(ms, (x: Manifest) => !Small(x, target));
    PackBucketsUnmixed(SpecsAll(Smalls(ms, target)), ids, target, env);
  }

  // ---- The numbers entries were committed with ----

  /** Every live entry records its snapshot and its sequence number. */
  ghost predicate Numbered(ms: seq<Manifest>) {
    forall s :: s in SpecsAll(ms) ==> s.entry.snapshotId.Some? && s.entry.seqNo.Some?
  }

  function RecordedAll(ms: seq<Manifest>): seq<Fact> {
    Map(SpecsAll(ms), Recorded)
  }

  lemma NumberedFacts(ms: seq<Manifest>, snapshotId: int)
    requires Numbered(ms)
    ensures RecordedAll(ms) == Facts(ms, snapshotId)
  {
    var es := SpecsAll(ms);
    forall i | 0 <= i < |es|
      ensures Recorded(es[i]) == FactOf(es[i], snapshotId)
    {
      assert es[i] in es;
    }
  }

  lemma {:induction false} SpecsAllHolds(ms: seq<Manifest>, m: Manifest, e: Entry)
    requires m in ms && e in m.entries && e.status != Deleted
    ensures Specced(m.specId, e) in SpecsAll(ms)
  {
    if m == ms[0] {
      var loaded := Loaded(m.entries);
      var i :| 0 <= i < |loaded| && loaded[i] == e;
      assert Specs(m.specId, loaded)[i] in Specs(m.specId, loaded);
    } else {
      SpecsAllHolds(ms[1..], m, e);
    }
  }

  /** Where every entry has its numbers, re-packing keeps them all: each live entry comes out once, under its own spec, with the
      snapshot that added it, its sequence number and its file's, as they were. */
  lemma RepackedKeepsNumbers(ms: seq<Manifest>, ids: seq<BucketId>, target: nat, env: Setting)
    requires BucketsOf(ids, SpecsAll(Smalls(ms, target))) && Numbered(ms)
    ensures Numbered(Repacked(ms, ids, target, env))
    ensures multiset(RecordedAll(Repacked(ms, ids, target, env))) == multiset(RecordedAll(ms))
  {
    hide Repacked, Facts, RecordedAll, SpecsAll;
    var now := Repacked(ms, ids, target, env);
    forall s | s in SpecsAll(now)
      ensures s.entry.snapshotId.Some? && s.entry.seqNo.Some?
    {
      SpecsAllMembers(now, s);
      var m :| m in now && s.specId == m.specId && s.entry in m.entries && s.entry.status != Deleted;
      RepackedNeverMixes(ms, ids, target, env, m);
      if m in ms {
        SpecsAllHolds(ms, m, s.entry);
      }
    }
    NumberedFacts(ms, env.snapshotId);
    NumberedFacts(now, env.snapshotId);
    RepackedKeepsFacts(ms, ids, target, env);
  }

  // ---- The same for the manifests a rewrite of files rebuilds ----

  function StaysLive(removed: set<string>): Specced -> bool {
    (s: Specced) => Normalize(s.entry.file.path) !in removed
  }

  lemma {:induction false} SpecsSurvive(specId: int, entries: seq<Entry>, removed: set<string>)
    ensures Keep(Specs(specId, entries), StaysLive(removed)) == Specs(specId, Survivors(entries, removed))
  {
    hide Normalize;
    if entries != [] {
      var rest := Survivors(entries[1..], removed);
      SpecsSurvive(specId, entries[1..], removed);
      assert Specs(specId, entries)[1..] == Specs(specId, entries[1..]);
      assert Specs(specId, [entries[0]] + rest) == [Specced(specId, entries[0])] + Specs(specId, rest);
      assert [] + rest == rest && [] + Specs(specId, rest) == Specs(specId, rest);
    }
  }

  lemma CarriedFacts(specId: int, entries: seq<Entry>, snapshotId: int)
    ensures FactsOf(Specs(specId, Loaded(CarriedAll(entries, snapshotId))), snapshotId) == FactsOf(Specs(specId, entries), snapshotId)
  {
    hide FactOf, Carried;
    var carried := CarriedAll(entries, snapshotId);
    forall e | e in carried
      ensures e.status != Deleted
    {
      var i :| 0 <= i < |carried| && carried[i] == e;
      CarriedIsLive(entries[i], snapshotId);
    }
    LoadedAll(carried);
    forall i | 0 <= i < |entries|
      ensures FactOf(Specs(specId, carried)[i], snapshotId) == FactOf(Specs(specId, entries)[i], snapshotId)
    {
      CarriedSays(specId, entries[i], snapshotId);
    }
  }

  lemma CarriedIsLive(e: Entry, snapshotId: int)
    ensures Carried(e, snapshotId).status != Deleted
  {
  }

  lemma RebuiltFacts(t: Table, m: Manifest, removed: set<string>, snapshotId: int)
    requires Rebuilt(t, m, removed, snapshotId).Ok?
    ensures Facts(Rebuilt(t, m, removed, snapshotId).value, snapshotId) ==
            FactsOf(Keep(Specs(m.specId, Loaded(m.entries)), StaysLive(removed)), snapshotId)
  {
    hide Normalize, Carried, FactOf, Facts, Keep, Survivors, Loaded;
    var entries := Loaded(m.entries);
    var left := Survivors(entries, removed);
    SurvivorsSome(entries, removed);
    SpecsSurvive(m.specId, entries, removed);
    if |left| == |entries| {
      FactsOne(m, snapshotId);
    } else if left == [] {
      NoFacts(snapshotId);
    } else {
      FactsOne(Rebuilt(t, m, removed, snapshotId).value[0], snapshotId);
      CarriedFacts(m.specId, left, snapshotId);
    }
  }

  lemma NoFacts(snapshotId: int)
    ensures Facts([], snapshotId) == []
  {
  }

  lemma {:induction false} RebuiltAllFacts(t: Table, ms: seq<Manifest>, removed: set<string>, snapshotId: int)
    requires RebuiltAll(t, ms, removed, snapshotId).Ok?
    ensures Facts(RebuiltAll(t, ms, removed, snapshotId).value, snapshotId) ==
            FactsOf(Keep(SpecsAll(ms), StaysLive(removed)), snapshotId)
  {
    hide Rebuilt, Facts, FactOf, Keep, SpecsAll;
    if ms == [] {
      NoFacts(snapshotId);
      NothingStays(removed);
    } else {
      var front, last := ms[..|ms| - 1], ms[|ms| - 1];
      assert ms == front + [last];
      RebuiltAllFacts(t, front, removed, snapshotId);
      RebuiltFacts(t, last, removed, snapshotId);
      SpecsAllConcat(front, [last]);
      SpecsOfOne(last);
      var some := Specs(last.specId, Loaded(last.entries));
      KeepConcat(SpecsAll(front), some, StaysLive(removed));
      FactsOfConcat(Keep(SpecsAll(front), StaysLive(removed)), Keep(some, StaysLive(removed)), snapshotId);
      FactsConcat(RebuiltAll(t, front, removed, snapshotId).value, Rebuilt(t, last, removed, snapshotId).value, snapshotId);
    }
  }

  lemma NothingStays(removed: set<string>)
    ensures Keep(SpecsAll([]), StaysLive(removed)) == []
  {
  }

  lemma SpecsOfOne(m: Manifest)
    ensures SpecsAll([m]) == Specs(m.specId, Loaded(m.entries))
  {
    assert [m][1..] == [];
  }

  function NewFacts(t: Table, added: seq<File>, snapshotId: int): (r: seq<Fact>)
    ensures |r| == |added|
    ensures forall i :: 0 <= i < |r| ==> r[i] == Fact(t.defaultSpec, added[i], Some(snapshotId), Some(t.lastSeq + 1), Some(t.lastSeq + 1))
  {
    seq(|added|, i requires 0 <= i < |added| => Fact(t.defaultSpec, added[i], Some(snapshotId), Some(t.lastSeq + 1), Some(t.lastSeq + 1)))
  }

  lemma AddedFacts(t: Table, added: seq<File>, snapshotId: int)
    ensures Facts(AddedManifest(t, added, snapshotId), snapshotId) == NewFacts(t, added, snapshotId)
  {
    if added != [] {
      var m := AddedManifest(t, added, snapshotId)[0];
      FactsOne(m, snapshotId);
      LoadedAll(m.entries);
    }
  }

  /** A rewrite's manifests say of every file that stays exactly what the parent's said, in their order, and of every file added
      that this snapshot added it at the next number. */
  lemma WrittenKeepsFacts(t: Table, ms: seq<Manifest>, removed: set<string>, added: seq<File>, snapshotId: int)
    requires Written(t, ms, removed, added, snapshotId).Ok?
    ensures Facts(Written(t, ms, removed, added, snapshotId).value, snapshotId) ==
            FactsOf(Keep(SpecsAll(ms), StaysLive(removed)), snapshotId) + NewFacts(t, added, snapshotId)
  {
    hide Facts, RebuiltAll, Keep, SpecsAll;
    RebuiltAllFacts(t, ms, removed, snapshotId);
    AddedFacts(t, added, snapshotId);
    FactsConcat(RebuiltAll(t, ms, removed, snapshotId).value, AddedManifest(t, added, snapshotId), snapshotId);
  }

  function EntriesIn(ms: seq<Manifest>): seq<Entry> {
    if ms == [] then [] else ms[0].entries + EntriesIn(ms[1..])
  }

  function Rewritten(es: seq<Specced>, snapshotId: int): seq<Entry> {
    CarriedAll(EntriesOf(es), snapshotId)
  }

  lemma RewrittenConcat(a: seq<Specced>, b: seq<Specced>, snapshotId: int)
    ensures Rewritten(a + b, snapshotId) == Rewritten(a, snapshotId) + Rewritten(b, snapshotId)
  {
  }

  lemma PackChunksStep(b: BucketId, head: seq<Specced>, chunks: seq<seq<Specced>>, env: Setting)
    ensures EntriesIn(PackChunks(b, [head] + chunks, env)) ==
            Rewritten(head, env.snapshotId) + EntriesIn(PackChunks(b, chunks, env))
  {
    assert PackChunks(b, [head] + chunks, env)[1..] == PackChunks(b, chunks, env);
  }

  lemma NothingRewritten(b: BucketId, env: Setting)
    ensures EntriesIn(PackChunks(b, [], env)) == [] && Rewritten([], env.snapshotId) == []
  {
  }

  lemma ChunksCut<T>(s: seq<T>, n: nat)
    requires n > 0
    ensures Chunks(s, n) == if s == [] then [] else [s[..Min(n, |s|)]] + Chunks(s[Min(n, |s|)..], n)
  {
  }

  lemma {:induction false} PackedInOrder(b: BucketId, es: seq<Specced>, n: nat, env: Setting)
    requires n > 0
    ensures EntriesIn(PackChunks(b, Chunks(es, n), env)) == Rewritten(es, env.snapshotId)
    decreases |es|
  {
    hide PackChunks, EntriesIn, Rewritten, Chunks;
    ChunksCut(es, n);
    if es == [] {
      NothingRewritten(b, env);
    } else {
      var cut := Min(n, |es|);
      PackedInOrder(b, es[cut..], n, env);
      PackChunksStep(b, es[..cut], Chunks(es[cut..], n), env);
      RewrittenConcat(es[..cut], es[cut..], env.snapshotId);
      assert es == es[..cut] + es[cut..];
    }
  }

  function OfTuple(es: seq<Specced>, values: seq<Value>): seq<Specced> {
    Keep(es, (s: Specced) => s.entry.file.partition == values)
  }

  /** Read through a bucket's manifests in order: they hold the bucket's entries clustered, so by `ClusteredAdjacent`
      one partition's entries come together, and they come in the order the parent's manifests had them. */
  lemma PackedClustersPartitions(es: seq<Specced>, b: BucketId, target: nat, env: Setting)
    ensures EntriesIn(PackBucket(es, b, target, env)) ==
            Rewritten(Clustered(InBucket(es, b), env.specOf(b.specId)), env.snapshotId)
    ensures forall values ::
              OfTuple(Clustered(InBucket(es, b), env.specOf(b.specId)), values) == OfTuple(InBucket(es, b), values)
  {
    var clustered := Clustered(InBucket(es, b), env.specOf(b.specId));
    PackedInOrder(b, clustered, PerManifest(target, env.columns), env);
    forall values
      ensures OfTuple(clustered, values) == OfTuple(InBucket(es, b), values)
    {
      ClusteredKeepsOrder(InBucket(es, b), env.specOf(b.specId), values);
    }
  }

  // ---- attempt_rewrite ----

  ghost predicate Filled(buckets: map<BucketId, seq<Specced>>, es: seq<Specced>) {
    && (forall b :: b in buckets <==> exists s :: s in es && IdOf(s) == b)
    && (forall b :: b in buckets ==> buckets[b] == InBucket(es, b))
  }

  lemma InBucketGrows(es: seq<Specced>, s: Specced, b: BucketId)
    ensures InBucket(es + [s], b) == InBucket(es, b) + if IdOf(s) == b then [s] else []
  {
    KeepAppend(es, s, (x: Specced) => IdOf(x) == b);
  }

  lemma NoBucket(es: seq<Specced>, b: BucketId)
    requires !exists s :: s in es && IdOf(s) == b
    ensures InBucket(es, b) == []
  {
    var bucket := InBucket(es, b);
    assert |bucket| == 0 || bucket[0] in bucket;
    InBucketSpec(es, b);
  }

  function Push(buckets: map<BucketId, seq<Specced>>, s: Specced): map<BucketId, seq<Specced>> {
    buckets[IdOf(s) := (if IdOf(s) in buckets then buckets[IdOf(s)] else []) + [s]]
  }

  lemma FilledGrows(buckets: map<BucketId, seq<Specced>>, es: seq<Specced>, s: Specced)
    requires Filled(buckets, es)
    ensures Filled(Push(buckets, s), es + [s])
  {
    var more := Push(buckets, s);
    forall b
      ensures b in more <==> exists x :: x in es + [s] && IdOf(x) == b
    {
      if b in buckets {
        var x :| x in es && IdOf(x) == b;
        assert x in es + [s];
      }
      if b == IdOf(s) {
        assert s in es + [s];
      }
    }
    if IdOf(s) !in buckets {
      NoBucket(es, IdOf(s));
    }
    forall b | b in more
      ensures more[b] == InBucket(es + [s], b)
    {
      InBucketGrows(es, s, b);
    }
  }

  /** The entries of one undersized manifest, each pushed onto its bucket. */
  method FillFrom(m: Manifest, before: map<BucketId, seq<Specced>>, ghost es: seq<Specced>)
      returns (buckets: map<BucketId, seq<Specced>>)
    requires Filled(before, es)
    ensures Filled(buckets, es + Specs(m.specId, Loaded(m.entries)))
  {
    buckets := before;
    var entries := Specs(m.specId, Loaded(m.entries));
    assert es + entries[..0] == es;
    for i := 0 to |entries|
      invariant Filled(buckets, es + entries[..i])
    {
      FilledGrows(buckets, es + entries[..i], entries[i]);
      PrefixGrows(entries, i);
      assert es + (entries[..i] + [entries[i]]) == es + entries[..i] + [entries[i]];
      buckets := Push(buckets, entries[i]);
    }
    PrefixWhole(entries);
  }

  lemma SpecsAllGrows(ms: seq<Manifest>, m: Manifest)
    ensures SpecsAll(ms + [m]) == SpecsAll(ms) + Specs(m.specId, Loaded(m.entries))
  {
    SpecsAllConcat(ms, [m]);
    assert [m][1..] == [];
    assert SpecsAll([m]) == Specs(m.specId, Loaded(m.entries)) + [];
  }

  lemma SmallsGrow(ms: seq<Manifest>, i: nat, target: nat)
    requires i < |ms|
    ensures SpecsAll(Smalls(ms[..i + 1], target)) ==
            SpecsAll(Smalls(ms[..i], target)) + if Small(ms[i], target) then Specs(ms[i].specId, Loaded(ms[i].entries)) else []
  {
    PrefixGrows(ms, i);
    KeepAppend(ms[..i], ms[i], (m: Manifest) => Small(m, target));
    if Small(ms[i], target) {
      SpecsAllGrows(Smalls(ms[..i], target), ms[i]);
    } else {
      assert Smalls(ms[..i], target) + [] == Smalls(ms[..i], target);
    }
  }

  ghost predicate FilledUpTo(buckets: map<BucketId, seq<Specced>>, ms: seq<Manifest>, target: nat, i: nat)
    requires i <= |ms|
  {
    Filled(buckets, SpecsAll(Smalls(ms[..i], target)))
  }

  lemma NothingFilled(ms: seq<Manifest>, target: nat)
    ensures FilledUpTo(map[], ms, target, 0)
  {
  }

  /** One manifest's turn. */
  method FillTurn(ms: seq<Manifest>, i: nat, target: nat, before: map<BucketId, seq<Specced>>)
      returns (buckets: map<BucketId, seq<Specced>>)
    requires i < |ms| && FilledUpTo(before, ms, target, i)
    ensures FilledUpTo(buckets, ms, target, i + 1)
  {
    buckets := before;
    SmallsGrow(ms, i, target);
    if Small(ms[i], target) {
      buckets := FillFrom(ms[i], buckets, SpecsAll(Smalls(ms[..i], target)));
    } else {
      assert SpecsAll(Smalls(ms[..i], target)) + [] == SpecsAll(Smalls(ms[..i], target));
    }
  }

  method FillPackBuckets(ms: seq<Manifest>, target: nat) returns (buckets: map<BucketId, seq<Specced>>)
    ensures Filled(buckets, SpecsAll(Smalls(ms, target)))
  {
    buckets := map[];
    NothingFilled(ms, target);
    for i := 0 to |ms|
      invariant FilledUpTo(buckets, ms, target, i)
    {
      buckets := FillTurn(ms, i, target, buckets);
    }
    PrefixWhole(ms);
  }

  /** The bucket map's keys, in its order. */
  method OrderedIds(ids: set<BucketId>) returns (order: seq<BucketId>)
    ensures EachOnce(order) && Sorted(order, IdLe)
    ensures forall b :: b in order <==> b in ids
  {
    var left, found := ids, [];
    while left != {}
      invariant left <= ids && EachOnce(found) && forall b :: b in found <==> b in ids - left
      decreases |left|
    {
      var b :| b in left;
      assert b !in found;
      assert b !in multiset(found);
      found, left := found + [b], left - {b};
    }
    order := SortBy(found, IdLe);
    SortBySorted(found, IdLe);
    forall b
      ensures b in order <==> b in found
    {
      SameElements(found, IdLe, b);
    }
  }

  /** Every chunk but the last is full. */
  lemma {:induction false} ChunksFull<T>(s: seq<T>, n: nat)
    requires n > 0
    ensures forall i :: 0 <= i < |Chunks(s, n)| - 1 ==> |Chunks(s, n)[i]| == n
    decreases |s|
  {
    if s != [] {
      ChunksFull(s[Min(n, |s|)..], n);
      if |s| <= n {
        assert Chunks(s[Min(n, |s|)..], n) == [];
      }
    }
  }

  /** No manifest holds more than `n` entries, and all of them but the last hold that many. */
  predicate Full(ms: seq<Manifest>, n: nat) {
    && (forall i :: 0 <= i < |ms| ==> 0 < |ms[i].entries| <= n)
    && (forall i :: 0 <= i < |ms| - 1 ==> |ms[i].entries| == n)
  }

  lemma PackedFull(b: BucketId, es: seq<Specced>, n: nat, env: Setting)
    requires n > 0
    ensures Full(PackChunks(b, Chunks(es, n), env), n)
  {
    var chunks := Chunks(es, n);
    ChunksFull(es, n);
    forall i | 0 <= i < |chunks|
      ensures 0 < |PackOne(b, chunks[i], env).entries| == |chunks[i]| <= n
    {
      assert chunks[i] in chunks;
    }
  }

  lemma PackedContinues(b: BucketId, es: seq<Specced>, n: nat, env: Setting)
    requires n > 0
    ensures var packed := PackChunks(b, Chunks(es, n), env);
            && |EntriesIn(packed)| == |es| && (forall i :: 0 <= i < |es| ==> Continues(es[i].entry, EntriesIn(packed)[i], env.snapshotId))
            && forall m :: m in packed ==> m.specId == b.specId && m.deletes == b.deletes && m.entries != []
  {
    hide EntriesIn, Chunks;
    PackedInOrder(b, es, n, env);
    PackedFull(b, es, n, env);
  }

  lemma NothingToPack(b: BucketId, es: seq<Specced>, n: nat, env: Setting)
    requires n > 0
    ensures PackChunks(b, Chunks(es, n)[..0], env) == []
    ensures es == [] ==> PackChunks(b, Chunks(es, n), env) == []
  {
  }

  lemma PacksOneMore(b: BucketId, chunks: seq<seq<Specced>>, i: nat, env: Setting, written: seq<Entry>)
    requires i < |chunks| && written == CarriedAll(EntriesOf(chunks[i]), env.snapshotId)
    ensures PackChunks(b, chunks[..i + 1], env) ==
            PackChunks(b, chunks[..i], env) + [Manifest(b.specId, b.deletes, written, env.lengthOf(written))]
  {
    PrefixGrows(chunks, i);
  }

  /** `write_packed`: one manifest pushed per chunk, every entry with its own numbers. */
  method WritePacked(t: Table, es: seq<Specced>, b: BucketId, target: nat, env: Setting) returns (r: Result<seq<Manifest>>)
    ensures r.Ok? ==> r.value == PackChunks(b, Chunks(es, PerManifest(target, env.columns)), env)
    ensures r.Ok? ==> forall m :: m in r.value ==> m.specId == b.specId && m.deletes == b.deletes && m.entries != []
    ensures r.Ok? ==> Full(r.value, PerManifest(target, env.columns))
    ensures r.Ok? ==> |EntriesIn(r.value)| == |es| && forall i :: 0 <= i < |es| ==> Continues(es[i].entry, EntriesIn(r.value)[i], env.snapshotId)
    ensures r.Err? <==> es != [] && b.deletes && t.version.V1?
    ensures r.Err? ==> r.error == BadMetadata
  {
    hide PerManifest, EntriesIn, Continues, Full, Carried, Chunks, PackChunks, PackOne, CarriedAll;
    PackedContinues(b, es, PerManifest(target, env.columns), env);
    PackedFull(b, es, PerManifest(target, env.columns), env);
    NothingToPack(b, es, PerManifest(target, env.columns), env);
    if es == [] {
      return Ok([]);
    }
    if b.deletes && t.version.V1? {
      return Err(BadMetadata);
    }
    var manifests: seq<Manifest> := [];
    var chunks := Chunks(es, PerManifest(target, env.columns));
    for i := 0 to |chunks|
      invariant manifests == PackChunks(b, chunks[..i], env)
    {
      var written := WriteExisting(EntriesOf(chunks[i]), env.snapshotId);
      PacksOneMore(b, chunks, i, env, written);
      manifests := manifests + [Manifest(b.specId, b.deletes, written, env.lengthOf(written))];
    }
    PrefixWhole(chunks);
    r := Ok(manifests);
  }

  /** Some manifest can hold the bucket: its spec is known, and it is not the delete files of a table whose format has none. */
  predicate Writable(t: Table, b: BucketId) {
    b.specId in t.specs && !(b.deletes && t.version.V1?)
  }

  lemma PackBucketsStep(es: seq<Specced>, order: seq<BucketId>, i: nat, target: nat, env: Setting)
    requires i < |order|
    ensures PackBuckets(es, order[..i + 1], target, env) ==
            PackBuckets(es, order[..i], target, env) + PackBucket(es, order[i], target, env)
  {
    hide PackBucket;
    PrefixGrows(order, i);
  }

  lemma NothingPacked(es: seq<Specced>, order: seq<BucketId>, target: nat, env: Setting)
    ensures PackBuckets(es, order[..0], target, env) == []
  {
  }

  /** The loop over buckets, in their order. */
  method PackAll(t: Table, buckets: map<BucketId, seq<Specced>>, order: seq<BucketId>, target: nat, env: Setting, ghost es: seq<Specced>)
      returns (r: Result<seq<Manifest>>)
    requires Filled(buckets, es) && forall b :: b in order ==> b in buckets
    ensures r.Ok? ==> r.value == PackBuckets(es, order, target, env)
    ensures r.Ok? <==> forall b :: b in order ==> Writable(t, b)
    ensures r.Err? ==> r.error == BadMetadata
  {
    hide Filled, PackBuckets, Clustered, InBucket, PackChunks, Chunks, EntriesIn, Continues, Full, PerManifest;
    var manifests: seq<Manifest> := [];
    NothingPacked(es, order, target, env);
    for i := 0 to |order|
      invariant manifests == PackBuckets(es, order[..i], target, env)
      invariant forall k :: 0 <= k < i ==> Writable(t, order[k])
    {
      var b := order[i];
      assert b in order;
      if b.specId !in t.specs {
        assert !Writable(t, b);
        return Err(BadMetadata);
      }
      BucketInhabited(buckets, es, b);
      var clustered := Clustered(buckets[b], env.specOf(b.specId));
      var packed := WritePacked(t, clustered, b, target, env);
      if packed.Err? {
        return Err(packed.error);
      }
      PackBucketsStep(es, order, i, target, env);
      manifests := manifests + packed.value;
    }
    PrefixWhole(order);
    r := Ok(manifests);
  }

  lemma BucketInhabited(buckets: map<BucketId, seq<Specced>>, es: seq<Specced>, b: BucketId)
    requires Filled(buckets, es) && b in buckets
    ensures buckets[b] == InBucket(es, b) != []
  {
    var s :| s in es && IdOf(s) == b;
    InBucketSpec(es, b);
  }

  lemma OrderIsBuckets(buckets: map<BucketId, seq<Specced>>, order: seq<BucketId>, es: seq<Specced>)
    requires Filled(buckets, es) && EachOnce(order) && forall b :: b in order <==> b in buckets.Keys
    ensures BucketsOf(order, es)
  {
  }

  /** A commit that re-packs what `t` holds. */
  ghost predicate Repacks(t: Table, packing: Packing, env: Setting, req: Request) {
    && t.current.Some? && req.parent == t.mainHead == Some(t.current.value.id)
    && req.snapshot.id == env.snapshotId && req.snapshot.parent == t.mainHead && req.snapshot.seqNo == t.lastSeq + 1
    && |req.snapshot.manifests| < |ManifestsAt(t)|
    && exists order ::
         && BucketsOf(order, SpecsAll(Smalls(ManifestsAt(t), packing.target))) && Sorted(order, IdLe)
         && req.snapshot.manifests == Repacked(ManifestsAt(t), order, packing.target, env)
  }

  datatype Outcome = NoOp | Send(request: Request)

  predicate Undersized(m: Manifest, packing: Packing) {
    0 < packing.target && m.length < packing.target
  }

  /** Nothing is asked of the catalog when too few manifests are undersized. */
  predicate TooFew(t: Table, packing: Packing) {
    |Keep(ManifestsAt(t), m => Undersized(m, packing))| < packing.minCount
  }

  lemma {:induction false} SameUndersized(ms: seq<Manifest>, packing: Packing)
    ensures Keep(ms, m => Undersized(m, packing)) == Smalls(ms, packing.target)
  {
    if ms != [] {
      SameUndersized(ms[1..], packing);
    }
  }

  /** Every live entry of an undersized manifest can be written again. */
  ghost predicate Packable(t: Table, packing: Packing) {
    forall m, e :: m in ManifestsAt(t) && Undersized(m, packing) && e in m.entries && e.status != Deleted ==>
                     m.specId in t.specs && (t.version.V1? ==> e.file.IsData())
  }

  lemma PackableIffWritable(t: Table, packing: Packing, order: seq<BucketId>)
    requires BucketsOf(order, SpecsAll(Smalls(ManifestsAt(t), packing.target)))
    ensures Packable(t, packing) <==> forall b :: b in order ==> Writable(t, b)
  {
    hide SpecsAll;
    var ms := ManifestsAt(t);
    var smalls := Smalls(ms, packing.target);
    KeepMembers(ms, (m: Manifest) => Small(m, packing.target));
    if Packable(t, packing) {
      forall b | b in order
        ensures Writable(t, b)
      {
        var s :| s in SpecsAll(smalls) && IdOf(s) == b;
        SpecsAllMembers(smalls, s);
      }
    }
    if forall b :: b in order ==> Writable(t, b) {
      forall m, e | m in ms && Undersized(m, packing) && e in m.entries && e.status != Deleted
        ensures m.specId in t.specs && (t.version.V1? ==> e.file.IsData())
      {
        SpecsAllHolds(smalls, m, e);
        assert IdOf(Specced(m.specId, e)) in order;
      }
    }
  }

  /** Re-packing comes out no smaller: as many manifests as there are, or more. */
  ghost predicate NotWorthIt(t: Table, packing: Packing, env: Setting) {
    exists order ::
      && BucketsOf(order, SpecsAll(Smalls(ManifestsAt(t), packing.target))) && Sorted(order, IdLe)
      && |Repacked(ManifestsAt(t), order, packing.target, env)| >= |ManifestsAt(t)|
  }

  /** Nothing to re-pack, or nothing gained by it. */
  ghost predicate Idle(t: Table, packing: Packing, env: Setting) {
    t.current.None? || TooFew(t, packing) || NotWorthIt(t, packing, env)
  }

  /** What the table itself rules out: its format, an entry no manifest can hold, or a current snapshot that is not the head. */
  ghost predicate Barred(t: Table, packing: Packing) {
    t.current.Some? && (t.version.V3? || (!TooFew(t, packing) && (!Packable(t, packing) || t.mainHead != Some(t.current.value.id))))
  }

  /** `attempt_rewrite`, up to the commit. */
  method AttemptRewrite(t: Table, packing: Packing, env: Setting) returns (r: Result<Outcome>)
    ensures r.Ok? && r.value.Send? ==> Repacks(t, packing, env, r.value.request) && !TooFew(t, packing)
    ensures t.current.None? ==> r == Ok(NoOp)
    ensures t.current.Some? && t.version.V3? ==> r == Err(Refused)
    ensures t.current.Some? && !t.version.V3? && TooFew(t, packing) ==> r == Ok(NoOp)
    ensures t.current.Some? && !t.version.V3? && !TooFew(t, packing) && !Packable(t, packing) ==> r == Err(BadMetadata)
    ensures t.current.Some? && !t.version.V3? && !TooFew(t, packing) && Packable(t, packing) ==>
              if r == Ok(NoOp) then NotWorthIt(t, packing, env)
              else if t.mainHead == Some(t.current.value.id) then r.Ok?
              else r == Err(Refused)
    ensures r == Ok(NoOp) ==> Idle(t, packing, env)
    ensures r.Err? ==> Barred(t, packing)
  {
    hide Smalls, Keep, SpecsAll, PackBuckets, Kept, BucketsOf;
    if t.current.None? {
      return Ok(NoOp);
    }
    if t.version.V3? {
      return Err(Refused);
    }
    var ms := ManifestsAt(t);
    SameUndersized(ms, packing);
    var undersized := |Smalls(ms, packing.target)|;
    if undersized < packing.minCount {
      return Ok(NoOp);
    }
    var manifests := Kept(ms, packing.target);
    var buckets := FillPackBuckets(ms, packing.target);
    var order := OrderedIds(buckets.Keys);
    OrderIsBuckets(buckets, order, SpecsAll(Smalls(ms, packing.target)));
    PackableIffWritable(t, packing, order);
    var packed := PackAll(t, buckets, order, packing.target, env, SpecsAll(Smalls(ms, packing.target)));
    if packed.Err? {
      return Err(packed.error);
    }
    manifests := manifests + packed.value;
    if |manifests| >= |ms| {
      return Ok(NoOp);
    }
    var req := Install(t, Some(t.current.value.id), manifests, None, env.snapshotId);
    if req.Err? {
      return Err(req.error);
    }
    r := Ok(Send(req.value));
  }

  // ---- What a manifest rewrite does to readers, and to itself ----

  /** A manifest rewrite is invisible: the same live entries with the same numbers, so the same rows everywhere. */
  lemma RepackPreservesContent(t: Table, packing: Packing, env: Setting, req: Request)
    requires Repacks(t, packing, env, req)
    ensures multiset(Facts(req.snapshot.manifests, env.snapshotId)) == multiset(Facts(ManifestsAt(t), env.snapshotId))
    ensures multiset(LiveAll(req.snapshot.manifests)) == multiset(LiveAt(t))
    ensures forall p :: Content(LiveAll(req.snapshot.manifests), p) == Content(LiveAt(t), p)
  {
    var order :| BucketsOf(order, SpecsAll(Smalls(ManifestsAt(t), packing.target))) && Sorted(order, IdLe)
                 && req.snapshot.manifests == Repacked(ManifestsAt(t), order, packing.target, env);
    RepackedKeepsFacts(ManifestsAt(t), order, packing.target, env);
    SameFactsSameLive(req.snapshot.manifests, ManifestsAt(t), env.snapshotId);
    forall p
      ensures Content(LiveAll(req.snapshot.manifests), p) == Content(LiveAt(t), p)
    {
      ContentPermuted(LiveAll(req.snapshot.manifests), LiveAt(t), p);
    }
  }

  ghost predicate RepackedInto(a: Table, packing: Packing, env: Setting, b: Table) {
    b.current.Some? && exists req :: Repacks(a, packing, env, req) && b.current == Some(req.snapshot)
  }

  /** Repeated runs on a quiet table, each loading what the one before committed, stop committing: there are never
      more commits than there were manifests to begin with. */
  lemma {:induction false} RunsTerminate(ts: seq<Table>, packing: Packing, envs: seq<Setting>, i: nat)
    requires |envs| == |ts| && i < |ts|
    requires forall j: nat :: j + 1 < |ts| ==> RepackedInto(ts[j], packing, envs[j], ts[j + 1])
    ensures |ManifestsAt(ts[i])| + i <= |ManifestsAt(ts[0])|
  {
    if i > 0 {
      var j := i - 1;
      RunsTerminate(ts, packing, envs, j);
      assert RepackedInto(ts[j], packing, envs[j], ts[j + 1]);
    }
  }

  // ---- run: the retry loop ----

  datatype Report = NothingToDo | Succeeded | Conflicted

  /** The commit lost its compare-and-swap. */
  predicate Lost(answer: Result<()>) {
    answer in {Err(Conflict), Err(Stale)}
  }

  /** `run`: a lost commit is never sent again; the table is reloaded and its entries re-packed. `loads` is what each
      load would return, `answers` what each commit would be told. */
  method Run(loads: seq<Result<Table>>, answers: seq<Result<()>>, packing: Packing, envs: seq<Setting>)
      returns (r: Result<Report>, sent: seq<Request>)
    requires |loads| == |answers| == |envs| == MAX_COMMIT_ATTEMPTS && loads[0].Ok?
    ensures |sent| <= MAX_COMMIT_ATTEMPTS
    ensures forall i :: 0 <= i < |sent| ==> loads[i].Ok? && Repacks(loads[i].value, packing, envs[i], sent[i])
    ensures forall i :: 0 <= i < |sent| - 1 ==> Lost(answers[i])
    ensures r == Ok(Succeeded) <==> sent != [] && answers[|sent| - 1].Ok?
    ensures r == Ok(Conflicted) <==> |sent| == MAX_COMMIT_ATTEMPTS && Lost(answers[MAX_COMMIT_ATTEMPTS - 1])
    ensures r == Ok(NothingToDo) ==>
              |sent| < MAX_COMMIT_ATTEMPTS && loads[|sent|].Ok? && Idle(loads[|sent|].value, packing, envs[|sent|])
    ensures r.Err? ==>
              if sent != [] && !Lost(answers[|sent| - 1]) then answers[|sent| - 1] == Err(r.error)
              else
                && |sent| < MAX_COMMIT_ATTEMPTS == 3
                && (loads[|sent|] == Err(r.error) || (loads[|sent|].Ok? && Barred(loads[|sent|].value, packing)))
  {
    hide Repacks, TooFew, Idle, Barred, Packable, NotWorthIt;
    sent := [];
    for attempt := 0 to MAX_COMMIT_ATTEMPTS
      invariant |sent| == attempt
      invariant forall i :: 0 <= i < |sent| ==> loads[i].Ok? && Repacks(loads[i].value, packing, envs[i], sent[i])
      invariant forall i :: 0 <= i < |sent| ==> Lost(answers[i])
    {
      if loads[attempt].Err? {
        return Err(loads[attempt].error), sent;
      }
      var built := AttemptRewrite(loads[attempt].value, packing, envs[attempt]);
      if built.Err? {
        return Err(built.error), sent;
      }
      if built.value.NoOp? {
        return Ok(NothingToDo), sent;
      }
      sent := sent + [built.value.request];
      if answers[attempt].Ok? {
        return Ok(Succeeded), sent;
      }
      if !answers[attempt].error.IsReplan() {
        return Err(answers[attempt].error), sent;
      }
    }
    r := Ok(Conflicted);
  }
}
