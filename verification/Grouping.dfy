/** Which files a compaction rewrites together: eligibility, bin packing, and the groups offered for commit. */
module Grouping {
  import opened Wrappers
  import opened Tables
  import opened Sorting
  import opened Rewrite

  const U64_MAX: nat := 0xFFFF_FFFF_FFFF_FFFF

  function Saturate(n: nat): nat {
    if n > U64_MAX then U64_MAX else n
  }

  datatype Settings = Settings(maxGroupBytes: nat, maxInputFiles: nat, small: nat, large: nat) {
    predicate IsEligible(t: Task) {
      t.dels != [] || t.live.file.size < small || t.live.file.size > large
    }

    predicate WorthRewriting(chunk: seq<Task>) {
      && chunk != []
      && (|chunk| > 1 || (exists t | t in chunk :: t.dels != []) || (exists t | t in chunk :: t.live.file.size > large))
    }
  }

  function Bytes(chunk: seq<Task>): nat {
    if chunk == [] then 0 else chunk[0].live.file.size + Bytes(chunk[1..])
  }

  function Flatten(groups: seq<seq<Task>>): seq<Task> {
    if groups == [] then [] else groups[0] + Flatten(groups[1..])
  }

  // ---- pack ----

  lemma {:induction false} BytesConcat(a: seq<Task>, b: seq<Task>)
    ensures Bytes(a + b) == Bytes(a) + Bytes(b)
  {
    if a == [] {
      assert a + b == b;
    } else {
      assert (a + b)[1..] == a[1..] + b;
      BytesConcat(a[1..], b);
    }
  }

  lemma BytesOne(t: Task)
    ensures Bytes([t]) == t.live.file.size
  {
    assert Bytes([t][1..]) == 0;
  }

  lemma {:induction false} FlattenAppend(groups: seq<seq<Task>>, g: seq<Task>)
    ensures Flatten(groups + [g]) == Flatten(groups) + g
  {
    if groups == [] {
      assert Flatten((groups + [g])[1..]) == [];
    } else {
      assert (groups + [g])[1..] == groups[1..] + [g];
      FlattenAppend(groups[1..], g);
    }
  }

  /** A group is one file, or fits the byte cap; and it fits the file cap, which counts as at least one. */
  predicate Fits(s: Settings, g: seq<Task>) {
    && g != []
    && (|g| == 1 || Saturate(Bytes(g)) <= s.maxGroupBytes)
    && (|g| == 1 || |g| <= s.maxInputFiles)
  }

  /** Groups closed so far, by what closed them: `full` by file count, `heavy` by bytes. Every full group holds the
      cap's worth of files, and every heavy one overflows the byte cap together with the file that followed it. */
  ghost predicate Closed(s: Settings, count: nat, full: nat, heavy: nat, files: nat, bytes: nat, current: nat) {
    && count == full + heavy
    && full * s.maxInputFiles <= files
    && heavy * s.maxGroupBytes <= 2 * bytes - current
  }

  /** `next` bursts one of the caps of the group `c`. */
  ghost predicate Bursts(s: Settings, c: seq<Task>, next: Task) {
    Saturate(Bytes(c) + next.live.file.size) > s.maxGroupBytes || |c| >= s.maxInputFiles
  }

  ghost predicate TightAt(s: Settings, packed: seq<seq<Task>>, i: nat)
    requires i + 1 < |packed|
  {
    packed[i + 1] != [] && Bursts(s, packed[i], packed[i + 1][0])
  }

  /** No group is closed before the file that follows it would burst a cap. */
  ghost predicate Tight(s: Settings, packed: seq<seq<Task>>) {
    forall i: nat :: i + 1 < |packed| ==> TightAt(s, packed, i)
  }

  lemma TightGrows(s: Settings, packed: seq<seq<Task>>, current: seq<Task>, t: Task)
    requires current != [] && Tight(s, packed + [current])
    ensures Tight(s, packed + [current + [t]])
    ensures Bursts(s, current, t) ==> Tight(s, packed + [current] + [[t]])
  {
    hide Bursts;
    var was, now, more := packed + [current], packed + [current + [t]], packed + [current] + [[t]];
    forall i: nat | i + 1 < |now|
      ensures TightAt(s, now, i)
    {
      assert TightAt(s, was, i);
    }
    if Bursts(s, current, t) {
      forall i: nat | i + 1 < |more|
        ensures TightAt(s, more, i)
      {
        if i + 1 < |was| {
          assert TightAt(s, was, i);
        }
      }
    }
  }

  /** The first `i` tasks of `tasks` are in the groups closed so far or in the one being filled. */
  ghost predicate Packing(s: Settings, tasks: seq<Task>, i: nat, packed: seq<seq<Task>>, current: seq<Task>, bytes: nat, full: nat, heavy: nat)
    requires i <= |tasks|
  {
    && Flatten(packed) + current == tasks[..i]
    && (current != [] ==> Tight(s, packed + [current]))
    && (forall g | g in packed :: Fits(s, g))
    && (current != [] ==> Fits(s, current))
    && bytes == Saturate(Bytes(current))
    && (current == [] ==> i == 0 && packed == [])
    && |current| <= i
    && Closed(s, |packed|, full, heavy, i - |current|, Bytes(tasks[..i]), Bytes(current))
  }

  /** Task `i` joins the group being filled. */
  lemma Joins(s: Settings, tasks: seq<Task>, i: nat, packed: seq<seq<Task>>, current: seq<Task>, bytes: nat, full: nat, heavy: nat)
    requires i < |tasks| && Packing(s, tasks, i, packed, current, bytes, full, heavy)
    requires current == [] || (Saturate(bytes + tasks[i].live.file.size) <= s.maxGroupBytes && |current| < s.maxInputFiles)
    ensures Packing(s, tasks, i + 1, packed, current + [tasks[i]], Saturate(bytes + tasks[i].live.file.size), full, heavy)
  {
    hide Bytes, Flatten, Tight;
    PrefixGrows(tasks, i);
    BytesConcat(tasks[..i], [tasks[i]]);
    BytesConcat(current, [tasks[i]]);
    BytesOne(tasks[i]);
    if current == [] {
      FirstIsTight(s, tasks[i]);
      assert packed == [] && current + [tasks[i]] == [tasks[i]];
      assert packed + [current + [tasks[i]]] == [current + [tasks[i]]];
    } else {
      TightGrows(s, packed, current, tasks[i]);
    }
  }

  lemma FirstIsTight(s: Settings, t: Task)
    ensures Tight(s, [[t]])
  {
  }

  /** The group being filled is closed, and task `i` starts the next. */
  lemma Closes(s: Settings, tasks: seq<Task>, i: nat, packed: seq<seq<Task>>, current: seq<Task>, bytes: nat, full: nat, heavy: nat, byBytes: bool)
    requires i < |tasks| && Packing(s, tasks, i, packed, current, bytes, full, heavy) && current != []
    requires byBytes <==> Saturate(bytes + tasks[i].live.file.size) > s.maxGroupBytes
    requires !byBytes ==> |current| >= s.maxInputFiles
    ensures Packing(s, tasks, i + 1, packed + [current], [tasks[i]], Saturate(tasks[i].live.file.size),
                    if byBytes then full else full + 1, if byBytes then heavy + 1 else heavy)
  {
    hide Bytes, Flatten, Closed, Tight;
    TightGrows(s, packed, current, tasks[i]);
    var t := tasks[i];
    PrefixGrows(tasks, i);
    BytesConcat(tasks[..i], [t]);
    BytesOne(t);
    FlattenAppend(packed, current);
    if byBytes {
      ClosedByBytes(s, |packed|, full, heavy, i - |current|, |current|, Bytes(tasks[..i]), Bytes(current), t.live.file.size);
    } else {
      ClosedByCount(s, |packed|, full, heavy, i - |current|, |current|, Bytes(tasks[..i]), Bytes(current), t.live.file.size);
    }
  }

  lemma PackingStarts(s: Settings, tasks: seq<Task>)
    ensures Packing(s, tasks, 0, [], [], 0, 0, 0)
  {
  }

  /** What a finished packing promises. */
  ghost predicate Packs(s: Settings, tasks: seq<Task>, packed: seq<seq<Task>>) {
    && Flatten(packed) == tasks
    && (forall g | g in packed :: Fits(s, g))
    && Tight(s, packed)
    && (s.maxGroupBytes > 0 && s.maxInputFiles > 0 ==>
          |packed| <= 1 + |tasks| / s.maxInputFiles + 2 * Bytes(tasks) / s.maxGroupBytes)
  }

  lemma PackingEnds(s: Settings, tasks: seq<Task>, packed: seq<seq<Task>>, current: seq<Task>, bytes: nat, full: nat, heavy: nat)
    requires Packing(s, tasks, |tasks|, packed, current, bytes, full, heavy)
    ensures Packs(s, tasks, if current == [] then packed else packed + [current])
  {
    hide Bytes, Flatten;
    if current == [] {
      assert Tight(s, packed);
    }
    PrefixWhole(tasks);
    FlattenAppend(packed, current);
    if s.maxGroupBytes > 0 && s.maxInputFiles > 0 {
      CountBound(s, full, heavy, |tasks|, Bytes(tasks));
    }
  }

  /** `pack`: files in order, a group closed when the next file would burst the byte cap or the file cap. */
  method Pack(s: Settings, tasks: seq<Task>) returns (packed: seq<seq<Task>>)
    ensures Packs(s, tasks, packed)
  {
    hide Bytes, Flatten, Packing, Packs, Tight;
    packed := [];
    var current: seq<Task> := [];
    var bytes := 0;
    ghost var fulls, heavies := 0, 0;
    PackingStarts(s, tasks);
    for i := 0 to |tasks|
      invariant Packing(s, tasks, i, packed, current, bytes, fulls, heavies)
    {
      var size := tasks[i].live.file.size;
      var wouldBe := Saturate(bytes + size);
      var full := current != [] && (wouldBe > s.maxGroupBytes || |current| >= s.maxInputFiles);
      if full {
        Closes(s, tasks, i, packed, current, bytes, fulls, heavies, wouldBe > s.maxGroupBytes);
        if wouldBe > s.maxGroupBytes {
          heavies := heavies + 1;
        } else {
          fulls := fulls + 1;
        }
        packed := packed + [current];
        current, bytes := [], 0;
      } else {
        Joins(s, tasks, i, packed, current, bytes, fulls, heavies);
      }
      bytes := Saturate(bytes + size);
      assert [] + [tasks[i]] == [tasks[i]];
      current := current + [tasks[i]];
    }
    PackingEnds(s, tasks, packed, current, bytes, fulls, heavies);
    if current != [] {
      packed := packed + [current];
    }
  }

  lemma ClosedByBytes(s: Settings, count: nat, full: nat, heavy: nat, files: nat, n: nat, bytes: nat, current: nat, size: nat)
    requires Closed(s, count, full, heavy, files, bytes, current)
    requires Saturate(Saturate(current) + size) > s.maxGroupBytes
    ensures Closed(s, count + 1, full, heavy + 1, files + n, bytes + size, size)
  {
    assert (heavy + 1) * s.maxGroupBytes == heavy * s.maxGroupBytes + s.maxGroupBytes;
  }

  lemma ClosedByCount(s: Settings, count: nat, full: nat, heavy: nat, files: nat, n: nat, bytes: nat, current: nat, size: nat)
    requires Closed(s, count, full, heavy, files, bytes, current)
    requires n >= s.maxInputFiles
    ensures Closed(s, count + 1, full + 1, heavy, files + n, bytes + size, size)
  {
    assert (full + 1) * s.maxInputFiles == full * s.maxInputFiles + s.maxInputFiles;
  }

  lemma QuotientBound(q: nat, d: nat, n: nat)
    requires d > 0 && q * d <= n
    ensures q <= n / d
  {
    assert n == d * (n / d) + n % d;
    if q > n / d {
      TimesMonotone(n / d + 1, q, d);
    }
  }

  lemma TimesMonotone(a: nat, b: nat, d: nat)
    requires a <= b
    ensures a * d <= b * d
  {
  }

  lemma CountBound(s: Settings, full: nat, heavy: nat, files: nat, bytes: nat)
    requires s.maxGroupBytes > 0 && s.maxInputFiles > 0
    requires full * s.maxInputFiles <= files && heavy * s.maxGroupBytes <= 2 * bytes
    ensures full + heavy <= files / s.maxInputFiles + 2 * bytes / s.maxGroupBytes
  {
    QuotientBound(full, s.maxInputFiles, files);
    QuotientBound(heavy, s.maxGroupBytes, 2 * bytes);
  }

  // ---- build_groups ----

  datatype Group = Group(partition: Key, index: nat, tasks: seq<Task>)

  function BySize(a: Task, b: Task): bool {
    a.live.file.size <= b.live.file.size
  }

  function ValueLe(a: seq<Value>, b: seq<Value>): bool {
    if a == [] then true
    else if b == [] then false
    else if a[0] != b[0] then a[0].Null? || (b[0].Datum? && a[0].n < b[0].n)
    else ValueLe(a[1..], b[1..])
  }

  /** Most files first, then the cheaper group, then partition and index. */
  function Before(a: Group, b: Group): bool {
    if |a.tasks| != |b.tasks| then |a.tasks| > |b.tasks|
    else if Bytes(a.tasks) != Bytes(b.tasks) then Bytes(a.tasks) < Bytes(b.tasks)
    else if a.partition.specId != b.partition.specId then a.partition.specId < b.partition.specId
    else if a.partition.values != b.partition.values then ValueLe(a.partition.values, b.partition.values)
    else a.index <= b.index
  }

  lemma {:induction false} ValueOrder(a: seq<Value>, b: seq<Value>)
    ensures ValueLe(a, b) || ValueLe(b, a)
    ensures ValueLe(a, b) && ValueLe(b, a) ==> a == b
  {
    if a != [] && b != [] {
      ValueOrder(a[1..], b[1..]);
      assert a == [a[0]] + a[1..] && b == [b[0]] + b[1..];
    }
  }

  lemma {:induction false} ValueTransitive(a: seq<Value>, b: seq<Value>, c: seq<Value>)
    requires ValueLe(a, b) && ValueLe(b, c)
    ensures ValueLe(a, c)
  {
    if a != [] && b != [] && c != [] && a[0] == b[0] == c[0] {
      ValueTransitive(a[1..], b[1..], c[1..]);
    }
  }

  lemma BeforeTotal(a: Group, b: Group)
    ensures Before(a, b) || Before(b, a)
  {
    hide ValueLe, Bytes;
    ValueOrder(a.partition.values, b.partition.values);
  }

  lemma BeforeTransitive(a: Group, b: Group, c: Group)
    requires Before(a, b) && Before(b, c)
    ensures Before(a, c)
  {
    hide ValueLe, Bytes;
    var x, y, z := a.partition.values, b.partition.values, c.partition.values;
    if ValueLe(x, y) && ValueLe(y, z) {
      ValueTransitive(x, y, z);
      ValueOrder(x, y);
      ValueOrder(y, z);
    }
  }

  lemma BeforeOrder()
    ensures TotalPreorder(Before)
  {
    hide Before;
    forall a, b
      ensures Before(a, b) || Before(b, a)
    {
      BeforeTotal(a, b);
    }
    forall a, b, c | Before(a, b) && Before(b, c)
      ensures Before(a, c)
    {
      BeforeTransitive(a, b, c);
    }
  }

  /** A group offered for rewriting: one targeted partition of the current spec, its files scanned there, eligible,
      and worth a commit. */
  ghost predicate Offered(s: Settings, g: Group, scan: seq<Task>, partitions: seq<Key>, specId: int) {
    && g.partition in partitions && g.partition.specId == specId
    && s.WorthRewriting(g.tasks)
    && (forall t | t in g.tasks :: t in scan && t.live.key == g.partition && s.IsEligible(t))
  }

  /** Every file of `scan` that carries a delete and lies in partition `k` is in one of the groups. */
  ghost predicate TakesDeleted(groups: seq<Group>, scan: seq<Task>, k: Key) {
    forall t :: t in scan && t.live.key == k && t.dels != [] ==> exists g :: g in groups && t in g.tasks
  }

  /** Every targeted file over the upper bound is in a group; and of two under the lower bound that fit a group together, one is
      at least. */
  ghost predicate TakesSizes(s: Settings, groups: seq<Group>, scan: seq<Task>, k: Key) {
    && (forall t :: t in scan && t.live.key == k && t.live.file.size > s.large ==> InSomeGroup(groups, t))
    && (forall t, u :: t in scan && u in scan && t != u && t.live.key == u.live.key == k && FitTogether(s, t, u) ==>
          InSomeGroup(groups, t) || InSomeGroup(groups, u))
  }

  ghost predicate InSomeGroup(groups: seq<Group>, t: Task) {
    exists g :: g in groups && t in g.tasks
  }

  /** Two small files that one group can hold. */
  predicate FitTogether(s: Settings, t: Task, u: Task) {
    && t.live.file.size < s.small && u.live.file.size < s.small
    && t.live.file.size + u.live.file.size <= s.maxGroupBytes && s.maxInputFiles >= 2
  }

  /** A group is worth its commit: several files, or one with a delete to apply or one to split. No file of it is of the right
      size and without deletes, and the smallest come first. */
  ghost predicate WellChosen(s: Settings, g: Group) {
    && (|g.tasks| > 1 || exists t :: t in g.tasks && (t.dels != [] || t.live.file.size > s.large))
    && (forall t :: t in g.tasks ==> t.dels != [] || t.live.file.size < s.small || t.live.file.size > s.large)
    && (forall i, j :: 0 <= i < j < |g.tasks| ==> g.tasks[i].live.file.size <= g.tasks[j].live.file.size)
  }

  /** One partition's groups take its files smallest first. */
  ghost predicate Climbing(groups: seq<Group>) {
    forall g, h :: g in groups && h in groups && g.partition == h.partition && g.index < h.index ==> NoLarger(g, h)
  }

  ghost predicate NoLarger(g: Group, h: Group) {
    forall t, u :: t in g.tasks && u in h.tasks ==> t.live.file.size <= u.live.file.size
  }

  function InPartition(scan: seq<Task>, k: Key): (r: seq<Task>)
    ensures forall t :: t in r <==> t in scan && t.live.key == k
  {
    if scan == [] then []
    else
      assert scan == [scan[0]] + scan[1..];
      (if scan[0].live.key == k then [scan[0]] else []) + InPartition(scan[1..], k)
  }

  function Eligible(s: Settings, tasks: seq<Task>): (r: seq<Task>)
    ensures forall t :: t in r <==> t in tasks && s.IsEligible(t)
  {
    if tasks == [] then []
    else
      assert tasks == [tasks[0]] + tasks[1..];
      (if s.IsEligible(tasks[0]) then [tasks[0]] else []) + Eligible(s, tasks[1..])
  }

  /** `index` lists `scan` by partition. */
  ghost predicate Indexed(index: map<Key, seq<Task>>, scan: seq<Task>) {
    && (forall k :: k in index ==> index[k] == InPartition(scan, k))
    && (forall k :: k !in index ==> InPartition(scan, k) == [])
  }

  function IndexOne(index: map<Key, seq<Task>>, t: Task): map<Key, seq<Task>> {
    index[t.live.key := (if t.live.key in index then index[t.live.key] else []) + [t]]
  }

  lemma IndexGrows(index: map<Key, seq<Task>>, scan: seq<Task>, t: Task)
    requires Indexed(index, scan)
    ensures Indexed(IndexOne(index, t), scan + [t])
  {
    InPartitionGrows(scan, t);
  }

  /** The index the source builds once, so that no partition scans the whole task list. */
  method IndexByPartition(scan: seq<Task>) returns (index: map<Key, seq<Task>>)
    ensures Indexed(index, scan)
  {
    index := map[];
    for i := 0 to |scan|
      invariant Indexed(index, scan[..i])
    {
      PrefixGrows(scan, i);
      IndexGrows(index, scan[..i], scan[i]);
      index := IndexOne(index, scan[i]);
    }
    PrefixWhole(scan);
  }

  lemma {:induction false} InPartitionAppend(scan: seq<Task>, t: Task, k: Key)
    ensures InPartition(scan + [t], k) == InPartition(scan, k) + if t.live.key == k then [t] else []
  {
    if scan == [] {
      assert scan + [t] == [t];
      assert InPartition([t][1..], k) == [];
    } else {
      assert (scan + [t])[1..] == scan[1..] + [t];
      InPartitionAppend(scan[1..], t, k);
    }
  }

  lemma InPartitionGrows(scan: seq<Task>, t: Task)
    ensures forall k :: InPartition(scan + [t], k) == InPartition(scan, k) + if t.live.key == k then [t] else []
  {
    forall k
      ensures InPartition(scan + [t], k) == InPartition(scan, k) + if t.live.key == k then [t] else []
    {
      InPartitionAppend(scan, t, k);
    }
  }

  lemma {:induction false} FlattenMembers(groups: seq<seq<Task>>, t: Task)
    ensures t in Flatten(groups) <==> exists g :: g in groups && t in g
  {
    if groups != [] {
      FlattenMembers(groups[1..], t);
      assert forall g :: g in groups <==> g == groups[0] || g in groups[1..];
    }
  }

  /** The chunks worth a commit, numbered as they come. */
  function Chosen(s: Settings, k: Key, chunks: seq<seq<Task>>, next: nat): seq<Group>
    decreases |chunks|
  {
    if chunks == [] then []
    else if s.WorthRewriting(chunks[0]) then [Group(k, next, chunks[0])] + Chosen(s, k, chunks[1..], next + 1)
    else Chosen(s, k, chunks[1..], next)
  }

  lemma {:induction false} ChosenMembers(s: Settings, k: Key, chunks: seq<seq<Task>>, next: nat)
    ensures forall g | g in Chosen(s, k, chunks, next) :: g.partition == k && g.tasks in chunks && s.WorthRewriting(g.tasks)
    ensures forall c | c in chunks && s.WorthRewriting(c) :: exists g :: g in Chosen(s, k, chunks, next) && g.tasks == c
    decreases |chunks|
  {
    if chunks != [] {
      var worth := s.WorthRewriting(chunks[0]);
      var rest := Chosen(s, k, chunks[1..], if worth then next + 1 else next);
      ChosenMembers(s, k, chunks[1..], if worth then next + 1 else next);
      assert forall c :: c in chunks <==> c == chunks[0] || c in chunks[1..];
      assert forall g :: g in Chosen(s, k, chunks, next) <==> (worth && g == Group(k, next, chunks[0])) || g in rest;
    }
  }

  // ---- No file is offered twice ----

  function GroupTasks(groups: seq<Group>): seq<Task> {
    if groups == [] then [] else groups[0].tasks + GroupTasks(groups[1..])
  }

  lemma {:induction false} GroupTasksConcat(a: seq<Group>, b: seq<Group>)
    ensures GroupTasks(a + b) == GroupTasks(a) + GroupTasks(b)
  {
    if a == [] {
      assert a + b == b;
    } else {
      assert (a + b)[1..] == a[1..] + b;
      GroupTasksConcat(a[1..], b);
    }
  }

  lemma OneGroup(g: Group)
    ensures GroupTasks([g]) == g.tasks
  {
    assert [g][1..] == [];
  }

  lemma GroupTasksTakeOut(groups: seq<Group>, i: nat)
    requires i < |groups|
    ensures multiset(GroupTasks(groups)) == multiset(groups[i].tasks) + multiset(GroupTasks(groups[..i] + groups[i + 1..]))
  {
    hide GroupTasks;
    var before, x, after := groups[..i], [groups[i]], groups[i + 1..];
    OneGroup(groups[i]);
    assert groups == before + (x + after);
    GroupTasksConcat(before, x + after);
    GroupTasksConcat(x, after);
    GroupTasksConcat(before, after);
  }

  lemma {:induction false} GroupTasksPermuted(a: seq<Group>, b: seq<Group>)
    requires multiset(a) == multiset(b)
    ensures multiset(GroupTasks(a)) == multiset(GroupTasks(b))
    decreases |a|
  {
    hide GroupTasks;
    if a == [] {
      NothingElse(b);
    } else {
      var i := HeadSomewhere(a, b);
      GroupTasksPermuted(a[1..], b[..i] + b[i + 1..]);
      GroupTasksTakeOut(a, 0);
      GroupTasksTakeOut(b, i);
      assert a[..0] + a[1..] == a[1..];
    }
  }

  lemma {:induction false} ChosenTasks(s: Settings, k: Key, chunks: seq<seq<Task>>, next: nat)
    ensures multiset(GroupTasks(Chosen(s, k, chunks, next))) <= multiset(Flatten(chunks))
    decreases |chunks|
  {
    if chunks != [] {
      ChosenTasks(s, k, chunks[1..], if s.WorthRewriting(chunks[0]) then next + 1 else next);
    }
  }

  lemma {:induction false} EligibleWithin(s: Settings, tasks: seq<Task>)
    ensures multiset(Eligible(s, tasks)) <= multiset(tasks)
  {
    if tasks != [] {
      EligibleWithin(s, tasks[1..]);
      assert tasks == [tasks[0]] + tasks[1..];
    }
  }

  /** The tasks of `scan` lying in any of `ks`. */
  function InPartitions(scan: seq<Task>, ks: seq<Key>): seq<Task> {
    if scan == [] then [] else (if scan[0].live.key in ks then [scan[0]] else []) + InPartitions(scan[1..], ks)
  }

  lemma {:induction false} InPartitionsGrow(scan: seq<Task>, ks: seq<Key>, k: Key)
    requires k !in ks
    ensures multiset(InPartitions(scan, ks + [k])) == multiset(InPartitions(scan, ks)) + multiset(InPartition(scan, k))
  {
    if scan != [] {
      InPartitionsGrow(scan[1..], ks, k);
    }
  }

  lemma {:induction false} InPartitionsWithin(scan: seq<Task>, ks: seq<Key>)
    ensures multiset(InPartitions(scan, ks)) <= multiset(scan)
  {
    if scan != [] {
      InPartitionsWithin(scan[1..], ks);
      assert scan == [scan[0]] + scan[1..];
    }
  }

  lemma InPartitionsMonotone(scan: seq<Task>, partitions: seq<Key>, i: nat, taken: seq<Task>)
    requires i < |partitions| && NoRepeats(partitions)
    requires multiset(taken) <= multiset(InPartitions(scan, partitions[..i]))
    ensures multiset(taken) <= multiset(InPartitions(scan, partitions[..i + 1]))
    ensures forall more: seq<Task> :: multiset(more) <= multiset(InPartition(scan, partitions[i])) ==>
              multiset(taken + more) <= multiset(InPartitions(scan, partitions[..i + 1]))
  {
    hide InPartitions, InPartition;
    PrefixGrows(partitions, i);
    InPartitionsGrow(scan, partitions[..i], partitions[i]);
  }

  /** `chunks` hold the eligible files of partition `k`, smallest first. */
  ghost predicate Chunked(s: Settings, scan: seq<Task>, k: Key, chunks: seq<seq<Task>>) {
    Flatten(chunks) == SortBy(Eligible(s, InPartition(scan, k)), BySize)
  }

  lemma ChunkedSorted(s: Settings, scan: seq<Task>, k: Key, chunks: seq<seq<Task>>)
    requires Chunked(s, scan, k, chunks)
    ensures Sorted(Flatten(chunks), BySize)
  {
    hide Flatten, SortBy;
    SortBySorted(Eligible(s, InPartition(scan, k)), BySize);
  }

  lemma SortedSplit(a: seq<Task>, b: seq<Task>)
    requires Sorted(a + b, BySize)
    ensures Sorted(a, BySize) && Sorted(b, BySize)
    ensures forall t, u :: t in a && u in b ==> BySize(t, u)
  {
    hide BySize;
    var all := a + b;
    forall i, j | 0 <= i < j < |a|
      ensures BySize(a[i], a[j])
    {
      assert all[i] == a[i] && all[j] == a[j];
    }
    forall i, j | 0 <= i < j < |b|
      ensures BySize(b[i], b[j])
    {
      assert all[|a| + i] == b[i] && all[|a| + j] == b[j];
    }
    forall t, u | t in a && u in b
      ensures BySize(t, u)
    {
      var i :| 0 <= i < |a| && a[i] == t;
      var j :| 0 <= j < |b| && b[j] == u;
      assert all[i] == t && all[|a| + j] == u;
    }
  }

  /** Chunks of a sorted list are sorted, and come in order. */
  lemma {:induction false} ChunksClimb(chunks: seq<seq<Task>>, i: nat, j: nat)
    requires Sorted(Flatten(chunks), BySize) && i < |chunks|
    ensures Sorted(chunks[i], BySize)
    ensures i < j < |chunks| ==> forall t, u :: t in chunks[i] && u in chunks[j] ==> BySize(t, u)
  {
    hide Sorted, BySize;
    SortedSplit(chunks[0], Flatten(chunks[1..]));
    if i > 0 {
      ChunksClimb(chunks[1..], i - 1, if j > 0 then j - 1 else 0);
    } else if i < j < |chunks| {
      forall u | u in chunks[j]
        ensures u in Flatten(chunks[1..])
      {
        FlattenMembers(chunks[1..], u);
        assert chunks[1..][j - 1] == chunks[j] && chunks[j] in chunks[1..];
      }
    }
  }

  /** Chosen groups are numbered in the order of their chunks. */
  lemma {:induction false} ChosenOrder(s: Settings, k: Key, chunks: seq<seq<Task>>, next: nat, g: Group, h: Group) returns (i: nat, j: nat)
    requires g in Chosen(s, k, chunks, next) && h in Chosen(s, k, chunks, next) && g.index < h.index
    ensures i < j < |chunks| && chunks[i] == g.tasks && chunks[j] == h.tasks
    decreases |chunks|
  {
    var worth := s.WorthRewriting(chunks[0]);
    var rest, from := chunks[1..], if worth then next + 1 else next;
    NumberedFrom(s, k, rest, from);
    if worth && g == Group(k, next, chunks[0]) {
      ChosenMembers(s, k, rest, from);
      assert h in Chosen(s, k, rest, from);
      i := 0;
      var at :| 0 <= at < |rest| && rest[at] == h.tasks;
      j := at + 1;
    } else {
      i, j := ChosenOrder(s, k, rest, from, g, h);
      i, j := i + 1, j + 1;
    }
  }

  lemma {:induction false} NumberedFrom(s: Settings, k: Key, chunks: seq<seq<Task>>, next: nat)
    ensures forall g :: g in Chosen(s, k, chunks, next) ==> g.index >= next
    decreases |chunks|
  {
    if chunks != [] {
      NumberedFrom(s, k, chunks[1..], if s.WorthRewriting(chunks[0]) then next + 1 else next);
    }
  }

  lemma ChosenClimb(s: Settings, scan: seq<Task>, k: Key, chunks: seq<seq<Task>>)
    requires Chunked(s, scan, k, chunks)
    ensures Climbing(Chosen(s, k, chunks, 0))
    ensures forall g :: g in Chosen(s, k, chunks, 0) ==> WellChosen(s, g)
  {
    hide Chunked, Chosen, Flatten, Sorted;
    ChunkedSorted(s, scan, k, chunks);
    var groups := Chosen(s, k, chunks, 0);
    forall g, h | g in groups && h in groups && g.index < h.index
      ensures NoLarger(g, h)
    {
      var i, j := ChosenOrder(s, k, chunks, 0, g, h);
      ChunksClimb(chunks, i, j);
    }
    ChosenMembers(s, k, chunks, 0);
    forall g | g in groups
      ensures WellChosen(s, g)
    {
      ChunkIsWellChosen(s, scan, k, chunks, g);
    }
  }

  lemma ChunkIsWellChosen(s: Settings, scan: seq<Task>, k: Key, chunks: seq<seq<Task>>, g: Group)
    requires Chunked(s, scan, k, chunks) && Sorted(Flatten(chunks), BySize)
    requires g.tasks in chunks && s.WorthRewriting(g.tasks)
    ensures WellChosen(s, g)
  {
    hide Chunked, Flatten;
    var i :| 0 <= i < |chunks| && chunks[i] == g.tasks;
    ChunksClimb(chunks, i, i);
    forall t | t in g.tasks
      ensures s.IsEligible(t)
    {
      ChunkedMembers(s, scan, k, chunks, t);
    }
    assert forall a, b :: 0 <= a < b < |g.tasks| ==> BySize(g.tasks[a], g.tasks[b]);
  }

  lemma WorthIsTaken(s: Settings, k: Key, chunks: seq<seq<Task>>, c: seq<Task>, t: Task)
    requires c in chunks && s.WorthRewriting(c) && t in c
    ensures InSomeGroup(Chosen(s, k, chunks, 0), t)
  {
    hide Chosen;
    ChosenMembers(s, k, chunks, 0);
    var g :| g in Chosen(s, k, chunks, 0) && g.tasks == c;
    assert t in g.tasks;
  }

  /** A file left out is alone in its chunk. */
  lemma LeftAlone(s: Settings, scan: seq<Task>, k: Key, chunks: seq<seq<Task>>, t: Task) returns (i: nat)
    requires Chunked(s, scan, k, chunks) && t in scan && t.live.key == k && t.live.file.size < s.small
    requires !InSomeGroup(Chosen(s, k, chunks, 0), t)
    ensures i < |chunks| && chunks[i] == [t]
  {
    hide Chunked, Chosen, InSomeGroup;
    ChunkedMembers(s, scan, k, chunks, t);
    var c :| c in chunks && t in c;
    if s.WorthRewriting(c) {
      WorthIsTaken(s, k, chunks, c, t);
    }
    i :| i < |chunks| && chunks[i] == c;
    assert |c| == 1;
  }

  lemma AloneTogether(s: Settings, chunks: seq<seq<Task>>, i: nat, j: nat, t: Task, u: Task)
    requires Sorted(Flatten(chunks), BySize) && Tight(s, chunks) && i < j < |chunks| && chunks[i] == [t] && chunks[j] == [u]
    ensures !FitTogether(s, t, u)
  {
    hide Flatten, Sorted;
    BytesOne(t);
    assert TightAt(s, chunks, i);
    var v := chunks[i + 1][0];
    assert v in chunks[i + 1] && u in chunks[j];
    if i + 1 < j {
      ChunksClimb(chunks, i + 1, j);
    }
    assert BySize(v, u);
  }

  lemma ChunksTakeSizes(s: Settings, scan: seq<Task>, k: Key, chunks: seq<seq<Task>>)
    requires Chunked(s, scan, k, chunks) && Tight(s, chunks)
    ensures TakesSizes(s, Chosen(s, k, chunks, 0), scan, k)
  {
    hide Chunked, Chosen, Tight, Flatten, Sorted, FitTogether, InSomeGroup;
    ChunkedSorted(s, scan, k, chunks);
    var groups := Chosen(s, k, chunks, 0);
    forall t | t in scan && t.live.key == k && t.live.file.size > s.large
      ensures InSomeGroup(groups, t)
    {
      LargeIsTaken(s, scan, k, chunks, t);
    }
    forall t, u | t in scan && u in scan && t != u && t.live.key == u.live.key == k && FitTogether(s, t, u)
      ensures InSomeGroup(groups, t) || InSomeGroup(groups, u)
    {
      FitAreSmall(s, t, u);
      if !InSomeGroup(groups, t) && !InSomeGroup(groups, u) {
        var i := LeftAlone(s, scan, k, chunks, t);
        var j := LeftAlone(s, scan, k, chunks, u);
        assert [t][0] != [u][0];
        if i < j {
          AloneTogether(s, chunks, i, j, t, u);
        } else {
          AloneTogether(s, chunks, j, i, u, t);
        }
      }
    }
  }

  lemma FitAreSmall(s: Settings, t: Task, u: Task)
    requires FitTogether(s, t, u)
    ensures t.live.file.size < s.small && u.live.file.size < s.small && FitTogether(s, u, t)
  {
  }

  lemma LargeIsTaken(s: Settings, scan: seq<Task>, k: Key, chunks: seq<seq<Task>>, t: Task)
    requires Chunked(s, scan, k, chunks) && t in scan && t.live.key == k && t.live.file.size > s.large
    ensures InSomeGroup(Chosen(s, k, chunks, 0), t)
  {
    hide Chunked, Chosen, InSomeGroup;
    ChunkedMembers(s, scan, k, chunks, t);
    var c :| c in chunks && t in c;
    WorthIsTaken(s, k, chunks, c, t);
  }

  /** More groups take no less. */
  lemma TakesSizesMore(s: Settings, a: seq<Group>, b: seq<Group>, scan: seq<Task>)
    requires forall g :: g in a ==> g in b
    ensures forall k :: TakesSizes(s, a, scan, k) ==> TakesSizes(s, b, scan, k)
  {
    hide FitTogether;
    forall t | InSomeGroup(a, t)
      ensures InSomeGroup(b, t)
    {
      var g :| g in a && t in g.tasks;
      assert g in b;
    }
  }

  lemma ChunkedMembers(s: Settings, scan: seq<Task>, k: Key, chunks: seq<seq<Task>>, t: Task)
    requires Chunked(s, scan, k, chunks)
    ensures (exists c :: c in chunks && t in c) <==> t in scan && t.live.key == k && s.IsEligible(t)
  {
    hide Flatten, SortBy;
    FlattenMembers(chunks, t);
    SameElements(Eligible(s, InPartition(scan, k)), BySize, t);
  }

  lemma ChunkOffered(s: Settings, scan: seq<Task>, partitions: seq<Key>, k: Key, chunks: seq<seq<Task>>, g: Group)
    requires Chunked(s, scan, k, chunks) && k in partitions
    requires g.partition == k && g.tasks in chunks && s.WorthRewriting(g.tasks)
    ensures Offered(s, g, scan, partitions, k.specId)
  {
    hide Chunked;
    forall t | t in g.tasks
      ensures t in scan && t.live.key == k && s.IsEligible(t)
    {
      ChunkedMembers(s, scan, k, chunks, t);
    }
  }

  lemma ChunksTakeDeleted(s: Settings, scan: seq<Task>, k: Key, chunks: seq<seq<Task>>)
    requires Chunked(s, scan, k, chunks)
    ensures TakesDeleted(Chosen(s, k, chunks, 0), scan, k)
  {
    hide Chunked, Chosen;
    ChosenMembers(s, k, chunks, 0);
    forall t | t in scan && t.live.key == k && t.dels != []
      ensures exists g :: g in Chosen(s, k, chunks, 0) && t in g.tasks
    {
      ChunkedMembers(s, scan, k, chunks, t);
      var c :| c in chunks && t in c;
      assert s.WorthRewriting(c);
    }
  }

  lemma ChunksWithin(s: Settings, scan: seq<Task>, k: Key, chunks: seq<seq<Task>>)
    requires Chunked(s, scan, k, chunks)
    ensures multiset(GroupTasks(Chosen(s, k, chunks, 0))) <= multiset(InPartition(scan, k))
  {
    hide Flatten, SortBy, Eligible, InPartition, Chosen, GroupTasks;
    ChosenTasks(s, k, chunks, 0);
    EligibleWithin(s, InPartition(scan, k));
  }

  /** One partition's groups: its eligible files smallest first, packed, the chunks not worth a commit dropped. */
  method PartitionGroups(s: Settings, k: Key, tasks: seq<Task>, scan: seq<Task>, partitions: seq<Key>) returns (groups: seq<Group>)
    requires tasks == InPartition(scan, k) && k in partitions
    ensures forall g | g in groups :: Offered(s, g, scan, partitions, k.specId)
    ensures TakesDeleted(groups, scan, k) && TakesSizes(s, groups, scan, k)
    ensures Climbing(groups) && forall g | g in groups :: WellChosen(s, g) && g.partition == k
    ensures multiset(GroupTasks(groups)) <= multiset(InPartition(scan, k))
  {
    hide Flatten, SortBy, Eligible, InPartition, Chosen, GroupTasks, Offered, TakesDeleted, TakesSizes, WellChosen, Climbing, Tight;
    var chunks := Pack(s, SortBy(Eligible(s, tasks), BySize));
    groups := Chosen(s, k, chunks, 0);
    ChosenMembers(s, k, chunks, 0);
    forall g | g in groups
      ensures Offered(s, g, scan, partitions, k.specId)
    {
      ChunkOffered(s, scan, partitions, k, chunks, g);
    }
    ChosenClimb(s, scan, k, chunks);
    ChunksTakeSizes(s, scan, k, chunks);
    ChunksTakeDeleted(s, scan, k, chunks);
    ChunksWithin(s, scan, k, chunks);
  }

  lemma NoGroupTasks()
    ensures GroupTasks([]) == [] && Climbing([])
  {
  }

  lemma ClimbingGrows(a: seq<Group>, b: seq<Group>, k: Key)
    requires Climbing(a) && Climbing(b) && (forall g :: g in a ==> g.partition != k) && (forall g :: g in b ==> g.partition == k)
    ensures Climbing(a + b)
  {
    hide NoLarger;
  }

  lemma ClimbingSame(a: seq<Group>, b: seq<Group>)
    requires Climbing(a) && forall g :: g in a <==> g in b
    ensures Climbing(b)
  {
    hide NoLarger;
  }

  lemma RankedRaw(a: Group, b: Group)
    requires Before(a, b)
    ensures |a.tasks| > |b.tasks| || (|a.tasks| == |b.tasks| && Bytes(a.tasks) <= Bytes(b.tasks))
  {
  }

  lemma Ranked(groups: seq<Group>)
    requires Sorted(groups, Before)
    ensures forall i, j :: 0 <= i < j < |groups| ==>
              |groups[i].tasks| > |groups[j].tasks| || (|groups[i].tasks| == |groups[j].tasks| && Bytes(groups[i].tasks) <= Bytes(groups[j].tasks))
  {
    hide Before, Bytes;
    forall i, j | 0 <= i < j < |groups|
      ensures |groups[i].tasks| > |groups[j].tasks| || (|groups[i].tasks| == |groups[j].tasks| && Bytes(groups[i].tasks) <= Bytes(groups[j].tasks))
    {
      RankedRaw(groups[i], groups[j]);
    }
  }

  lemma NothingToTake(s: Settings, groups: seq<Group>, scan: seq<Task>, k: Key)
    requires InPartition(scan, k) == []
    ensures TakesDeleted(groups, scan, k) && TakesSizes(s, groups, scan, k)
  {
    assert forall t :: t in InPartition(scan, k) <==> t in scan && t.live.key == k;
  }

  lemma TakesDeletedSame(a: seq<Group>, b: seq<Group>, scan: seq<Task>)
    requires forall g :: g in a <==> g in b
    ensures forall k :: TakesDeleted(a, scan, k) ==> TakesDeleted(b, scan, k)
  {
  }

  method BuildGroups(s: Settings, scan: seq<Task>, partitions: seq<Key>, currentSpec: int) returns (groups: seq<Group>)
    ensures forall g | g in groups :: Offered(s, g, scan, partitions, currentSpec)
    ensures forall k | k in partitions && k.specId == currentSpec :: TakesDeleted(groups, scan, k) && TakesSizes(s, groups, scan, k)
    ensures forall g | g in groups :: WellChosen(s, g)
    ensures NoRepeats(partitions) ==> Climbing(groups)
    ensures NoRepeats(partitions) ==> multiset(GroupTasks(groups)) <= multiset(scan)
    ensures Sorted(groups, Before)
    ensures forall i, j :: 0 <= i < j < |groups| ==>
              |groups[i].tasks| > |groups[j].tasks| || (|groups[i].tasks| == |groups[j].tasks| && Bytes(groups[i].tasks) <= Bytes(groups[j].tasks))
  {
    hide GroupTasks, Offered, TakesDeleted, TakesSizes, WellChosen, Climbing, SortBy, InPartition, InPartitions, Sorted, Before, Bytes;
    var index := IndexByPartition(scan);
    var found: seq<Group> := [];
    NoGroupTasks();
    for i := 0 to |partitions|
      invariant forall g | g in found :: Offered(s, g, scan, partitions, currentSpec)
      invariant forall k | k in partitions[..i] && k.specId == currentSpec :: TakesDeleted(found, scan, k) && TakesSizes(s, found, scan, k)
      invariant forall g | g in found :: WellChosen(s, g) && g.partition in partitions[..i]
      invariant NoRepeats(partitions) ==> Climbing(found)
      invariant NoRepeats(partitions) ==> multiset(GroupTasks(found)) <= multiset(InPartitions(scan, partitions[..i]))
    {
      var k := partitions[i];
      if NoRepeats(partitions) {
        InPartitionsMonotone(scan, partitions, i, GroupTasks(found));
      }
      PrefixGrows(partitions, i);
      if k.specId != currentSpec {
        continue;
      }
      if k !in index {
        NothingToTake(s, found, scan, k);
        continue;
      }
      var more := PartitionGroups(s, k, index[k], scan, partitions);
      TakesDeletedGrows(found, more, scan);
      TakesSizesMore(s, found, found + more, scan);
      TakesSizesMore(s, more, found + more, scan);
      if NoRepeats(partitions) {
        assert k !in partitions[..i];
        ClimbingGrows(found, more, k);
      }
      GroupTasksConcat(found, more);
      found := found + more;
    }
    PrefixWhole(partitions);
    groups := SortBy(found, Before);
    BeforeOrder();
    SortBySorted(found, Before);
    GroupTasksPermuted(groups, found);
    InPartitionsWithin(scan, partitions);
    forall g
      ensures g in groups <==> g in found
    {
      SameElements(found, Before, g);
    }
    TakesDeletedSame(found, groups, scan);
    TakesSizesMore(s, found, groups, scan);
    if NoRepeats(partitions) {
      ClimbingSame(found, groups);
    }
    Ranked(groups);
  }

  lemma TakesDeletedGrows(a: seq<Group>, b: seq<Group>, scan: seq<Task>)
    ensures forall k :: TakesDeleted(a, scan, k) || TakesDeleted(b, scan, k) ==> TakesDeleted(a + b, scan, k)
  {
    forall k | TakesDeleted(a, scan, k) || TakesDeleted(b, scan, k)
      ensures TakesDeleted(a + b, scan, k)
    {
      forall t | t in scan && t.live.key == k && t.dels != []
        ensures exists g :: g in a + b && t in g.tasks
      {
        if TakesDeleted(a, scan, k) {
          var g :| g in a && t in g.tasks;
          assert g in a + b;
        } else {
          var g :| g in b && t in g.tasks;
          assert g in a + b;
        }
      }
    }
  }
}
