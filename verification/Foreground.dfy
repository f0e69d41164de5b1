/** What the table's own writers commit, and what each commit means for the content of every partition. */
module Foreground {
  import opened Paths
  import opened Tables

  /** A writer's commit, its files stamped with the sequence number it commits at. `RowDelta` is the streaming upsert: data
      and delete files under one number, where a positional delete reaches the commit's own data and an equality delete
      does not. */
  datatype Write =
    | Append(files: seq<Live>)
    | EqualityDelete(del: Live)
    | PositionDelete(del: Live)
    | RowDelta(files: seq<Live>, dels: seq<Live>)
    | Overwrite(ids: set<string>, files: seq<Live>)
  {
    function Added(): seq<Live> {
      match this
      case Append(files) => files
      case EqualityDelete(d) => [d]
      case PositionDelete(d) => [d]
      case RowDelta(files, dels) => dels + files
      case Overwrite(_, files) => files
    }

    function Removed(): set<string> {
      if Overwrite? then ids else {}
    }
  }

  ghost predicate Legal(live: seq<Live>, w: Write, n: int) {
    match w
    case Append(files) => FreshData(files, n)
    case EqualityDelete(d) => d.file.payload.Keys? && d.seqNo == n
    case PositionDelete(d) => d.file.payload.Positions? && d.seqNo == n
    case RowDelta(files, dels) => FreshData(files, n) && forall d | d in dels :: !d.file.IsData() && d.seqNo == n
    case Overwrite(ids, files) => FreshData(files, n) && forall d | d in Deletes(live) :: d.Id() !in ids
  }

  function AfterWrite(live: seq<Live>, w: Write): seq<Live> {
    Without(live, w.Removed()) + w.Added()
  }

  /** The meaning of a commit, stated on rows alone: rows leave and arrive, every matching row of a scope goes, or one such
      change follows another. */
  datatype Change =
    | Swap(gone: Key -> multiset<Row>, come: Key -> multiset<Row>)
    | Filter(scope: Key, ids: seq<int>, keys: set<seq<Value>>)
    | Then(first: Change, second: Change)

  /** What a change makes of the multiplicity `n` of row `r` in partition `p`. */
  function Apply(c: Change, p: Key, r: Row, n: int): int {
    match c
    case Swap(gone, come) => n - gone(p)[r] + come(p)[r]
    case Filter(scope, ids, keys) =>
      if (scope.values == [] || scope == p) && KeyOf(r, ids) in keys then 0 else n
    case Then(first, second) => Apply(second, p, r, Apply(first, p, r, n))
  }

  /** The multiplicity after a run of changes. */
  function Replay(changes: seq<Change>, p: Key, r: Row, n: int): int {
    if changes == [] then n
    else Apply(changes[|changes| - 1], p, r, Replay(changes[..|changes| - 1], p, r, n))
  }

  /** The rows of `e` below `n` that `d` strikes out: visible under `dels`, named by `d`. */
  function StruckUpTo(dels: set<Live>, d: Live, e: Live, n: nat): seq<Row>
    requires n <= |e.Data()|
  {
    if n == 0 then []
    else StruckUpTo(dels, d, e, n - 1) +
         (if !Hidden(dels, e, n - 1) && Applies(d, e) && Names(d, e, n - 1) then [e.Data()[n - 1]] else [])
  }

  function StruckRows(live: seq<Live>, dels: set<Live>, d: Live, p: Key): seq<Row> {
    if live == [] then []
    else (if live[0].key == p then StruckUpTo(dels, d, live[0], |live[0].Data()|) else []) +
         StruckRows(live[1..], dels, d, p)
  }

  /** What one delete file does: an equality delete takes every matching row of its scope, whichever file holds it; a
      positional one the rows it names and a reader still saw. */
  function DeleteMeaning(live: seq<Live>, d: Live): Change {
    if d.file.payload.Keys? then Filter(d.key, d.file.payload.ids, d.file.payload.Tuples())
    else Swap(p => multiset(StruckRows(live, Deletes(live), d, p)), p => multiset{})
  }

  /** The deletes one after another, then what `own`, the commit's deletes, leave of its own files. */
  function DeltaMeaning(live: seq<Live>, dels: seq<Live>, files: seq<Live>, own: set<Live>): Change
    decreases |dels|
  {
    if dels == [] then Swap(p => multiset{}, p => multiset(ReadRows(files, own, p)))
    else Then(DeleteMeaning(live, dels[0]), DeltaMeaning(live + [dels[0]], dels[1..], files, own))
  }

  function Own(dels: seq<Live>): set<Live> {
    set d | d in dels
  }

  function Meaning(live: seq<Live>, w: Write): Change {
    match w
    case Append(files) => Swap(p => multiset{}, p => multiset(ReadRows(files, {}, p)))
    case EqualityDelete(d) => DeleteMeaning(live, d)
    case PositionDelete(d) => DeleteMeaning(live, d)
    case RowDelta(files, dels) => DeltaMeaning(live, dels, files, Own(dels))
    case Overwrite(ids, files) =>
      Swap(p => multiset(ReadRows(Within(live, ids), Deletes(live), p)), p => multiset(ReadRows(files, {}, p)))
  }

  // ---- Every commit means what `Meaning` says ----

  lemma HiddenByOneMore(dels: set<Live>, d: Live, e: Live, i: nat)
    requires i < |e.Data()|
    ensures Hidden(dels + {d}, e, i) <==> Hidden(dels, e, i) || (Applies(d, e) && Names(d, e, i))
  {
    if Hidden(dels, e, i) {
      var x :| x in dels && Applies(x, e) && Names(x, e, i);
      assert x in dels + {d};
    }
    if Applies(d, e) && Names(d, e, i) {
      assert d in dels + {d};
    }
  }

  /** The row `i` of `e`, unless `out` takes it. */
  function RowUnless(e: Live, i: nat, out: bool): seq<Row>
    requires i < |e.Data()|
  {
    if out then [] else [e.Data()[i]]
  }

  ghost predicate Struck(d: Live, e: Live, i: nat)
    requires i < |e.Data()|
  {
    Applies(d, e) && Names(d, e, i)
  }

  lemma OneMoreRow(dels: set<Live>, d: Live, e: Live, n: nat)
    requires 0 < n <= |e.Data()|
    ensures SeenUpTo(dels, e, n) == SeenUpTo(dels, e, n - 1) + RowUnless(e, n - 1, Hidden(dels, e, n - 1))
    ensures SeenUpTo(dels + {d}, e, n) ==
            SeenUpTo(dels + {d}, e, n - 1) + RowUnless(e, n - 1, Hidden(dels, e, n - 1) || Struck(d, e, n - 1))
    ensures StruckUpTo(dels, d, e, n) ==
            StruckUpTo(dels, d, e, n - 1) + RowUnless(e, n - 1, Hidden(dels, e, n - 1) || !Struck(d, e, n - 1))
  {
    HiddenByOneMore(dels, d, e, n - 1);
  }

  lemma SumsGrow<T>(a: seq<T>, b: seq<T>, c: seq<T>, x: seq<T>, y: seq<T>, z: seq<T>)
    requires multiset(a) == multiset(b) + multiset(c)
    requires multiset(x) == multiset(y) + multiset(z)
    ensures multiset(a + x) == multiset(b + y) + multiset(c + z)
  {
  }

  lemma NothingSeen(dels: set<Live>, d: Live, e: Live)
    ensures SeenUpTo(dels, e, 0) == [] && StruckUpTo(dels, d, e, 0) == []
  {
  }

  lemma GrownSums<T>(a: seq<T>, b: seq<T>, c: seq<T>, x: seq<T>, y: seq<T>, z: seq<T>, ax: seq<T>, bx: seq<T>, cx: seq<T>)
    requires multiset(a) == multiset(b) + multiset(c)
    requires multiset(x) == multiset(y) + multiset(z)
    requires ax == a + x && bx == b + y && cx == c + z
    ensures multiset(ax) == multiset(bx) + multiset(cx)
  {
    SumsGrow(a, b, c, x, y, z);
  }

  lemma RowSplits(e: Live, i: nat, hidden: bool, hit: bool)
    requires i < |e.Data()|
    ensures multiset(RowUnless(e, i, hidden)) ==
            multiset(RowUnless(e, i, hidden || hit)) + multiset(RowUnless(e, i, hidden || !hit))
  {
  }

  lemma {:induction false} SeenLosesStruck(dels: set<Live>, d: Live, e: Live, n: nat)
    requires n <= |e.Data()|
    ensures multiset(SeenUpTo(dels, e, n)) ==
            multiset(SeenUpTo(dels + {d}, e, n)) + multiset(StruckUpTo(dels, d, e, n))
  {
    hide Hidden, Struck, SeenUpTo, StruckUpTo, RowUnless;
    if n == 0 {
      NothingSeen(dels, d, e);
      NothingSeen(dels + {d}, d, e);
    } else {
      SeenLosesStruck(dels, d, e, n - 1);
      OneMoreRow(dels, d, e, n);
      var hidden, hit := Hidden(dels, e, n - 1), Struck(d, e, n - 1);
      RowSplits(e, n - 1, hidden, hit);
      GrownSums(SeenUpTo(dels, e, n - 1), SeenUpTo(dels + {d}, e, n - 1), StruckUpTo(dels, d, e, n - 1),
                RowUnless(e, n - 1, hidden), RowUnless(e, n - 1, hidden || hit), RowUnless(e, n - 1, hidden || !hit),
                SeenUpTo(dels, e, n), SeenUpTo(dels + {d}, e, n), StruckUpTo(dels, d, e, n));
    }
  }

  lemma {:induction false} ReadLosesStruck(live: seq<Live>, dels: set<Live>, d: Live, p: Key)
    ensures multiset(ReadRows(live, dels, p)) ==
            multiset(ReadRows(live, dels + {d}, p)) + multiset(StruckRows(live, dels, d, p))
  {
    if live != [] {
      ReadLosesStruck(live[1..], dels, d, p);
      SeenLosesStruck(dels, d, live[0], |live[0].Data()|);
    }
  }

  lemma FilteredGrows(seen: seq<Row>, left: seq<Row>, e: Live, i: nat, hidden: bool, hit: bool, goes: bool, r: Row,
                      seen': seq<Row>, left': seq<Row>)
    requires i < |e.Data()|
    requires multiset(left)[r] == if goes then 0 else multiset(seen)[r]
    requires r == e.Data()[i] ==> hit == goes
    requires seen' == seen + RowUnless(e, i, hidden) && left' == left + RowUnless(e, i, hidden || hit)
    ensures multiset(left')[r] == if goes then 0 else multiset(seen')[r]
  {
  }

  lemma {:induction false} SeenFiltered(dels: set<Live>, d: Live, e: Live, n: nat, r: Row)
    requires d.file.payload.Keys? && n <= |e.Data()| && Applies(d, e)
    ensures multiset(SeenUpTo(dels + {d}, e, n))[r] ==
            if KeyOf(r, d.file.payload.ids) in d.file.payload.Tuples() then 0 else multiset(SeenUpTo(dels, e, n))[r]
  {
    hide Hidden, SeenUpTo, StruckUpTo, RowUnless;
    if n == 0 {
      NothingSeen(dels, d, e);
      NothingSeen(dels + {d}, d, e);
    } else {
      SeenFiltered(dels, d, e, n - 1, r);
      OneMoreRow(dels, d, e, n);
      FilteredGrows(SeenUpTo(dels, e, n - 1), SeenUpTo(dels + {d}, e, n - 1), e, n - 1, Hidden(dels, e, n - 1),
                    Struck(d, e, n - 1), KeyOf(r, d.file.payload.ids) in d.file.payload.Tuples(), r,
                    SeenUpTo(dels, e, n), SeenUpTo(dels + {d}, e, n));
    }
  }

  predicate DataBelow(live: seq<Live>, n: int) {
    forall e | e in live && e.file.IsData() :: e.seqNo < n
  }

  lemma NoRowsSeen(dels: set<Live>, e: Live)
    requires !e.file.IsData()
    ensures Seen(dels, e) == []
  {
  }

  lemma OneFiltered(e: Live, dels: set<Live>, d: Live, p: Key, r: Row)
    requires d.file.payload.Keys? && (e.file.IsData() ==> e.seqNo < d.seqNo)
    ensures multiset(ReadRows([e], dels + {d}, p))[r] ==
            Apply(Filter(d.key, d.file.payload.ids, d.file.payload.Tuples()), p, r, multiset(ReadRows([e], dels, p))[r])
  {
    hide Normalize, KeyOf, Seen, ReadRows;
    ReadOne(e, dels, p);
    ReadOne(e, dels + {d}, p);
    if e.key == p {
      if !e.file.IsData() {
        NoRowsSeen(dels, e);
        NoRowsSeen(dels + {d}, e);
      } else if Applies(d, e) {
        SeenWhole(dels, e);
        SeenWhole(dels + {d}, e);
        SeenFiltered(dels, d, e, |e.Data()|, r);
      } else {
        SeenByApplicable(dels, dels + {d}, e);
      }
    }
  }

  lemma SeenWhole(dels: set<Live>, e: Live)
    ensures Seen(dels, e) == SeenUpTo(dels, e, |e.Data()|)
  {
  }

  lemma {:induction false} ReadFiltered(live: seq<Live>, dels: set<Live>, d: Live, p: Key, r: Row)
    requires d.file.payload.Keys? && DataBelow(live, d.seqNo)
    ensures multiset(ReadRows(live, dels + {d}, p))[r] ==
            Apply(Filter(d.key, d.file.payload.ids, d.file.payload.Tuples()), p, r, multiset(ReadRows(live, dels, p))[r])
  {
    hide Normalize, KeyOf, ReadRows;
    ReadNone(dels, p);
    ReadNone(dels + {d}, p);
    if live != [] {
      var e, rest := live[0], live[1..];
      assert live == [e] + rest && e in live && forall x | x in rest :: x in live;
      ReadFiltered(rest, dels, d, p, r);
      OneFiltered(e, dels, d, p, r);
      ReadCons(e, rest, dels, p);
      ReadCons(e, rest, dels + {d}, p);
    }
  }

  /** Adding one delete file changes the deletes by that file and the data not at all. */
  lemma AddDelete(live: seq<Live>, d: Live, p: Key)
    requires !d.file.IsData()
    ensures Deletes(live + [d]) == Deletes(live) + {d}
    ensures ReadRows(live + [d], Deletes(live) + {d}, p) == ReadRows(live, Deletes(live) + {d}, p)
  {
    ReadConcat(live, [d], Deletes(live) + {d}, p);
    ReadNoData([d], Deletes(live) + {d}, p);
  }

  lemma {:induction false} WithoutNothing(live: seq<Live>)
    ensures Without(live, {}) == live && Within(live, {}) == []
  {
    if live != [] {
      WithoutNothing(live[1..]);
      assert live == [live[0]] + live[1..];
    }
  }

  lemma AddFreshData(kept: seq<Live>, files: seq<Live>, n: int, p: Key)
    requires AllBelow(kept, n) && FreshData(files, n)
    ensures Deletes(kept + files) == Deletes(kept)
    ensures Content(kept + files, p) == Content(kept, p) + multiset(ReadRows(files, {}, p))
  {
    var dels := Deletes(kept);
    assert Deletes(kept + files) == dels;
    forall a | a in files
      ensures Seen(dels, a) == Seen({}, a)
    {
      FreshIsUndeleted(dels, a, n);
    }
    ReadAgrees(files, dels, {}, p);
    ReadConcat(kept, files, dels, p);
  }

  lemma OverwriteMeaning(live: seq<Live>, ids: set<string>, files: seq<Live>, n: int, p: Key)
    requires AllBelow(live, n) && Legal(live, Overwrite(ids, files), n)
    ensures Content(live, p) + multiset(ReadRows(files, {}, p)) ==
            Content(Without(live, ids) + files, p) + multiset(ReadRows(Within(live, ids), Deletes(live), p))
  {
    WithoutMembers(live, ids);
    ReadSplit(live, ids, Deletes(live), p);
    AddFreshData(Without(live, ids), files, n, p);
    assert Deletes(Without(live, ids)) == Deletes(live);
  }

  lemma PositionDeleteMeaning(live: seq<Live>, d: Live, p: Key)
    requires d.file.payload.Positions?
    ensures Content(live, p) == Content(live + [d], p) + multiset(StruckRows(live, Deletes(live), d, p))
  {
    AddDelete(live, d, p);
    ReadLosesStruck(live, Deletes(live), d, p);
  }

  lemma EqualityDeleteMeaning(live: seq<Live>, d: Live, p: Key, r: Row)
    requires d.file.payload.Keys? && DataBelow(live, d.seqNo)
    ensures Content(live + [d], p)[r] ==
            Apply(Filter(d.key, d.file.payload.ids, d.file.payload.Tuples()), p, r, Content(live, p)[r])
  {
    AddDelete(live, d, p);
    ReadFiltered(live, Deletes(live), d, p, r);
  }

  /** One delete file, added to a table whose data it outnumbers. */
  lemma DeleteMeans(live: seq<Live>, d: Live, p: Key, r: Row)
    requires !d.file.IsData() && DataBelow(live, d.seqNo)
    ensures Content(live + [d], p)[r] == Apply(DeleteMeaning(live, d), p, r, Content(live, p)[r])
  {
    hide Normalize, Applies, Content, StruckRows, KeyOf;
    if d.file.payload.Keys? {
      EqualityDeleteMeaning(live, d, p, r);
    } else {
      PositionDeleteMeaning(live, d, p);
    }
  }

  /** `own` are the only deletes of the table that reach the files added. */
  ghost predicate OnlyOwn(live: seq<Live>, dels: seq<Live>, files: seq<Live>, own: set<Live>) {
    && (forall d, e :: d in live && !d.file.IsData() && e in files && Applies(d, e) ==> d in own)
    && (forall d :: d in dels ==> d in own)
    && (forall d :: d in own ==> d in dels || (d in live && !d.file.IsData()))
  }

  lemma AddOwnData(live: seq<Live>, files: seq<Live>, own: set<Live>, p: Key)
    requires OnlyOwn(live, [], files, own) && forall f | f in files :: f.file.IsData()
    ensures Content(live + files, p) == Content(live, p) + multiset(ReadRows(files, own, p))
  {
    hide Normalize, Applies, ReadRows;
    var dels := Deletes(live);
    assert Deletes(live + files) == dels;
    forall a | a in files
      ensures Seen(dels, a) == Seen(own, a)
    {
      SeenByApplicable(dels, own, a);
    }
    ReadAgrees(files, dels, own, p);
    ReadConcat(live, files, dels, p);
  }

  lemma {:induction false} DeltaMeans(live: seq<Live>, dels: seq<Live>, files: seq<Live>, own: set<Live>, n: int, p: Key, r: Row)
    requires DataBelow(live, n) && FreshData(files, n) && OnlyOwn(live, dels, files, own)
    requires forall d | d in dels :: !d.file.IsData() && d.seqNo == n
    ensures Content(live + (dels + files), p)[r] == Apply(DeltaMeaning(live, dels, files, own), p, r, Content(live, p)[r])
    decreases |dels|
  {
    hide Normalize, Applies, Content, DeleteMeaning;
    if dels == [] {
      assert dels + files == files;
      AddOwnData(live, files, own, p);
    } else {
      var d, rest := dels[0], dels[1..];
      assert dels == [d] + rest && d in dels && forall x | x in rest :: x in dels;
      DeleteMeans(live, d, p, r);
      DeltaMeans(live + [d], rest, files, own, n, p, r);
      assert live + (dels + files) == (live + [d]) + (rest + files);
    }
  }

  lemma OwnAtTheStart(live: seq<Live>, dels: seq<Live>, files: seq<Live>, n: int)
    requires AllBelow(live, n) && FreshData(files, n)
    ensures OnlyOwn(live, dels, files, Own(dels))
  {
    hide Normalize;
  }

  /** A legal commit changes the multiplicity of every row of every partition exactly as its meaning says. */
  lemma WriteMeansItsChange(live: seq<Live>, w: Write, n: int, p: Key, r: Row)
    requires AllBelow(live, n) && Legal(live, w, n)
    ensures Content(AfterWrite(live, w), p)[r] == Apply(Meaning(live, w), p, r, Content(live, p)[r])
  {
    hide Normalize, Applies, Content, DeleteMeaning, DeltaMeaning;
    WithoutNothing(live);
    var after := AfterWrite(live, w);
    match w
    case Append(files) =>
      assert after == live + files;
      AddFreshData(live, files, n, p);
    case EqualityDelete(d) =>
      assert after == live + [d];
      DeleteMeans(live, d, p, r);
    case PositionDelete(d) =>
      assert after == live + [d];
      DeleteMeans(live, d, p, r);
    case RowDelta(files, dels) =>
      assert after == live + (dels + files);
      OwnAtTheStart(live, dels, files, n);
      DeltaMeans(live, dels, files, Own(dels), n, p, r);
    case Overwrite(ids, files) =>
      assert after == Without(live, ids) + files;
      OverwriteMeaning(live, ids, files, n, p);
      SwapCount(Content(live, p), Content(after, p), multiset(ReadRows(Within(live, ids), Deletes(live), p)),
                multiset(ReadRows(files, {}, p)), r);
  }

  lemma SwapCount<T>(before: multiset<T>, after: multiset<T>, gone: multiset<T>, come: multiset<T>, r: T)
    requires before + come == after + gone
    ensures after[r] + gone[r] == before[r] + come[r]
  {
    assert (before + come)[r] == (after + gone)[r];
  }

  // ---- Commits whose meaning does not depend on the physical layout ----

  /** A file some later commit will add. */
  datatype Planned = Planned(key: Key, file: File)

  /** Data files and equality deletes in one commit, either of which may be none: the commits that need not know which
      files hold the rows. */
  datatype Intent = Upsert(files: seq<Planned>, dels: seq<Planned>)

  predicate IntentOk(i: Intent) {
    (forall f | f in i.files :: f.file.IsData()) && (forall d | d in i.dels :: d.file.payload.Keys?)
  }

  function Stamp(files: seq<Planned>, n: int): (r: seq<Live>)
    ensures |r| == |files|
    ensures forall i :: 0 <= i < |files| ==> r[i] == Live(files[i].key, files[i].file, n)
  {
    seq(|files|, i requires 0 <= i < |files| => Live(files[i].key, files[i].file, n))
  }

  function Perform(i: Intent, n: int): Write {
    RowDelta(Stamp(i.files, n), Stamp(i.dels, n))
  }

  /** Perform the intents one commit after another, the first at `n`. */
  function PerformAll(live: seq<Live>, n: int, intents: seq<Intent>): seq<Live>
    decreases |intents|
  {
    if intents == [] then live
    else PerformAll(AfterWrite(live, Perform(intents[0], n)), n + 1, intents[1..])
  }

  lemma {:induction false} StampReadsAlike(files: seq<Planned>, n: int, m: int, p: Key)
    requires forall f | f in files :: f.file.IsData()
    ensures ReadRows(Stamp(files, n), {}, p) == ReadRows(Stamp(files, m), {}, p)
  {
    if files != [] {
      assert Stamp(files, n)[1..] == Stamp(files[1..], n) && Stamp(files, m)[1..] == Stamp(files[1..], m);
      StampReadsAlike(files[1..], n, m, p);
      var a, b := Stamp(files, n)[0], Stamp(files, m)[0];
      assert files[0] in files;
      SeenAgrees({}, a, {}, b, |a.Data()|);
    }
  }

  /** A commit's own equality deletes leave its own data alone. */
  lemma OwnKeysSpareOwnData(files: seq<Planned>, own: set<Live>, n: int, p: Key)
    requires forall d | d in own :: d.file.payload.Keys? && d.seqNo == n
    ensures ReadRows(Stamp(files, n), own, p) == ReadRows(Stamp(files, n), {}, p)
  {
    forall a | a in Stamp(files, n)
      ensures Seen(own, a) == Seen({}, a)
    {
      SeenUndeleted(own, a, |a.Data()|);
      SeenUndeleted({}, a, |a.Data()|);
    }
    ReadAgrees(Stamp(files, n), own, {}, p);
  }

  ghost predicate KeysAt(own: set<Live>, n: int) {
    forall d | d in own :: d.file.payload.Keys? && d.seqNo == n
  }

  /** What an upsert means depends neither on the layout it lands on nor on its number. */
  lemma {:induction false} UpsertMeansAlike(a: seq<Live>, n: int, ownA: set<Live>, b: seq<Live>, m: int, ownB: set<Live>,
                                            files: seq<Planned>, dels: seq<Planned>, p: Key, r: Row, x: int)
    requires KeysAt(ownA, n) && KeysAt(ownB, m)
    requires forall f | f in files :: f.file.IsData()
    requires forall d | d in dels :: d.file.payload.Keys?
    ensures Apply(DeltaMeaning(a, Stamp(dels, n), Stamp(files, n), ownA), p, r, x) ==
            Apply(DeltaMeaning(b, Stamp(dels, m), Stamp(files, m), ownB), p, r, x)
    decreases |dels|
  {
    hide Normalize, ReadRows, KeyOf;
    if dels == [] {
      OwnKeysSpareOwnData(files, ownA, n, p);
      OwnKeysSpareOwnData(files, ownB, m, p);
      StampReadsAlike(files, n, m, p);
    } else {
      assert Stamp(dels, n)[1..] == Stamp(dels[1..], n) && Stamp(dels, m)[1..] == Stamp(dels[1..], m);
      assert dels[0] in dels && forall d | d in dels[1..] :: d in dels;
      var x' := Apply(DeleteMeaning(a, Stamp(dels, n)[0]), p, r, x);
      UpsertMeansAlike(a + [Stamp(dels, n)[0]], n, ownA, b + [Stamp(dels, m)[0]], m, ownB, files, dels[1..], p, r, x');
    }
  }

  lemma PerformLegal(live: seq<Live>, n: int, i: Intent)
    requires AllBelow(live, n) && IntentOk(i)
    ensures Legal(live, Perform(i, n), n)
    ensures AllBelow(AfterWrite(live, Perform(i, n)), n + 1)
    ensures KeysAt(Own(Stamp(i.dels, n)), n)
  {
    hide Normalize;
    WithoutMembers(live, {});
  }

  lemma SameAfterOne(a: seq<Live>, n: int, b: seq<Live>, m: int, i: Intent, q: Key)
    requires AllBelow(a, n) && AllBelow(b, m) && IntentOk(i)
    requires Content(a, q) == Content(b, q)
    ensures Content(AfterWrite(a, Perform(i, n)), q) == Content(AfterWrite(b, Perform(i, m)), q)
  {
    hide Normalize, Content, Legal, AllBelow, AfterWrite, DeltaMeaning;
    PerformLegal(a, n, i);
    PerformLegal(b, m, i);
    forall r
      ensures Content(AfterWrite(a, Perform(i, n)), q)[r] == Content(AfterWrite(b, Perform(i, m)), q)[r]
    {
      WriteMeansItsChange(a, Perform(i, n), n, q, r);
      WriteMeansItsChange(b, Perform(i, m), m, q, r);
      UpsertMeansAlike(a, n, Own(Stamp(i.dels, n)), b, m, Own(Stamp(i.dels, m)), i.files, i.dels, q, r, Content(a, q)[r]);
    }
  }

  /** Two layouts of the same rows stay two layouts of the same rows under any later run of appends, equality deletes and
      upserts, each table committing under its own sequence numbers. */
  lemma {:induction false} SameRowsStaySame(a: seq<Live>, n: int, b: seq<Live>, m: int, intents: seq<Intent>, p: Key)
    requires AllBelow(a, n) && AllBelow(b, m)
    requires forall i | i in intents :: IntentOk(i)
    requires forall q :: Content(a, q) == Content(b, q)
    ensures Content(PerformAll(a, n, intents), p) == Content(PerformAll(b, m, intents), p)
    decreases |intents|
  {
    hide Normalize, Content, AfterWrite, AllBelow, Legal;
    if intents != [] {
      var i := intents[0];
      assert i in intents && forall x | x in intents[1..] :: x in intents;
      PerformLegal(a, n, i);
      PerformLegal(b, m, i);
      forall q
        ensures Content(AfterWrite(a, Perform(i, n)), q) == Content(AfterWrite(b, Perform(i, m)), q)
      {
        SameAfterOne(a, n, b, m, i, q);
      }
      SameRowsStaySame(AfterWrite(a, Perform(i, n)), n + 1, AfterWrite(b, Perform(i, m)), m + 1, intents[1..], p);
    }
  }
}
