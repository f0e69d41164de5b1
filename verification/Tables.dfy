/** Table state as a reader sees it: files with rows or delete payloads, sequence numbers, and the rules of the
    Iceberg Table Spec ("Scan Planning") for which delete applies to which data file. Reading is a
    partition-indexed multiset of rows. */
module Tables {
  import opened Wrappers
  import opened Paths

  datatype Value = Null | Datum(n: int)
  type Row = map<int, Value>

  /** A column's value; a row written before the column existed reads as null. */
  function Field(row: Row, id: int): Value {
    if id in row then row[id] else Null
  }

  /** The tuple an equality delete compares. Nulls are ordinary values here, so comparison is null-safe. */
  function KeyOf(row: Row, ids: seq<int>): seq<Value> {
    seq(|ids|, i requires 0 <= i < |ids| => Field(row, ids[i]))
  }

  datatype Payload =
    | Rows(rows: seq<Row>)
    | Positions(target: Option<string>, at: set<(string, nat)>)
    | Keys(ids: seq<int>, deleted: set<Row>) {
    /** The tuples an equality delete strikes out; its file may hold whole rows, and only its key columns count. */
    function Tuples(): set<seq<Value>>
      requires Keys?
    {
      set k | k in deleted :: KeyOf(k, ids)
    }
  }

  /** A data or delete file with what its manifest entry says about it. `records` and `size` are metadata and are
      not assumed to agree with the payload. */
  datatype File = File(path: string, partition: seq<Value>, payload: Payload, records: nat, size: nat, parquet: bool) {
    predicate IsData() {
      payload.Rows?
    }
  }

  /** Which partition a file belongs to: the spec it was written under and its tuple under that spec. */
  datatype Key = Key(specId: int, values: seq<Value>)

  /** A live file, as planning a scan sees it. */
  datatype Live = Live(key: Key, file: File, seqNo: int) {
    function Id(): string {
      Normalize(file.path)
    }

    function Data(): seq<Row> {
      if file.payload.Rows? then file.payload.rows else []
    }
  }

  /** The delete `d` must be applied when the data file `e` is read. */
  predicate Applies(d: Live, e: Live) {
    match d.file.payload
    case Rows(_) => false
    case Positions(target, _) => d.key == e.key && e.seqNo <= d.seqNo && (target.None? || target.value == e.file.path)
    case Keys(_, _) => (d.key.values == [] || d.key == e.key) && e.seqNo < d.seqNo
  }

  /** An applicable delete `d` names row `i` of `e`. */
  predicate Names(d: Live, e: Live, i: nat)
    requires i < |e.Data()|
  {
    match d.file.payload
    case Rows(_) => false
    case Positions(_, at) => (e.file.path, i) in at
    case Keys(ids, _) => KeyOf(e.Data()[i], ids) in d.file.payload.Tuples()
  }

  predicate Hidden(dels: set<Live>, e: Live, i: nat)
    requires i < |e.Data()|
  {
    exists d | d in dels :: Applies(d, e) && Names(d, e, i)
  }

  function SeenUpTo(dels: set<Live>, e: Live, n: nat): seq<Row>
    requires n <= |e.Data()|
  {
    if n == 0 then []
    else SeenUpTo(dels, e, n - 1) + (if Hidden(dels, e, n - 1) then [] else [e.Data()[n - 1]])
  }

  /** The rows of `e` a reader sees under the deletes `dels`. */
  function Seen(dels: set<Live>, e: Live): seq<Row> {
    SeenUpTo(dels, e, |e.Data()|)
  }

  function ReadRows(live: seq<Live>, dels: set<Live>, p: Key): seq<Row> {
    if live == [] then []
    else (if live[0].key == p then Seen(dels, live[0]) else []) + ReadRows(live[1..], dels, p)
  }

  function Deletes(live: seq<Live>): set<Live> {
    set d | d in live && !d.file.IsData()
  }

  /** What a reader of partition `p` gets. */
  function Content(live: seq<Live>, p: Key): multiset<Row> {
    multiset(ReadRows(live, Deletes(live), p))
  }

  function Without(live: seq<Live>, ids: set<string>): seq<Live> {
    if live == [] then []
    else (if live[0].Id() in ids then [] else [live[0]]) + Without(live[1..], ids)
  }

  function Within(live: seq<Live>, ids: set<string>): seq<Live> {
    if live == [] then []
    else (if live[0].Id() in ids then [live[0]] else []) + Within(live[1..], ids)
  }

  // ---- Laws of reading ----

  lemma {:induction false} SeenAgrees(dels1: set<Live>, e1: Live, dels2: set<Live>, e2: Live, n: nat)
    requires e1.Data() == e2.Data() && n <= |e1.Data()|
    requires forall i: nat | i < |e1.Data()| :: Hidden(dels1, e1, i) == Hidden(dels2, e2, i)
    ensures SeenUpTo(dels1, e1, n) == SeenUpTo(dels2, e2, n)
  {
    if n > 0 {
      SeenAgrees(dels1, e1, dels2, e2, n - 1);
      assert Hidden(dels1, e1, n - 1) == Hidden(dels2, e2, n - 1);
    }
  }

  /** Two delete sets that agree on every delete applying to `e` show the same rows of it. */
  lemma SeenByApplicable(dels1: set<Live>, dels2: set<Live>, e: Live)
    requires forall d :: Applies(d, e) ==> (d in dels1 <==> d in dels2)
    ensures Seen(dels1, e) == Seen(dels2, e)
  {
    SeenAgrees(dels1, e, dels2, e, |e.Data()|);
  }

  lemma {:induction false} SeenUndeleted(dels: set<Live>, e: Live, n: nat)
    requires n <= |e.Data()|
    requires forall d | d in dels :: !Applies(d, e)
    ensures SeenUpTo(dels, e, n) == e.Data()[..n]
  {
    if n > 0 {
      SeenUndeleted(dels, e, n - 1);
    }
  }

  lemma {:induction false} ReadConcat(a: seq<Live>, b: seq<Live>, dels: set<Live>, p: Key)
    ensures ReadRows(a + b, dels, p) == ReadRows(a, dels, p) + ReadRows(b, dels, p)
  {
    if a == [] {
      assert a + b == b;
    } else {
      assert (a + b)[1..] == a[1..] + b;
      ReadConcat(a[1..], b, dels, p);
    }
  }

  lemma {:induction false} ReadAgrees(live: seq<Live>, dels1: set<Live>, dels2: set<Live>, p: Key)
    requires forall e | e in live :: Seen(dels1, e) == Seen(dels2, e)
    ensures ReadRows(live, dels1, p) == ReadRows(live, dels2, p)
  {
    if live != [] {
      assert live[0] in live && forall e | e in live[1..] :: e in live;
      ReadAgrees(live[1..], dels1, dels2, p);
    }
  }

  lemma ReadOne(e: Live, dels: set<Live>, p: Key)
    ensures ReadRows([e], dels, p) == if e.key == p then Seen(dels, e) else []
  {
    assert ReadRows([e][1..], dels, p) == [];
  }

  lemma ReadCons(e: Live, live: seq<Live>, dels: set<Live>, p: Key)
    ensures ReadRows([e] + live, dels, p) == ReadRows([e], dels, p) + ReadRows(live, dels, p)
  {
    ReadConcat([e], live, dels, p);
  }

  lemma ReadNone(dels: set<Live>, p: Key)
    ensures ReadRows([], dels, p) == []
  {
  }

  /** One file taken out of a listing takes exactly its own rows with it. */
  lemma ReadTakeOut(live: seq<Live>, i: nat, dels: set<Live>, p: Key)
    requires i < |live|
    ensures multiset(ReadRows(live, dels, p)) ==
            multiset(ReadRows([live[i]], dels, p)) + multiset(ReadRows(live[..i] + live[i + 1..], dels, p))
  {
    var before, x, after := live[..i], [live[i]], live[i + 1..];
    assert live == before + (x + after);
    ReadConcat(before, x + after, dels, p);
    ReadConcat(x, after, dels, p);
    ReadConcat(before, after, dels, p);
  }

  /** Reading does not depend on the order files are listed in. */
  lemma {:induction false} ReadPermuted(a: seq<Live>, b: seq<Live>, dels: set<Live>, p: Key)
    requires multiset(a) == multiset(b)
    ensures multiset(ReadRows(a, dels, p)) == multiset(ReadRows(b, dels, p))
  {
    hide ReadRows;
    if a == [] {
      NothingElse(b);
    } else {
      var i := HeadSomewhere(a, b);
      ReadPermuted(a[1..], b[..i] + b[i + 1..], dels, p);
      ReadTakeOut(a, 0, dels, p);
      ReadTakeOut(b, i, dels, p);
      assert a[..0] + a[1..] == a[1..];
    }
  }

  lemma DeletesPermuted(a: seq<Live>, b: seq<Live>)
    requires multiset(a) == multiset(b)
    ensures Deletes(a) == Deletes(b)
  {
    forall d
      ensures d in a <==> d in b
    {
      assert d in a <==> d in multiset(a);
      assert d in b <==> d in multiset(b);
    }
  }

  lemma ContentPermuted(a: seq<Live>, b: seq<Live>, p: Key)
    requires multiset(a) == multiset(b)
    ensures Content(a, p) == Content(b, p)
  {
    DeletesPermuted(a, b);
    ReadPermuted(a, b, Deletes(a), p);
  }

  lemma {:induction false} WithoutMembers(live: seq<Live>, ids: set<string>)
    ensures forall e :: e in Without(live, ids) <==> e in live && e.Id() !in ids
    ensures forall e :: e in Within(live, ids) <==> e in live && e.Id() in ids
  {
    if live != [] {
      WithoutMembers(live[1..], ids);
      assert live == [live[0]] + live[1..];
    }
  }

  lemma SplitCons(e: Live, live: seq<Live>, ids: set<string>)
    ensures Without([e] + live, ids) == (if e.Id() in ids then [] else [e]) + Without(live, ids)
    ensures Within([e] + live, ids) == (if e.Id() in ids then [e] else []) + Within(live, ids)
  {
    hide Normalize;
    assert ([e] + live)[1..] == live;
  }

  lemma SplitNone(ids: set<string>)
    ensures Without([], ids) == [] && Within([], ids) == []
  {
  }

  lemma {:induction false} SplitConcat(a: seq<Live>, b: seq<Live>, ids: set<string>)
    ensures Without(a + b, ids) == Without(a, ids) + Without(b, ids)
    ensures Within(a + b, ids) == Within(a, ids) + Within(b, ids)
  {
    hide Normalize, Without, Within;
    if a == [] {
      SplitNone(ids);
      assert a + b == b;
    } else {
      var e, tail := a[0], a[1..];
      SplitConcat(tail, b, ids);
      SplitCons(e, tail, ids);
      SplitCons(e, tail + b, ids);
      assert a == [e] + tail && a + b == [e] + (tail + b);
    }
  }

  lemma {:induction false} ReadSplit(live: seq<Live>, ids: set<string>, dels: set<Live>, p: Key)
    ensures multiset(ReadRows(live, dels, p)) ==
            multiset(ReadRows(Without(live, ids), dels, p)) + multiset(ReadRows(Within(live, ids), dels, p))
  {
    hide Normalize, ReadRows;
    ReadNone(dels, p);
    if live != [] {
      hide Without, Within;
      var e, tail := live[0], live[1..];
      assert live == [e] + tail;
      ReadSplit(tail, ids, dels, p);
      SplitCons(e, tail, ids);
      ReadCons(e, tail, dels, p);
      ReadCons(e, Within(tail, ids), dels, p);
      ReadCons(e, Without(tail, ids), dels, p);
      assert [] + Within(tail, ids) == Within(tail, ids) && [] + Without(tail, ids) == Without(tail, ids);
    }
  }

  lemma {:induction false} ReadNoData(live: seq<Live>, dels: set<Live>, p: Key)
    requires forall e | e in live :: !e.file.IsData()
    ensures ReadRows(live, dels, p) == []
  {
    if live != [] {
      assert live[0] in live && forall e | e in live[1..] :: e in live;
      ReadNoData(live[1..], dels, p);
    }
  }

  // ---- The replacement law ----

  predicate AllBelow(live: seq<Live>, n: int) {
    forall e | e in live :: e.seqNo < n
  }

  /** The data files a commit adds, stamped with its own sequence number. */
  predicate FreshData(added: seq<Live>, n: int) {
    forall a | a in added :: a.file.IsData() && a.seqNo == n
  }

  /** No delete file among `ids` applies to a data file that stays. */
  ghost predicate OnlyIdleDeletes(live: seq<Live>, ids: set<string>) {
    forall d, e :: d in live && e in live && e.file.IsData() && d.Id() in ids && e.Id() !in ids ==> !Applies(d, e)
  }

  /** The files `added` hold exactly the rows a reader sees in the data files among `ids`. */
  ghost predicate HoldsWhatGoes(live: seq<Live>, ids: set<string>, added: seq<Live>) {
    forall p :: multiset(ReadRows(added, {}, p)) == multiset(ReadRows(Within(live, ids), Deletes(live), p))
  }

  lemma FreshIsUndeleted(dels: set<Live>, a: Live, n: int)
    requires forall d | d in dels :: d.seqNo < n
    requires a.seqNo == n
    ensures Seen(dels, a) == Seen({}, a)
  {
    SeenByApplicable(dels, {}, a);
  }

  /** Compaction, dangling-delete removal and any other commit of this shape leave every partition's content alone:
      what goes is what the added files hold, the added files outrank every delete, and no delete that goes was
      doing work for a file that stays. */
  lemma ReplacementPreservesContent(live: seq<Live>, ids: set<string>, added: seq<Live>, n: int, p: Key)
    requires AllBelow(live, n) && FreshData(added, n)
    requires OnlyIdleDeletes(live, ids)
    requires HoldsWhatGoes(live, ids, added)
    ensures Content(Without(live, ids) + added, p) == Content(live, p)
  {
    var kept, dels := Without(live, ids), Deletes(live);
    var after := kept + added;
    var left := Deletes(after);
    WithoutMembers(live, ids);
    forall e | e in kept
      ensures Seen(left, e) == Seen(dels, e)
    {
      if e.file.IsData() {
        SeenByApplicable(left, dels, e);
      }
    }
    ReadAgrees(kept, left, dels, p);
    forall a | a in added
      ensures Seen(left, a) == Seen({}, a)
    {
      FreshIsUndeleted(left, a, n);
    }
    ReadAgrees(added, left, {}, p);
    ReadConcat(kept, added, left, p);
    ReadSplit(live, ids, dels, p);
  }
}
