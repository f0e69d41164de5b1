/** The rows a rewrite streams: each bucket scanned with its positional deletes applied, then one null-safe anti-join
    per set of key columns, the buckets united. The result is what filtering each file by its own deletes gives. */
module AntiJoin {
  import opened Wrappers
  import opened Tables
  import opened Sorting
  import opened Rewrite

  /** The current schema as names go: each field's own name by its id, nested fields included, and the field that looking
      a name up finds. A nested field's own name may find nothing, or a top-level column of the same name. */
  datatype Schema = Schema(names: map<int, string>, ids: map<string, int>)

  datatype DeleteSet = DeleteSet(names: seq<string>, dels: seq<Live>)

  /** The delete names key fields, and the schema still has them. */
  predicate Known(schema: Schema, d: Live) {
    d.file.payload.Keys? && d.file.payload.ids != [] &&
    forall i :: 0 <= i < |d.file.payload.ids| ==> d.file.payload.ids[i] in schema.names
  }

  function NamesOf(schema: Schema, d: Live): (r: seq<string>)
    requires Known(schema, d)
    ensures |r| == |d.file.payload.ids|
    ensures forall i :: 0 <= i < |r| ==> r[i] == schema.names[d.file.payload.ids[i]]
  {
    var ids := d.file.payload.ids;
    seq(|ids|, i requires 0 <= i < |ids| => schema.names[ids[i]])
  }

  predicate Found(schema: Schema, names: seq<string>) {
    forall n | n in names :: n in schema.ids && schema.ids[n] in schema.names
  }

  /** The fields found, as the schema built for reading a set's delete files names them. */
  function Projected(schema: Schema, names: seq<string>): (r: seq<string>)
    requires Found(schema, names)
    ensures |r| == |names| && forall i :: 0 <= i < |r| ==> r[i] == schema.names[schema.ids[names[i]]]
  {
    seq(|names|, i requires 0 <= i < |names| => assert names[i] in names; schema.names[schema.ids[names[i]]])
  }

  /** Why a set's delete files cannot be read: a name finds nothing, or two fields of the schema built share a name. */
  function SetRefusal(schema: Schema, names: seq<string>): Option<Error> {
    if !Found(schema, names) then Some(BadMetadata)
    else if !NoRepeats(Projected(schema, names)) then Some(StorageFailure)
    else None
  }

  function Refusal(schema: Schema, d: Live): Option<Error> {
    if !Known(schema, d) then Some(BadMetadata) else SetRefusal(schema, NamesOf(schema, d))
  }

  /** The names of a delete's key fields are found again, and can be read together. */
  predicate Resolvable(schema: Schema, d: Live) {
    Refusal(schema, d).None?
  }

  /** A list of key fields whose deletes can be joined: there is a field, the schema knows each, each one's own name finds a
      known field, and no two of those share a name. */
  ghost predicate Readable(schema: Schema, ids: seq<int>) {
    && ids != []
    && (forall id :: id in ids ==> id in schema.names && schema.names[id] in schema.ids && schema.ids[schema.names[id]] in schema.names)
    && (forall i, j :: 0 <= i < j < |ids| ==>
          schema.names[schema.ids[schema.names[ids[i]]]] != schema.names[schema.ids[schema.names[ids[j]]]])
  }

  lemma ResolvableIffReadable(schema: Schema, d: Live)
    requires d.file.payload.Keys?
    ensures Resolvable(schema, d) <==> Readable(schema, d.file.payload.ids)
  {
    var ids := d.file.payload.ids;
    assert forall i :: 0 <= i < |ids| ==> ids[i] in ids;
    if Known(schema, d) {
      var names := NamesOf(schema, d);
      FoundIffNamed(schema, d);
      if Found(schema, names) {
        ProjectedOnce(schema, d);
      } else {
        assert Refusal(schema, d) == Some(BadMetadata);
      }
    } else if ids != [] {
      var i :| 0 <= i < |ids| && ids[i] !in schema.names;
      var id := ids[i];
      assert id in ids;
    }
  }

  lemma ProjectedOnce(schema: Schema, d: Live)
    requires Known(schema, d) && Found(schema, NamesOf(schema, d))
    ensures var ids := d.file.payload.ids;
            && (forall id :: id in ids ==> id in schema.names && schema.names[id] in schema.ids && schema.ids[schema.names[id]] in schema.names)
            && (NoRepeats(Projected(schema, NamesOf(schema, d))) <==>
                forall i, j :: 0 <= i < j < |ids| ==>
                  schema.names[schema.ids[schema.names[ids[i]]]] != schema.names[schema.ids[schema.names[ids[j]]]])
  {
    FoundIffNamed(schema, d);
    var ids, found := d.file.payload.ids, Projected(schema, NamesOf(schema, d));
    assert forall i :: 0 <= i < |ids| ==> ids[i] in ids;
    assert forall i :: 0 <= i < |ids| ==> found[i] == schema.names[schema.ids[schema.names[ids[i]]]];
  }

  lemma FoundIffNamed(schema: Schema, d: Live)
    requires Known(schema, d)
    ensures Found(schema, NamesOf(schema, d)) <==>
            forall id :: id in d.file.payload.ids ==> schema.names[id] in schema.ids && schema.ids[schema.names[id]] in schema.names
  {
    var ids, names := d.file.payload.ids, NamesOf(schema, d);
    if Found(schema, names) {
      forall id | id in ids
        ensures schema.names[id] in schema.ids && schema.ids[schema.names[id]] in schema.names
      {
        var i :| 0 <= i < |ids| && ids[i] == id;
        assert names[i] in names;
      }
    } else {
      var n :| n in names && !(n in schema.ids && schema.ids[n] in schema.names);
      var i :| 0 <= i < |names| && names[i] == n;
      var id := ids[i];
      assert id in ids;
    }
  }

  ghost predicate SetOk(schema: Schema, s: DeleteSet, dels: seq<Live>) {
    s.dels != [] && forall d :: d in s.dels ==> d in dels && Known(schema, d) && NamesOf(schema, d) == s.names
  }

  ghost predicate Covers(schema: Schema, sets: seq<DeleteSet>, dels: seq<Live>) {
    && (forall s :: s in sets ==> SetOk(schema, s, dels))
    && (forall d :: d in dels ==> exists s :: s in sets && d in s.dels)
  }

  predicate NamesLe(a: seq<string>, b: seq<string>) {
    if a == [] then true
    else if b == [] then false
    else if a[0] != b[0] then StringLe(a[0], b[0])
    else NamesLe(a[1..], b[1..])
  }

  predicate SetLe(a: DeleteSet, b: DeleteSet) {
    NamesLe(a.names, b.names)
  }

  function NamedBy(schema: Schema, names: seq<string>): Live -> bool {
    (d: Live) => Known(schema, d) && NamesOf(schema, d) == names
  }

  /** The deletes split by key columns: each set holds all the deletes on its columns, in order, and the sets come sorted by
      their columns, none twice. */
  ghost predicate SplitByNames(schema: Schema, dels: seq<Live>, sets: seq<DeleteSet>) {
    && (forall s :: s in sets ==> s.dels != [] && s.dels == Keep(dels, NamedBy(schema, s.names)))
    && (forall d :: d in dels && Known(schema, d) ==> exists s :: s in sets && s.names == NamesOf(schema, d))
    && NoRepeats(sets) && Sorted(sets, SetLe)
  }

  lemma SplitCovers(schema: Schema, dels: seq<Live>, sets: seq<DeleteSet>)
    requires SplitByNames(schema, dels, sets) && forall d :: d in dels ==> Known(schema, d)
    ensures Covers(schema, sets, dels)
  {
    hide Known, NamesOf, Keep, NoRepeats, Sorted;
    forall s | s in sets
      ensures SetOk(schema, s, dels)
    {
      KeepMembers(dels, NamedBy(schema, s.names));
    }
    forall d | d in dels
      ensures exists s :: s in sets && d in s.dels
    {
      var s :| s in sets && s.names == NamesOf(schema, d);
      KeepMembers(dels, NamedBy(schema, s.names));
    }
  }

  lemma {:induction false} NamesTotal(a: seq<string>, b: seq<string>)
    ensures NamesLe(a, b) || NamesLe(b, a)
  {
    hide StringLe;
    if a != [] && b != [] {
      StringTotal(a[0], b[0]);
      NamesTotal(a[1..], b[1..]);
    }
  }

  lemma {:induction false} NamesTransitive(a: seq<string>, b: seq<string>, c: seq<string>)
    requires NamesLe(a, b) && NamesLe(b, c)
    ensures NamesLe(a, c)
  {
    hide StringLe;
    if a != [] && b != [] && c != [] {
      if a[0] == b[0] == c[0] {
        NamesTransitive(a[1..], b[1..], c[1..]);
      } else if a[0] != b[0] && b[0] != c[0] {
        StringTransitive(a[0], b[0], c[0]);
        if a[0] == c[0] {
          StringAntisymmetric(a[0], b[0]);
        }
      }
    }
  }

  lemma {:induction false} NamesAntisymmetric(a: seq<string>, b: seq<string>)
    requires NamesLe(a, b) && NamesLe(b, a)
    ensures a == b
  {
    hide StringLe;
    if a != [] && b != [] {
      if a[0] == b[0] {
        NamesAntisymmetric(a[1..], b[1..]);
        assert a == [a[0]] + a[1..] && b == [b[0]] + b[1..];
      } else {
        StringAntisymmetric(a[0], b[0]);
      }
    }
  }

  lemma SetOrder()
    ensures TotalPreorder(SetLe)
  {
    hide NamesLe;
    forall a: DeleteSet, b: DeleteSet
      ensures SetLe(a, b) || SetLe(b, a)
    {
      NamesTotal(a.names, b.names);
    }
    forall a: DeleteSet, b: DeleteSet, c: DeleteSet | SetLe(a, b) && SetLe(b, c)
      ensures SetLe(a, c)
    {
      NamesTransitive(a.names, b.names, c.names);
    }
  }

  /** Each set of one split is a set of every other. */
  lemma SplitMembers(schema: Schema, dels: seq<Live>, a: seq<DeleteSet>, b: seq<DeleteSet>, s: DeleteSet)
    requires SplitByNames(schema, dels, a) && SplitByNames(schema, dels, b) && s in a
    ensures s in b
  {
    hide Known, NamesOf, Keep, NoRepeats, Sorted;
    KeepMembers(dels, NamedBy(schema, s.names));
    assert s.dels[0] in s.dels;
    var t :| t in b && t.names == NamesOf(schema, s.dels[0]);
    assert t == s;
  }

  /** So the same deletes always give the same sets in the same order. */
  lemma SplitIsUnique(schema: Schema, dels: seq<Live>, a: seq<DeleteSet>, b: seq<DeleteSet>)
    requires SplitByNames(schema, dels, a) && SplitByNames(schema, dels, b)
    ensures a == b
  {
    hide Keep, NoRepeats, Sorted, NamesLe;
    forall s
      ensures s in a <==> s in b
    {
      if s in a {
        SplitMembers(schema, dels, a, b, s);
      }
      if s in b {
        SplitMembers(schema, dels, b, a, s);
      }
    }
    SameOnce(a, b);
    SetOrder();
    forall x, y | x in a && y in a && SetLe(x, y) && SetLe(y, x)
      ensures x == y
    {
      NamesAntisymmetric(x.names, y.names);
    }
    SortedIsUnique(a, b, SetLe);
  }

  /** The sets of the first deletes, by their columns. */
  ghost predicate SplitSoFar(schema: Schema, dels: seq<Live>, sets: map<seq<string>, DeleteSet>) {
    && (forall d :: d in dels ==> Known(schema, d))
    && (forall k :: k in sets <==> Keep(dels, NamedBy(schema, k)) != [])
    && (forall k :: k in sets ==> sets[k] == DeleteSet(k, Keep(dels, NamedBy(schema, k))))
  }

  lemma SplitGrows(schema: Schema, dels: seq<Live>, sets: map<seq<string>, DeleteSet>, d: Live)
    requires SplitSoFar(schema, dels, sets) && Known(schema, d)
    ensures var names := NamesOf(schema, d);
            SplitSoFar(schema, dels + [d], sets[names := DeleteSet(names, (if names in sets then sets[names].dels else []) + [d])])
  {
    hide Known, NamesOf, Keep;
    forall k
      ensures Keep(dels + [d], NamedBy(schema, k)) == Keep(dels, NamedBy(schema, k)) + if NamesOf(schema, d) == k then [d] else []
    {
      KeepAppend(dels, d, NamedBy(schema, k));
    }
  }

  lemma NothingSplit(schema: Schema, dels: seq<Live>)
    requires dels == []
    ensures SplitSoFar(schema, dels, map[])
  {
  }

  lemma CollectedIsSplit(schema: Schema, dels: seq<Live>, sets: map<seq<string>, DeleteSet>, found: seq<DeleteSet>)
    requires SplitSoFar(schema, dels, sets) && NoRepeats(found) && forall s :: s in found <==> s in sets.Values
    ensures SplitByNames(schema, dels, SortBy(found, SetLe))
  {
    hide Known, NamesOf, Keep, SortBy, NoRepeats, Sorted, SetLe;
    var out := SortBy(found, SetLe);
    SetOrder();
    SortBySorted(found, SetLe);
    NoRepeatsPermuted(found, out);
    forall s
      ensures s in out <==> s in sets.Values
    {
      SameElements(found, SetLe, s);
    }
    forall d | d in dels
      ensures exists s :: s in out && s.names == NamesOf(schema, d)
    {
      KeepMembers(dels, NamedBy(schema, NamesOf(schema, d)));
      assert sets[NamesOf(schema, d)] in sets.Values;
    }
  }

  /** `equality_delete_sets`: a delete that names no column, or one the schema lost, is an error and never skipped. Otherwise
      the sets, and their order, depend on the deletes alone. */
  method EqualityDeleteSets(schema: Schema, dels: seq<Live>) returns (r: Result<seq<DeleteSet>>)
    ensures r.Ok? <==> forall d | d in dels :: Known(schema, d)
    ensures r.Ok? ==> SplitByNames(schema, dels, r.value) && Covers(schema, r.value, dels)
    ensures r.Err? ==> r.error == BadMetadata
  {
    hide Known, NamesOf, Keep, SplitSoFar, SplitByNames, Covers;
    var sets: map<seq<string>, DeleteSet> := map[];
    NothingSplit(schema, dels[..0]);
    for i := 0 to |dels|
      invariant SplitSoFar(schema, dels[..i], sets) && forall d | d in dels[..i] :: Known(schema, d)
    {
      var d := dels[i];
      PrefixGrows(dels, i);
      if !Known(schema, d) {
        assert d in dels;
        return Err(BadMetadata);
      }
      SplitGrows(schema, dels[..i], sets, d);
      var names := NamesOf(schema, d);
      sets := sets[names := DeleteSet(names, (if names in sets then sets[names].dels else []) + [d])];
    }
    PrefixWhole(dels);
    var found := Collect(sets);
    CollectedIsSplit(schema, dels, sets, found);
    SplitCovers(schema, dels, SortBy(found, SetLe));
    r := Ok(SortBy(found, SetLe));
  }

  /** The map's sets, in no order anyone promises. */
  method Collect(sets: map<seq<string>, DeleteSet>) returns (found: seq<DeleteSet>)
    ensures NoRepeats(found) && forall s :: s in found <==> s in sets.Values
  {
    var left := sets.Values;
    found := [];
    while left != {}
      invariant left <= sets.Values && NoRepeats(found)
      invariant forall s :: s in found <==> s in sets.Values - left
      decreases |left|
    {
      var s :| s in left;
      assert s !in found;
      found := found + [s];
      left := left - {s};
    }
  }

  // ---- The joins ----

  function Column(schema: Schema, row: Row, name: string): Value {
    if name in schema.ids then Field(row, schema.ids[name]) else Null
  }

  /** The tuple a join compares, addressed by column name. */
  function NameKey(schema: Schema, row: Row, names: seq<string>): (r: seq<Value>)
    ensures |r| == |names|
    ensures forall i :: 0 <= i < |r| ==> r[i] == Column(schema, row, names[i])
  {
    seq(|names|, i requires 0 <= i < |names| => Column(schema, row, names[i]))
  }

  /** Some row of the set's delete files equals the data row in every column named. */
  predicate Matches(schema: Schema, row: Row, s: DeleteSet) {
    exists d | d in s.dels :: d.file.payload.Keys? &&
      exists k | k in d.file.payload.deleted :: NameKey(schema, row, s.names) == NameKey(schema, k, s.names)
  }

  /** `LeftAnti`: the rows on the left with no match on the right, in order. */
  function LeftAnti(schema: Schema, rows: seq<Row>, s: DeleteSet): seq<Row> {
    if rows == [] then []
    else (if Matches(schema, rows[0], s) then [] else [rows[0]]) + LeftAnti(schema, rows[1..], s)
  }

  function Chain(schema: Schema, rows: seq<Row>, sets: seq<DeleteSet>): seq<Row>
    decreases |sets|
  {
    if sets == [] then rows else Chain(schema, LeftAnti(schema, rows, sets[0]), sets[1..])
  }

  /** What the scan of one task yields: positional deletes applied, equality deletes stripped. */
  function Scanned(t: Task): seq<Row> {
    Seen(t.PosDels(), t.live)
  }

  function ScannedAll(tasks: seq<Task>): seq<Row> {
    if tasks == [] then [] else Scanned(tasks[0]) + ScannedAll(tasks[1..])
  }

  /** What a reader sees of the tasks, each file filtered by its own deletes. */
  function ReadTasks(tasks: seq<Task>): seq<Row> {
    if tasks == [] then [] else Seen(tasks[0].All(), tasks[0].live) + ReadTasks(tasks[1..])
  }

  ghost predicate Exact(t: Task) {
    forall d :: d in t.dels ==> Applies(d, t.live)
  }

  /** Some row of `d` equals the data row in every column its key fields' names find. */
  ghost predicate JoinNames(schema: Schema, d: Live, row: Row) {
    Known(schema, d) &&
    exists k :: k in d.file.payload.deleted && NameKey(schema, row, NamesOf(schema, d)) == NameKey(schema, k, NamesOf(schema, d))
  }

  ghost predicate JoinHidden(schema: Schema, t: Task, row: Row) {
    exists d :: d in t.EqDels() && JoinNames(schema, d, row)
  }

  /** What the joins leave of one file: its rows without those a positional delete or a join takes. */
  ghost function StreamedUpTo(schema: Schema, t: Task, n: nat): seq<Row>
    requires n <= |t.live.Data()|
  {
    if n == 0 then []
    else
      var row := t.live.Data()[n - 1];
      StreamedUpTo(schema, t, n - 1) + if Hidden(t.PosDels(), t.live, n - 1) || JoinHidden(schema, t, row) then [] else [row]
  }

  /** What the rewrite streams, whatever the names find. */
  ghost function Streamed(schema: Schema, tasks: seq<Task>): seq<Row> {
    if tasks == [] then [] else StreamedUpTo(schema, tasks[0], |tasks[0].live.Data()|) + Streamed(schema, tasks[1..])
  }

  ghost predicate EqHidden(t: Task, row: Row) {
    exists d :: d in t.dels && d.file.payload.Keys? && KeyOf(row, d.file.payload.ids) in d.file.payload.Tuples()
  }

  /** The fields the joins on `d` compare: what its key fields' own names find. */
  function Looked(schema: Schema, d: Live): (r: seq<int>)
    requires Resolvable(schema, d)
    ensures |r| == |d.file.payload.ids|
    ensures forall i :: 0 <= i < |r| ==> r[i] == schema.ids[schema.names[d.file.payload.ids[i]]]
  {
    var names := NamesOf(schema, d);
    assert forall i :: 0 <= i < |names| ==> names[i] in names;
    seq(|names|, i requires 0 <= i < |names| => schema.ids[names[i]])
  }

  function FieldSet(ids: seq<int>): set<int> {
    set i | i in ids
  }

  /** The names of `d`'s key fields find those very fields between them. */
  predicate Addressed(schema: Schema, d: Live) {
    Resolvable(schema, d) && FieldSet(Looked(schema, d)) == FieldSet(d.file.payload.ids)
  }

  lemma NameKeyIsLooked(schema: Schema, d: Live, row: Row)
    requires Resolvable(schema, d)
    ensures NameKey(schema, row, NamesOf(schema, d)) == KeyOf(row, Looked(schema, d))
  {
    var names := NamesOf(schema, d);
    forall i | 0 <= i < |names|
      ensures Column(schema, row, names[i]) == Field(row, Looked(schema, d)[i])
    {
      assert names[i] in names;
    }
  }

  /** Two rows agree on a list of fields when they agree on each of them. */
  lemma KeysAgree(a: Row, b: Row, ids: seq<int>)
    ensures KeyOf(a, ids) == KeyOf(b, ids) <==> forall id :: id in ids ==> Field(a, id) == Field(b, id)
  {
    if KeyOf(a, ids) == KeyOf(b, ids) {
      forall id | id in ids
        ensures Field(a, id) == Field(b, id)
      {
        var i :| 0 <= i < |ids| && ids[i] == id;
        assert KeyOf(a, ids)[i] == KeyOf(b, ids)[i];
      }
    }
  }

  /** A field in one list and not in the other tells two rows apart on the first alone. */
  lemma TellApart(x: seq<int>, y: seq<int>, id: int) returns (a: Row, b: Row)
    requires id in x && id !in y
    ensures KeyOf(a, x) != KeyOf(b, x) && KeyOf(a, y) == KeyOf(b, y)
  {
    a, b := map[], map[id := Datum(0)];
    KeysAgree(a, b, x);
    KeysAgree(a, b, y);
    assert Field(a, id) != Field(b, id);
  }

  /** The tuple read by name is the delete's own key tuple, for every row, exactly when each key field's name finds it. */
  lemma NameKeyIsKey(schema: Schema, d: Live)
    requires Resolvable(schema, d)
    ensures (forall row :: NameKey(schema, row, NamesOf(schema, d)) == KeyOf(row, d.file.payload.ids)) <==>
            Looked(schema, d) == d.file.payload.ids
  {
    var ids, looked := d.file.payload.ids, Looked(schema, d);
    if looked == ids {
      forall row
        ensures NameKey(schema, row, NamesOf(schema, d)) == KeyOf(row, ids)
      {
        NameKeyIsLooked(schema, d, row);
      }
    } else {
      var i :| 0 <= i < |ids| && looked[i] != ids[i];
      var row: Row := map[ids[i] := Datum(0)];
      NameKeyIsLooked(schema, d, row);
      assert KeyOf(row, ids)[i] != KeyOf(row, looked)[i];
    }
  }

  /** The join on `d`'s names matches the rows its own keys match, for every pair of rows, exactly when `d` is addressed. */
  lemma JoinComparesKeys(schema: Schema, d: Live)
    requires Resolvable(schema, d)
    ensures (forall a, b :: NameKey(schema, a, NamesOf(schema, d)) == NameKey(schema, b, NamesOf(schema, d)) <==>
                              KeyOf(a, d.file.payload.ids) == KeyOf(b, d.file.payload.ids)) <==>
            Addressed(schema, d)
  {
    if Addressed(schema, d) {
      forall a, b
        ensures NameKey(schema, a, NamesOf(schema, d)) == NameKey(schema, b, NamesOf(schema, d)) <==>
                KeyOf(a, d.file.payload.ids) == KeyOf(b, d.file.payload.ids)
      {
        AddressedComparesKeys(schema, d, a, b);
      }
    } else {
      var a, b := MisaddressedPair(schema, d);
    }
  }

  lemma AddressedComparesKeys(schema: Schema, d: Live, a: Row, b: Row)
    requires Addressed(schema, d)
    ensures NameKey(schema, a, NamesOf(schema, d)) == NameKey(schema, b, NamesOf(schema, d)) <==>
            KeyOf(a, d.file.payload.ids) == KeyOf(b, d.file.payload.ids)
  {
    var ids, looked := d.file.payload.ids, Looked(schema, d);
    NameKeyIsLooked(schema, d, a);
    NameKeyIsLooked(schema, d, b);
    KeysAgree(a, b, ids);
    KeysAgree(a, b, looked);
    assert forall id :: id in ids <==> id in FieldSet(ids);
    assert forall id :: id in looked <==> id in FieldSet(looked);
  }

  /** Two rows the join and the delete itself disagree about. */
  lemma MisaddressedPair(schema: Schema, d: Live) returns (a: Row, b: Row)
    requires Resolvable(schema, d) && !Addressed(schema, d)
    ensures (NameKey(schema, a, NamesOf(schema, d)) == NameKey(schema, b, NamesOf(schema, d))) !=
            (KeyOf(a, d.file.payload.ids) == KeyOf(b, d.file.payload.ids))
  {
    var ids, looked := d.file.payload.ids, Looked(schema, d);
    if exists id :: id in ids && id !in looked {
      var id :| id in ids && id !in looked;
      a, b := TellApart(ids, looked, id);
    } else {
      assert exists id :: id in looked && id !in ids by {
        assert FieldSet(ids) <= FieldSet(looked);
      }
      var id :| id in looked && id !in ids;
      a, b := TellApart(looked, ids, id);
    }
    NameKeyIsLooked(schema, d, a);
    NameKeyIsLooked(schema, d, b);
  }

  lemma SetMatches(schema: Schema, s: DeleteSet, dels: seq<Live>, row: Row)
    requires SetOk(schema, s, dels)
    ensures Matches(schema, row, s) <==> exists d :: d in s.dels && JoinNames(schema, d, row)
  {
    hide NameKey, NamesOf;
    if Matches(schema, row, s) {
      var d :| d in s.dels && d.file.payload.Keys?
               && exists k | k in d.file.payload.deleted :: NameKey(schema, row, s.names) == NameKey(schema, k, s.names);
      assert JoinNames(schema, d, row);
    }
    if d :| d in s.dels && JoinNames(schema, d, row) {
      var k :| k in d.file.payload.deleted && NameKey(schema, row, NamesOf(schema, d)) == NameKey(schema, k, NamesOf(schema, d));
      assert NameKey(schema, row, s.names) == NameKey(schema, k, s.names);
    }
  }

  /** Some join drops a row exactly when some equality delete of the task names it to the join. */
  lemma JoinsMatchDeletes(schema: Schema, sets: seq<DeleteSet>, b: Bucket, t: Task, row: Row)
    requires Covers(schema, sets, b.dels) && forall d :: d in b.dels <==> d in t.EqDels()
    ensures (exists s :: s in sets && Matches(schema, row, s)) <==> JoinHidden(schema, t, row)
  {
    hide Matches, JoinNames, Known, NamesOf;
    forall s | s in sets
      ensures Matches(schema, row, s) <==> exists d :: d in s.dels && JoinNames(schema, d, row)
    {
      SetMatches(schema, s, b.dels, row);
    }
    if s :| s in sets && Matches(schema, row, s) {
      var d :| d in s.dels && JoinNames(schema, d, row);
      assert SetOk(schema, s, b.dels);
      assert d in t.EqDels();
    }
    if JoinHidden(schema, t, row) {
      var d :| d in t.EqDels() && JoinNames(schema, d, row);
      assert d in b.dels;
      var s :| s in sets && d in s.dels;
      assert Matches(schema, row, s);
    }
  }

  /** A delete names to the join the rows it hides, where its key fields' names find them. */
  lemma AddressedNames(schema: Schema, d: Live, row: Row)
    requires Addressed(schema, d)
    ensures JoinNames(schema, d, row) <==> KeyOf(row, d.file.payload.ids) in d.file.payload.Tuples()
  {
    hide KeyOf, NameKey, Looked, FieldSet, SetRefusal;
    if JoinNames(schema, d, row) {
      var k :| k in d.file.payload.deleted && NameKey(schema, row, NamesOf(schema, d)) == NameKey(schema, k, NamesOf(schema, d));
      AddressedComparesKeys(schema, d, row, k);
    }
    if KeyOf(row, d.file.payload.ids) in d.file.payload.Tuples() {
      var k :| k in d.file.payload.deleted && KeyOf(k, d.file.payload.ids) == KeyOf(row, d.file.payload.ids);
      AddressedComparesKeys(schema, d, row, k);
    }
  }

  lemma AddressedHides(schema: Schema, t: Task, row: Row)
    requires forall d :: d in t.EqDels() ==> Addressed(schema, d)
    ensures JoinHidden(schema, t, row) <==> EqHidden(t, row)
  {
    hide Addressed, KeyOf, JoinNames, Keep;
    forall d | d in t.EqDels()
      ensures JoinNames(schema, d, row) <==> KeyOf(row, d.file.payload.ids) in d.file.payload.Tuples()
    {
      AddressedNames(schema, d, row);
    }
    if EqHidden(t, row) {
      var d :| d in t.dels && d.file.payload.Keys? && KeyOf(row, d.file.payload.ids) in d.file.payload.Tuples();
      assert d in t.EqDels();
    }
  }

  lemma {:induction false} LeftAntiConcat(schema: Schema, a: seq<Row>, b: seq<Row>, s: DeleteSet)
    ensures LeftAnti(schema, a + b, s) == LeftAnti(schema, a, s) + LeftAnti(schema, b, s)
  {
    hide Matches;
    if a == [] {
      assert a + b == b;
    } else {
      assert (a + b)[1..] == a[1..] + b;
      LeftAntiConcat(schema, a[1..], b, s);
    }
  }

  lemma {:induction false} ChainConcat(schema: Schema, a: seq<Row>, b: seq<Row>, sets: seq<DeleteSet>)
    ensures Chain(schema, a + b, sets) == Chain(schema, a, sets) + Chain(schema, b, sets)
    decreases |sets|
  {
    if sets != [] {
      LeftAntiConcat(schema, a, b, sets[0]);
      ChainConcat(schema, LeftAnti(schema, a, sets[0]), LeftAnti(schema, b, sets[0]), sets[1..]);
    }
  }

  lemma {:induction false} ChainOfNone(schema: Schema, sets: seq<DeleteSet>)
    ensures Chain(schema, [], sets) == []
  {
    if sets != [] {
      ChainOfNone(schema, sets[1..]);
    }
  }

  /** A single row survives the chain when no set matches it. */
  lemma {:induction false} ChainOfOne(schema: Schema, row: Row, sets: seq<DeleteSet>)
    ensures Chain(schema, [row], sets) == if exists s :: s in sets && Matches(schema, row, s) then [] else [row]
  {
    if sets != [] {
      assert forall s :: s in sets <==> s == sets[0] || s in sets[1..];
      assert LeftAnti(schema, [row][1..], sets[0]) == [];
      if Matches(schema, row, sets[0]) {
        ChainOfNone(schema, sets[1..]);
      } else {
        ChainOfOne(schema, row, sets[1..]);
      }
    }
  }

  lemma HiddenByEither(t: Task, i: nat)
    requires Exact(t) && i < |t.live.Data()|
    ensures Hidden(t.All(), t.live, i) <==> Hidden(t.PosDels(), t.live, i) || EqHidden(t, t.live.Data()[i])
  {
    if Hidden(t.All(), t.live, i) {
      var d :| d in t.All() && Applies(d, t.live) && Names(d, t.live, i);
      if !d.file.payload.Keys? {
        assert d in t.PosDels();
      }
    }
    if Hidden(t.PosDels(), t.live, i) {
      var d :| d in t.PosDels() && Applies(d, t.live) && Names(d, t.live, i);
      assert d in t.All();
    }
    if EqHidden(t, t.live.Data()[i]) {
      var d :| d in t.dels && d.file.payload.Keys? && KeyOf(t.live.Data()[i], d.file.payload.ids) in d.file.payload.Tuples();
      assert d in t.All() && Applies(d, t.live);
    }
  }

  /** The chain of joins over one file leaves what no join names. */
  lemma {:induction false} ChainStreamsTask(schema: Schema, sets: seq<DeleteSet>, b: Bucket, t: Task, n: nat)
    requires Covers(schema, sets, b.dels) && forall d :: d in b.dels <==> d in t.EqDels()
    requires n <= |t.live.Data()|
    ensures Chain(schema, SeenUpTo(t.PosDels(), t.live, n), sets) == StreamedUpTo(schema, t, n)
  {
    hide Chain, Matches, JoinHidden, Covers, Hidden;
    if n == 0 {
      ChainOfNone(schema, sets);
    } else {
      var row := t.live.Data()[n - 1];
      ChainStreamsTask(schema, sets, b, t, n - 1);
      JoinsMatchDeletes(schema, sets, b, t, row);
      ChainOfOne(schema, row, sets);
      ChainOfNone(schema, sets);
      ChainConcat(schema, SeenUpTo(t.PosDels(), t.live, n - 1),
                  if Hidden(t.PosDels(), t.live, n - 1) then [] else [row], sets);
    }
  }

  lemma {:induction false} ChainStreams(schema: Schema, sets: seq<DeleteSet>, b: Bucket, tasks: seq<Task>)
    requires Covers(schema, sets, b.dels)
    requires forall t | t in tasks :: forall d :: d in b.dels <==> d in t.EqDels()
    ensures Chain(schema, ScannedAll(tasks), sets) == Streamed(schema, tasks)
  {
    if tasks == [] {
      ChainOfNone(schema, sets);
    } else {
      assert tasks[0] in tasks && forall t | t in tasks[1..] :: t in tasks;
      ChainStreamsTask(schema, sets, b, tasks[0], |tasks[0].live.Data()|);
      ChainStreams(schema, sets, b, tasks[1..]);
      ChainConcat(schema, Scanned(tasks[0]), ScannedAll(tasks[1..]), sets);
    }
  }

  /** Where the names find the key fields, what the joins leave of a file is what a reader sees of it. */
  lemma {:induction false} StreamedIsSeen(schema: Schema, t: Task, n: nat)
    requires Exact(t) && n <= |t.live.Data()| && forall d :: d in t.EqDels() ==> Addressed(schema, d)
    ensures StreamedUpTo(schema, t, n) == SeenUpTo(t.All(), t.live, n)
  {
    hide Exact, Addressed, JoinHidden, EqHidden, Hidden;
    if n > 0 {
      StreamedIsSeen(schema, t, n - 1);
      HiddenByEither(t, n - 1);
      AddressedHides(schema, t, t.live.Data()[n - 1]);
    }
  }

  lemma {:induction false} StreamedIsRead(schema: Schema, tasks: seq<Task>)
    requires forall t | t in tasks :: Exact(t)
    requires AllAddressed(schema, tasks)
    ensures Streamed(schema, tasks) == ReadTasks(tasks)
  {
    hide Exact, Addressed;
    if tasks != [] {
      assert tasks[0] in tasks && forall t | t in tasks[1..] :: t in tasks;
      StreamedIsSeen(schema, tasks[0], |tasks[0].live.Data()|);
      StreamedIsRead(schema, tasks[1..]);
    }
  }

  /** The chain of joins over a bucket is reading each of its files under its own deletes, where the names find the fields. */
  lemma ChainReadsTasks(schema: Schema, sets: seq<DeleteSet>, b: Bucket, tasks: seq<Task>)
    requires Covers(schema, sets, b.dels) && forall d | d in b.dels :: Addressed(schema, d)
    requires forall t | t in tasks :: Exact(t) && forall d :: d in b.dels <==> d in t.EqDels()
    ensures Chain(schema, ScannedAll(tasks), sets) == ReadTasks(tasks)
  {
    hide Exact, Addressed, Covers;
    ChainStreams(schema, sets, b, tasks);
    assert AllAddressed(schema, tasks);
    StreamedIsRead(schema, tasks);
  }

  ghost predicate AllResolvable(schema: Schema, tasks: seq<Task>) {
    forall t, d :: t in tasks && d in t.EqDels() ==> Resolvable(schema, d)
  }

  ghost predicate AllAddressed(schema: Schema, tasks: seq<Task>) {
    forall t, d :: t in tasks && d in t.EqDels() ==> Addressed(schema, d)
  }

  lemma {:induction false} StreamedConcat(schema: Schema, a: seq<Task>, b: seq<Task>)
    ensures Streamed(schema, a + b) == Streamed(schema, a) + Streamed(schema, b)
  {
    hide StreamedUpTo;
    if a == [] {
      assert a + b == b;
    } else {
      assert (a + b)[1..] == a[1..] + b;
      StreamedConcat(schema, a[1..], b);
    }
  }

  lemma StreamedTakeOut(schema: Schema, tasks: seq<Task>, i: nat)
    requires i < |tasks|
    ensures multiset(Streamed(schema, tasks)) ==
            multiset(Streamed(schema, [tasks[i]])) + multiset(Streamed(schema, tasks[..i] + tasks[i + 1..]))
  {
    hide Streamed;
    var before, x, after := tasks[..i], [tasks[i]], tasks[i + 1..];
    assert tasks == before + (x + after);
    StreamedConcat(schema, before, x + after);
    StreamedConcat(schema, x, after);
    StreamedConcat(schema, before, after);
  }

  lemma {:induction false} StreamedPermuted(schema: Schema, a: seq<Task>, b: seq<Task>)
    requires multiset(a) == multiset(b)
    ensures multiset(Streamed(schema, a)) == multiset(Streamed(schema, b))
    decreases |a|
  {
    hide Streamed;
    if a == [] {
      NothingElse(b);
    } else {
      var i := HeadSomewhere(a, b);
      StreamedPermuted(schema, a[1..], b[..i] + b[i + 1..]);
      StreamedTakeOut(schema, a, 0);
      StreamedTakeOut(schema, b, i);
      assert a[..0] + a[1..] == a[1..];
    }
  }

  lemma TasksOfGrows(buckets: seq<Bucket>, b: Bucket)
    ensures TasksOf(buckets + [b]) == TasksOf(buckets) + b.tasks
  {
    TasksOfConcat(buckets, [b]);
    OneBucketTasks(b);
  }

  lemma {:induction false} TasksInBucket(buckets: seq<Bucket>, i: nat)
    requires i < |buckets|
    ensures forall t | t in buckets[i].tasks :: t in TasksOf(buckets)
  {
    if i > 0 {
      TasksInBucket(buckets[1..], i - 1);
    }
  }

  lemma {:induction false} BucketOfTask(buckets: seq<Bucket>, t: Task) returns (b: Bucket)
    requires t in TasksOf(buckets)
    ensures b in buckets && t in b.tasks
  {
    if t in buckets[0].tasks {
      b := buckets[0];
    } else {
      b := BucketOfTask(buckets[1..], t);
    }
  }

  /** `bucket_frame`: the bucket's scan with its equality deletes joined away, one set after another. A delete whose columns
      cannot be read is an error, and its own. */
  method Frame(schema: Schema, b: Bucket) returns (r: Result<seq<Row>>, ghost sets: seq<DeleteSet>)
    requires Uniform(b)
    ensures r.Ok? <==> forall d | d in b.dels :: Resolvable(schema, d)
    ensures r.Ok? ==> Covers(schema, sets, b.dels) && r.value == Chain(schema, ScannedAll(b.tasks), sets)
    ensures r.Ok? ==> r.value == Streamed(schema, b.tasks)
    ensures r.Err? ==> exists d :: d in b.dels && Refusal(schema, d) == Some(r.error)
  {
    hide SetRefusal, Streamed, LeftAnti, ScannedAll, Covers, SplitByNames, Known, NamesOf;
    sets := [];
    var found := EqualityDeleteSets(schema, b.dels);
    if found.Err? {
      var d :| d in b.dels && !Known(schema, d);
      assert Refusal(schema, d) == Some(BadMetadata);
      return Err(found.error), sets;
    }
    sets := found.value;
    var rows := ScannedAll(b.tasks);
    for i := 0 to |found.value|
      invariant Chain(schema, rows, found.value[i..]) == Chain(schema, ScannedAll(b.tasks), found.value)
      invariant forall k :: 0 <= k < i ==> SetRefusal(schema, found.value[k].names).None?
    {
      var refusal := SetRefusal(schema, found.value[i].names);
      if refusal.Some? {
        RefusedSet(schema, found.value, b.dels, i);
        return Err(refusal.value), sets;
      }
      assert found.value[i..][0] == found.value[i] && found.value[i..][1..] == found.value[i + 1..];
      rows := LeftAnti(schema, rows, found.value[i]);
    }
    AllRead(schema, found.value, b.dels);
    ChainStreams(schema, found.value, b, b.tasks);
    r := Ok(rows);
  }

  /** A set holds at least one delete, whose names it is. */
  lemma RefusedSet(schema: Schema, sets: seq<DeleteSet>, dels: seq<Live>, i: nat)
    requires i < |sets| && Covers(schema, sets, dels)
    ensures exists d :: d in dels && Refusal(schema, d) == SetRefusal(schema, sets[i].names)
  {
    hide SetRefusal, Known, NamesOf;
    assert SetOk(schema, sets[i], dels);
    assert sets[i].dels[0] in sets[i].dels;
  }

  lemma AllRead(schema: Schema, sets: seq<DeleteSet>, dels: seq<Live>)
    requires Covers(schema, sets, dels) && forall k :: 0 <= k < |sets| ==> SetRefusal(schema, sets[k].names).None?
    ensures forall d | d in dels :: Resolvable(schema, d)
  {
    hide SetRefusal, Known, NamesOf;
    forall d | d in dels
      ensures Resolvable(schema, d)
    {
      var s :| s in sets && d in s.dels;
      assert SetOk(schema, s, dels);
    }
  }

  // ---- Where the joins go wrong ----

  /** One data row, and one delete file on `ids` holding one row. */
  function OneDelete(ids: seq<int>, deleted: Row): Live {
    Live(Key(0, []), File("delete", [], Keys(ids, {deleted}), 1, 1, true), 1)
  }

  function OneTask(ids: seq<int>, row: Row, deleted: Row): Task {
    Task(Live(Key(0, []), File("data", [], Rows([row]), 1, 1, true), 0), [OneDelete(ids, deleted)])
  }

  function OneBucket(ids: seq<int>, row: Row, deleted: Row): Bucket {
    Bucket([OneDelete(ids, deleted)], [OneTask(ids, row, deleted)])
  }

  lemma OneBucketReads(ids: seq<int>, row: Row, deleted: Row)
    ensures Uniform(OneBucket(ids, row, deleted)) && Exact(OneTask(ids, row, deleted))
    ensures ReadTasks(OneBucket(ids, row, deleted).tasks) == if KeyOf(row, ids) == KeyOf(deleted, ids) then [] else [row]
  {
    var t, d := OneTask(ids, row, deleted), OneDelete(ids, deleted);
    KeepMembers(t.dels, IsEquality);
    assert Names(d, t.live, 0) <==> KeyOf(row, ids) == KeyOf(deleted, ids);
    assert d in t.All();
    assert SeenUpTo(t.All(), t.live, 1) == SeenUpTo(t.All(), t.live, 0) + (if Hidden(t.All(), t.live, 0) then [] else [row]);
    assert ReadTasks([t][1..]) == [];
  }

  lemma OneBucketScans(ids: seq<int>, row: Row, deleted: Row)
    ensures ScannedAll(OneBucket(ids, row, deleted).tasks) == [row]
  {
    var t := OneTask(ids, row, deleted);
    assert SeenUpTo(t.PosDels(), t.live, 1) == SeenUpTo(t.PosDels(), t.live, 0) + (if Hidden(t.PosDels(), t.live, 0) then [] else [row]);
    assert ScannedAll([t][1..]) == [];
  }

  /** Which names a delete file's keys go by is a matter of its field ids alone. */
  lemma OneDeleteNames(schema: Schema, ids: seq<int>, deleted: Row)
    requires Resolvable(schema, OneDelete(ids, map[]))
    ensures Known(schema, OneDelete(ids, map[])) && Known(schema, OneDelete(ids, deleted))
    ensures Resolvable(schema, OneDelete(ids, deleted))
    ensures NamesOf(schema, OneDelete(ids, deleted)) == NamesOf(schema, OneDelete(ids, map[]))
  {
  }

  lemma OneSetCovers(schema: Schema, d: Live)
    requires Known(schema, d)
    ensures Covers(schema, [DeleteSet(NamesOf(schema, d), [d])], [d])
  {
    hide NamesOf, Known;
    assert d in [d];
    assert DeleteSet(NamesOf(schema, d), [d]) in [DeleteSet(NamesOf(schema, d), [d])];
  }

  lemma OneSetMatches(schema: Schema, row: Row, ids: seq<int>, deleted: Row, names: seq<string>)
    ensures Matches(schema, row, DeleteSet(names, [OneDelete(ids, deleted)])) <==>
            NameKey(schema, row, names) == NameKey(schema, deleted, names)
  {
    hide NameKey;
    var s := DeleteSet(names, [OneDelete(ids, deleted)]);
    assert s.dels[0] in s.dels && deleted in s.dels[0].file.payload.deleted;
  }

  /** Whenever the names of a list of key fields do not find those fields between them, some bucket, in every way well
      formed and with every delete resolvable, is read wrongly: a deleted row stays, or a row nobody deleted goes. So the
      condition of `ChainReadsTasks` is exact. */
  lemma MisaddressedIsMisread(schema: Schema, ids: seq<int>) returns (b: Bucket, sets: seq<DeleteSet>)
    requires Resolvable(schema, OneDelete(ids, map[])) && !Addressed(schema, OneDelete(ids, map[]))
    ensures Uniform(b) && (forall t | t in b.tasks :: Exact(t)) && Covers(schema, sets, b.dels)
    ensures forall d | d in b.dels :: d.file.payload.Keys? && d.file.payload.ids == ids && Resolvable(schema, d)
    ensures Chain(schema, ScannedAll(b.tasks), sets) != ReadTasks(b.tasks)
  {
    hide Uniform, Exact, Covers, Addressed, NameKey, NamesOf, Chain, ScannedAll, ReadTasks, Matches, KeyOf, Resolvable;
    var row, deleted := MisaddressedPair(schema, OneDelete(ids, map[]));
    OneDeleteNames(schema, ids, deleted);
    var d := OneDelete(ids, deleted);
    b, sets := OneBucket(ids, row, deleted), [DeleteSet(NamesOf(schema, d), [d])];
    OneBucketReads(ids, row, deleted);
    OneBucketScans(ids, row, deleted);
    OneSetCovers(schema, d);
    ChainOfOne(schema, row, sets);
    OneSetMatches(schema, row, ids, deleted, NamesOf(schema, d));
  }

  /** A case in point: field 5 is `s.id`, and the table has a column `id` of its own. */
  lemma NestedKeyIsMisread() returns (schema: Schema, b: Bucket, sets: seq<DeleteSet>)
    ensures schema == Schema(map[1 := "id", 5 := "id"], map["id" := 1])
    ensures Uniform(b) && (forall t | t in b.tasks :: Exact(t)) && Covers(schema, sets, b.dels)
    ensures forall d | d in b.dels :: d.file.payload.Keys? && d.file.payload.ids == [5] && Resolvable(schema, d)
    ensures Chain(schema, ScannedAll(b.tasks), sets) != ReadTasks(b.tasks)
  {
    schema := Schema(map[1 := "id", 5 := "id"], map["id" := 1]);
    var d := OneDelete([5], map[]);
    assert NamesOf(schema, d) == ["id"] && Looked(schema, d) == [1];
    assert 5 in FieldSet([5]) && 5 !in FieldSet([1]);
    b, sets := MisaddressedIsMisread(schema, [5]);
  }

  /** The buckets ask about exactly the deletes the group's tasks carry. */
  lemma ResolvableByBucket(schema: Schema, buckets: seq<Bucket>, group: seq<Task>)
    requires forall b | b in buckets :: Uniform(b)
    requires multiset(TasksOf(buckets)) == multiset(group)
    ensures AllResolvable(schema, group) <==> forall b, d :: b in buckets && d in b.dels ==> Resolvable(schema, d)
  {
    TasksAreGroup(buckets, group);
    if AllResolvable(schema, group) {
      forall b, d | b in buckets && d in b.dels
        ensures Resolvable(schema, d)
      {
        var i :| 0 <= i < |buckets| && buckets[i] == b;
        TasksInBucket(buckets, i);
        assert b.tasks[0] in group && d in b.tasks[0].EqDels();
      }
    } else {
      var t, d :| t in group && d in t.EqDels() && !Resolvable(schema, d);
      var b := BucketOfTask(buckets, t);
      assert d in b.dels;
    }
  }

  lemma TasksAreGroup(buckets: seq<Bucket>, group: seq<Task>)
    requires multiset(TasksOf(buckets)) == multiset(group)
    ensures forall t :: t in TasksOf(buckets) <==> t in group
  {
    forall t
      ensures t in TasksOf(buckets) <==> t in group
    {
      assert t in group <==> t in multiset(group);
      assert t in TasksOf(buckets) <==> t in multiset(TasksOf(buckets));
    }
  }

  lemma OfTheGroup(buckets: seq<Bucket>, i: nat, group: seq<Task>, d: Live)
    requires i < |buckets| && Uniform(buckets[i]) && multiset(TasksOf(buckets)) == multiset(group) && d in buckets[i].dels
    ensures exists t :: t in group && d in t.EqDels()
  {
    TasksAreGroup(buckets, group);
    TasksInBucket(buckets, i);
    assert buckets[i].tasks[0] in buckets[i].tasks;
  }

  /** The stream of `rewrite_group`: the frames of all buckets, united. */
  method StreamGroup(schema: Schema, group: seq<Task>) returns (r: Result<seq<Row>>)
    requires PathsIdentify(group)
    ensures r.Ok? <==> AllResolvable(schema, group)
    ensures r.Ok? ==> multiset(r.value) == multiset(Streamed(schema, group))
    ensures r.Err? ==> exists t, d :: t in group && d in t.EqDels() && Refusal(schema, d) == Some(r.error)
  {
    hide Refusal, AllResolvable, Streamed, PathsIdentify, TasksOf, Yields;
    var buckets := BucketByEqualityDeletes(group);
    ResolvableByBucket(schema, buckets, group);
    var combined: seq<Row> := [];
    NothingStreamed(schema);
    for i := 0 to |buckets|
      invariant combined == Streamed(schema, TasksOf(buckets[..i]))
      invariant forall b, d :: b in buckets[..i] && d in b.dels ==> Resolvable(schema, d)
    {
      var b := buckets[i];
      PrefixGrows(buckets, i);
      var frame;
      ghost var sets;
      frame, sets := Frame(schema, b);
      if frame.Err? {
        assert b in buckets;
        ghost var d :| d in b.dels && Refusal(schema, d) == Some(frame.error);
        OfTheGroup(buckets, i, group, d);
        return Err(frame.error);
      }
      TasksOfGrows(buckets[..i], b);
      StreamedConcat(schema, TasksOf(buckets[..i]), b.tasks);
      combined := combined + frame.value;
    }
    PrefixWhole(buckets);
    StreamedPermuted(schema, TasksOf(buckets), group);
    r := Ok(combined);
  }

  lemma NothingStreamed(schema: Schema)
    ensures Streamed(schema, TasksOf([])) == []
  {
  }

  // ---- The rolling writer ----

  function RowsOf(files: seq<File>): seq<Row> {
    if files == [] then [] else (if files[0].payload.Rows? then files[0].payload.rows else []) + RowsOf(files[1..])
  }

  lemma {:induction false} RowsOfAppend(files: seq<File>, f: File)
    requires f.payload.Rows?
    ensures RowsOf(files + [f]) == RowsOf(files) + f.payload.rows
  {
    if files == [] {
      assert RowsOf((files + [f])[1..]) == [];
    } else {
      assert (files + [f])[1..] == files[1..] + [f];
      RowsOfAppend(files[1..], f);
    }
  }

  function Persisted(files: seq<File>): nat {
    if files == [] then 0 else files[0].records + Persisted(files[1..])
  }

  lemma {:induction false} PersistedAppend(files: seq<File>, f: File)
    ensures Persisted(files + [f]) == Persisted(files) + f.records
  {
    if files == [] {
      assert Persisted((files + [f])[1..]) == 0;
    } else {
      assert (files + [f])[1..] == files[1..] + [f];
      PersistedAppend(files[1..], f);
    }
  }

  /** A data file of the group's partition under the next unused name. */
  predicate WrittenAs(f: File, partition: seq<Value>, path: string) {
    f.IsData() && f.parquet && f.partition == partition && f.path == path
  }

  /** A file holding `rows` was not full before its last row. */
  ghost predicate FilledLast(rows: seq<Row>, full: seq<Row> -> bool) {
    forall n :: 0 < n < |rows| ==> !full(rows[..n])
  }

  lemma FilledLastGrows(rows: seq<Row>, row: Row, full: seq<Row> -> bool)
    requires FilledLast(rows, full) && (rows != [] ==> !full(rows))
    ensures FilledLast(rows + [row], full)
  {
    forall n | 0 < n < |rows| + 1
      ensures !full((rows + [row])[..n])
    {
      assert (rows + [row])[..n] == rows[..n];
      assert n == |rows| ==> rows[..n] == rows;
    }
  }

  /** A closed file is full and was not before its last row; only the last file may fall short. */
  ghost predicate ClosedAt(f: File, full: seq<Row> -> bool, last: bool) {
    && f.payload.Rows? && f.payload.rows != [] && f.records == |f.payload.rows|
    && (last || full(f.payload.rows))
    && FilledLast(f.payload.rows, full)
  }

  method Close(files: seq<File>, chunk: seq<Row>, partition: seq<Value>, nameOf: nat -> string) returns (r: seq<File>)
    ensures r == files + [File(nameOf(|files|), partition, Rows(chunk), |chunk|, |chunk|, true)]
    ensures RowsOf(r) == RowsOf(files) + chunk && Persisted(r) == Persisted(files) + |chunk|
  {
    var f := File(nameOf(|files|), partition, Rows(chunk), |chunk|, |chunk|, true);
    RowsOfAppend(files, f);
    PersistedAppend(files, f);
    r := files + [f];
  }

  /** The first `at` rows are in the files closed so far or in the open one, which is not full yet. */
  ghost predicate Rolled(rows: seq<Row>, at: nat, files: seq<File>, open: seq<Row>, full: seq<Row> -> bool)
    requires at <= |rows|
  {
    && RowsOf(files) + open == rows[..at] && Persisted(files) + |open| == at
    && FilledLast(open, full) && (open != [] ==> !full(open))
  }

  lemma NothingRolled(rows: seq<Row>, full: seq<Row> -> bool)
    ensures Rolled(rows, 0, [], [], full)
  {
  }

  lemma RollsOn(rows: seq<Row>, at: nat, files: seq<File>, open: seq<Row>, full: seq<Row> -> bool)
    requires at < |rows| && Rolled(rows, at, files, open, full)
    ensures RowsOf(files) + (open + [rows[at]]) == rows[..at + 1] && FilledLast(open + [rows[at]], full)
  {
    hide RowsOf, Persisted, FilledLast;
    PrefixGrows(rows, at);
    FilledLastGrows(open, rows[at], full);
  }

  lemma RollsAnew(rows: seq<Row>, at: nat, files: seq<File>, full: seq<Row> -> bool)
    requires at <= |rows| && RowsOf(files) == rows[..at] && Persisted(files) == at
    ensures Rolled(rows, at, files, [], full)
  {
    hide RowsOf, Persisted;
    assert RowsOf(files) + [] == RowsOf(files);
  }

  lemma RolledCount(rows: seq<Row>, at: nat, files: seq<File>, open: seq<Row>, full: seq<Row> -> bool)
    requires at <= |rows| && Rolled(rows, at, files, open, full)
    ensures Persisted(files) + |open| == at && FilledLast(open, full)
    ensures RowsOf(files) + open == rows[..at]
    ensures at == |rows| ==> RowsOf(files) + open == rows
    ensures open == [] ==> RowsOf(files) + open == RowsOf(files)
  {
    PrefixWhole(rows);
  }

  lemma StaysOpen(rows: seq<Row>, at: nat, files: seq<File>, open: seq<Row>, full: seq<Row> -> bool)
    requires at <= |rows| && RowsOf(files) + open == rows[..at] && Persisted(files) + |open| == at
    requires FilledLast(open, full) && !full(open)
    ensures Rolled(rows, at, files, open, full)
  {
  }

  /** The rolling writer: after each row `full` says whether the open file has reached its size, and the next row opens
      another under a new name. A stream without rows writes no file. */
  method Roll(rows: seq<Row>, partition: seq<Value>, full: seq<Row> -> bool, nameOf: nat -> string) returns (files: seq<File>)
    ensures RowsOf(files) == rows && Persisted(files) == |rows|
    ensures forall i | 0 <= i < |files| :: WrittenAs(files[i], partition, nameOf(i)) && ClosedAt(files[i], full, i + 1 == |files|)
  {
    hide RowsOf, Persisted, Rolled, FilledLast;
    files := [];
    var open: seq<Row> := [];
    NothingRolled(rows, full);
    for at := 0 to |rows|
      invariant Rolled(rows, at, files, open, full)
      invariant forall i | 0 <= i < |files| :: WrittenAs(files[i], partition, nameOf(i)) && ClosedAt(files[i], full, false)
    {
      RollsOn(rows, at, files, open, full);
      RolledCount(rows, at, files, open, full);
      open := open + [rows[at]];
      if full(open) {
        files := Close(files, open, partition, nameOf);
        open := [];
        RollsAnew(rows, at + 1, files, full);
      } else {
        StaysOpen(rows, at + 1, files, open, full);
      }
    }
    RolledCount(rows, |rows|, files, open, full);
    if open != [] {
      files := Close(files, open, partition, nameOf);
    }
  }
}
