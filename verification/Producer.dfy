/** Producing a snapshot that replaces files: manifests carried or rebuilt, the summary that describes them, and the
    compare-and-swap request that installs them. */
module Producer {
  import opened Wrappers
  import opened Paths
  import opened Tables
  import opened Sorting

  datatype Status = Added | Existing | Deleted

  /** One manifest entry. A missing number is one the metadata did not carry. */
  datatype Entry = Entry(status: Status, file: File, seqNo: Option<int>, snapshotId: Option<int>, fileSeqNo: Option<int>)

  datatype Manifest = Manifest(specId: int, deletes: bool, entries: seq<Entry>, length: int)

  datatype Snapshot = Snapshot(id: int, parent: Option<int>, seqNo: int, manifests: seq<Manifest>)

  datatype Version = V1 | V2 | V3

  /** Table metadata as one load returns it; `specs` gives each known partition spec its number of fields. */
  datatype Table = Table(version: Version, specs: map<int, nat>, defaultSpec: int, lastSeq: int,
                         current: Option<Snapshot>, mainHead: Option<int>)

  datatype Rewrite = Rewrite(removed: seq<string>, added: seq<File>)

  /** What is sent to the catalog: `snapshot` becomes `main`, provided `main` is still `parent`. Re-packed manifests
      carry no totals. */
  datatype Request = Request(parent: Option<int>, snapshot: Snapshot, summary: Option<Summary>)

  // ---- Reading manifests ----

  function LiveOf(specId: int, e: Entry): Live {
    Live(Key(specId, e.file.partition), e.file, e.seqNo.UnwrapOr(0))
  }

  /** The entries a load keeps: a deleted entry is history, not content. */
  function Loaded(entries: seq<Entry>): (r: seq<Entry>)
    ensures forall e :: e in r <==> e in entries && e.status != Deleted
  {
    if entries == [] then []
    else
      assert entries == [entries[0]] + entries[1..];
      (if entries[0].status == Deleted then [] else [entries[0]]) + Loaded(entries[1..])
  }

  function LiveEntries(specId: int, entries: seq<Entry>): seq<Live> {
    if entries == [] then [] else [LiveOf(specId, entries[0])] + LiveEntries(specId, entries[1..])
  }

  function LiveIn(m: Manifest): seq<Live> {
    LiveEntries(m.specId, Loaded(m.entries))
  }

  function LiveAll(ms: seq<Manifest>): seq<Live> {
    if ms == [] then [] else LiveIn(ms[0]) + LiveAll(ms[1..])
  }

  function ManifestsAt(t: Table): seq<Manifest> {
    if t.current.Some? then t.current.value.manifests else []
  }

  function LiveAt(t: Table): seq<Live> {
    LiveAll(ManifestsAt(t))
  }

  lemma {:induction false} LiveAllConcat(a: seq<Manifest>, b: seq<Manifest>)
    ensures LiveAll(a + b) == LiveAll(a) + LiveAll(b)
  {
    if a == [] {
      assert a + b == b;
    } else {
      assert (a + b)[1..] == a[1..] + b;
      LiveAllConcat(a[1..], b);
    }
  }

  lemma LiveAllOne(m: Manifest)
    ensures LiveAll([m]) == LiveIn(m)
  {
    assert [m][1..] == [];
  }

  // ---- write_manifests ----

  predicate Gone(e: Entry, removed: set<string>) {
    Normalize(e.file.path) in removed
  }

  function Survivors(entries: seq<Entry>, removed: set<string>): seq<Entry> {
    if entries == [] then []
    else (if Gone(entries[0], removed) then [] else [entries[0]]) + Survivors(entries[1..], removed)
  }

  /** `add_existing_file`: the entry's own numbers, or the writer's defaults where it had none. */
  function Carried(e: Entry, snapshotId: int): Entry {
    e.(status := Existing, snapshotId := Some(e.snapshotId.UnwrapOr(snapshotId)), seqNo := Some(e.seqNo.UnwrapOr(0)))
  }

  function CarriedAll(entries: seq<Entry>, snapshotId: int): (r: seq<Entry>)
    ensures |r| == |entries|
    ensures forall i :: 0 <= i < |r| ==> r[i] == Carried(entries[i], snapshotId)
  {
    seq(|entries|, i requires 0 <= i < |entries| => Carried(entries[i], snapshotId))
  }

  function AddedEntries(files: seq<File>, n: int, snapshotId: int): (r: seq<Entry>)
    ensures |r| == |files|
    ensures forall i :: 0 <= i < |r| ==> r[i] == Entry(Added, files[i], Some(n), Some(snapshotId), Some(n))
  {
    seq(|files|, i requires 0 <= i < |files| => Entry(Added, files[i], Some(n), Some(snapshotId), Some(n)))
  }

  /** The fate of one parent manifest: nothing, itself, or a rebuilt one under its own spec. */
  function Rebuilt(t: Table, m: Manifest, removed: set<string>, snapshotId: int): Result<seq<Manifest>> {
    var entries := Loaded(m.entries);
    var left := Survivors(entries, removed);
    if |left| == |entries| then Ok([m])
    else if left == [] then Ok([])
    else if m.specId !in t.specs then Err(BadMetadata)
    else if m.deletes && t.version.V1? then Err(BadMetadata)
    else Ok([Manifest(m.specId, m.deletes, CarriedAll(left, snapshotId), 0)])
  }

  function RebuiltAll(t: Table, ms: seq<Manifest>, removed: set<string>, snapshotId: int): Result<seq<Manifest>> {
    if ms == [] then Ok([])
    else
      match RebuiltAll(t, ms[..|ms| - 1], removed, snapshotId)
      case Err(e) => Err(e)
      case Ok(front) =>
        match Rebuilt(t, ms[|ms| - 1], removed, snapshotId)
        case Err(e) => Err(e)
        case Ok(last) => Ok(front + last)
  }

  function AddedManifest(t: Table, added: seq<File>, snapshotId: int): seq<Manifest> {
    if added == [] then []
    else [Manifest(t.defaultSpec, false, AddedEntries(added, t.lastSeq + 1, snapshotId), 0)]
  }

  function Written(t: Table, ms: seq<Manifest>, removed: set<string>, added: seq<File>, snapshotId: int): Result<seq<Manifest>> {
    match RebuiltAll(t, ms, removed, snapshotId)
    case Err(e) => Err(e)
    case Ok(kept) => Ok(kept + AddedManifest(t, added, snapshotId))
  }

  // ---- What can be written ----

  /** Some live entry of the manifest goes. */
  ghost predicate Loses(m: Manifest, removed: set<string>) {
    exists e :: e in m.entries && e.status != Deleted && Normalize(e.file.path) in removed
  }

  /** Some live entry of the manifest stays. */
  ghost predicate Retains(m: Manifest, removed: set<string>) {
    exists e :: e in m.entries && e.status != Deleted && Normalize(e.file.path) !in removed
  }

  /** The table knows the manifest's spec, and its format has manifests of that kind. */
  predicate Writable(t: Table, m: Manifest) {
    m.specId in t.specs && !(m.deletes && t.version.V1?)
  }

  /** Every manifest that has to be rebuilt can be. */
  ghost predicate CanRebuild(t: Table, ms: seq<Manifest>, removed: set<string>) {
    forall m :: m in ms && Loses(m, removed) && Retains(m, removed) ==> Writable(t, m)
  }

  /** What `was` becomes when carried: existing, of the same file, under its own numbers wherever it has them. */
  predicate Continues(was: Entry, now: Entry, snapshotId: int) {
    && now.status == Existing && now.file == was.file && now.fileSeqNo == was.fileSeqNo
    && now.snapshotId == (if was.snapshotId.Some? then was.snapshotId else Some(snapshotId))
    && now.seqNo == (if was.seqNo.Some? then was.seqNo else Some(0))
  }

  function Stays(removed: set<string>): Entry -> bool {
    (e: Entry) => e.status != Deleted && Normalize(e.file.path) !in removed
  }

  /** `now` is `m` without what goes: the same spec and content kind, and every live entry that stays, in order. */
  ghost predicate RebuiltFrom(m: Manifest, removed: set<string>, now: Manifest, snapshotId: int) {
    var left := Keep(m.entries, Stays(removed));
    && now.specId == m.specId && now.deletes == m.deletes && |now.entries| == |left|
    && forall i :: 0 <= i < |left| ==> Continues(left[i], now.entries[i], snapshotId)
  }

  lemma {:induction false} SurvivorsStay(entries: seq<Entry>, removed: set<string>)
    ensures Survivors(Loaded(entries), removed) == Keep(entries, Stays(removed))
  {
    hide Normalize;
    if entries != [] {
      var rest := Loaded(entries[1..]);
      SurvivorsStay(entries[1..], removed);
      assert ([entries[0]] + rest)[1..] == rest;
      assert [] + rest == rest;
    }
  }

  lemma LeftWhen(m: Manifest, removed: set<string>)
    ensures var entries := Loaded(m.entries);
            var left := Survivors(entries, removed);
            && (|left| == |entries| <==> !Loses(m, removed))
            && (Loses(m, removed) ==> (left == [] <==> !Retains(m, removed)))
            && left == Keep(m.entries, Stays(removed))
  {
    hide Normalize;
    var entries := Loaded(m.entries);
    SurvivorsSome(entries, removed);
    SurvivorsStay(m.entries, removed);
    hide Survivors, Keep;
    KeepMembers(m.entries, Stays(removed));
    var left := Survivors(entries, removed);
    if Loses(m, removed) {
      var e :| e in m.entries && e.status != Deleted && Normalize(e.file.path) in removed;
      assert e in entries && Gone(e, removed);
    }
    if left != [] {
      assert left[0] in left && Stays(removed)(left[0]);
    }
    if Retains(m, removed) {
      var e :| e in m.entries && e.status != Deleted && Normalize(e.file.path) !in removed;
      assert Stays(removed)(e);
    }
  }

  /** One parent manifest: untouched if it loses nothing, gone if it keeps nothing, and otherwise rebuilt, if that can be. */
  lemma RebuiltIs(t: Table, m: Manifest, removed: set<string>, snapshotId: int)
    ensures var r := Rebuilt(t, m, removed, snapshotId);
            && (!Loses(m, removed) ==> r == Ok([m]))
            && (Loses(m, removed) && !Retains(m, removed) ==> r == Ok([]))
            && (Loses(m, removed) && Retains(m, removed) ==> if Writable(t, m) then r.Ok? && |r.value| == 1 else r == Err(BadMetadata))
            && (Loses(m, removed) && Retains(m, removed) && Writable(t, m) ==> RebuiltFrom(m, removed, r.value[0], snapshotId))
  {
    hide Loses, Retains, Survivors, Loaded, Keep;
    LeftWhen(m, removed);
  }

  lemma {:induction false} RebuiltAllWhen(t: Table, ms: seq<Manifest>, removed: set<string>, snapshotId: int)
    ensures if CanRebuild(t, ms, removed) then RebuiltAll(t, ms, removed, snapshotId).Ok?
            else RebuiltAll(t, ms, removed, snapshotId) == Err(BadMetadata)
  {
    hide Loses, Retains, Writable, Rebuilt, RebuiltFrom;
    if ms != [] {
      var front, last := ms[..|ms| - 1], ms[|ms| - 1];
      assert ms == front + [last];
      RebuiltAllWhen(t, front, removed, snapshotId);
      RebuiltIs(t, last, removed, snapshotId);
    }
  }

  /** Where each manifest written comes from. */
  lemma {:induction false} RebuiltAllFrom(t: Table, ms: seq<Manifest>, removed: set<string>, snapshotId: int, now: Manifest)
    requires RebuiltAll(t, ms, removed, snapshotId).Ok? && now in RebuiltAll(t, ms, removed, snapshotId).value
    ensures exists m :: m in ms && if Loses(m, removed) then Writable(t, m) && RebuiltFrom(m, removed, now, snapshotId) else now == m
  {
    hide Loses, Retains, Writable, Rebuilt, RebuiltFrom;
    var front, last := ms[..|ms| - 1], ms[|ms| - 1];
    assert ms == front + [last];
    if now in RebuiltAll(t, front, removed, snapshotId).value {
      RebuiltAllFrom(t, front, removed, snapshotId, now);
    } else {
      RebuiltIs(t, last, removed, snapshotId);
    }
  }

  /** Every manifest written is one of the parent's that lost nothing, one rebuilt under its own spec and content kind, or the
      one of added files. */
  ghost predicate ManifestWritten(t: Table, ms: seq<Manifest>, removed: set<string>, added: seq<File>, snapshotId: int, now: Manifest) {
    || (exists m :: m in ms && if Loses(m, removed) then Writable(t, m) && RebuiltFrom(m, removed, now, snapshotId) else now == m)
    || (added != [] && AddsFiles(t, added, snapshotId, now))
  }

  /** A manifest of newly added files, each stamped with this snapshot's id and number. */
  ghost predicate AddsFiles(t: Table, added: seq<File>, snapshotId: int, now: Manifest) {
    && now.specId == t.defaultSpec && !now.deletes && |now.entries| == |added|
    && forall i :: 0 <= i < |added| ==>
         var e := now.entries[i];
         e.status == Added && e.file == added[i] && e.snapshotId == Some(snapshotId) && e.seqNo == e.fileSeqNo == Some(t.lastSeq + 1)
  }

  lemma {:induction false} SurvivorsSome(entries: seq<Entry>, removed: set<string>)
    ensures |Survivors(entries, removed)| <= |entries|
    ensures |Survivors(entries, removed)| == |entries| <==> forall e | e in entries :: !Gone(e, removed)
    ensures |Survivors(entries, removed)| == |entries| ==> Survivors(entries, removed) == entries
  {
    if entries != [] {
      SurvivorsSome(entries[1..], removed);
      assert entries == [entries[0]] + entries[1..];
    }
  }

  lemma FirstRefusal(t: Table, ms: seq<Manifest>, i: nat, removed: set<string>, snapshotId: int)
    requires i < |ms| && RebuiltAll(t, ms[..i + 1], removed, snapshotId).Err?
    ensures RebuiltAll(t, ms, removed, snapshotId) == RebuiltAll(t, ms[..i + 1], removed, snapshotId)
    decreases |ms| - i
  {
    if i + 1 == |ms| {
      assert ms[..i + 1] == ms;
    } else {
      assert ms[..i + 2][..i + 1] == ms[..i + 1];
      FirstRefusal(t, ms, i + 1, removed, snapshotId);
    }
  }

  method WriteExisting(survivors: seq<Entry>, snapshotId: int) returns (written: seq<Entry>)
    ensures written == CarriedAll(survivors, snapshotId)
  {
    written := [];
    for j := 0 to |survivors|
      invariant |written| == j
      invariant forall k :: 0 <= k < j ==> written[k] == Carried(survivors[k], snapshotId)
    {
      written := written + [Carried(survivors[j], snapshotId)];
    }
  }

  method WriteAdded(added: seq<File>, n: int, snapshotId: int) returns (written: seq<Entry>)
    ensures written == AddedEntries(added, n, snapshotId)
  {
    written := [];
    for j := 0 to |added|
      invariant |written| == j
      invariant forall k :: 0 <= k < j ==> written[k] == Entry(Added, added[k], Some(n), Some(snapshotId), Some(n))
    {
      written := written + [Entry(Added, added[j], Some(n), Some(snapshotId), Some(n))];
    }
  }

  lemma RebuildStep(t: Table, ms: seq<Manifest>, i: nat, removed: set<string>, snapshotId: int)
    requires i < |ms| && RebuiltAll(t, ms[..i], removed, snapshotId).Ok?
    ensures RebuiltAll(t, ms[..i + 1], removed, snapshotId) ==
            match Rebuilt(t, ms[i], removed, snapshotId)
            case Err(e) => Err(e)
            case Ok(last) => Ok(RebuiltAll(t, ms[..i], removed, snapshotId).value + last)
  {
    assert ms[..i + 1][..i] == ms[..i] && ms[..i + 1][i] == ms[i];
  }

  /** One turn of the loop in `write_manifests`. */
  method RebuildOne(t: Table, m: Manifest, removed: set<string>, snapshotId: int) returns (r: Result<seq<Manifest>>)
    ensures r == Rebuilt(t, m, removed, snapshotId)
  {
    var entries := Loaded(m.entries);
    var touched := exists e | e in entries :: Gone(e, removed);
    SurvivorsSome(entries, removed);
    if !touched {
      return Ok([m]);
    }
    var survivors := Survivors(entries, removed);
    if survivors == [] {
      return Ok([]);
    }
    if m.specId !in t.specs {
      return Err(BadMetadata);
    }
    if m.deletes && t.version.V1? {
      return Err(BadMetadata);
    }
    var written := WriteExisting(survivors, snapshotId);
    r := Ok([Manifest(m.specId, m.deletes, written, 0)]);
  }

  /** `write_manifests`: manifests that lost nothing are pushed as they are, the others rebuilt entry by entry, and
      one manifest of added files closes the list. */
  method WriteManifests(t: Table, ms: seq<Manifest>, removed: set<string>, added: seq<File>, snapshotId: int)
      returns (r: Result<seq<Manifest>>)
    ensures r == Written(t, ms, removed, added, snapshotId)
    ensures if CanRebuild(t, ms, removed) then r.Ok? else r == Err(BadMetadata)
    ensures r.Ok? ==> forall now :: now in r.value ==> ManifestWritten(t, ms, removed, added, snapshotId, now)
  {
    RebuiltAllWhen(t, ms, removed, snapshotId);
    var manifests: seq<Manifest> := [];
    for i := 0 to |ms|
      invariant RebuiltAll(t, ms[..i], removed, snapshotId) == Ok(manifests)
    {
      RebuildStep(t, ms, i, removed, snapshotId);
      var rebuilt := RebuildOne(t, ms[i], removed, snapshotId);
      if rebuilt.Err? {
        FirstRefusal(t, ms, i, removed, snapshotId);
        return Err(rebuilt.error);
      }
      manifests := manifests + rebuilt.value;
    }
    assert ms[..|ms|] == ms;
    if added != [] {
      var entries := WriteAdded(added, t.lastSeq + 1, snapshotId);
      manifests := manifests + [Manifest(t.defaultSpec, false, entries, 0)];
    } else {
      assert manifests + [] == manifests;
    }
    r := Ok(manifests);
    WrittenFrom(t, ms, removed, added, snapshotId);
  }

  lemma WrittenFrom(t: Table, ms: seq<Manifest>, removed: set<string>, added: seq<File>, snapshotId: int)
    requires Written(t, ms, removed, added, snapshotId).Ok?
    ensures forall now :: now in Written(t, ms, removed, added, snapshotId).value ==>
              ManifestWritten(t, ms, removed, added, snapshotId, now)
  {
    hide Loses, RebuiltAll, Writable, RebuiltFrom;
    forall now | now in Written(t, ms, removed, added, snapshotId).value
      ensures ManifestWritten(t, ms, removed, added, snapshotId, now)
    {
      if now in RebuiltAll(t, ms, removed, snapshotId).value {
        RebuiltAllFrom(t, ms, removed, snapshotId, now);
      } else {
        assert now == AddedManifest(t, added, snapshotId)[0];
      }
    }
  }

  // ---- What a reader finds in the written manifests ----

  function Placed(specId: int, files: seq<File>, n: int): (r: seq<Live>)
    ensures |r| == |files|
    ensures forall i :: 0 <= i < |r| ==> r[i] == Live(Key(specId, files[i].partition), files[i], n)
  {
    seq(|files|, i requires 0 <= i < |files| => Live(Key(specId, files[i].partition), files[i], n))
  }

  lemma {:induction false} LiveEntriesAt(specId: int, entries: seq<Entry>)
    ensures |LiveEntries(specId, entries)| == |entries|
    ensures forall i :: 0 <= i < |entries| ==> LiveEntries(specId, entries)[i] == LiveOf(specId, entries[i])
  {
    if entries != [] {
      LiveEntriesAt(specId, entries[1..]);
    }
  }

  lemma {:induction false} LoadedAll(entries: seq<Entry>)
    requires forall e | e in entries :: e.status != Deleted
    ensures Loaded(entries) == entries
  {
    if entries != [] {
      assert entries == [entries[0]] + entries[1..];
      LoadedAll(entries[1..]);
    }
  }

  lemma {:induction false} LiveSurvivors(specId: int, entries: seq<Entry>, removed: set<string>)
    ensures LiveEntries(specId, Survivors(entries, removed)) == Without(LiveEntries(specId, entries), removed)
  {
    if entries != [] {
      LiveSurvivors(specId, entries[1..], removed);
      var rest := Survivors(entries[1..], removed);
      assert ([entries[0]] + rest)[1..] == rest;
      assert [] + rest == rest;
    }
  }

  lemma CarriedReadsAlike(specId: int, entries: seq<Entry>, snapshotId: int)
    ensures LiveEntries(specId, Loaded(CarriedAll(entries, snapshotId))) == LiveEntries(specId, entries)
  {
    var carried := CarriedAll(entries, snapshotId);
    LoadedAll(carried);
    LiveEntriesAt(specId, carried);
    LiveEntriesAt(specId, entries);
  }

  lemma RebuiltReads(t: Table, m: Manifest, removed: set<string>, snapshotId: int)
    requires Rebuilt(t, m, removed, snapshotId).Ok?
    ensures LiveAll(Rebuilt(t, m, removed, snapshotId).value) == Without(LiveIn(m), removed)
  {
    var entries := Loaded(m.entries);
    var left := Survivors(entries, removed);
    SurvivorsSome(entries, removed);
    LiveSurvivors(m.specId, entries, removed);
    if |left| == |entries| {
      LiveAllOne(m);
    } else if left != [] {
      CarriedReadsAlike(m.specId, left, snapshotId);
      LiveAllOne(Rebuilt(t, m, removed, snapshotId).value[0]);
    }
  }

  lemma {:induction false} RebuiltAllReads(t: Table, ms: seq<Manifest>, removed: set<string>, snapshotId: int)
    requires RebuiltAll(t, ms, removed, snapshotId).Ok?
    ensures LiveAll(RebuiltAll(t, ms, removed, snapshotId).value) == Without(LiveAll(ms), removed)
  {
    if ms != [] {
      var front, last := ms[..|ms| - 1], ms[|ms| - 1];
      RebuiltAllReads(t, front, removed, snapshotId);
      RebuiltReads(t, last, removed, snapshotId);
      assert ms == front + [last];
      LiveAllConcat(front, [last]);
      LiveAllOne(last);
      SplitConcat(LiveAll(front), LiveIn(last), removed);
      LiveAllConcat(RebuiltAll(t, front, removed, snapshotId).value, Rebuilt(t, last, removed, snapshotId).value);
    }
  }

  /** A written manifest set shows a reader every live file not removed, with its own sequence number, and the added
      files under the table's default spec at the next one. */
  lemma WrittenReads(t: Table, ms: seq<Manifest>, removed: set<string>, added: seq<File>, snapshotId: int)
    requires Written(t, ms, removed, added, snapshotId).Ok?
    ensures LiveAll(Written(t, ms, removed, added, snapshotId).value) ==
            Without(LiveAll(ms), removed) + Placed(t.defaultSpec, added, t.lastSeq + 1)
  {
    RebuiltAllReads(t, ms, removed, snapshotId);
    var kept := RebuiltAll(t, ms, removed, snapshotId).value;
    LiveAllConcat(kept, AddedManifest(t, added, snapshotId));
    if added != [] {
      var m := AddedManifest(t, added, snapshotId)[0];
      LiveAllOne(m);
      LoadedAll(m.entries);
      LiveEntriesAt(t.defaultSpec, m.entries);
      assert LiveIn(m) == Placed(t.defaultSpec, added, t.lastSeq + 1);
    }
  }

  // ---- Counts and the summary ----

  datatype Counts = Counts(removedData: nat, removedPos: nat, removedEq: nat, removedBytes: nat, removedRecords: nat,
                           data: nat, pos: nat, eq: nat, posRecords: nat, eqRecords: nat, bytes: nat, records: nat)

  const NO_COUNTS := Counts(0, 0, 0, 0, 0, 0, 0, 0, 0, 0, 0, 0)

  function Tally(c: Counts, f: File, gone: bool): Counts {
    match (gone, f.payload)
    case (true, Rows(_)) =>
      c.(removedData := c.removedData + 1, removedBytes := c.removedBytes + f.size, removedRecords := c.removedRecords + f.records)
    case (true, Positions(_, _)) => c.(removedPos := c.removedPos + 1, removedBytes := c.removedBytes + f.size)
    case (true, Keys(_, _)) => c.(removedEq := c.removedEq + 1, removedBytes := c.removedBytes + f.size)
    case (false, Rows(_)) => c.(data := c.data + 1, bytes := c.bytes + f.size, records := c.records + f.records)
    case (false, Positions(_, _)) => c.(pos := c.pos + 1, posRecords := c.posRecords + f.records, bytes := c.bytes + f.size)
    case (false, Keys(_, _)) => c.(eq := c.eq + 1, eqRecords := c.eqRecords + f.records, bytes := c.bytes + f.size)
  }

  function Sum(live: seq<Live>, weight: File -> nat): nat {
    if live == [] then 0 else weight(live[0].file) + Sum(live[1..], weight)
  }

  function OneData(f: File): nat { if f.payload.Rows? then 1 else 0 }
  function OneDelete(f: File): nat { if f.payload.Rows? then 0 else 1 }
  function OnePos(f: File): nat { if f.payload.Positions? then 1 else 0 }
  function OneEq(f: File): nat { if f.payload.Keys? then 1 else 0 }
  function PosRecords(f: File): nat { if f.payload.Positions? then f.records else 0 }
  function EqRecords(f: File): nat { if f.payload.Keys? then f.records else 0 }
  function DataRecords(f: File): nat { if f.payload.Rows? then f.records else 0 }
  function Size(f: File): nat { f.size }

  /** The surviving half of the counts, recounted over a listing. */
  predicate Surviving(c: Counts, live: seq<Live>) {
    && c.data == Sum(live, OneData) && c.pos == Sum(live, OnePos) && c.eq == Sum(live, OneEq)
    && c.posRecords == Sum(live, PosRecords) && c.eqRecords == Sum(live, EqRecords)
    && c.records == Sum(live, DataRecords) && c.bytes == Sum(live, Size)
  }

  lemma {:induction false} SumConcat(a: seq<Live>, b: seq<Live>, weight: File -> nat)
    ensures Sum(a + b, weight) == Sum(a, weight) + Sum(b, weight)
  {
    if a == [] {
      assert a + b == b;
    } else {
      assert (a + b)[1..] == a[1..] + b;
      SumConcat(a[1..], b, weight);
    }
  }

  lemma SumOne(e: Live, weight: File -> nat)
    ensures Sum([e], weight) == weight(e.file)
  {
    assert [e][1..] == [];
  }

  lemma SumGrows(live: seq<Live>, e: Live, weight: File -> nat)
    ensures Sum(live + [e], weight) == Sum(live, weight) + weight(e.file)
  {
    SumConcat(live, [e], weight);
    SumOne(e, weight);
  }

  /** Delete files are the positional and the equality ones. */
  lemma {:induction false} DeleteKinds(live: seq<Live>)
    ensures Sum(live, OneDelete) == Sum(live, OnePos) + Sum(live, OneEq)
  {
    if live != [] {
      DeleteKinds(live[1..]);
    }
  }

  lemma SurvivingGrows(c: Counts, live: seq<Live>, e: Live)
    requires Surviving(c, live)
    ensures Surviving(Tally(c, e.file, false), live + [e])
  {
    hide Sum;
    SumGrows(live, e, OneData);
    SumGrows(live, e, OnePos);
    SumGrows(live, e, OneEq);
    SumGrows(live, e, PosRecords);
    SumGrows(live, e, EqRecords);
    SumGrows(live, e, DataRecords);
    SumGrows(live, e, Size);
  }

  /** The removed half, counted over what goes. */
  predicate Removed(c: Counts, lost: seq<Live>) {
    && c.removedData == Sum(lost, OneData) && c.removedPos == Sum(lost, OnePos) && c.removedEq == Sum(lost, OneEq)
    && c.removedBytes == Sum(lost, Size) && c.removedRecords == Sum(lost, DataRecords)
  }

  /** `c` is the exact count of `kept` and `lost`, file by kind, record and byte. */
  predicate CountedOver(c: Counts, kept: seq<Live>, lost: seq<Live>) {
    Surviving(c, kept) && Removed(c, lost)
  }

  predicate Counted(c: Counts, live: seq<Live>, removed: set<string>) {
    CountedOver(c, Without(live, removed), Within(live, removed))
  }

  lemma CountedOverGrows(c: Counts, kept: seq<Live>, lost: seq<Live>, e: Live)
    requires CountedOver(c, kept, lost)
    ensures CountedOver(Tally(c, e.file, false), kept + [e], lost)
    ensures CountedOver(Tally(c, e.file, true), kept, lost + [e])
  {
    hide Sum;
    SurvivingGrows(c, kept, e);
    RemovedGrows(c, lost, e);
  }

  lemma CountedGrows(c: Counts, live: seq<Live>, removed: set<string>, e: Live)
    requires Counted(c, live, removed)
    ensures Counted(Tally(c, e.file, e.Id() in removed), live + [e], removed)
  {
    SplitGrows(live, e, removed);
    CountedOverGrows(c, Without(live, removed), Within(live, removed), e);
  }

  lemma NothingCounted(kept: seq<Live>, lost: seq<Live>)
    requires kept == [] && lost == []
    ensures CountedOver(NO_COUNTS, kept, lost)
  {
  }

  /** `Counts::of`: one pass over the parent's live entries. */
  method CountEntries(live: seq<Live>, removed: set<string>) returns (c: Counts)
    ensures Counted(c, live, removed)
  {
    hide Normalize, CountedOver, Tally;
    c := NO_COUNTS;
    NothingCounted(Without(live[..0], removed), Within(live[..0], removed));
    for i := 0 to |live|
      invariant Counted(c, live[..i], removed)
    {
      CountedGrows(c, live[..i], removed, live[i]);
      assert live[..i + 1] == live[..i] + [live[i]];
      c := Tally(c, live[i].file, live[i].Id() in removed);
    }
    assert live[..|live|] == live;
  }

  lemma SplitGrows(live: seq<Live>, e: Live, ids: set<string>)
    ensures Without(live + [e], ids) == if e.Id() in ids then Without(live, ids) else Without(live, ids) + [e]
    ensures Within(live + [e], ids) == if e.Id() in ids then Within(live, ids) + [e] else Within(live, ids)
  {
    SplitConcat(live, [e], ids);
    assert [e][1..] == [];
  }

  lemma RemovedGrows(c: Counts, lost: seq<Live>, e: Live)
    requires Removed(c, lost)
    ensures Removed(Tally(c, e.file, true), lost + [e])
  {
    hide Sum;
    SumGrows(lost, e, OneData);
    SumGrows(lost, e, OnePos);
    SumGrows(lost, e, OneEq);
    SumGrows(lost, e, Size);
    SumGrows(lost, e, DataRecords);
  }

  /** The running totals of a snapshot summary. */
  datatype Summary = Summary(dataFiles: nat, deleteFiles: nat, posDeletes: nat, eqDeletes: nat, records: nat, bytes: nat)

  function SumFiles(files: seq<File>, weight: File -> nat): nat {
    if files == [] then 0 else weight(files[0]) + SumFiles(files[1..], weight)
  }

  function RecordCount(f: File): nat { f.records }

  function Summarize(c: Counts, added: seq<File>): Summary {
    Summary(c.data + |added|, c.pos + c.eq, c.posRecords, c.eqRecords,
            c.records + SumFiles(added, RecordCount), c.bytes + SumFiles(added, Size))
  }

  /** The same totals, counted again over what was written. */
  function Recount(live: seq<Live>): Summary {
    Summary(Sum(live, OneData), Sum(live, OneDelete), Sum(live, PosRecords), Sum(live, EqRecords),
            Sum(live, DataRecords), Sum(live, Size))
  }

  lemma {:induction false} SumPlaced(specId: int, files: seq<File>, n: int, weight: File -> nat)
    ensures Sum(Placed(specId, files, n), weight) == SumFiles(files, weight)
  {
    if files != [] {
      assert Placed(specId, files, n)[1..] == Placed(specId, files[1..], n);
      SumPlaced(specId, files[1..], n, weight);
    }
  }

  lemma {:induction false} DataCount(files: seq<File>)
    ensures SumFiles(files, OneData) + SumFiles(files, OneDelete) == |files|
    ensures SumFiles(files, OneDelete) == 0 <==> forall f | f in files :: f.IsData()
  {
    if files != [] {
      DataCount(files[1..]);
      assert files[0] in files && forall f :: f in files <==> f == files[0] || f in files[1..];
    }
  }

  lemma {:induction false} DataOnlySums(files: seq<File>)
    requires forall f | f in files :: f.IsData()
    ensures SumFiles(files, PosRecords) == 0 && SumFiles(files, EqRecords) == 0
    ensures SumFiles(files, DataRecords) == SumFiles(files, RecordCount)
  {
    if files != [] {
      assert files[0] in files && forall f | f in files[1..] :: f in files;
      DataOnlySums(files[1..]);
    }
  }

  /** The totals a summary publishes are a recount of the manifests written, exactly when every added file is a data
      file: an added file is counted as data whatever it holds. */
  lemma SummaryIsARecount(c: Counts, live: seq<Live>, removed: set<string>, specId: int, added: seq<File>, n: int)
    requires Surviving(c, Without(live, removed))
    ensures Summarize(c, added) == Recount(Without(live, removed) + Placed(specId, added, n)) <==>
            forall f | f in added :: f.IsData()
  {
    var kept, placed := Without(live, removed), Placed(specId, added, n);
    DeleteKinds(kept);
    SumConcat(kept, placed, OneData);
    SumConcat(kept, placed, OneDelete);
    SumConcat(kept, placed, PosRecords);
    SumConcat(kept, placed, EqRecords);
    SumConcat(kept, placed, DataRecords);
    SumConcat(kept, placed, Size);
    SumPlaced(specId, added, n, OneData);
    SumPlaced(specId, added, n, OneDelete);
    SumPlaced(specId, added, n, PosRecords);
    SumPlaced(specId, added, n, EqRecords);
    SumPlaced(specId, added, n, DataRecords);
    SumPlaced(specId, added, n, Size);
    DataCount(added);
    if forall f | f in added :: f.IsData() {
      DataOnlySums(added);
    }
  }

  // ---- rewrite_files and install ----

  function Ids(paths: seq<string>): set<string> {
    set p | p in paths :: Normalize(p)
  }

  function LiveIds(live: seq<Live>): set<string> {
    set e | e in live :: e.Id()
  }

  /** Every manifest is one a rebuild could write again. */
  ghost predicate AllWritable(t: Table, ms: seq<Manifest>) {
    forall m :: m in ms ==> Writable(t, m)
  }

  /** A commit built on `t`: its snapshot holds what `t` holds without the removed files, plus the added ones. */
  ghost predicate Replaces(t: Table, rewrite: Rewrite, snapshotId: int, req: Request) {
    && req.parent == t.mainHead
    && req.snapshot.id == snapshotId && req.snapshot.parent == t.mainHead && req.snapshot.seqNo == t.lastSeq + 1
    && LiveAll(req.snapshot.manifests) ==
       Without(LiveAt(t), Ids(rewrite.removed)) + Placed(t.defaultSpec, rewrite.added, t.lastSeq + 1)
    && ((forall f | f in rewrite.added :: f.IsData()) ==> req.summary == Some(Recount(LiveAll(req.snapshot.manifests))))
    && (forall now :: now in req.snapshot.manifests ==>
          ManifestWritten(t, ManifestsAt(t), Ids(rewrite.removed), rewrite.added, snapshotId, now))
  }

  /** The snapshot a rewrite is built on. Only a table whose current snapshot is the head of `main` is rewritten. */
  function CurrentId(t: Table): Option<int> {
    if t.current.Some? then Some(t.current.value.id) else None
  }

  /** When `rewrite_files` refuses before writing anything. */
  function RewriteRefusal(t: Table, rewrite: Rewrite): Option<Error> {
    if t.version.V3? then Some(Refused)
    else if t.current.None? && rewrite.removed != [] then Some(Refused)
    else if !(Ids(rewrite.removed) <= LiveIds(LiveAt(t))) then Some(Stale)
    else None
  }

  method RewriteFiles(t: Table, rewrite: Rewrite, snapshotId: int) returns (r: Result<Option<Request>>)
    ensures RewriteRefusal(t, rewrite).Some? ==> r == Err(RewriteRefusal(t, rewrite).value)
    ensures r.Ok? && r.value.Some? ==> Replaces(t, rewrite, snapshotId, r.value.value)
    ensures RewriteRefusal(t, rewrite).None? ==>
              (if rewrite == Rewrite([], []) then r == Ok(None)
               else if !CanRebuild(t, ManifestsAt(t), Ids(rewrite.removed)) then r == Err(BadMetadata)
               else if t.mainHead != CurrentId(t) then r == Err(Refused)
               else r.Ok? && r.value.Some?)
  {
    if t.version.V3? {
      return Err(Refused);
    }
    if t.current.None? && rewrite.removed != [] {
      return Err(Refused);
    }
    var removed := Ids(rewrite.removed);
    if !(removed <= LiveIds(LiveAt(t))) {
      return Err(Stale);
    }
    if rewrite.removed == [] && rewrite.added == [] {
      return Ok(None);
    }
    var req := Produce(t, rewrite, removed, snapshotId);
    if req.Err? {
      return Err(req.error);
    }
    r := Ok(Some(req.value));
  }

  /** The half of `rewrite_files` that writes: counts, manifests, summary, request. */
  method Produce(t: Table, rewrite: Rewrite, removed: set<string>, snapshotId: int) returns (r: Result<Request>)
    requires removed == Ids(rewrite.removed)
    requires !t.version.V3?
    ensures r.Ok? ==> Replaces(t, rewrite, snapshotId, r.value)
    ensures if !CanRebuild(t, ManifestsAt(t), removed) then r == Err(BadMetadata)
            else if t.mainHead != CurrentId(t) then r == Err(Refused)
            else r.Ok?
  {
    var counts := CountEntries(LiveAt(t), removed);
    var manifests := WriteManifests(t, ManifestsAt(t), removed, rewrite.added, snapshotId);
    if manifests.Err? {
      return Err(manifests.error);
    }
    r := Install(t, CurrentId(t), manifests.value, Some(Summarize(counts, rewrite.added)), snapshotId);
    if r.Ok? {
      InstalledReplaces(t, rewrite, removed, counts, snapshotId);
    }
  }

  lemma SurvivingHalf(c: Counts, live: seq<Live>, removed: set<string>)
    requires Counted(c, live, removed)
    ensures Surviving(c, Without(live, removed))
  {
  }

  lemma InstalledReplaces(t: Table, rewrite: Rewrite, removed: set<string>, counts: Counts, snapshotId: int)
    requires removed == Ids(rewrite.removed) && Counted(counts, LiveAt(t), removed)
    requires Written(t, ManifestsAt(t), removed, rewrite.added, snapshotId).Ok?
    ensures var manifests := Written(t, ManifestsAt(t), removed, rewrite.added, snapshotId).value;
            Replaces(t, rewrite, snapshotId,
                     Request(t.mainHead, Snapshot(snapshotId, t.mainHead, t.lastSeq + 1, manifests),
                             Some(Summarize(counts, rewrite.added))))
  {
    hide Written, ManifestWritten, LiveAll, Normalize, Summarize, Recount, Counted;
    SurvivingHalf(counts, LiveAt(t), removed);
    WrittenReads(t, ManifestsAt(t), removed, rewrite.added, snapshotId);
    WrittenFrom(t, ManifestsAt(t), removed, rewrite.added, snapshotId);
    SummaryIsARecount(counts, LiveAt(t), removed, t.defaultSpec, rewrite.added, t.lastSeq + 1);
  }

  /** The compare-and-swap every replacing commit goes through; refused unless the table's current snapshot is the
      head of `main`. */
  function Install(t: Table, parent: Option<int>, manifests: seq<Manifest>, summary: Option<Summary>, snapshotId: int): (r: Result<Request>)
    ensures r.Ok? <==> t.mainHead == parent && !t.version.V3?
    ensures r.Err? ==> r.error == Refused
  {
    if t.version.V3? || t.mainHead != parent then Err(Refused)
    else Ok(Request(parent, Snapshot(snapshotId, parent, t.lastSeq + 1, manifests), summary))
  }
}
