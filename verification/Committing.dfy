/** Sending a commit: the answers a catalog gives, the re-send loop behind a busy one, and the rebuild loop around a
    lost compare-and-swap. The catalog is a mutable object driven by a script, so that other commits, lost answers and
    gateways that answer for a commit that did take effect can happen at every send. */
module Committing {
  import opened Wrappers
  import opened Paths
  import opened Tables
  import opened Producer
  import opened Rewrite
  import opened AntiJoin
  import opened Grouping
  import opened Compact
  import opened Protocol

  // ---- Answers ----

  const MAX_THROTTLE_RETRIES := 3
  predicate IsSuccess(status: nat) {
    200 <= status < 300
  }

  predicate IsThrottle(status: nat) {
    status == 429 || status == 503 || status == 502 || status == 504
  }

  function Classify(status: nat): Error {
    if status == 409 || status == 412 then Conflict
    else if status == 404 then BadMetadata
    else if status == 403 || status == 401 then Refused
    else CatalogFailure
  }

  /** Only a lost compare-and-swap makes the caller rebuild, and what is sent again as it stands never does. */
  lemma OnlyALostSwapIsRebuilt(status: nat)
    ensures Classify(status).IsReplan() <==> status == 409 || status == 412
    ensures IsThrottle(status) ==> !IsSuccess(status) && !Classify(status).IsReplan()
    ensures Classify(status) == Refused <==> status == 401 || status == 403
    ensures Classify(status) == BadMetadata <==> status == 404
  {
  }

  // ---- The catalog ----

  /** What the catalog knows. `past`: what `main` pointed at before; `ids`: snapshot ids taken or promised; `lived`:
      files ever live on `main`; `accepted`: this worker's commits that took effect. */
  datatype World = World(table: Table, past: set<Option<int>>, ids: set<int>, lived: set<Live>, accepted: seq<Request>)

  predicate WorldOk(w: World) {
    && Sound(w.table)
    && w.table.mainHead !in w.past
    && (forall h | h in w.past + {w.table.mainHead} && h.Some? :: h.value in w.ids)
    && Files(LiveAt(w.table)) <= w.lived
    && (forall x, y | x in w.lived && y in w.lived && x.Id() == y.Id() :: x == y)
  }

  function Advance(w: World, snapshot: Snapshot): World {
    w.(table := Moved(w.table, snapshot), past := w.past + {w.table.mainHead}, ids := w.ids + {snapshot.id},
       lived := w.lived + Files(LiveAll(snapshot.manifests)))
  }

  /** Anyone else's commit: an unused snapshot id, a sound table after it, and new files under names neither used
      before nor reserved by this worker. */
  predicate Admissible(w: World, mine: string -> bool, snapshot: Snapshot) {
    && snapshot.id !in w.ids
    && Sound(Moved(w.table, snapshot))
    && (forall e | e in LiveAll(snapshot.manifests) && e !in LiveAt(w.table) :: e.Id() !in IdsOf(w.lived) && !mine(e.Id()))
  }

  function Meanwhile(w: World, mine: string -> bool, others: seq<Snapshot>): World
    decreases |others|
  {
    if others == [] then w
    else Meanwhile(if Admissible(w, mine, others[0]) then Advance(w, others[0]) else w, mine, others[1..])
  }

  /** The compare-and-swap. */
  function Process(w: World, req: Request): World {
    if w.table.mainHead == req.parent then Advance(w, req.snapshot).(accepted := w.accepted + [req]) else w
  }

  /** What happens at one send: commits by others first, then the request is processed or not, then its sender is told.
      `Hidden` is a gateway answering for a commit whose own answer is lost; `Broken` is no answer at all. */
  datatype Fate = Honest | Hidden(status: nat) | Unprocessed(status: nat) | Broken(processed: bool)

  datatype Turn = Turn(others: seq<Snapshot>, fate: Fate)

  predicate Plausible(t: Turn) {
    match t.fate
    case Hidden(status) => !IsSuccess(status)
    case Unprocessed(status) => !IsSuccess(status)
    case _ => true
  }

  function Processed(w: World, req: Request, fate: Fate): World {
    if fate.Unprocessed? || fate == Broken(false) then w else Process(w, req)
  }

  function Told(w: World, req: Request, fate: Fate): Option<nat> {
    match fate
    case Honest => Some(if w.table.mainHead == req.parent then 200 else 409)
    case Hidden(status) => Some(status)
    case Unprocessed(status) => Some(status)
    case Broken(_) => None
  }

  function After(w: World, mine: string -> bool, req: Request, turn: Turn): World {
    Processed(Meanwhile(w, mine, turn.others), req, turn.fate)
  }

  /** A script that has run out leaves the catalog to this worker. */
  const QUIET := Turn([], Honest)

  function Drop<T>(s: seq<T>, n: nat): seq<T> {
    if n >= |s| then [] else s[n..]
  }

  /** The turn `i` sends from now. */
  function TurnAt(script: seq<Turn>, i: nat): Turn {
    if i < |script| then script[i] else QUIET
  }

  class Catalog {
    var world: World
    var script: seq<Turn>
    var sends: nat
    const mine: string -> bool

    ghost predicate Valid()
      reads this
    {
      forall t | t in script :: Plausible(t)
    }

    constructor (world: World, script: seq<Turn>, mine: string -> bool)
      requires forall t | t in script :: Plausible(t)
      ensures Valid() && this.world == world && this.script == script && this.mine == mine && sends == 0
    {
      this.world, this.script, this.mine, this.sends := world, script, mine, 0;
    }

    method Send(req: Request) returns (status: Option<nat>)
      requires Valid()
      modifies this
      ensures Valid() && sends == old(sends) + 1 && script == Drop(old(script), 1)
      ensures world == After(old(world), mine, req, TurnAt(old(script), 0))
      ensures status == Told(Meanwhile(old(world), mine, TurnAt(old(script), 0).others), req, TurnAt(old(script), 0).fate)
    {
      var turn := TurnAt(script, 0);
      var found := Meanwhile(world, mine, turn.others);
      world := Processed(found, req, turn.fate);
      status := Told(found, req, turn.fate);
      script := Drop(script, 1);
      sends := sends + 1;
    }

    method Reload() returns (r: Result<Table>)
      requires Valid()
      modifies this
      ensures Valid() && sends == old(sends) && script == Drop(old(script), 1)
      ensures world == Meanwhile(old(world), mine, TurnAt(old(script), 0).others)
      ensures r == if TurnAt(old(script), 0).fate.Broken? then Err(CatalogFailure) else Ok(world.table)
    {
      var turn := TurnAt(script, 0);
      world := Meanwhile(world, mine, turn.others);
      script := Drop(script, 1);
      r := if turn.fate.Broken? then Err(CatalogFailure) else Ok(world.table);
    }
  }

  // ---- commit: the re-send loop ----

  /** The catalog after `n` sends of one request. */
  function Played(w: World, mine: string -> bool, req: Request, script: seq<Turn>, n: nat): World {
    if n == 0 then w else After(Played(w, mine, req, script, n - 1), mine, req, TurnAt(script, n - 1))
  }

  /** What send `n`, counted from one, is answered. */
  function Heard(w: World, mine: string -> bool, req: Request, script: seq<Turn>, n: nat): Option<nat>
    requires n > 0
  {
    Told(Meanwhile(Played(w, mine, req, script, n - 1), mine, TurnAt(script, n - 1).others), req, TurnAt(script, n - 1).fate)
  }

  /** Too many requests, unavailable, or a gateway that got no answer in time: none says what became of the request. */
  predicate Busy(status: Option<nat>) {
    status in {Some(429), Some(502), Some(503), Some(504)}
  }

  function Verdict(status: Option<nat>): Result<()> {
    if status.None? then Err(CatalogFailure)
    else if IsSuccess(status.value) then Ok(())
    else Err(Classify(status.value))
  }

  lemma DropMore(script: seq<Turn>, n: nat)
    ensures Drop(Drop(script, n), 1) == Drop(script, n + 1)
    ensures TurnAt(Drop(script, n), 0) == TurnAt(script, n)
  {
  }

  lemma ThrottleIsFailure(status: nat)
    requires IsThrottle(status)
    ensures !IsSuccess(status) && Classify(status) == CatalogFailure
  {
  }

  /** `RestCommitter::commit`: the identical request again after a busy or gateway answer, at most four times in all;
      any other answer is final. */
  method Commit(c: Catalog, req: Request) returns (r: Result<()>, ghost n: nat)
    requires c.Valid()
    modifies c
    ensures c.Valid() && c.sends == old(c.sends) + n && c.script == Drop(old(c.script), n)
    ensures c.world == Played(old(c.world), c.mine, req, old(c.script), n)
    ensures 1 <= n <= MAX_THROTTLE_RETRIES + 1
    ensures forall i :: 1 <= i < n ==> Busy(Heard(old(c.world), c.mine, req, old(c.script), i))
    ensures n <= MAX_THROTTLE_RETRIES ==> !Busy(Heard(old(c.world), c.mine, req, old(c.script), n))
    ensures r == Verdict(Heard(old(c.world), c.mine, req, old(c.script), n))
  {
    n := 0;
    ghost var first, script := c.world, c.script;
    for attempt := 0 to MAX_THROTTLE_RETRIES + 1
      invariant c.Valid() && n == attempt && c.sends == old(c.sends) + n && c.script == Drop(script, n)
      invariant c.world == Played(first, c.mine, req, script, n)
      invariant forall i :: 1 <= i < n + 1 ==> Busy(Heard(first, c.mine, req, script, i))
    {
      DropMore(script, n);
      var status := c.Send(req);
      n := n + 1;
      assert status == Heard(first, c.mine, req, script, n);
      if status.None? {
        return Err(CatalogFailure), n;
      }
      if IsSuccess(status.value) {
        return Ok(()), n;
      }
      if !(IsThrottle(status.value) && attempt < MAX_THROTTLE_RETRIES) {
        return Err(Classify(status.value)), n;
      }
    }
    assert Busy(Heard(first, c.mine, req, script, n));
    ThrottleIsFailure(Heard(first, c.mine, req, script, n).value);
    r := Err(CatalogFailure);
  }

  // ---- What other commits leave standing ----

  /** From `w` to `w'` nothing was forgotten, this worker's names were not used, and nothing gone came back. */
  ghost predicate Later(w: World, w': World, mine: string -> bool) {
    && w.lived <= w'.lived && w.past <= w'.past && w.ids <= w'.ids && w.accepted == w'.accepted
    && (forall e :: e in w'.lived && e !in w.lived ==> !mine(e.Id()) && e.Id() !in IdsOf(w.lived))
    && (w'.table == w.table || w.table.mainHead in w'.past)
    && (forall h :: h in w'.past + {w'.table.mainHead} && h !in w.past + {w.table.mainHead} ==> h.Some? && h.value !in w.ids)
    && w'.table.defaultSpec == w.table.defaultSpec && w'.table.specs == w.table.specs && w'.table.version == w.table.version
    && (forall i :: i in IdsOf(w.lived) && i !in LiveIds(LiveAt(w.table)) ==> i !in LiveIds(LiveAt(w'.table)))
  }

  lemma LaterItself(w: World, mine: string -> bool)
    ensures Later(w, w, mine)
  {
  }

  lemma LaterTransitive(a: World, b: World, c: World, mine: string -> bool)
    requires Later(a, b, mine) && Later(b, c, mine)
    ensures Later(a, c, mine)
  {
    forall e | e in c.lived && e !in a.lived
      ensures !mine(e.Id()) && e.Id() !in IdsOf(a.lived)
    {
      if e !in b.lived {
        assert IdsOf(a.lived) <= IdsOf(b.lived);
      }
    }
  }

  /** New files under new names keep names identifying. */
  lemma NewNamesIdentify(lived: set<Live>, come: set<Live>)
    requires forall x, y | x in lived && y in lived && x.Id() == y.Id() :: x == y
    requires forall x, y | x in come && y in come && x.Id() == y.Id() :: x == y
    requires forall e | e in come && e !in lived :: e.Id() !in IdsOf(lived)
    ensures forall x, y | x in lived + come && y in lived + come && x.Id() == y.Id() :: x == y
  {
    forall x, y | x in lived + come && y in lived + come && x.Id() == y.Id()
      ensures x == y
    {
      if x in lived {
        assert x.Id() in IdsOf(lived);
      }
      if y in lived {
        assert y.Id() in IdsOf(lived);
      }
    }
  }

  lemma AdmissibleOk(w: World, mine: string -> bool, snapshot: Snapshot)
    requires WorldOk(w) && Admissible(w, mine, snapshot)
    ensures WorldOk(Advance(w, snapshot))
  {
    var come := Files(LiveAll(snapshot.manifests));
    assert forall x, y | x in come && y in come && x.Id() == y.Id() :: x == y by {
      assert UniqueIds(LiveAt(Moved(w.table, snapshot)));
    }
    NewNamesIdentify(w.lived, come);
  }

  lemma AdmissibleReturnsNothing(w: World, mine: string -> bool, snapshot: Snapshot, i: string)
    requires WorldOk(w) && Admissible(w, mine, snapshot)
    requires i in IdsOf(w.lived) && i !in LiveIds(LiveAt(w.table))
    ensures i !in LiveIds(LiveAll(snapshot.manifests))
  {
  }

  lemma AdmissibleLater(w: World, mine: string -> bool, snapshot: Snapshot)
    requires WorldOk(w) && Admissible(w, mine, snapshot)
    ensures Later(w, Advance(w, snapshot), mine)
  {
    forall i | i in IdsOf(w.lived) && i !in LiveIds(LiveAt(w.table))
      ensures i !in LiveIds(LiveAt(Advance(w, snapshot).table))
    {
      AdmissibleReturnsNothing(w, mine, snapshot, i);
    }
  }

  lemma {:induction false} MeanwhileLater(w: World, mine: string -> bool, others: seq<Snapshot>)
    requires WorldOk(w)
    ensures WorldOk(Meanwhile(w, mine, others)) && Later(w, Meanwhile(w, mine, others), mine)
    decreases |others|
  {
    LaterItself(w, mine);
    if others != [] {
      var next := if Admissible(w, mine, others[0]) then Advance(w, others[0]) else w;
      if Admissible(w, mine, others[0]) {
        AdmissibleOk(w, mine, others[0]);
        AdmissibleLater(w, mine, others[0]);
      }
      MeanwhileLater(next, mine, others[1..]);
      LaterTransitive(w, next, Meanwhile(next, mine, others[1..]), mine);
    }
  }

  // ---- One group's commit ----

  /** The files a plan chose: live once, data, of the current spec, and named by those paths alone. */
  ghost predicate Planned(w: World, wanted: set<string>) {
    && wanted <= IdsOf(w.lived)
    && (forall e :: e in w.lived && e.Id() in wanted ==> e.file.IsData() && e.key.specId == w.table.defaultSpec)
  }

  /** A version this worker loaded. */
  ghost predicate Loaded(w: World, t: Table) {
    && Sound(t) && Files(LiveAt(t)) <= w.lived
    && t.defaultSpec == w.table.defaultSpec
    && (w.table == t || t.mainHead in w.past)
  }

  /** A commit built on a version this worker loaded, not accepted so far. */
  ghost predicate Ready(w: World, p: Post, mine: string -> bool) {
    && Shaped(p) && Derives(p)
    && Loaded(w, p.base) && Planned(w, p.work.wanted)
    && p.request.snapshot.id in w.ids && Some(p.request.snapshot.id) !in w.past + {w.table.mainHead}
    && AddedIds(p.work) !! IdsOf(w.lived) && forall i :: i in AddedIds(p.work) ==> mine(i)
  }

  /** A commit that took effect: it cannot again, and nothing of its group is left. */
  ghost predicate Spent(w: World, p: Post) {
    && p.work.Compaction?
    && p.request.parent in w.past
    && forall i :: i in p.work.wanted ==> i in IdsOf(w.lived) && i !in LiveIds(LiveAt(w.table))
  }

  lemma PlannedStays(w: World, w': World, mine: string -> bool, wanted: set<string>)
    requires Later(w, w', mine) && Planned(w, wanted)
    ensures Planned(w', wanted)
  {
  }

  lemma LoadedStays(w: World, w': World, mine: string -> bool, t: Table)
    requires Later(w, w', mine) && Loaded(w, t)
    ensures Loaded(w', t)
  {
  }

  lemma ReadyStays(w: World, w': World, mine: string -> bool, p: Post)
    requires Later(w, w', mine) && Ready(w, p, mine)
    ensures Ready(w', p, mine)
  {
    LoadedStays(w, w', mine, p.base);
    PlannedStays(w, w', mine, p.work.wanted);
    forall i | i in AddedIds(p.work)
      ensures i !in IdsOf(w'.lived)
    {
    }
  }

  lemma SpentStays(w: World, w': World, mine: string -> bool, p: Post)
    requires Later(w, w', mine) && Spent(w, p)
    ensures Spent(w', p)
  {
    assert IdsOf(w.lived) <= IdsOf(w'.lived);
  }

  /** A ready commit is accepted only on the version it was built on. */
  lemma ReadyMeetsItsBase(w: World, p: Post, mine: string -> bool)
    requires WorldOk(w) && Ready(w, p, mine) && w.table.mainHead == p.request.parent
    ensures w.table == p.base
  {
  }

  lemma AcceptedOk(w: World, p: Post, mine: string -> bool)
    requires WorldOk(w) && Ready(w, p, mine) && w.table.mainHead == p.request.parent
    ensures WorldOk(Process(w, p.request))
  {
    hide Normalize, Shaped;
    ReadyMeetsItsBase(w, p, mine);
    var come := Files(LiveAll(p.request.snapshot.manifests));
    NewNamesIdentify(w.lived, come);
  }

  lemma AcceptedIsSpent(w: World, p: Post, mine: string -> bool)
    requires WorldOk(w) && Ready(w, p, mine) && w.table.mainHead == p.request.parent
    ensures Spent(Process(w, p.request), p)
  {
    ReadyMeetsItsBase(w, p, mine);
    var w' := Process(w, p.request);
    assert IdsOf(w.lived) <= IdsOf(w'.lived);
    forall i | i in p.work.wanted
      ensures i !in LiveIds(LiveAt(w'.table))
    {
      assert NamesData(p.base, p.work.wanted);
      if i in LiveIds(LiveAt(p.base)) {
        WantedIsRemoved(p, i);
      }
    }
  }

  /** Where one commit stands: still ready and never accepted, or accepted once. */
  ghost predicate Standing(w: World, p: Post, mine: string -> bool, before: seq<Request>) {
    || (w.accepted == before && Ready(w, p, mine))
    || (w.accepted == before + [p.request] && Spent(w, p))
  }

  /** One send, whatever the catalog makes of it. */
  lemma SendKeepsStanding(w: World, turn: Turn, p: Post, mine: string -> bool, before: seq<Request>)
    requires WorldOk(w) && Standing(w, p, mine, before)
    ensures WorldOk(After(w, mine, p.request, turn)) && Standing(After(w, mine, p.request, turn), p, mine, before)
  {
    hide Normalize, Shaped, Derives, Sound;
    var found := Meanwhile(w, mine, turn.others);
    MeanwhileLater(w, mine, turn.others);
    if w.accepted == before {
      ReadyStays(w, found, mine, p);
      if found.table.mainHead == p.request.parent {
        AcceptedOk(found, p, mine);
        AcceptedIsSpent(found, p, mine);
      }
    } else {
      SpentStays(w, found, mine, p);
    }
  }

  /** The catalog is sound, and the commit stands. */
  ghost predicate Good(w: World, p: Post, mine: string -> bool, before: seq<Request>) {
    WorldOk(w) && Standing(w, p, mine, before)
  }

  ghost predicate Took(w: World, p: Post, before: seq<Request>) {
    w.accepted == before + [p.request]
  }

  lemma GoodStays(w: World, turn: Turn, p: Post, mine: string -> bool, before: seq<Request>)
    ensures Good(w, p, mine, before) ==> Good(After(w, mine, p.request, turn), p, mine, before)
  {
    if Good(w, p, mine, before) {
      SendKeepsStanding(w, turn, p, mine, before);
    }
  }

  /** However many sends, and whatever happens between them: the commit took effect at most once; and if it did, it is
      spent, and nothing of its group is left. */
  lemma {:induction false} AtMostOneEffect(w: World, p: Post, mine: string -> bool, script: seq<Turn>, n: nat, before: seq<Request>)
    requires Good(w, p, mine, before)
    ensures Good(Played(w, mine, p.request, script, n), p, mine, before)
  {
    hide Normalize, WorldOk, Standing;
    if n > 0 {
      AtMostOneEffect(w, p, mine, script, n - 1, before);
      var last := Played(w, mine, p.request, script, n - 1);
      GoodStays(last, TurnAt(script, n - 1), p, mine, before);
      var now := After(last, mine, p.request, TurnAt(script, n - 1));
      assert Played(w, mine, p.request, script, n) == now;
    }
  }

  lemma HonestAnswer(w: World, p: Post, mine: string -> bool, turn: Turn, before: seq<Request>)
    requires Plausible(turn)
    ensures var told := Told(Meanwhile(w, mine, turn.others), p.request, turn.fate);
            var after := After(w, mine, p.request, turn);
            Good(w, p, mine, before) ==>
              && (told.Some? && IsSuccess(told.value) ==> Took(after, p, before))
              && (told.Some? && !IsSuccess(told.value) && !turn.fate.Hidden? && !Took(w, p, before) ==> !Took(after, p, before))
  {
    if Good(w, p, mine, before) {
      MeanwhileLater(w, mine, turn.others);
      SendKeepsStanding(w, turn, p, mine, before);
    }
  }

  /** Success is never reported for a commit that did not take effect. */
  lemma SuccessTookEffect(w: World, p: Post, mine: string -> bool, script: seq<Turn>, n: nat)
    requires Good(w, p, mine, w.accepted) && n > 0 && Plausible(TurnAt(script, n - 1))
    requires Verdict(Heard(w, mine, p.request, script, n)).Ok?
    ensures Took(Played(w, mine, p.request, script, n), p, w.accepted)
  {
    hide Good, Took, Told, Meanwhile, After, Plausible, TurnAt;
    AtMostOneEffect(w, p, mine, script, n - 1, w.accepted);
    HonestAnswer(Played(w, mine, p.request, script, n - 1), p, mine, TurnAt(script, n - 1), w.accepted);
  }

  lemma StandingElsewhere(w: World, p: Post, mine: string -> bool, before: seq<Request>, others: seq<Snapshot>)
    requires Good(w, p, mine, before) && p.base.mainHead == p.request.parent
    requires Meanwhile(w, mine, others).table.mainHead != p.request.parent
    ensures p.base.mainHead in Meanwhile(w, mine, others).past
  {
    hide Normalize, Shaped, Sound;
    MeanwhileLater(w, mine, others);
    if w.accepted == before && Ready(w, p, mine) {
      ReadyStays(w, Meanwhile(w, mine, others), mine, p);
    } else {
      assert p.request.parent in w.past;
    }
  }

  /** A conflict the catalog itself answers means the version the commit was built on is no longer `main`, so building it
      again from a reload, and only that, is what can succeed. */
  lemma ConflictMeansSuperseded(w: World, p: Post, mine: string -> bool, script: seq<Turn>, n: nat, before: seq<Request>)
    requires Good(w, p, mine, before) && n > 0 && TurnAt(script, n - 1).fate.Honest?
    requires Verdict(Heard(w, mine, p.request, script, n)) == Err(Conflict)
    requires p.base.mainHead == p.request.parent
    ensures p.base.mainHead in Played(w, mine, p.request, script, n).past
    ensures Played(w, mine, p.request, script, n).table.mainHead != p.request.parent
    ensures Played(w, mine, p.request, script, n).accepted == Played(w, mine, p.request, script, n - 1).accepted
  {
    hide Normalize, Good, Meanwhile;
    AtMostOneEffect(w, p, mine, script, n - 1, before);
    var last, turn := Played(w, mine, p.request, script, n - 1), TurnAt(script, n - 1);
    OnlyALostSwapIsRebuilt(Heard(w, mine, p.request, script, n).value);
    StandingElsewhere(last, p, mine, before, turn.others);
    MeanwhileKeepsAccepted(last, mine, turn.others);
  }

  /** And a run of failures in which the catalog always spoke for itself means it took none. */
  lemma {:induction false} HonestFailureTookNone(w: World, p: Post, mine: string -> bool, script: seq<Turn>, n: nat)
    requires Good(w, p, mine, w.accepted)
    requires forall i: nat :: i < n ==> Plausible(TurnAt(script, i)) && !TurnAt(script, i).fate.Hidden?
    requires forall i :: 1 <= i <= n ==> Heard(w, mine, p.request, script, i).Some? && Verdict(Heard(w, mine, p.request, script, i)).Err?
    ensures !Took(Played(w, mine, p.request, script, n), p, w.accepted)
  {
    hide Normalize, WorldOk, Standing, Good, After, Told, Meanwhile;
    if n > 0 {
      HonestFailureTookNone(w, p, mine, script, n - 1);
      AtMostOneEffect(w, p, mine, script, n - 1, w.accepted);
      assert !TurnAt(script, n - 1).fate.Hidden? && Heard(w, mine, p.request, script, n).Some?;
      HonestAnswer(Played(w, mine, p.request, script, n - 1), p, mine, TurnAt(script, n - 1), w.accepted);
    }
  }

  // ---- rewrite_and_commit: the rebuild loop ----

  /** Output names are this worker's own, one file each, and no file ever lived under them. */
  ghost predicate FreshOutputs(w: World, env: Env, mine: string -> bool) {
    && (forall i: nat :: mine(Normalize(env.nameOf(i))) && Normalize(env.nameOf(i)) !in IdsOf(w.lived))
    && (forall i: nat, j: nat :: i < j ==> Normalize(env.nameOf(i)) != Normalize(env.nameOf(j)))
    && env.snapshotId in w.ids && Some(env.snapshotId) !in w.past + {w.table.mainHead}
  }

  lemma FreshStays(w: World, w': World, mine: string -> bool, env: Env)
    requires Later(w, w', mine) && FreshOutputs(w, env, mine)
    ensures FreshOutputs(w', env, mine)
  {
    hide Normalize;
  }

  lemma FreshAddedIds(w: World, env: Env, mine: string -> bool, tasks: seq<Task>, added: seq<File>, k: Key)
    requires FreshOutputs(w, env, mine) && OfPartition(tasks, added, k, env.nameOf)
    ensures DistinctPaths(added)
    ensures forall f | f in added :: mine(Normalize(f.path)) && Normalize(f.path) !in IdsOf(w.lived)
  {
    hide Normalize;
    forall i | 0 <= i < |added|
      ensures added[i].path == env.nameOf(i)
    {
      assert WrittenAs(added[i], k.values, env.nameOf(i));
    }
  }

  /** What one attempt builds is ready to send. */
  lemma BuiltIsReady(w: World, t: Table, wanted: set<string>, env: Env, mine: string -> bool, rewrite: Producer.Rewrite, req: Request)
    requires WorldOk(w) && Loaded(w, t) && Planned(w, wanted) && FreshOutputs(w, env, mine)
    requires Select(Scan(LiveAt(t)), wanted) != []
    requires GroupShape(t, Select(Scan(LiveAt(t)), wanted), rewrite, env.nameOf) && Replaces(t, rewrite, env.snapshotId, req)
    ensures Ready(w, Post(t, Compaction(wanted, rewrite), req), mine)
  {
    hide Normalize, Scan, Select, Sound, LiveAll, FreshOutputs, Planned;
    var p := Post(t, Compaction(wanted, rewrite), req);
    var tasks := Select(Scan(LiveAt(t)), wanted);
    var k: Key :| k.specId == t.defaultSpec && OfPartition(tasks, rewrite.added, k, env.nameOf);
    FreshAddedIds(w, env, mine, tasks, rewrite.added, k);
    assert Shaped(p);
    assert LiveIds(LiveAt(t)) <= IdsOf(w.lived);
    CompactionDerives(p, IdsOf(w.lived));
    IdIsFresh(w, env, mine);
  }

  lemma IdIsFresh(w: World, env: Env, mine: string -> bool)
    requires FreshOutputs(w, env, mine)
    ensures env.snapshotId in w.ids && Some(env.snapshotId) !in w.past + {w.table.mainHead}
  {
  }

  lemma PlannedSpec(w: World, t: Table, wanted: set<string>)
    requires Loaded(w, t) && Planned(w, wanted)
    ensures OnSpec(t, Select(Scan(LiveAt(t)), wanted)) && forall x | x in Select(Scan(LiveAt(t)), wanted) :: x in Scan(LiveAt(t))
  {
    hide Normalize, Sound;
    SelectMembers(Scan(LiveAt(t)), wanted);
    ScanMembers(LiveAt(t), LiveAt(t));
    forall x | x in Select(Scan(LiveAt(t)), wanted)
      ensures x.live.key.specId == t.defaultSpec
    {
      assert x.live in Files(LiveAt(t));
    }
  }

  /** A send that took no effect leaves only what others did. */
  lemma {:induction false} UntakenIsLater(w: World, p: Post, mine: string -> bool, script: seq<Turn>, n: nat)
    requires WorldOk(w)
    ensures w.accepted <= Played(w, mine, p.request, script, n).accepted
    ensures Good(w, p, mine, w.accepted) && Played(w, mine, p.request, script, n).accepted == w.accepted ==>
              Later(w, Played(w, mine, p.request, script, n), mine)
  {
    hide Normalize, Meanwhile, Standing, WorldOk, Later, Good;
    if n == 0 {
      LaterItself(w, mine);
    } else {
      var last, turn := Played(w, mine, p.request, script, n - 1), TurnAt(script, n - 1);
      UntakenIsLater(w, p, mine, script, n - 1);
      MeanwhileKeepsAccepted(last, mine, turn.others);
      if Good(w, p, mine, w.accepted) {
        AtMostOneEffect(w, p, mine, script, n - 1, w.accepted);
        GoodIsOk(last, p, mine, w.accepted);
        MeanwhileLater(last, mine, turn.others);
        if Played(w, mine, p.request, script, n).accepted == w.accepted {
          LaterTransitive(w, last, Meanwhile(last, mine, turn.others), mine);
        }
      }
    }
  }

  lemma GoodIsOk(w: World, p: Post, mine: string -> bool, before: seq<Request>)
    requires Good(w, p, mine, before)
    ensures WorldOk(w)
  {
  }

  lemma {:induction false} MeanwhileKeepsAccepted(w: World, mine: string -> bool, others: seq<Snapshot>)
    ensures Meanwhile(w, mine, others).accepted == w.accepted
    decreases |others|
  {
    hide Admissible;
    if others != [] {
      MeanwhileKeepsAccepted(if Admissible(w, mine, others[0]) then Advance(w, others[0]) else w, mine, others[1..]);
    }
  }

  /** Where the rebuild loop stands: nothing of this group took effect and the version in hand may be rewritten, or its
      one commit took effect unseen and the version in hand shows it. */
  ghost predicate Underway(w: World, t: Table, wanted: set<string>, envs: seq<Env>, k: nat, mine: string -> bool, before: seq<Request>) {
    && WorldOk(w) && k <= |envs|
    && (|| (w.accepted == before && Loaded(w, t) && Planned(w, wanted) && forall i :: k <= i < |envs| ==> FreshOutputs(w, envs[i], mine))
        || (Rewritten(w, wanted, before) && Select(Scan(LiveAt(t)), wanted) == []))
  }

  /** One commit of this group took effect, and nothing of the group is left. */
  ghost predicate Rewritten(w: World, wanted: set<string>, before: seq<Request>) {
    && |w.accepted| == |before| + 1 && before <= w.accepted
    && forall i :: i in wanted ==> i in IdsOf(w.lived) && i !in LiveIds(LiveAt(w.table))
  }

  lemma SpentIsRewritten(w: World, p: Post, before: seq<Request>)
    requires Spent(w, p) && Took(w, p, before)
    ensures Rewritten(w, p.work.wanted, before)
  {
    hide Normalize;
  }

  lemma RewrittenSelectsNothing(w: World, wanted: set<string>, before: seq<Request>)
    requires Rewritten(w, wanted, before)
    ensures Select(Scan(LiveAt(w.table)), wanted) == []
  {
    hide Normalize, Scan, Select;
    SelectsNothing(LiveAt(w.table), wanted);
  }

  /** After a lost commit and a reload, the loop is under way again. */
  lemma ReloadResumes(w: World, w': World, t: Table, p: Post, wanted: set<string>, envs: seq<Env>, k: nat, mine: string -> bool,
                      before: seq<Request>, others: seq<Snapshot>)
    requires Good(w', p, mine, before) && p.work.Compaction? && p.work.wanted == wanted
    requires w'.accepted == before ==>
               Later(w, w', mine) && Planned(w, wanted) && k <= |envs| && forall i :: k <= i < |envs| ==> FreshOutputs(w, envs[i], mine)
    requires k <= |envs|
    ensures var now := Meanwhile(w', mine, others);
            Underway(now, now.table, wanted, envs, k, mine, before)
  {
    hide Normalize, Scan, Select, Sound, FreshOutputs, Planned, Later, Ready, Spent;
    var now := Meanwhile(w', mine, others);
    MeanwhileLater(w', mine, others);
    if w'.accepted == before {
      LaterTransitive(w, w', now, mine);
      PlannedStays(w, now, mine, wanted);
      forall i | k <= i < |envs|
        ensures FreshOutputs(now, envs[i], mine)
      {
        FreshStays(w, now, mine, envs[i]);
      }
      OkIsLoaded(now);
    } else {
      SpentStays(w', now, mine, p);
      LaterKeepsAccepted(w', now, mine);
      SpentIsRewritten(now, p, before);
      RewrittenSelectsNothing(now, wanted, before);
    }
  }

  lemma OkIsLoaded(w: World)
    requires WorldOk(w)
    ensures Loaded(w, w.table)
  {
  }

  lemma LaterKeepsAccepted(w: World, w': World, mine: string -> bool)
    requires Later(w, w', mine)
    ensures w'.accepted == w.accepted
  {
  }

  datatype Try = Done(r: Result<Option<Request>>) | Lost

  lemma NotWorthNothing(s: Settings, tasks: seq<Task>)
    requires s.WorthRewriting(tasks)
    ensures tasks != []
  {
  }

  /** The version in hand, when a rewrite of it is worth it. */
  lemma UnderwayIsFresh(w: World, t: Table, wanted: set<string>, envs: seq<Env>, k: nat, mine: string -> bool, before: seq<Request>)
    requires Underway(w, t, wanted, envs, k, mine, before) && k < |envs|
    requires Select(Scan(LiveAt(t)), wanted) != []
    ensures w.accepted == before && Loaded(w, t) && Planned(w, wanted) && Sound(t)
    ensures forall i :: k <= i < |envs| ==> FreshOutputs(w, envs[i], mine)
  {
  }

  /** A sent attempt: at most one effect, nothing yet said about the next. */
  ghost predicate Attempted(w: World, w': World, p: Post, wanted: set<string>, mine: string -> bool, before: seq<Request>) {
    && w.accepted == before && p.work.Compaction? && p.work.wanted == wanted
    && Good(w', p, mine, before)
    && (w'.accepted == before ==> Later(w, w', mine))
  }

  lemma SentAttempt(w: World, p: Post, wanted: set<string>, mine: string -> bool, script: seq<Turn>, n: nat)
    requires WorldOk(w) && Ready(w, p, mine) && p.work.Compaction? && p.work.wanted == wanted
    ensures Attempted(w, Played(w, mine, p.request, script, n), p, wanted, mine, w.accepted)
  {
    hide Normalize, Played, Later;
    AtMostOneEffect(w, p, mine, script, n, w.accepted);
    UntakenIsLater(w, p, mine, script, n);
  }

  // ---- What the loop leaves behind it ----

  /** A commit as it was sent: the catalog and the script it was first sent into, and how often. */
  datatype Sent = Sent(post: Post, world: World, script: seq<Turn>, n: nat) {
    function Afterwards(mine: string -> bool): World {
      Played(world, mine, post.request, script, n)
    }

    /** What its sender was finally told. */
    function Answer(mine: string -> bool): Result<()>
      requires n > 0
    {
      Verdict(Heard(world, mine, post.request, script, n))
    }

    /** The turn of the reload that follows. */
    function Reload(): Turn {
      TurnAt(Drop(script, n), 0)
    }

    function Reloaded(mine: string -> bool): World {
      Meanwhile(Afterwards(mine), mine, Reload().others)
    }

    /** The identical request, again after every busy answer, four times at most. */
    ghost predicate Persistent(mine: string -> bool) {
      && 1 <= n <= 4
      && (forall i :: 1 <= i < n ==> Busy(Heard(world, mine, post.request, script, i)))
      && (n < 4 ==> !Busy(Heard(world, mine, post.request, script, n)))
    }

    /** It was lost to another commit, as far as its sender knows. */
    ghost predicate WasLost(mine: string -> bool) {
      n > 0 && Answer(mine).Err? && Answer(mine).error.IsReplan()
    }
  }

  /** The commits sent one after another, each lost and followed by a reload that answered, from whose version the next was
      built. */
  ghost predicate Trail(sent: seq<Sent>, w: World, state: Table, script: seq<Turn>, mine: string -> bool) {
    && (forall i :: 0 <= i < |sent| ==> sent[i].Persistent(mine))
    && (sent != [] ==> sent[0].world == w && sent[0].script == script && sent[0].post.base == state)
    && (forall i :: 0 <= i < |sent| - 1 ==> Follows(sent[i], sent[i + 1], mine))
  }

  ghost predicate Follows(a: Sent, b: Sent, mine: string -> bool) {
    && a.WasLost(mine) && !a.Reload().fate.Broken?
    && b.world == a.Reloaded(mine) && b.script == Drop(Drop(a.script, a.n), 1) && b.post.base == b.world.table
  }

  /** The version an attempt after `sent` starts from, if the reload answers. */
  ghost function InHand(sent: seq<Sent>, state: Table, mine: string -> bool): Table {
    if sent == [] then state else sent[|sent| - 1].Reloaded(mine).table
  }

  /** Another attempt is due: nothing was sent yet, or the last commit was lost and the reload answered. */
  ghost predicate Due(sent: seq<Sent>, mine: string -> bool) {
    && |sent| < MAX_COMMIT_ATTEMPTS
    && (sent != [] ==> sent[|sent| - 1].WasLost(mine) && !sent[|sent| - 1].Reload().fate.Broken?)
  }

  ghost predicate WorthIt(env: Env, t: Table, wanted: set<string>) {
    env.settings.WorthRewriting(Select(Scan(LiveAt(t)), wanted))
  }

  /** The group at `t` can be brought as far as a commit. */
  ghost predicate Buildable(env: Env, t: Table, wanted: set<string>) {
    var tasks := Select(Scan(LiveAt(t)), wanted);
    tasks != [] && t.defaultSpec in t.specs && Committable(t, tasks, env.schema)
  }

  /** Exactly how the loop can end after `sent`: told of success; with nothing worth rewriting left; or in an error, which is
      the last commit's own and final, or that of a group that cannot be rewritten, or a reload's. A lost commit ends it only
      as the last of three. */
  ghost predicate Ends(r: Result<Option<Request>>, sent: seq<Sent>, state: Table, wanted: set<string>, envs: seq<Env>, mine: string -> bool)
    requires |envs| == MAX_COMMIT_ATTEMPTS && forall i :: 0 <= i < |sent| ==> sent[i].n > 0
  {
    match r
    case Ok(Some(req)) =>
      sent != [] && sent[|sent| - 1].Answer(mine).Ok? && req == sent[|sent| - 1].post.request
    case Ok(None) =>
      Due(sent, mine) && !WorthIt(envs[|sent|], InHand(sent, state, mine), wanted)
    case Err(e) =>
      || (sent != [] && sent[|sent| - 1].Answer(mine) == Err(e) && (e.IsReplan() ==> |sent| == 3))
      || (Due(sent, mine) && !e.IsReplan() && WorthIt(envs[|sent|], InHand(sent, state, mine), wanted)
          && !Buildable(envs[|sent|], InHand(sent, state, mine), wanted))
      || (sent != [] && |sent| < MAX_COMMIT_ATTEMPTS && sent[|sent| - 1].WasLost(mine) && sent[|sent| - 1].Reload().fate.Broken?
          && e == CatalogFailure)
  }

  /** One turn of the loop, up to the catalog's answer. */
  method TryOnce(c: Catalog, t: Table, wanted: set<string>, envs: seq<Env>, k: nat, ghost before: seq<Request>)
      returns (out: Try, ghost p: Option<Post>, ghost n: nat)
    requires c.Valid() && k < |envs| && Underway(c.world, t, wanted, envs, k, c.mine, before)
    modifies c
    ensures c.Valid() && old(c.sends) <= c.sends <= old(c.sends) + MAX_THROTTLE_RETRIES + 1
    ensures p.None? ==> c.world == old(c.world) && c.script == old(c.script) && out.Done?
    ensures p.None? && out.r.Ok? ==> out.r.value.None? && !WorthIt(envs[k], t, wanted)
    ensures p.None? && out.r.Err? ==> !out.r.error.IsReplan() && WorthIt(envs[k], t, wanted) && !Buildable(envs[k], t, wanted)
    ensures p.Some? ==>
              var s := Sent(p.value, old(c.world), old(c.script), n);
              && n > 0 && s.Persistent(c.mine) && c.world == s.Afterwards(c.mine) && c.script == Drop(s.script, n)
              && out == match s.Answer(c.mine)
                        case Ok(_) => Done(Ok(Some(p.value.request)))
                        case Err(e) => if e.IsReplan() then Lost else Done(Err(e))
    ensures p.Some? ==> Attempted(old(c.world), c.world, p.value, wanted, c.mine, before) && p.value.base == t && Faithful(p.value, envs[k].schema)
    ensures p.Some? ==> Underway(old(c.world), t, wanted, envs, k, c.mine, before) && Select(Scan(LiveAt(t)), wanted) != []
    ensures out.Done? && out.r.Ok? && out.r.value.Some? ==> p.Some? && c.world.accepted == before + [out.r.value.value]
    ensures out.Lost? ==> p.Some?
  {
    hide Normalize, Underway, Ready, Attempted, Scan, Select, Sound, BuiltBy, Shaped, Played, Heard, Faithful, FreshOutputs, Planned,
         Loaded, WorldOk, Replaces, GroupRewrite,
         GroupShape, OnSpec, AllAddressed, AllResolvable, Streamed, Unwritable, RefusesDelete, GroupRefusal, Good, Later, Committable, Meanwhile, Told;
    p, n := None, 0;
    var tasks := Select(Scan(LiveAt(t)), wanted);
    if !envs[k].settings.WorthRewriting(tasks) {
      return Done(Ok(None)), p, n;
    }
    NotWorthNothing(envs[k].settings, tasks);
    UnderwayIsFresh(c.world, t, wanted, envs, k, c.mine, before);
    PlannedSpec(c.world, t, wanted);
    ghost var rewrite;
    var built;
    built, rewrite := RewriteOnce(t, tasks, envs[k]);
    if built.Err? {
      return Done(Err(built.error)), p, n;
    }
    if built.value.None? {
      return Done(Ok(None)), p, n;
    }
    var req := built.value.value;
    UnderwayOk(c.world, t, wanted, envs, k, c.mine, before);
    BuiltIsReady(c.world, t, wanted, envs[k], c.mine, rewrite, req);
    ghost var post := Post(t, Compaction(wanted, rewrite), req);
    ghost var w, script := c.world, c.script;
    WhenAddressed(post, envs[k], tasks);
    var answer;
    answer, n := Commit(c, req);
    SentAttempt(w, post, wanted, c.mine, script, n);
    p := Some(post);
    if answer.Ok? {
      PlausibleTurns(script, n - 1);
      ReadyIsGood(w, post, c.mine);
      SuccessTookEffect(w, post, c.mine, script, n);
      return Done(Ok(Some(req))), p, n;
    }
    out := if answer.error.IsReplan() then Lost else Done(Err(answer.error));
  }

  lemma UnderwayOk(w: World, t: Table, wanted: set<string>, envs: seq<Env>, k: nat, mine: string -> bool, before: seq<Request>)
    requires Underway(w, t, wanted, envs, k, mine, before)
    ensures WorldOk(w)
  {
  }

  /** Where the names of the group's key fields find them, the commit is the rewrite it should be, and so invisible. */
  ghost predicate Faithful(p: Post, schema: Schema) {
    p.work.Compaction? && (AllAddressed(schema, Select(Scan(LiveAt(p.base)), p.work.wanted)) ==> BuiltBy(p.work, p.base, p.request))
  }

  lemma WhenAddressed(p: Post, env: Env, tasks: seq<Task>)
    requires p.work.Compaction? && tasks == Select(Scan(LiveAt(p.base)), p.work.wanted) && tasks != []
    requires Replaces(p.base, p.work.rewrite, env.snapshotId, p.request)
    requires AllAddressed(env.schema, tasks) ==> GroupRewrite(p.base, tasks, p.work.rewrite, env.nameOf)
    ensures Faithful(p, env.schema)
  {
    hide Normalize, Scan, Select, GroupRewrite, AllAddressed;
    IdOfReplacement(p.base, p.work.rewrite, env.snapshotId, p.request);
  }

  lemma IdOfReplacement(t: Table, rewrite: Producer.Rewrite, snapshotId: int, req: Request)
    requires Replaces(t, rewrite, snapshotId, req)
    ensures req.snapshot.id == snapshotId
  {
  }

  lemma ReadyIsGood(w: World, p: Post, mine: string -> bool)
    requires WorldOk(w) && Ready(w, p, mine)
    ensures Good(w, p, mine, w.accepted)
  {
  }

  lemma PlausibleTurns(script: seq<Turn>, i: nat)
    requires forall t | t in script :: Plausible(t)
    ensures Plausible(TurnAt(script, i))
  {
  }

  lemma AttemptResumes(w: World, w': World, t: Table, p: Post, wanted: set<string>, envs: seq<Env>, k: nat, mine: string -> bool,
                       before: seq<Request>, others: seq<Snapshot>)
    requires Underway(w, t, wanted, envs, k, mine, before) && k < |envs| && Select(Scan(LiveAt(t)), wanted) != []
    requires Attempted(w, w', p, wanted, mine, before)
    ensures var now := Meanwhile(w', mine, others);
            Underway(now, now.table, wanted, envs, k + 1, mine, before)
  {
    hide Normalize, Scan, Select, Sound, FreshOutputs, Planned, Later, Ready, Spent, Underway, Good;
    UnderwayIsFresh(w, t, wanted, envs, k, mine, before);
    ReloadResumes(w, w', t, p, wanted, envs, k + 1, mine, before, others);
  }

  /** The loop's result: at most one effect, and it leaves nothing of the group. */
  ghost predicate AtMostOnce(w: World, wanted: set<string>, before: seq<Request>) {
    w.accepted == before || Rewritten(w, wanted, before)
  }

  lemma AttemptedAtMostOnce(w: World, w': World, p: Post, wanted: set<string>, mine: string -> bool, before: seq<Request>)
    requires Attempted(w, w', p, wanted, mine, before)
    ensures AtMostOnce(w', wanted, before)
    ensures w'.accepted == before || w'.accepted == before + [p.request]
  {
    hide Normalize, Ready, Spent, WorldOk;
    if w'.accepted != before {
      SpentIsRewritten(w', p, before);
    }
  }

  lemma UnderwayAtMostOnce(w: World, t: Table, wanted: set<string>, envs: seq<Env>, k: nat, mine: string -> bool, before: seq<Request>)
    requires Underway(w, t, wanted, envs, k, mine, before)
    ensures AtMostOnce(w, wanted, before)
  {
  }

  /** The reload after a lost commit, from which the next attempt can go on. */
  method LoadAgain(c: Catalog, ghost w: World, ghost t: Table, ghost p: Post, ghost wanted: set<string>, ghost envs: seq<Env>, ghost k: nat,
                   ghost before: seq<Request>)
      returns (r: Result<Table>)
    requires c.Valid() && k < |envs| && Underway(w, t, wanted, envs, k, c.mine, before) && Select(Scan(LiveAt(t)), wanted) != []
    requires Attempted(w, c.world, p, wanted, c.mine, before)
    modifies c
    ensures c.Valid() && c.sends == old(c.sends) && c.world.accepted == old(c.world.accepted)
    ensures c.world == Meanwhile(old(c.world), c.mine, TurnAt(old(c.script), 0).others) && c.script == Drop(old(c.script), 1)
    ensures r == if TurnAt(old(c.script), 0).fate.Broken? then Err(CatalogFailure) else Ok(c.world.table)
    ensures AtMostOnce(c.world, wanted, before)
    ensures r.Ok? ==> Underway(c.world, r.value, wanted, envs, k + 1, c.mine, before)
  {
    hide Normalize, Underway, Attempted, Scan, Select, Meanwhile, AtMostOnce;
    ghost var others := TurnAt(c.script, 0).others;
    AttemptResumes(w, c.world, t, p, wanted, envs, k, c.mine, before, others);
    MeanwhileKeepsAccepted(c.world, c.mine, others);
    r := c.Reload();
    UnderwayAtMostOnce(c.world, c.world.table, wanted, envs, k + 1, c.mine, before);
  }

  lemma LostIsConflict(s: Sent, mine: string -> bool)
    requires s.WasLost(mine)
    ensures s.Answer(mine) == Err(Conflict)
  {
    hide Heard;
  }

  /** Once the group's commit took effect, no version loaded after it is worth another. */
  lemma NothingWorth(w: World, t: Table, wanted: set<string>, envs: seq<Env>, k: nat, mine: string -> bool, before: seq<Request>)
    requires Underway(w, t, wanted, envs, k, mine, before) && k < |envs| && w.accepted != before
    ensures !WorthIt(envs[k], t, wanted)
  {
    hide Rewritten, Scan, Sound;
  }

  /** A conflict is what the caller hears only when all three attempts were lost, each built from the version loaded after the
      one before. */
  lemma LostUntilTheEnd(r: Result<Option<Request>>, sent: seq<Sent>, w: World, state: Table, script: seq<Turn>, wanted: set<string>,
                        envs: seq<Env>, mine: string -> bool)
    requires |envs| == MAX_COMMIT_ATTEMPTS && Trail(sent, w, state, script, mine) && forall i :: 0 <= i < |sent| ==> sent[i].n > 0
    requires Ends(r, sent, state, wanted, envs, mine) && r.Err? && r.error.IsReplan()
    ensures |sent| == MAX_COMMIT_ATTEMPTS && forall i :: 0 <= i < |sent| ==> sent[i].WasLost(mine)
    ensures forall i :: 0 < i < |sent| ==> sent[i].post.base == sent[i - 1].Reloaded(mine).table
  {
    hide Played, Heard, Meanwhile, WorthIt, Buildable, Sent.Persistent;
    forall i | 0 <= i < |sent|
      ensures sent[i].WasLost(mine)
      ensures i > 0 ==> sent[i].post.base == sent[i - 1].Reloaded(mine).table
    {
      if i + 1 < |sent| {
        assert Follows(sent[i], sent[i + 1], mine);
      }
      if i > 0 {
        assert Follows(sent[i - 1], sent[i], mine);
      }
    }
  }

  lemma TrailGrows(sent: seq<Sent>, s: Sent, w: World, state: Table, script: seq<Turn>, mine: string -> bool)
    requires Trail(sent, w, state, script, mine) && s.Persistent(mine)
    requires if sent == [] then s.world == w && s.script == script && s.post.base == state else Follows(sent[|sent| - 1], s, mine)
    ensures Trail(sent + [s], w, state, script, mine)
  {
    hide Follows, Sent.Persistent;
    var more := sent + [s];
    forall i | 0 <= i < |more| - 1
      ensures Follows(more[i], more[i + 1], mine)
    {
      if i + 1 < |sent| {
        assert Follows(sent[i], sent[i + 1], mine);
      }
    }
  }

  /** Between attempts: what was sent, what the catalog and the script are since, and the version in hand. */
  ghost predicate Looping(sent: seq<Sent>, w: World, state: Table, script: seq<Turn>, now: World, left: seq<Turn>, current: Table,
                          mine: string -> bool)
  {
    && Trail(sent, w, state, script, mine) && (forall i :: 0 <= i < |sent| ==> sent[i].n > 0)
    && Due(sent, mine) && current == InHand(sent, state, mine)
    && if sent == [] then now == w && left == script
       else now == sent[|sent| - 1].Reloaded(mine) && left == Drop(Drop(sent[|sent| - 1].script, sent[|sent| - 1].n), 1)
  }

  /** An attempt that sends nothing ends the loop. */
  lemma EndsUnsent(r: Result<Option<Request>>, sent: seq<Sent>, w: World, state: Table, script: seq<Turn>, now: World, left: seq<Turn>,
                   current: Table, wanted: set<string>, envs: seq<Env>, mine: string -> bool)
    requires |envs| == MAX_COMMIT_ATTEMPTS && Looping(sent, w, state, script, now, left, current, mine) && |sent| < MAX_COMMIT_ATTEMPTS
    requires r.Ok? ==> r.value.None? && !WorthIt(envs[|sent|], current, wanted)
    requires r.Err? ==> !r.error.IsReplan() && WorthIt(envs[|sent|], current, wanted) && !Buildable(envs[|sent|], current, wanted)
    ensures Trail(sent, w, state, script, mine) && forall i :: 0 <= i < |sent| ==> sent[i].n > 0
    ensures Ends(r, sent, state, wanted, envs, mine)
  {
    hide Trail, WorthIt, Buildable, Drop, Sent.WasLost;
  }

  lemma Extends(sent: seq<Sent>, s: Sent, w: World, state: Table, script: seq<Turn>, now: World, left: seq<Turn>, current: Table,
                mine: string -> bool)
    requires Looping(sent, w, state, script, now, left, current, mine)
    requires s.world == now && s.script == left && s.post.base == current && s.n > 0 && s.Persistent(mine)
    ensures Trail(sent + [s], w, state, script, mine) && forall i :: 0 <= i < |sent + [s]| ==> (sent + [s])[i].n > 0
  {
    hide Trail, Sent.Persistent, Sent.WasLost, Drop, Meanwhile;
    TrailGrows(sent, s, w, state, script, mine);
  }

  /** A final answer ends the loop, and a conflict the third time. */
  lemma EndsSent(r: Result<Option<Request>>, sent: seq<Sent>, state: Table, wanted: set<string>, envs: seq<Env>, mine: string -> bool)
    requires |envs| == MAX_COMMIT_ATTEMPTS && sent != [] && forall i :: 0 <= i < |sent| ==> sent[i].n > 0
    requires match sent[|sent| - 1].Answer(mine)
             case Ok(_) => r == Ok(Some(sent[|sent| - 1].post.request))
             case Err(e) => r == Err(e) && (e.IsReplan() ==> |sent| == MAX_COMMIT_ATTEMPTS)
    ensures Ends(r, sent, state, wanted, envs, mine) && !Due(sent, mine)
  {
    hide Sent.Answer, WorthIt, Buildable;
  }

  /** A reload that fails ends it too. */
  lemma EndsUnread(sent: seq<Sent>, state: Table, wanted: set<string>, envs: seq<Env>, mine: string -> bool)
    requires |envs| == MAX_COMMIT_ATTEMPTS && sent != [] && forall i :: 0 <= i < |sent| ==> sent[i].n > 0
    requires |sent| < MAX_COMMIT_ATTEMPTS && sent[|sent| - 1].WasLost(mine) && sent[|sent| - 1].Reload().fate.Broken?
    ensures Ends(Err(CatalogFailure), sent, state, wanted, envs, mine) && !Due(sent, mine)
  {
    hide Sent.WasLost, WorthIt, Buildable;
  }

  lemma LoopsOn(sent: seq<Sent>, w: World, state: Table, script: seq<Turn>, mine: string -> bool)
    requires Trail(sent, w, state, script, mine) && sent != [] && forall i :: 0 <= i < |sent| ==> sent[i].n > 0
    requires |sent| < MAX_COMMIT_ATTEMPTS && sent[|sent| - 1].WasLost(mine) && !sent[|sent| - 1].Reload().fate.Broken?
    ensures var last := sent[|sent| - 1];
            Looping(sent, w, state, script, last.Reloaded(mine), Drop(Drop(last.script, last.n), 1), last.Reloaded(mine).table, mine)
  {
    hide Trail, Sent.WasLost, Drop, Meanwhile;
  }

  lemma LostWas(s: Sent, mine: string -> bool)
    requires s.n > 0 && s.Answer(mine).Err? && s.Answer(mine).error.IsReplan()
    ensures s.WasLost(mine)
  {
  }

  /** Everything the loop promises once it ends with `r` after `sent`. */
  ghost predicate Ended(r: Result<Option<Request>>, sent: seq<Sent>, w: World, state: Table, script: seq<Turn>, now: World, wanted: set<string>,
                        envs: seq<Env>, mine: string -> bool)
    requires |envs| == MAX_COMMIT_ATTEMPTS
  {
    && Trail(sent, w, state, script, mine) && (forall i :: 0 <= i < |sent| ==> sent[i].n > 0)
    && Ends(r, sent, state, wanted, envs, mine)
    && AtMostOnce(now, wanted, w.accepted) && LastTook(sent, w, now)
    && (r.Ok? && r.value.Some? ==> now.accepted == w.accepted + [r.value.value])
    && (now.accepted != w.accepted && Due(sent, mine) ==> r == Ok(None))
  }

  /** Of all that was sent, only the last can have taken effect. */
  ghost predicate LastTook(sent: seq<Sent>, w: World, now: World) {
    now.accepted == w.accepted || (sent != [] && now.accepted == w.accepted + [sent[|sent| - 1].post.request])
  }

  ghost predicate AllFaithful(sent: seq<Sent>, envs: seq<Env>) {
    |sent| <= |envs| && forall i :: 0 <= i < |sent| ==> Faithful(sent[i].post, envs[i].schema)
  }

  lemma FaithfulGrows(sent: seq<Sent>, s: Sent, envs: seq<Env>)
    requires AllFaithful(sent, envs) && |sent| < |envs| && Faithful(s.post, envs[|sent|].schema)
    ensures AllFaithful(sent + [s], envs)
  {
    hide Faithful;
  }

  /** One turn of the loop, reload included: it ends the loop, or leaves it with a new version in hand. */
  method TryAndReload(c: Catalog, current: Table, wanted: set<string>, envs: seq<Env>, k: nat, ghost sent: seq<Sent>, ghost first: World,
                 ghost state: Table, ghost script: seq<Turn>)
      returns (done: bool, r: Result<Option<Request>>, next: Table, ghost more: seq<Sent>)
    requires c.Valid() && k < |envs| == MAX_COMMIT_ATTEMPTS && |sent| == k && AllFaithful(sent, envs)
    requires Underway(c.world, current, wanted, envs, k, c.mine, first.accepted)
    requires Looping(sent, first, state, script, c.world, c.script, current, c.mine) && LastTook(sent, first, c.world)
    modifies c
    ensures c.Valid() && c.sends <= old(c.sends) + MAX_THROTTLE_RETRIES + 1 && AllFaithful(more, envs)
    ensures done ==> Ended(r, more, first, state, script, c.world, wanted, envs, c.mine)
    ensures !done ==> |more| == k + 1 < MAX_COMMIT_ATTEMPTS && Underway(c.world, next, wanted, envs, k + 1, c.mine, first.accepted)
    ensures !done ==> Looping(more, first, state, script, c.world, c.script, next, c.mine) && LastTook(more, first, c.world)
  {
    hide Normalize, Underway, Attempted, Scan, Select, Sound, Meanwhile, AtMostOnce, BuiltBy, Faithful, Good, Later, AllFaithful,
         Standing, WorldOk, Moved, Shaped, Derives, WorthIt, Buildable, Played, Heard, Trail, Told, Sent.Persistent, Sent.WasLost, Looping,
         Ends, Due, InHand, Follows, Drop, TurnAt, Rewritten, Sent.Answer, Sent.Afterwards, Verdict;
    ghost var before, w, now := first.accepted, c.world, c.script;
    next, more := current, sent;
    UnderwayAtMostOnce(w, current, wanted, envs, k, c.mine, before);
    var out;
    ghost var p, n;
    out, p, n := TryOnce(c, current, wanted, envs, k, before);
    if p.Some? {
      ghost var s := Sent(p.value, w, now, n);
      Extends(sent, s, first, state, script, w, now, current, c.mine);
      FaithfulGrows(sent, s, envs);
      more := sent + [s];
      AttemptedAtMostOnce(w, c.world, p.value, wanted, c.mine, before);
    }
    if out.Done? {
      if p.Some? {
        EndsSent(out.r, more, state, wanted, envs, c.mine);
      } else {
        if w.accepted != before {
          NothingWorth(w, current, wanted, envs, k, c.mine, before);
        }
        EndsUnsent(out.r, sent, first, state, script, w, now, current, wanted, envs, c.mine);
      }
      return true, out.r, next, more;
    }
    LostWas(more[k], c.mine);
    LostIsConflict(more[k], c.mine);
    if k + 1 == MAX_COMMIT_ATTEMPTS {
      EndsSent(Err(Conflict), more, state, wanted, envs, c.mine);
      return true, Err(Conflict), next, more;
    }
    var loaded := LoadAgain(c, w, current, p.value, wanted, envs, k, before);
    if loaded.Err? {
      EndsUnread(more, state, wanted, envs, c.mine);
      return true, Err(loaded.error), next, more;
    }
    LoopsOn(more, first, state, script, c.mine);
    return false, Ok(None), loaded.value, more;
  }

  /** `rewrite_and_commit`: rebuild the group from a reloaded table after a lost commit, three attempts in all. A commit
      that took effect behind a gateway's answer is noticed at the reload: nothing of the group is left, and the loop
      ends without a second rewrite. */
  method RewriteAndCommit(c: Catalog, state: Table, wanted: set<string>, envs: seq<Env>)
      returns (r: Result<Option<Request>>, ghost sent: seq<Sent>)
    requires c.Valid() && |envs| == MAX_COMMIT_ATTEMPTS
    requires Underway(c.world, state, wanted, envs, 0, c.mine, c.world.accepted)
    modifies c
    ensures c.Valid() && c.sends <= old(c.sends) + MAX_COMMIT_ATTEMPTS * (MAX_THROTTLE_RETRIES + 1)
    ensures |sent| <= MAX_COMMIT_ATTEMPTS && AllFaithful(sent, envs)
    ensures Ended(r, sent, old(c.world), state, old(c.script), c.world, wanted, envs, c.mine)
  {
    hide Underway, Looping, LastTook, Ended, AllFaithful;
    ghost var first, script := c.world, c.script;
    var current, done := state, false;
    sent := [];
    NothingSent(first, state, script, envs, c.mine);
    for attempt := 0 to MAX_COMMIT_ATTEMPTS
      invariant c.Valid() && c.sends <= old(c.sends) + attempt * (MAX_THROTTLE_RETRIES + 1)
      invariant attempt < MAX_COMMIT_ATTEMPTS && |sent| == attempt && AllFaithful(sent, envs)
      invariant Underway(c.world, current, wanted, envs, attempt, c.mine, first.accepted)
      invariant Looping(sent, first, state, script, c.world, c.script, current, c.mine) && LastTook(sent, first, c.world)
    {
      done, r, current, sent := TryAndReload(c, current, wanted, envs, attempt, sent, first, state, script);
      if done {
        FaithfulFew(sent, envs);
        return;
      }
    }
    assert false;
  }

  lemma FaithfulFew(sent: seq<Sent>, envs: seq<Env>)
    requires AllFaithful(sent, envs)
    ensures |sent| <= |envs|
  {
  }

  lemma NothingSent(w: World, state: Table, script: seq<Turn>, envs: seq<Env>, mine: string -> bool)
    ensures Looping([], w, state, script, w, script, state, mine) && LastTook([], w, w) && AllFaithful([], envs)
  {
  }
}
