/** Change notifications: a bounded queue, and a debounce window that survives every cancellation of whoever awaits it.
    Waiting is modelled by polls: a poll runs until it would have to wait, and a wait may be resumed or dropped. */
module Events {
  import opened Wrappers
  import opened Sorting

  const CHANNEL_DEPTH := 1024

  /** The receiving end. `waiting` is the caller's suspended wait inside an open window; dropping it clears the flag. */
  datatype Stream = Stream(queue: seq<string>, pending: set<string>, closesAt: Option<int>, debounce: nat, closed: bool, waiting: bool)

  /** `None` inside `Ready` is the end of the stream. */
  datatype Poll = Pending | Ready(batch: Option<seq<string>>)

  /** A window is open exactly while something is in it, and a wait stands only inside a window. */
  predicate Consistent(s: Stream) {
    (s.closesAt.Some? <==> s.pending != {}) && (s.waiting ==> s.closesAt.Some?) && |s.queue| <= CHANNEL_DEPTH
  }

  /** The poll receives: no window is open, or the open one has time left, or a wait inside it is being resumed. */
  predicate Takes(s: Stream, now: int) {
    s.queue != [] && (s.closesAt.None? || s.closesAt.value > now || s.waiting)
  }

  function Took(s: Stream, now: int): Stream
    requires s.queue != []
  {
    s.(queue := s.queue[1..], pending := s.pending + {s.queue[0]},
       closesAt := if s.closesAt.None? then Some(now + s.debounce) else s.closesAt, waiting := false)
  }

  /** What a poll does once it receives no more: the stream left, the window delivered if it is complete, and whether the
      stream is over. */
  function Settled(s: Stream, now: int): (Stream, Option<set<string>>, bool) {
    if s.closesAt.None? then (s.(waiting := false), None, s.closed)
    else if s.closesAt.value <= now || s.closed then (s.(pending := {}, closesAt := None, waiting := false), Some(s.pending), false)
    else (s.(waiting := true), None, false)
  }

  function Polled(s: Stream, now: int): (Stream, Option<set<string>>, bool)
    decreases |s.queue|
  {
    if Takes(s, now) then Polled(Took(s, now), now) else Settled(s, now)
  }

  function Names(s: seq<string>): set<string> {
    set x | x in s
  }

  /** Everything accepted and not yet delivered. */
  function Held(s: Stream): set<string> {
    s.pending + Names(s.queue)
  }

  function Delivered(batch: Option<set<string>>): set<string> {
    if batch.Some? then batch.value else {}
  }

  lemma TookConserves(s: Stream, now: int)
    requires Consistent(s) && s.queue != []
    ensures Consistent(Took(s, now)) && Held(Took(s, now)) == Held(s)
  {
    assert s.queue == [s.queue[0]] + s.queue[1..];
    assert Names(s.queue) == {s.queue[0]} + Names(s.queue[1..]);
  }

  /** A poll loses nothing and invents nothing: what was held is delivered now or still held. */
  lemma {:induction false} PollConserves(s: Stream, now: int)
    requires Consistent(s)
    ensures var (s', batch, over) := Polled(s, now);
            && Consistent(s') && s'.debounce == s.debounce && s'.closed == s.closed
            && Held(s) == Held(s') + Delivered(batch)
            && (batch.Some? ==> batch.value != {})
            && (over <==> batch.None? && s.closed && s.queue == [] && s.closesAt.None?)
    decreases |s.queue|
  {
    if Takes(s, now) {
      TookConserves(s, now);
      PollConserves(Took(s, now), now);
    }
  }

  /** With a positive debounce and senders still there, a poll that finds no window open, or one with time left, delivers
      nothing: whatever it takes goes into a window that closes later than now. */
  lemma {:induction false} OpenWindowWaits(s: Stream, now: int)
    requires s.closesAt.None? ==> s.debounce > 0
    requires s.closesAt.Some? ==> s.closesAt.value > now
    requires !s.closed
    ensures Polled(s, now).1.None? && !Polled(s, now).2
    ensures Polled(s, now).0.closesAt.Some? ==> Polled(s, now).0.closesAt.value > now
    decreases |s.queue|
  {
    if Takes(s, now) {
      OpenWindowWaits(Took(s, now), now);
    }
  }

  /** A window is delivered no later than the first poll at or after its close, with all it had collected. */
  lemma {:induction false} ClosedWindowDelivers(s: Stream, now: int)
    requires s.closesAt.Some? && s.closesAt.value <= now
    ensures Polled(s, now).1.Some? && s.pending <= Polled(s, now).1.value
    ensures Polled(s, now).0.closesAt.None?
    decreases |s.queue|
  {
    if Takes(s, now) {
      ClosedWindowDelivers(Took(s, now), now);
    }
  }

  lemma {:induction false} AllTaken(s: Stream, now: int)
    requires s.closesAt.Some? && s.closesAt.value > now
    ensures var taken := s.(queue := [], pending := s.pending + Names(s.queue), waiting := if s.queue == [] then s.waiting else false);
            Polled(s, now) == Settled(taken, now)
    decreases |s.queue|
  {
    if s.queue != [] {
      AllTaken(Took(s, now), now);
      assert s.queue == [s.queue[0]] + s.queue[1..];
      assert Names(s.queue) == {s.queue[0]} + Names(s.queue[1..]);
      assert s.pending + {s.queue[0]} + Names(s.queue[1..]) == s.pending + Names(s.queue);
    } else {
      assert s.pending + Names(s.queue) == s.pending;
    }
  }

  /** Exactly what a poll does while there are senders. Without a window, the first name taken opens one that closes a full
      debounce from now; a window with time left takes all there is, and waits; one whose time has come is delivered, with at most
      the one name a resumed wait had already been promised. Without a debounce each name is a batch of its own. */
  lemma PollExactly(s: Stream, now: int)
    requires !s.closed && Consistent(s)
    ensures var (s', batch, over) := Polled(s, now);
            !over &&
            if s.closesAt.None? && s.queue == [] then
              batch.None? && s' == s
            else if s.closesAt.None? && s.debounce > 0 then
              batch.None? && s' == s.(queue := [], pending := Names(s.queue), closesAt := Some(now + s.debounce), waiting := true)
            else if s.closesAt.None? then
              batch == Some({s.queue[0]}) && s' == s.(queue := s.queue[1..])
            else if s.closesAt.value > now then
              batch.None? && s' == s.(queue := [], pending := s.pending + Names(s.queue), waiting := true)
            else
              var late := if s.waiting && s.queue != [] then s.queue[..1] else [];
              batch == Some(s.pending + Names(late)) && s' == s.(queue := s.queue[|late|..], pending := {}, closesAt := None, waiting := false)
  {
    if s.closesAt.None? {
      if s.queue != [] {
        var t := Took(s, now);
        assert s.queue == [s.queue[0]] + s.queue[1..];
        assert s.pending + {s.queue[0]} == {s.queue[0]};
        if s.debounce > 0 {
          AllTaken(t, now);
          assert {s.queue[0]} + Names(s.queue[1..]) == Names(s.queue);
        }
      }
    } else if s.closesAt.value > now {
      AllTaken(s, now);
    } else if s.waiting && s.queue != [] {
      assert Names(s.queue[..1]) == {s.queue[0]};
      PolledStep(Took(s, now), now);
    } else {
      assert Names([]) == {} && s.pending + {} == s.pending;
    }
  }

  /** What a poll of a stream without senders leaves queued: nothing, unless its window had closed already. */
  function LeftBehind(s: Stream, now: int): seq<string> {
    if s.closesAt.Some? && s.closesAt.value <= now then (if s.waiting && s.queue != [] then s.queue[1..] else s.queue) else []
  }

  /** Without senders a poll never waits: it delivers what it has, or the stream is over. */
  lemma {:induction false} ClosedPolled(s: Stream, now: int)
    requires s.closed && s.debounce > 0
    ensures var (s', batch, over) := Polled(s, now);
            if s.closesAt.None? && s.queue == [] then over && batch.None?
            else !over && batch.Some? && s' == s.(queue := LeftBehind(s, now), pending := {}, closesAt := None, waiting := false)
    decreases |s.queue|
  {
    if Takes(s, now) {
      ClosedPolled(Took(s, now), now);
    }
  }

  // ---- The stream as an object ----

  method ListOnce(names: set<string>) returns (out: seq<string>)
    ensures forall x :: x in out <==> x in names
  {
    out := [];
    var left := names;
    while left != {}
      invariant left <= names && forall x :: x in out <==> x in names - left
      decreases |left|
    {
      var x :| x in left;
      out, left := out + [x], left - {x};
    }
  }

  class EventStream {
    var queue: seq<string>
    var pending: set<string>
    var closesAt: Option<int>
    var closed: bool
    var waiting: bool
    /** The receiving end is gone, and with it the daemon. */
    var dropped: bool
    const debounce: nat
    /** Every notification accepted, and every table delivered, so far. */
    ghost var accepted: set<string>
    ghost var delivered: set<string>

    ghost function State(): Stream
      reads this
    {
      Stream(queue, pending, closesAt, debounce, closed, waiting)
    }

    ghost predicate Valid()
      reads this
    {
      Consistent(State()) && accepted == delivered + Held(State())
    }

    constructor (debounce: nat)
      ensures Valid() && State() == Stream([], {}, None, debounce, false, false)
      ensures accepted == {} && delivered == {} && !dropped
    {
      queue, pending, closesAt, closed, waiting, dropped := [], {}, None, false, false, false;
      this.debounce := debounce;
      accepted, delivered := {}, {};
    }

    /** `Events::notify`: never waits; a full queue, or a stream nobody receives from, refuses. Its caller is a sender. */
    method Notify(table: string) returns (ok: bool)
      requires Valid() && !closed
      modifies this
      ensures Valid() && delivered == old(delivered) && dropped == old(dropped)
      ensures ok == (|old(queue)| < 1024 && !old(dropped))
      ensures accepted == old(accepted) + if ok then {table} else {}
      ensures State() == if ok then old(State()).(queue := old(queue) + [table]) else old(State())
    {
      ok := |queue| < CHANNEL_DEPTH && !dropped;
      if ok {
        assert Names(queue + [table]) == Names(queue) + {table};
        queue := queue + [table];
        accepted := accepted + {table};
      }
    }

    /** The daemon is done with the stream: what it still held is never delivered, and nothing more is accepted. */
    method Drop()
      requires Valid()
      modifies this
      ensures Valid() && dropped && State() == old(State())
      ensures accepted == old(accepted) && delivered == old(delivered)
    {
      dropped := true;
    }

    /** The last sender is gone. */
    method Close()
      requires Valid()
      modifies this
      ensures Valid() && State() == old(State()).(closed := true) && dropped == old(dropped)
      ensures accepted == old(accepted) && delivered == old(delivered)
    {
      closed := true;
    }

    /** Whoever awaited a batch has dropped the wait. The window, and what it holds, stay. */
    method Cancel()
      requires Valid()
      modifies this
      ensures Valid() && State() == old(State()).(waiting := false) && dropped == old(dropped)
      ensures accepted == old(accepted) && delivered == old(delivered)
    {
      waiting := false;
    }

    /** One name taken into the window, which opens if none is. */
    method Receive(now: int)
      requires queue != []
      modifies this
      ensures State() == Took(old(State()), now)
      ensures accepted == old(accepted) && delivered == old(delivered) && dropped == old(dropped)
    {
      if closesAt.None? {
        closesAt := Some(now + debounce);
      }
      pending, queue, waiting := pending + {queue[0]}, queue[1..], false;
    }

    /** `next_batch`, up to the point where it waits or answers. Nothing accepted is ever lost; a batch is non-empty,
        sorted and free of duplicates, and holds all the window collected. */
    method PollBatch(now: int) returns (r: Poll)
      requires Valid()
      modifies this
      ensures Valid() && accepted == old(accepted) && dropped == old(dropped)
      ensures State() == Polled(old(State()), now).0
      ensures r.Pending? <==> Polled(old(State()), now).1.None? && !Polled(old(State()), now).2
      ensures r == Ready(None) <==> Polled(old(State()), now).2
      ensures r.Ready? && r.batch.Some? ==>
                && r.batch.value != [] && Ascending(r.batch.value)
                && Polled(old(State()), now).1 == Some(Names(r.batch.value))
                && delivered == old(delivered) + Names(r.batch.value)
      ensures !(r.Ready? && r.batch.Some?) ==> delivered == old(delivered)
    {
      hide Names, SortStrings, Dedup, Polled, Ascending;
      ghost var begun := State();
      PollConserves(begun, now);
      while true
        invariant Polled(State(), now) == Polled(begun, now)
        invariant accepted == old(accepted) && delivered == old(delivered) && dropped == old(dropped)
        decreases |queue|
      {
        PolledStep(State(), now);
        if closesAt.None? {
          if queue == [] {
            waiting := false;
            return if closed then Ready(None) else Pending;
          }
          Receive(now);
          continue;
        }
        if closesAt.value <= now && !waiting {
          break;
        }
        if queue != [] {
          Receive(now);
          continue;
        }
        if closed || closesAt.value <= now {
          break;
        }
        waiting := true;
        return Pending;
      }
      PolledStep(State(), now);
      var batch := Deliver();
      r := Ready(Some(batch));
    }

    /** The end of a window: what it collected, sorted and free of duplicates. */
    method Deliver() returns (batch: seq<string>)
      modifies this
      ensures State() == old(State()).(pending := {}, closesAt := None, waiting := false)
      ensures Ascending(batch) && Names(batch) == old(pending) && (old(pending) != {} ==> batch != [])
      ensures delivered == old(delivered) + old(pending) && accepted == old(accepted) && dropped == old(dropped)
    {
      hide SortStrings, Dedup, Ascending;
      var listed := ListOnce(pending);
      SortedOnce(listed);
      batch := Dedup(SortStrings(listed));
      SameNames(batch, pending);
      delivered := delivered + pending;
      closesAt, pending, waiting := None, {}, false;
    }
  }

  lemma PolledStep(s: Stream, now: int)
    ensures Polled(s, now) == if Takes(s, now) then Polled(Took(s, now), now) else Settled(s, now)
  {
  }

  lemma SameNames(batch: seq<string>, names: set<string>)
    requires forall x :: x in batch <==> x in names
    ensures Names(batch) == names && (names != {} ==> batch != [])
  {
  }
}
