/** The daemon's loop: an absolute deadline for the periodic sweep, rule schedules, and change notifications, told apart
    at every wake-up. One turn is one poll of the loop's `select!`; no time passes within a poll. */
module Daemon {
  import opened Wrappers
  import opened Events

  /** A rule's schedule and its next occurrence after the moment asked about, if it has one. */
  datatype Schedule = Schedule(pattern: string, next: Option<int>)

  datatype Trigger = Interval | Rule(pattern: string)

  /** When the loop's timer goes off, and for what. */
  datatype Alarm = Alarm(at: int, trigger: Trigger)

  function Delay(moment: int, now: int): nat {
    if moment > now then moment - now else 0
  }

  // ---- next_after ----

  function Soonest(schedules: seq<Schedule>, now: int, due: int): (nat, Trigger) {
    if schedules == [] then (Delay(due, now), Interval)
    else
      var best, last := Soonest(schedules[..|schedules| - 1], now, due), schedules[|schedules| - 1];
      if last.next.Some? && Delay(last.next.value, now) < best.0 then (Delay(last.next.value, now), Rule(last.pattern)) else best
  }

  /** `next_after`: the soonest of the interval and every schedule that has an occurrence left. */
  method NextAfter(schedules: seq<Schedule>, now: int, due: int) returns (delay: nat, trigger: Trigger)
    ensures (delay, trigger) == Soonest(schedules, now, due)
  {
    delay, trigger := Delay(due, now), Interval;
    for i := 0 to |schedules|
      invariant (delay, trigger) == Soonest(schedules[..i], now, due)
    {
      PrefixGrows(schedules, i);
      if schedules[i].next.None? {
        continue;
      }
      var until := Delay(schedules[i].next.value, now);
      if until < delay {
        delay, trigger := until, Rule(schedules[i].pattern);
      }
    }
    PrefixWhole(schedules);
  }

  /** The rule chosen has an occurrence that far off. */
  ghost predicate Names(schedules: seq<Schedule>, now: int, chosen: (nat, Trigger)) {
    exists s :: s in schedules && s.next.Some? && chosen == (Delay(s.next.value, now), Rule(s.pattern))
  }

  /** Nothing comes sooner than what is chosen; and the interval is chosen exactly when no schedule comes strictly before
      it, so an overdue interval beats every schedule. */
  lemma {:induction false} SoonestIsLeast(schedules: seq<Schedule>, now: int, due: int)
    ensures Soonest(schedules, now, due).0 <= Delay(due, now)
    ensures forall s :: s in schedules && s.next.Some? ==> Soonest(schedules, now, due).0 <= Delay(s.next.value, now)
    ensures Soonest(schedules, now, due).1.Interval? <==>
              forall s :: s in schedules && s.next.Some? ==> Delay(due, now) <= Delay(s.next.value, now)
    ensures Soonest(schedules, now, due).1.Interval? ==> Soonest(schedules, now, due).0 == Delay(due, now)
    ensures Soonest(schedules, now, due).1.Rule? ==> Names(schedules, now, Soonest(schedules, now, due))
    ensures due <= now ==> Soonest(schedules, now, due) == (0, Interval)
  {
    if schedules != [] {
      var front, last := schedules[..|schedules| - 1], schedules[|schedules| - 1];
      assert schedules == front + [last];
      SoonestIsLeast(front, now, due);
      if last.next.Some? && Delay(last.next.value, now) < Soonest(front, now, due).0 {
        assert last in schedules;
      } else if Names(front, now, Soonest(front, now, due)) {
        var s :| s in front && s.next.Some? && Soonest(front, now, due) == (Delay(s.next.value, now), Rule(s.pattern));
        assert s in schedules;
      }
    }
  }

  // ---- One turn of the loop ----

  /** `alarm` is the timer of a `select!` under way. `stream` is `None` once every sender is gone. */
  datatype Loop = Loop(stream: Option<Stream>, due: int, interval: nat, alarm: Option<Alarm>)

  datatype Outcome = Waits | SourceGone | EventCycle(tables: set<string>) | RuleCycle(pattern: string) | Sweep

  function Armed(d: Loop, now: int, schedules: seq<Schedule>): Alarm {
    if d.alarm.Some? then d.alarm.value
    else
      var (delay, trigger) := Soonest(schedules, now, d.due);
      Alarm(now + delay, trigger)
  }

  function Dropped(stream: Option<Stream>): Option<Stream> {
    if stream.Some? then Some(stream.value.(waiting := false)) else None
  }

  /** The timer's arm of the `select!`: only the interval's own alarm moves the deadline. */
  function Fired(d: Loop, alarm: Alarm, now: int): (Loop, Outcome) {
    if alarm.at > now then (d.(alarm := Some(alarm)), Waits)
    else
      match alarm.trigger
      case Interval => (d.(stream := Dropped(d.stream), due := now + d.interval, alarm := None), Sweep)
      case Rule(pattern) => (d.(stream := Dropped(d.stream), alarm := None), RuleCycle(pattern))
  }

  /** One poll: notifications first, then the timer. */
  function Turn(d: Loop, now: int, schedules: seq<Schedule>): (Loop, Outcome) {
    var alarm := Armed(d, now, schedules);
    match d.stream
    case None => Fired(d, alarm, now)
    case Some(s) =>
      var (s', batch, over) := Polled(s, now);
      if over then (d.(stream := None, alarm := None), SourceGone)
      else if batch.Some? then (d.(stream := Some(s'), alarm := None), EventCycle(batch.value))
      else Fired(d.(stream := Some(s')), alarm, now)
  }

  /** What happens before a poll: tables reported as changed, as far as the queue takes them; or the last sender going away.
      A stream without senders is told nothing more. */
  datatype Wakeup = Wakeup(arrivals: seq<string>, closes: bool, now: int, schedules: seq<Schedule>)

  function Reported(d: Loop, arrivals: seq<string>): Loop {
    if d.stream.None? || d.stream.value.closed then d
    else
      var room := CHANNEL_DEPTH - |d.stream.value.queue|;
      var taken := if |arrivals| <= room then arrivals else if room <= 0 then [] else arrivals[..room];
      d.(stream := Some(d.stream.value.(queue := d.stream.value.queue + taken)))
  }

  function Prepared(d: Loop, w: Wakeup): Loop {
    var r := Reported(d, w.arrivals);
    if w.closes && r.stream.Some? then r.(stream := Some(r.stream.value.(closed := true))) else r
  }

  function Step(d: Loop, w: Wakeup): (Loop, Outcome) {
    Turn(Prepared(d, w), w.now, w.schedules)
  }

  /** The loop after a run of wake-ups, and what each came to. */
  function After(d: Loop, ws: seq<Wakeup>): Loop
    decreases |ws|
  {
    if ws == [] then d else After(Step(d, ws[0]).0, ws[1..])
  }

  function Turns(d: Loop, ws: seq<Wakeup>): (r: seq<Outcome>)
    ensures |r| == |ws|
    decreases |ws|
  {
    if ws == [] then [] else [Step(d, ws[0]).1] + Turns(Step(d, ws[0]).0, ws[1..])
  }

  /** Time does not run backwards. */
  predicate InOrder(from: int, ws: seq<Wakeup>)
    decreases |ws|
  {
    ws == [] || (from <= ws[0].now && InOrder(ws[0].now, ws[1..]))
  }

  function EventCycles(outcomes: seq<Outcome>): nat {
    if outcomes == [] then 0 else (if outcomes[0].EventCycle? then 1 else 0) + EventCycles(outcomes[1..])
  }

  // ---- The deadline ----

  /** The deadline moves only when the interval itself fires, and then to a full interval from now. */
  lemma OnlyTheIntervalMovesTheDeadline(d: Loop, now: int, schedules: seq<Schedule>)
    ensures Turn(d, now, schedules).1.Sweep? ==> Turn(d, now, schedules).0.due == now + d.interval
    ensures !Turn(d, now, schedules).1.Sweep? ==> Turn(d, now, schedules).0.due == d.due
  {
  }

  /** A timer newly set goes off at the soonest of the deadline and the schedules' next occurrences, at once for one that has
      passed, and for what comes then. */
  lemma ArmedForTheSoonest(d: Loop, now: int, schedules: seq<Schedule>)
    requires d.alarm.None?
    ensures var alarm := Armed(d, now, schedules);
            && now <= alarm.at && (alarm.at <= d.due || alarm.at == now)
            && (forall s :: s in schedules && s.next.Some? ==> alarm.at <= s.next.value || alarm.at == now)
            && match alarm.trigger
               case Interval => alarm.at == d.due || (d.due <= now && alarm.at == now)
               case Rule(p) => exists s :: s in schedules && s.pattern == p && s.next.Some? && s.next.value <= alarm.at
                                           && (alarm.at == s.next.value || alarm.at == now)
  {
    SoonestIsLeast(schedules, now, d.due);
    var chosen := Soonest(schedules, now, d.due);
    if chosen.1.Rule? {
      var s :| s in schedules && s.next.Some? && chosen == (Delay(s.next.value, now), Rule(s.pattern));
      assert s.pattern == chosen.1.pattern && s.next.value <= now + chosen.0;
    }
  }

  /** What one turn comes to: a window whose time has come is handed over whatever the timer says, and nothing reported is lost;
      otherwise the timer decides, by when it goes off and what for. A turn that ends without waiting leaves no timer behind. */
  lemma TurnMeans(d: Loop, now: int, schedules: seq<Schedule>)
    requires d.stream.Some? ==> Consistent(d.stream.value)
    ensures var (d', outcome) := Turn(d, now, schedules);
            && (outcome.EventCycle? ==> d.stream.Some? && outcome.tables != {})
            && (d.stream.Some? && d.stream.value.closesAt.Some? && d.stream.value.closesAt.value <= now ==> outcome.EventCycle?)
            && (outcome.SourceGone? <==> d.stream.Some? && d.stream.value.closed && d.stream.value.queue == [] && d.stream.value.closesAt.None?)
    ensures var (d', outcome) := Turn(d, now, schedules);
            && (d'.stream.Some? <==> d.stream.Some? && !outcome.SourceGone?)
            && (d'.stream.Some? ==> Held(d.stream.value) == Held(d'.stream.value) + (if outcome.EventCycle? then outcome.tables else {}))
    ensures var (d', outcome) := Turn(d, now, schedules);
            var alarm := Armed(d, now, schedules);
            && d'.interval == d.interval && (d'.alarm == if outcome.Waits? then Some(alarm) else None)
            && (!outcome.EventCycle? && !outcome.SourceGone? ==>
                  outcome == if alarm.at > now then Waits
                             else match alarm.trigger case Interval => Sweep case Rule(p) => RuleCycle(p))
  {
    hide Polled, Armed, Soonest, Consistent;
    if d.stream.Some? {
      PollConserves(d.stream.value, now);
      PolledStep(d.stream.value, now);
      if d.stream.value.closesAt.Some? && d.stream.value.closesAt.value <= now {
        ClosedWindowDelivers(d.stream.value, now);
      }
    }
  }

  /** A loop whose event source, if it has one, debounces. */
  ghost predicate Debounced(d: Loop) {
    d.stream.Some? ==> Consistent(d.stream.value) && d.stream.value.debounce > 0
  }

  /** A timer set earlier goes off no later than the deadline, or than the moment it was set. */
  ghost predicate InTime(d: Loop, now: int) {
    d.alarm.Some? ==> d.alarm.value.at <= d.due || d.alarm.value.at <= now
  }

  lemma TurnInTime(d: Loop, now: int, later: int, schedules: seq<Schedule>)
    requires InTime(d, now) && now <= later
    ensures InTime(Turn(d, now, schedules).0, later)
  {
    SoonestIsLeast(schedules, now, d.due);
  }

  lemma TurnDebounced(d: Loop, now: int, schedules: seq<Schedule>)
    requires Debounced(d)
    ensures Debounced(Turn(d, now, schedules).0)
  {
    if d.stream.Some? {
      PollConserves(d.stream.value, now);
    }
  }

  lemma PreparedKeeps(d: Loop, w: Wakeup, now: int)
    ensures Debounced(d) ==> Debounced(Prepared(d, w))
    ensures InTime(d, now) ==> InTime(Prepared(d, w), now)
    ensures Prepared(d, w).due == d.due && Prepared(d, w).alarm == d.alarm
    ensures d.stream.None? <==> Prepared(d, w).stream.None?
  {
  }

  lemma StepKeeps(d: Loop, w: Wakeup, from: int, later: int)
    requires Debounced(d) && InTime(d, from) && from <= w.now <= later
    ensures Debounced(Step(d, w).0) && InTime(Step(d, w).0, later)
  {
    hide Turn, Prepared, Debounced;
    PreparedKeeps(d, w, w.now);
    LaterInTime(d, from, w.now);
    TurnDebounced(Prepared(d, w), w.now, w.schedules);
    TurnInTime(Prepared(d, w), w.now, later, w.schedules);
  }

  lemma LaterInTime(d: Loop, now: int, later: int)
    requires InTime(d, now) && now <= later
    ensures InTime(d, later)
  {
  }

  function LastTime(from: int, ws: seq<Wakeup>): int {
    if ws == [] then from else ws[|ws| - 1].now
  }

  /** Both hold throughout every run from a loop just built. */
  lemma {:induction false} RunKeeps(d: Loop, from: int, ws: seq<Wakeup>)
    requires Debounced(d) && InTime(d, from) && InOrder(from, ws)
    ensures Debounced(After(d, ws)) && InTime(After(d, ws), LastTime(from, ws))
    decreases |ws|
  {
    hide Step, Debounced, InTime;
    if ws != [] {
      StepKeeps(d, ws[0], from, ws[0].now);
      RunKeeps(Step(d, ws[0]).0, ws[0].now, ws[1..]);
    }
  }

  // ---- The periodic sweep ----

  /** How many more wake-ups, and how many event cycles among them, an overdue loop can take to its sweep. `stays` says
      the senders there are do not go away meanwhile. */
  function WakeupsLeft(d: Loop, stays: bool): nat {
    match d.stream
    case None => if RuleArmed(d) then 2 else 1
    case Some(s) =>
      if s.closed then CyclesLeft(d, stays) + 2
      else if RuleArmed(d) then (if stays then 3 else 5)
      else if s.closesAt.None? then (if stays then 1 else 3)
      else if stays then 2 else 4
  }

  function CyclesLeft(d: Loop, stays: bool): nat {
    match d.stream
    case None => 0
    case Some(s) =>
      if s.closed then (if s.closesAt.Some? then 1 else 0) + (if s.queue != [] then 1 else 0)
      else if RuleArmed(d) then (if stays then 1 else 2)
      else if s.closesAt.None? then (if stays then 0 else 1)
      else if stays then 1 else 2
  }

  predicate RuleArmed(d: Loop) {
    d.alarm.Some? && d.alarm.value.trigger.Rule?
  }

  /** An overdue wake-up sweeps, or brings the sweep nearer. */
  ghost predicate Nearer(d: Loop, d': Loop, outcome: Outcome, stays: bool) {
    outcome.Sweep? ||
    (&& !outcome.Waits? && d'.due == d.due
     && WakeupsLeft(d', stays) < WakeupsLeft(d, stays)
     && CyclesLeft(d', stays) + (if outcome.EventCycle? then 1 else 0) <= CyclesLeft(d, stays))
  }

  /** The alarm of an overdue loop has gone off, and it is the interval's unless a rule's was set before. */
  lemma OverdueAlarm(d: Loop, now: int, schedules: seq<Schedule>)
    requires InTime(d, now) && d.due <= now
    ensures Armed(d, now, schedules).at <= now
    ensures RuleArmed(d) <==> Armed(d, now, schedules).trigger.Rule?
  {
    SoonestIsLeast(schedules, now, d.due);
  }

  lemma AbsentFalls(d: Loop, w: Wakeup, stays: bool)
    requires d.stream.None? && InTime(d, w.now) && d.due <= w.now
    ensures var (d', outcome) := Step(d, w);
            Nearer(d, d', outcome, stays) && (outcome.RuleCycle? <==> RuleArmed(d)) && (outcome.Sweep? <==> !RuleArmed(d))
            && d'.stream.None? && d'.alarm.None?
  {
    OverdueAlarm(d, w.now, w.schedules);
  }

  /** Event cycles a closed source still makes, poll by poll. */
  function Windows(s: Stream, now: int): nat {
    if s.closesAt.None? then (if s.queue == [] then 0 else 1)
    else if s.closesAt.value <= now && |s.queue| > (if s.waiting then 1 else 0) then 2
    else 1
  }

  lemma ClosedStep(d: Loop, w: Wakeup)
    requires d.stream.Some? && d.stream.value.closed && Debounced(d)
    ensures var (d', outcome) := Step(d, w);
            var s := d.stream.value;
            if Windows(s, w.now) == 0 then outcome.SourceGone? && d' == d.(stream := None, alarm := None)
            else outcome.EventCycle? && d'.alarm.None? && d'.due == d.due && d'.interval == d.interval && d'.stream.Some?
                 && d'.stream.value == s.(queue := LeftBehind(s, w.now), pending := {}, closesAt := None, waiting := false)
  {
    ClosedPolled(d.stream.value, w.now);
  }

  lemma ClosedFalls(d: Loop, w: Wakeup, stays: bool)
    requires d.stream.Some? && d.stream.value.closed && Debounced(d)
    ensures Nearer(d, Step(d, w).0, Step(d, w).1, stays)
  {
    hide Step;
    ClosedStep(d, w);
  }

  lemma OpenFalls(d: Loop, w: Wakeup, stays: bool)
    requires d.stream.Some? && !d.stream.value.closed && !w.closes && Debounced(d) && InTime(d, w.now) && d.due <= w.now
    ensures Nearer(d, Step(d, w).0, Step(d, w).1, stays)
  {
    hide Polled, Soonest;
    var r := Prepared(d, w);
    var s := r.stream.value;
    PreparedKeeps(d, w, w.now);
    OverdueAlarm(r, w.now, w.schedules);
    PollConserves(s, w.now);
    DeliveredLeavesNoWindow(s, w.now);
    if s.closesAt.None? {
      OpenWindowWaits(s, w.now);
    }
  }

  lemma ClosingFalls(d: Loop, w: Wakeup)
    requires d.stream.Some? && !d.stream.value.closed && w.closes && Debounced(d)
    ensures Nearer(d, Step(d, w).0, Step(d, w).1, false)
  {
    hide Polled, Turn;
    var r := Prepared(d, w);
    PreparedKeeps(d, w, w.now);
    ClosedStep(r, Wakeup([], false, w.now, w.schedules));
    assert Prepared(r, Wakeup([], false, w.now, w.schedules)) == r;
  }

  lemma {:induction false} DeliveredLeavesNoWindow(s: Stream, now: int)
    ensures Polled(s, now).1.Some? ==> Polled(s, now).0.closesAt.None?
    decreases |s.queue|
  {
    if Takes(s, now) {
      DeliveredLeavesNoWindow(Took(s, now), now);
    }
  }

  lemma OverdueFalls(d: Loop, w: Wakeup, stays: bool)
    requires Debounced(d) && InTime(d, w.now) && d.due <= w.now && (stays ==> !w.closes)
    ensures Nearer(d, Step(d, w).0, Step(d, w).1, stays)
  {
    hide Step, Debounced, InTime, Nearer;
    if d.stream.None? {
      AbsentFalls(d, w, stays);
    } else if d.stream.value.closed {
      ClosedFalls(d, w, stays);
    } else if !w.closes {
      OpenFalls(d, w, stays);
    } else {
      ClosingFalls(d, w);
    }
  }

  /** The sweep comes within so many wake-ups, after at most so many event cycles. */
  ghost predicate SweepsWithin(outcomes: seq<Outcome>, wakeups: nat, cycles: nat) {
    exists k :: 0 <= k < wakeups && k < |outcomes| && outcomes[k].Sweep? && EventCycles(outcomes[..k]) <= cycles
  }

  lemma SweepsNow(first: Outcome, rest: seq<Outcome>, wakeups: nat, cycles: nat)
    requires first.Sweep? && wakeups > 0
    ensures SweepsWithin([first] + rest, wakeups, cycles)
  {
    var all := [first] + rest;
    assert all[0].Sweep? && EventCycles(all[..0]) == 0;
  }

  lemma SweepsLater(first: Outcome, rest: seq<Outcome>, wakeups: nat, cycles: nat, more: nat, most: nat)
    requires SweepsWithin(rest, wakeups, cycles)
    requires wakeups < more && cycles + (if first.EventCycle? then 1 else 0) <= most
    ensures SweepsWithin([first] + rest, more, most)
  {
    var k :| 0 <= k < wakeups && k < |rest| && rest[k].Sweep? && EventCycles(rest[..k]) <= cycles;
    var all := [first] + rest;
    assert all[k + 1] == rest[k] && all[..k + 1] == [first] + rest[..k];
    assert ([first] + rest[..k])[1..] == rest[..k];
  }

  lemma {:induction false} OverdueSweeps(d: Loop, ws: seq<Wakeup>, stays: bool)
    requires Debounced(d) && |ws| >= WakeupsLeft(d, stays) && ws != [] && InTime(d, ws[0].now) && d.due <= ws[0].now
    requires InOrder(ws[0].now, ws) && (stays ==> forall w :: w in ws ==> !w.closes)
    ensures SweepsWithin(Turns(d, ws), WakeupsLeft(d, stays), CyclesLeft(d, stays))
    decreases |ws|
  {
    hide Step, Debounced, InTime, SweepsWithin, WakeupsLeft, CyclesLeft;
    var (d', outcome) := Step(d, ws[0]);
    assert ws[0] in ws;
    OverdueFalls(d, ws[0], stays);
    SomeLeft(d, stays);
    if outcome.Sweep? {
      SweepsNow(outcome, Turns(d', ws[1..]), WakeupsLeft(d, stays), CyclesLeft(d, stays));
    } else {
      SomeLeft(d', stays);
      var rest := ws[1..];
      assert rest != [] && rest[0] == ws[1] && forall w :: w in rest ==> w in ws;
      StepKeeps(d, ws[0], ws[0].now, rest[0].now);
      OverdueSweeps(d', rest, stays);
      SweepsLater(outcome, Turns(d', rest), WakeupsLeft(d', stays), CyclesLeft(d', stays), WakeupsLeft(d, stays), CyclesLeft(d, stays));
    }
  }

  lemma SomeLeft(d: Loop, stays: bool)
    ensures 0 < WakeupsLeft(d, stays) <= 5 && CyclesLeft(d, stays) <= 2
    ensures stays && d.stream.Some? && !d.stream.value.closed ==> WakeupsLeft(d, stays) <= 3 && CyclesLeft(d, stays) <= 1
    ensures d.stream.None? ==> WakeupsLeft(d, stays) <= 2 && CyclesLeft(d, stays) == 0
  {
  }

  /** A loop as it is built: no alarm set, and an event source with nothing in it, or none. */
  ghost predicate Built(d: Loop, now: int) {
    && d.alarm.None? && d.due == now + d.interval
    && (d.stream.Some? ==> d.stream.value == Stream([], {}, None, d.stream.value.debounce, false, false))
  }

  lemma {:induction false} NoSourceStays(d: Loop, ws: seq<Wakeup>)
    requires d.stream.None?
    ensures After(d, ws).stream.None?
    decreases |ws|
  {
    if ws != [] {
      NoSourceStays(Step(d, ws[0]).0, ws[1..]);
    }
  }

  lemma SendersStayOne(d: Loop, w: Wakeup)
    requires d.stream.Some? && !d.stream.value.closed && !w.closes && Debounced(d)
    ensures Step(d, w).0.stream.Some? && !Step(d, w).0.stream.value.closed
  {
    hide Polled;
    PreparedKeeps(d, w, w.now);
    PollConserves(Prepared(d, w).stream.value, w.now);
  }

  lemma {:induction false} SendersStay(d: Loop, from: int, ws: seq<Wakeup>)
    requires d.stream.Some? && !d.stream.value.closed && Debounced(d) && InTime(d, from) && InOrder(from, ws)
    requires forall w :: w in ws ==> !w.closes
    ensures After(d, ws).stream.Some? && !After(d, ws).stream.value.closed
    decreases |ws|
  {
    hide Step, Debounced, InTime;
    if ws != [] {
      assert ws[0] in ws && forall w :: w in ws[1..] ==> w in ws;
      SendersStayOne(d, ws[0]);
      StepKeeps(d, ws[0], from, ws[0].now);
      SendersStay(Step(d, ws[0]).0, ws[0].now, ws[1..]);
    }
  }

  lemma Sweeps(d: Loop, ws: seq<Wakeup>, stays: bool, wakeups: nat, cycles: nat)
    requires SweepsWithin(Turns(d, ws), WakeupsLeft(d, stays), CyclesLeft(d, stays))
    requires WakeupsLeft(d, stays) <= wakeups && CyclesLeft(d, stays) <= cycles
    ensures SweepsWithin(Turns(d, ws), wakeups, cycles)
  {
    hide Turns, WakeupsLeft, CyclesLeft;
  }

  /** No starvation. In every run from a loop just built, with a positive debounce: once the deadline has passed, and
      however busy the tables, the full sweep comes. While senders remain, within three wake-ups and after at most one event
      cycle; with no event source, within two and after none; and wherever the senders go away, within five and after at
      most two. */
  lemma SweepAlwaysComes(d0: Loop, start: int, before: seq<Wakeup>, ws: seq<Wakeup>)
    requires Built(d0, start) && (d0.stream.Some? ==> d0.stream.value.debounce > 0)
    requires InOrder(start, before) && |ws| >= 5 && InOrder(LastTime(start, before), ws)
    requires After(d0, before).due <= ws[0].now
    ensures SweepsWithin(Turns(After(d0, before), ws), 5, 2)
    ensures d0.stream.Some? && (forall w :: w in before + ws ==> !w.closes) ==> SweepsWithin(Turns(After(d0, before), ws), 3, 1)
    ensures d0.stream.None? ==> SweepsWithin(Turns(After(d0, before), ws), 2, 0)
  {
    hide Turns, WakeupsLeft, CyclesLeft, SweepsWithin, Debounced, InTime, Step;
    var d := After(d0, before);
    BuiltIsSound(d0, start);
    RunKeeps(d0, start, before);
    LaterInTime(d, LastTime(start, before), ws[0].now);
    SomeLeft(d, false);
    SomeLeft(d, true);
    OverdueSweeps(d, ws, false);
    Sweeps(d, ws, false, 5, 2);
    if d0.stream.Some? && forall w :: w in before + ws ==> !w.closes {
      assert forall w :: w in before ==> w in before + ws;
      assert forall w :: w in ws ==> w in before + ws;
      SendersStay(d0, start, before);
      OverdueSweeps(d, ws, true);
      Sweeps(d, ws, true, 3, 1);
    }
    if d0.stream.None? {
      NoSourceStays(d0, before);
      Sweeps(d, ws, false, 2, 0);
    }
  }

  lemma BuiltIsSound(d: Loop, now: int)
    requires Built(d, now) && (d.stream.Some? ==> d.stream.value.debounce > 0)
    ensures Debounced(d) && InTime(d, now) && (d.stream.Some? ==> !d.stream.value.closed)
  {
  }

  // ---- A source without senders runs down ----

  lemma ClosedStepWindows(d: Loop, w: Wakeup, later: int)
    requires d.stream.Some? && d.stream.value.closed && Debounced(d) && Windows(d.stream.value, w.now) > 0
    ensures var d' := Step(d, w).0;
            d'.stream.Some? && d'.stream.value.closed && Debounced(d') && Windows(d'.stream.value, later) == Windows(d.stream.value, w.now) - 1
  {
    hide Step;
    ClosedStep(d, w);
  }

  /** Exactly what an overdue loop does once its senders are gone: an event cycle for each window left, none, one or two;
      then it notices the source is gone; then it sweeps. */
  lemma {:induction false} ClosedRunsDown(d: Loop, ws: seq<Wakeup>)
    requires d.stream.Some? && d.stream.value.closed && Debounced(d)
    requires ws != [] && |ws| == Windows(d.stream.value, ws[0].now) + 2 && InOrder(ws[0].now, ws) && d.due <= ws[0].now
    ensures var n := Windows(d.stream.value, ws[0].now);
            && (forall k :: 0 <= k < n ==> Turns(d, ws)[k].EventCycle?)
            && Turns(d, ws)[n].SourceGone? && Turns(d, ws)[n + 1].Sweep?
    decreases |ws|
  {
    hide Step, Debounced, Windows;
    var d', rest := Step(d, ws[0]).0, ws[1..];
    ClosedStep(d, ws[0]);
    assert rest[0] == ws[1];
    if Windows(d.stream.value, ws[0].now) == 0 {
      AbsentTurns(d', rest[0]);
      assert Turns(d', rest) == [Step(d', rest[0]).1] + Turns(Step(d', rest[0]).0, rest[1..]);
    } else {
      ClosedStepWindows(d, ws[0], rest[0].now);
      ClosedRunsDown(d', rest);
    }
  }

  lemma AbsentTurns(d: Loop, w: Wakeup)
    requires d.stream.None? && d.alarm.None? && d.due <= w.now
    ensures Step(d, w).1.Sweep?
  {
    AbsentFalls(d, w, true);
  }

  /** So the bound of one needs senders: without them the next two wake-ups are both event cycles if and only if the window
      has closed and more is queued than a wait under way will take with it. */
  lemma ClosedSourceAddsOne(d: Loop, first: Wakeup, second: Wakeup)
    requires d.stream.Some? && d.stream.value.closed && Debounced(d)
    ensures var (d', outcome) := Step(d, first);
            var s := d.stream.value;
            outcome.EventCycle? && Step(d', second).1.EventCycle? <==>
            s.closesAt.Some? && s.closesAt.value <= first.now && |s.queue| > (if s.waiting then 1 else 0)
  {
    hide Step;
    ClosedStep(d, first);
    if Windows(d.stream.value, first.now) > 0 {
      ClosedStepWindows(d, first, second.now);
      ClosedStep(Step(d, first).0, second);
    } else {
      GoneMakesNoEvents(Step(d, first).0, second);
    }
  }

  lemma GoneMakesNoEvents(d: Loop, w: Wakeup)
    requires d.stream.None?
    ensures !Step(d, w).1.EventCycle?
  {
  }

  // ---- Without a debounce ----

  /** With no debounce at all, a table reported before every turn keeps the sweep out for as long as that goes on. */
  lemma {:induction false} NoDebounceStarves(d: Loop, ws: seq<Wakeup>)
    requires d.stream.Some? && d.stream.value.debounce == 0 && d.stream.value.closesAt.None? && !d.stream.value.closed
    requires |d.stream.value.queue| < CHANNEL_DEPTH && forall w :: w in ws ==> |w.arrivals| == 1 && !w.closes
    ensures forall k :: 0 <= k < |ws| ==> Turns(d, ws)[k].EventCycle?
    decreases |ws|
  {
    hide Step;
    if ws != [] {
      assert ws[0] in ws && forall w :: w in ws[1..] ==> w in ws;
      NoDebounceDelivers(d, ws[0]);
      NoDebounceStarves(Step(d, ws[0]).0, ws[1..]);
    }
  }

  lemma NoDebounceDelivers(d: Loop, w: Wakeup)
    requires d.stream.Some? && d.stream.value.debounce == 0 && d.stream.value.closesAt.None? && !d.stream.value.closed
    requires |d.stream.value.queue| < CHANNEL_DEPTH && |w.arrivals| == 1 && !w.closes
    ensures var (d', outcome) := Step(d, w);
            && outcome.EventCycle? && d'.stream.Some? && d'.stream.value.debounce == 0 && d'.stream.value.closesAt.None?
            && !d'.stream.value.closed && |d'.stream.value.queue| == |d.stream.value.queue|
  {
    var s := Prepared(d, w).stream.value;
    assert |s.queue| == |d.stream.value.queue| + 1;
    var t := Took(s, w.now);
    assert Polled(s, w.now) == Polled(t, w.now);
    assert Polled(t, w.now) == Settled(t, w.now);
  }

  /** `n` wake-ups at one moment, each finding one more table reported. */
  function Busy(n: nat, now: int): seq<Wakeup> {
    if n == 0 then [] else [Wakeup(["t"], false, now, [])] + Busy(n - 1, now)
  }

  lemma {:induction false} BusyRun(n: nat, from: int, now: int)
    requires from <= now
    ensures InOrder(from, Busy(n, now)) && |Busy(n, now)| == n
    ensures forall w :: w in Busy(n, now) ==> |w.arrivals| == 1 && !w.closes && w.now == now
  {
    if n > 0 {
      BusyRun(n - 1, now, now);
      assert Busy(n, now)[1..] == Busy(n - 1, now);
    }
  }

  /** Past the deadline, a run of wake-ups after any others. */
  ghost predicate Overdue(d0: Loop, start: int, before: seq<Wakeup>, ws: seq<Wakeup>) {
    && InOrder(start, before) && ws != [] && InOrder(LastTime(start, before), ws)
    && After(d0, before).due <= ws[0].now
  }

  /** However it has run so far and whatever is reported, an overdue loop sweeps within `n` wake-ups. */
  ghost predicate AlwaysSweeps(d0: Loop, start: int, n: nat) {
    forall before, ws :: Overdue(d0, start, before, ws) && |ws| >= n ==>
      exists k :: 0 <= k < |ws| && Turns(After(d0, before), ws)[k].Sweep?
  }

  /** The sweep is bounded to come if and only if the loop has no event source or a positive debounce. */
  lemma SweepComesIffDebounced(d0: Loop, start: int)
    requires Built(d0, start)
    ensures (exists n: nat :: AlwaysSweeps(d0, start, n)) <==> (d0.stream.Some? ==> d0.stream.value.debounce > 0)
  {
    hide Turns, Step, InOrder, After;
    if d0.stream.Some? ==> d0.stream.value.debounce > 0 {
      forall before, ws | Overdue(d0, start, before, ws) && |ws| >= 5
        ensures exists k :: 0 <= k < |ws| && Turns(After(d0, before), ws)[k].Sweep?
      {
        SweepAlwaysComes(d0, start, before, ws);
      }
      assert AlwaysSweeps(d0, start, 5);
    } else {
      forall n: nat
        ensures !AlwaysSweeps(d0, start, n)
      {
        BusyStarves(d0, start, n);
      }
    }
  }

  lemma BusyStarves(d0: Loop, start: int, n: nat)
    requires Built(d0, start) && d0.stream.Some? && d0.stream.value.debounce == 0
    ensures !AlwaysSweeps(d0, start, n)
  {
    hide Turns, Step;
    var ws := Busy(n + 1, d0.due);
    BusyRun(n + 1, start, d0.due);
    assert ws[0] in ws && Overdue(d0, start, [], ws);
    NoDebounceStarves(d0, ws);
    assert After(d0, []) == d0;
  }

  // ---- The loop as an object ----

  class Daemon {
    var events: EventStream?
    var due: int
    var alarm: Option<Alarm>
    var completed: nat
    const interval: nat

    ghost function State(): Loop
      reads this, events
    {
      Loop(if events == null then None else Some(events.State()), due, interval, alarm)
    }

    ghost predicate Valid()
      reads this, events
    {
      events != null ==> events.Valid() && !events.dropped
    }

    constructor (interval: nat, now: int, events: EventStream?)
      requires events != null ==> events.Valid() && !events.dropped
      ensures Valid() && this.events == events && this.interval == interval && alarm == None && completed == 0
      ensures due == now + interval
    {
      this.interval, this.events, this.due, this.alarm, this.completed := interval, events, now + interval, None, 0;
    }

    /** One poll of the loop. Every answer but waiting, or losing the event source, is a cycle. */
    method Wake(now: int, schedules: seq<Schedule>) returns (outcome: Outcome)
      requires Valid()
      modifies this, events
      ensures Valid()
      ensures (State(), outcome) == Turn(old(State()), now, schedules)
      ensures completed == old(completed) + if outcome.Waits? || outcome.SourceGone? then 0 else 1
    {
      hide Polled, Soonest, Consistent;
      if alarm.None? {
        var delay, trigger := NextAfter(schedules, now, due);
        alarm := Some(Alarm(now + delay, trigger));
      }
      var ring := alarm.value;
      if events != null {
        var poll := events.PollBatch(now);
        if poll == Ready(None) {
          events, alarm := null, None;
          return SourceGone;
        }
        if poll.Ready? {
          alarm, completed := None, completed + 1;
          return EventCycle(set x | x in poll.batch.value);
        }
      }
      if ring.at > now {
        return Waits;
      }
      outcome := Ring(now, ring.trigger);
    }

    /** The timer's arm: a wait for a batch under way is dropped, and only a sweep moves the deadline. */
    method Ring(now: int, trigger: Trigger) returns (outcome: Outcome)
      requires Valid()
      modifies this, events
      ensures Valid() && events == old(events)
      ensures (State(), outcome) == Fired(old(State()), Alarm(now, trigger), now)
      ensures completed == old(completed) + 1
    {
      hide Polled, Soonest, Consistent;
      if events != null {
        events.Cancel();
      }
      alarm, completed := None, completed + 1;
      match trigger
      case Interval =>
        due := now + interval;
        outcome := Sweep;
      case Rule(pattern) =>
        outcome := RuleCycle(pattern);
    }
  }
}
