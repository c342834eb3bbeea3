/** The autojoin gate of internal/core/engine.go for one network: holds, releases,
    timer callbacks, startup sequences, disconnects and replaced connections, in any
    order. A step is what happens under one hold of the engine's lock. */
module JoinGates {
  import opened GoStrings

  type Conn = nat

  datatype Gate = Gate(held: bool, pending: bool, conn: Conn, timer: Option<nat>)

  /** A network: its connection, whether it is registered, its startup number, its
      gate; the timers that may still expire and those whose callback has started, by
      number, each with the connection it was set for. */
  datatype Net = Net(
    conn: Option<Conn>, registered: bool, startup: nat, gate: Option<Gate>,
    armed: map<nat, Conn>, running: map<nat, Conn>, next: nat)

  /** Stop: a timer that has not expired never will. */
  function Stopped(armed: map<nat, Conn>, timer: Option<nat>): map<nat, Conn> {
    match timer case None => armed case Some(t) => armed - {t}
  }

  predicate Active(v: Net, c: Conn) { v.registered && v.conn == Some(c) }

  predicate HeldFor(v: Net, c: Conn) { v.gate.Some? && v.gate.value.held && v.gate.value.conn == c }

  predicate PendingFor(v: Net, c: Conn) { v.gate.Some? && v.gate.value.pending && v.gate.value.conn == c }

  function TimerOf(v: Net): Option<nat> { if v.gate.Some? then v.gate.value.timer else None }

  /** HoldJoins, on a network with a connection. */
  function Hold(v: Net): Net {
    match v.conn
    case None => v
    case Some(c) =>
      v.(gate := Some(Gate(true, PendingFor(v, c), c, Some(v.next))),
         armed := Stopped(v.armed, TimerOf(v))[v.next := c], next := v.next + 1)
  }

  predicate ReleaseFlushes(v: Net) { v.gate.Some? && v.gate.value.pending && Active(v, v.gate.value.conn) }

  function Release(v: Net): Net {
    match v.gate
    case None => v
    case Some(g) =>
      v.(gate := Some(Gate(false, g.pending && !ReleaseFlushes(v), g.conn, None)), armed := Stopped(v.armed, g.timer))
  }

  /** autoReleaseJoins, the callback of a timer set for c. */
  predicate AutoReleaseFlushes(v: Net, c: Conn) { HeldFor(v, c) && v.gate.value.pending && Active(v, c) }

  function AutoRelease(v: Net, c: Conn): Net {
    if HeldFor(v, c) then v.(gate := Some(Gate(false, false, c, None))) else v
  }

  /** triggerAutojoinOrQueue. */
  predicate StartupActive(v: Net, startup: nat, c: Conn) { Active(v, c) && v.startup == startup }

  predicate TriggerJoins(v: Net, startup: nat, c: Conn) { StartupActive(v, startup, c) && !HeldFor(v, c) }

  function Trigger(v: Net, startup: nat, c: Conn): Net {
    if StartupActive(v, startup, c) && HeldFor(v, c) then v.(gate := Some(v.gate.value.(pending := true))) else v
  }

  /** resetJoinGateLocked. */
  function Reset(v: Net): Net {
    v.(gate := None, armed := Stopped(v.armed, TimerOf(v)))
  }

  // --- Steps ---

  datatype Event =
    | HoldAsked
    | ReleaseAsked
    | Expires(t: nat)
    | Callback(t: nat)
    | StartupBegins
    | Triggered(startup: nat, c: Conn)
    | Registers
    | Disconnects
    | StateSet(registered: bool)
    | Replaced(c: Conn)
    | Removed

  predicate CanHappen(v: Net, e: Event) {
    match e
    case Expires(t) => t in v.armed
    case Callback(t) => t in v.running
    case _ => true
  }

  function Happen(v: Net, e: Event): Net
    requires CanHappen(v, e)
  {
    match e
    case HoldAsked => Hold(v)
    case ReleaseAsked => Release(v)
    case Expires(t) => v.(armed := v.armed - {t}, running := v.running[t := v.armed[t]])
    case Callback(t) => AutoRelease(v, v.running[t]).(running := v.running - {t})
    case StartupBegins => v.(startup := v.startup + 1)
    case Triggered(startup, c) => Trigger(v, startup, c)
    case Registers => v.(registered := true)
    case Disconnects => Reset(v).(registered := false)
    case StateSet(registered) => v.(registered := registered)
    case Replaced(c) => v.(conn := Some(c))
    case Removed => Reset(v).(conn := None, registered := false, startup := 0)
  }

  /** The connection told to autojoin by a step, if any. */
  function Issues(v: Net, e: Event): Option<Conn>
    requires CanHappen(v, e)
  {
    match e
    case ReleaseAsked => if ReleaseFlushes(v) then Some(v.gate.value.conn) else None
    case Callback(t) => if AutoReleaseFlushes(v, v.running[t]) then Some(v.running[t]) else None
    case Triggered(startup, c) => if TriggerJoins(v, startup, c) then Some(c) else None
    case _ => None
  }

  ghost predicate CanRun(v: Net, events: seq<Event>)
    decreases |events|
  {
    events == [] || (CanHappen(v, events[0]) && CanRun(Happen(v, events[0]), events[1..]))
  }

  ghost function RunAll(v: Net, events: seq<Event>): Net
    requires CanRun(v, events)
    decreases |events|
  {
    if events == [] then v else RunAll(Happen(v, events[0]), events[1..])
  }

  /** The connections told to autojoin along a run, in order. */
  ghost function Issued(v: Net, events: seq<Event>): seq<Conn>
    requires CanRun(v, events)
    decreases |events|
  {
    if events == [] then []
    else
      var now := match Issues(v, events[0]) case None => [] case Some(c) => [c];
      now + Issued(Happen(v, events[0]), events[1..])
  }

  /** The triggers along a run that find their startup still current. */
  ghost function Triggers(v: Net, events: seq<Event>): nat
    requires CanRun(v, events)
    decreases |events|
  {
    if events == [] then 0
    else
      var now :=
        match events[0] case Triggered(startup, c) => if StartupActive(v, startup, c) then 1 else 0 case _ => 0;
      now + Triggers(Happen(v, events[0]), events[1..])
  }

  // --- The theorems ---

  /** The network as the n-th step of a run finds it. */
  ghost function At(v: Net, events: seq<Event>, n: nat): (u: Net)
    requires CanRun(v, events) && n <= |events|
    ensures n < |events| ==> CanHappen(u, events[n])
    decreases n
  {
    if n == 0 then v else At(Happen(v, events[0]), events[1..], n - 1)
  }

  lemma {:induction false} AtNext(v: Net, events: seq<Event>, n: nat)
    requires CanRun(v, events) && n < |events|
    ensures At(v, events, n + 1) == Happen(At(v, events, n), events[n])
    decreases n
  {
    if n > 0 {
      hide Happen, CanHappen;
      AtNext(Happen(v, events[0]), events[1..], n - 1);
    }
  }

  predicate TakesHold(v: Net, e: Event, c: Conn) { e.HoldAsked? && v.conn == Some(c) }

  /** A release, a callback of a timer set for c, a reset, or a hold for another
      connection. */
  predicate EndsHold(v: Net, e: Event, c: Conn)
    requires CanHappen(v, e)
  {
    match e
    case HoldAsked => v.conn.Some? && v.conn != Some(c)
    case Callback(t) => v.running[t] == c
    case ReleaseAsked => true
    case Disconnects => true
    case Removed => true
    case _ => false
  }

  ghost predicate EndedBetween(v: Net, events: seq<Event>, c: Conn, i: nat, n: nat)
    requires CanRun(v, events) && n <= |events|
  {
    exists j :: i < j < n && EndsHold(At(v, events, j), events[j], c)
  }

  /** A hold the i-th step took, ended by no step from there to the n-th. */
  ghost predicate Stands(v: Net, events: seq<Event>, c: Conn, i: nat, n: nat)
    requires CanRun(v, events) && n <= |events|
  {
    i < n && TakesHold(At(v, events, i), events[i], c) && !EndedBetween(v, events, c, i, n)
  }

  /** The gate's held bit is the history of holds: held for c is the gate whose last
      hold for c nothing has ended. */
  lemma {:induction false} HeldIff(v: Net, events: seq<Event>, c: Conn, n: nat)
    requires CanRun(v, events) && n <= |events| && !HeldFor(v, c)
    ensures HeldFor(At(v, events, n), c) <==> exists i: nat :: Stands(v, events, c, i, n)
    decreases n
  {
    hide *;
    if n == 0 {
      NoneStands(v, events, c);
    } else {
      HeldIff(v, events, c, n - 1);
      AtNext(v, events, n - 1);
      HeldNext(At(v, events, n - 1), events[n - 1], c);
      StandsNow(v, events, c, n);
      if i: nat :| Stands(v, events, c, i, n) {
        StandsBelow(v, events, c, i, n);
        if i < n - 1 {
          StandsStill(v, events, c, i, n);
        }
      }
      var last := n - 1;
      if i: nat :| Stands(v, events, c, i, last) {
        StandsBelow(v, events, c, i, last);
        StandsStill(v, events, c, i, n);
      }
    }
  }

  lemma NoneStands(v: Net, events: seq<Event>, c: Conn)
    requires CanRun(v, events)
    ensures At(v, events, 0) == v && forall i: nat :: !Stands(v, events, c, i, 0)
  {}

  lemma StandsBelow(v: Net, events: seq<Event>, c: Conn, i: nat, n: nat)
    requires CanRun(v, events) && n <= |events|
    ensures Stands(v, events, c, i, n) ==> i < n
  {}

  lemma StandsNow(v: Net, events: seq<Event>, c: Conn, n: nat)
    requires CanRun(v, events) && 0 < n <= |events|
    ensures Stands(v, events, c, n - 1, n) <==> TakesHold(At(v, events, n - 1), events[n - 1], c)
  {
    hide CanHappen, EndsHold, TakesHold;
  }

  lemma StandsStill(v: Net, events: seq<Event>, c: Conn, i: nat, n: nat)
    requires CanRun(v, events) && i + 1 < n <= |events|
    ensures Stands(v, events, c, i, n) <==>
      Stands(v, events, c, i, n - 1) && !EndsHold(At(v, events, n - 1), events[n - 1], c)
  {
    LastOrBefore(v, events, c, i, n);
    hide CanHappen, EndsHold, TakesHold, EndedBetween;
  }

  lemma LastOrBefore(v: Net, events: seq<Event>, c: Conn, i: nat, n: nat)
    requires CanRun(v, events) && i + 1 < n <= |events|
    ensures EndedBetween(v, events, c, i, n) <==>
      EndedBetween(v, events, c, i, n - 1) || EndsHold(At(v, events, n - 1), events[n - 1], c)
  {
    hide CanHappen, EndsHold;
  }

  lemma HeldNext(v: Net, e: Event, c: Conn)
    requires CanHappen(v, e)
    ensures HeldFor(Happen(v, e), c) <==> TakesHold(v, e, c) || (HeldFor(v, c) && !EndsHold(v, e, c))
    ensures !(TakesHold(v, e, c) && EndsHold(v, e, c))
  {}

  const START := Net(None, false, 0, None, map[], map[], 0)

  /** Along any run from the start an autojoin goes to the current connection, which is
      registered, and never past a hold: every hold taken on the connection has by then
      been ended. */
  lemma NeverPastAHold(events: seq<Event>, n: nat, c: Conn)
    requires CanRun(START, events) && n < |events|
    requires Issues(At(START, events, n), events[n]) == Some(c)
    ensures Active(At(START, events, n), c)
    ensures forall i :: 0 <= i < n && TakesHold(At(START, events, i), events[i], c) ==>
      EndedBetween(START, events, c, i, n + 1)
  {
    var u, e := At(START, events, n), events[n];
    IssuesNoHold(u, e, c);
    HeldIff(START, events, c, n);
    hide CanHappen, Happen, EndsHold, TakesHold, HeldFor, Issues, EndedBetween;
    forall i | 0 <= i < n && TakesHold(At(START, events, i), events[i], c)
      ensures EndedBetween(START, events, c, i, n + 1)
    {
      LastOrBefore(START, events, c, i, n + 1);
      assert HeldFor(u, c) || !Stands(START, events, c, i, n);
    }
  }

  /** In one step: a trigger finds no gate held for the connection, and a release or
      timeout is itself the end of the hold. */
  lemma IssuesNoHold(v: Net, e: Event, c: Conn)
    requires CanHappen(v, e) && Issues(v, e) == Some(c)
    ensures Active(v, c) && !HeldFor(Happen(v, e), c)
    ensures e.Triggered? ==> !HeldFor(v, c)
    ensures !e.Triggered? ==> EndsHold(v, e, c) && PendingFor(v, c) && !PendingFor(Happen(v, e), c)
  {}

  /** And nothing but a hold keeps a trigger from joining. Along any run from the start, a
      trigger that finds its connection current and registered and its startup current
      joins at once if no hold on the connection stands; if one stands it is queued; a
      stale one does nothing. */
  lemma TriggerJoinsUnlessHeld(events: seq<Event>, n: nat, startup: nat, c: Conn)
    requires CanRun(START, events) && n < |events| && events[n] == Triggered(startup, c)
    ensures var v := At(START, events, n);
      var current := v.registered && v.conn == Some(c) && v.startup == startup;
      var held := exists i: nat :: Stands(START, events, c, i, n);
      && Issues(v, events[n]) == (if current && !held then Some(c) else None)
      && (current && held ==> PendingFor(Happen(v, events[n]), c) && HeldFor(Happen(v, events[n]), c))
      && (!(current && held) ==> Happen(v, events[n]) == v)
  {
    HeldIff(START, events, c, n);
    hide Stands;
  }

  /** What may end a queued trigger: its flush, a timeout of its hold, a reset or a hold for
      another connection. */
  predicate MayUnqueue(v: Net, e: Event, c: Conn)
    requires CanHappen(v, e)
  {
    || Issues(v, e) == Some(c)
    || (e.Callback? && v.running[e.t] == c && HeldFor(v, c))
    || e.Disconnects? || e.Removed?
    || (e.HoldAsked? && v.conn.Some? && v.conn != Some(c))
  }

  /** Through any run without these a queued trigger stays queued. */
  lemma {:induction false} QueuedTriggerStays(v: Net, events: seq<Event>, c: Conn)
    requires CanRun(v, events) && PendingFor(v, c)
    requires forall k :: 0 <= k < |events| ==> !MayUnqueue(At(v, events, k), events[k], c)
    ensures PendingFor(RunAll(v, events), c)
    decreases |events|
  {
    if events != [] {
      var u, rest := Happen(v, events[0]), events[1..];
      assert !MayUnqueue(At(v, events, 0), events[0], c);
      assert PendingFor(u, c);
      hide CanHappen, Happen, MayUnqueue, PendingFor;
      forall k | 0 <= k < |rest|
        ensures !MayUnqueue(At(u, rest, k), rest[k], c)
      {
        assert At(v, events, k + 1) == At(u, rest, k);
      }
      QueuedTriggerStays(u, rest, c);
    }
  }

  /** No hold is for good: while a gate is held, a timer for its connection is armed, or
      its callback is on its way. */
  predicate HoldIsTimed(v: Net) {
    v.gate.Some? && v.gate.value.held ==>
      v.gate.value.timer.Some?
      && var t, c := v.gate.value.timer.value, v.gate.value.conn;
      (t in v.armed && v.armed[t] == c) || (t in v.running && v.running[t] == c)
  }

  /** Timers have numbers of their own. */
  ghost predicate TimersApart(v: Net) {
    && (forall t :: t in v.armed ==> t < v.next && t !in v.running)
    && (forall t :: t in v.running ==> t < v.next)
  }

  lemma {:induction false} HoldsAreTimed(v: Net, events: seq<Event>)
    requires CanRun(v, events) && HoldIsTimed(v) && TimersApart(v)
    ensures HoldIsTimed(RunAll(v, events))
    decreases |events|
  {
    if events != [] {
      HoldsAreTimed(Happen(v, events[0]), events[1..]);
    }
  }

  lemma EveryHoldIsTimed(events: seq<Event>)
    requires CanRun(START, events)
    ensures HoldIsTimed(RunAll(START, events))
  {
    HoldsAreTimed(START, events);
  }

  function Queued(v: Net): nat { if v.gate.Some? && v.gate.value.pending then 1 else 0 }

  /** Each trigger yields at most one autojoin, however often the gate is held,
      released and timed out. */
  lemma {:induction false} AtMostOnePerTrigger(v: Net, events: seq<Event>)
    requires CanRun(v, events)
    ensures |Issued(v, events)| + Queued(RunAll(v, events)) <= Queued(v) + Triggers(v, events)
    decreases |events|
  {
    if events != [] {
      AtMostOnePerTrigger(Happen(v, events[0]), events[1..]);
    }
  }

  /** What leaves the connection current and registered and its gate unreleased: a
      timer callback counts when it was set for another connection. */
  predicate LeavesHold(v: Net, e: Event, c: Conn)
    requires CanHappen(v, e)
  {
    match e
    case HoldAsked => true
    case Expires(_) => true
    case Callback(t) => v.running[t] != c
    case StartupBegins => true
    case Triggered(_, _) => true
    case Registers => true
    case StateSet(registered) => registered
    case _ => false
  }

  ghost predicate LeaveHold(v: Net, events: seq<Event>, c: Conn)
    requires CanRun(v, events)
    decreases |events|
  {
    events == [] || (LeavesHold(v, events[0], c) && LeaveHold(Happen(v, events[0]), events[1..], c))
  }

  lemma {:induction false} HeldGateIssuesNothing(v: Net, events: seq<Event>, c: Conn)
    requires CanRun(v, events) && LeaveHold(v, events, c)
    requires Active(v, c) && HeldFor(v, c)
    ensures var t := RunAll(v, events);
            Active(t, c) && HeldFor(t, c) && Issued(v, events) == [] && (PendingFor(v, c) ==> PendingFor(t, c))
    decreases |events|
  {
    if events != [] {
      HeldGateIssuesNothing(Happen(v, events[0]), events[1..], c);
    }
  }

  /** A trigger queued behind a held gate, on a connection that stays registered, waits
      through whatever else happens; the first release or timeout flushes it, once. */
  lemma QueuedTriggerIsFlushedOnce(v: Net, waiting: seq<Event>, last: Event, c: Conn)
    requires Active(v, c) && HeldFor(v, c) && PendingFor(v, c)
    requires CanRun(v, waiting) && LeaveHold(v, waiting, c)
    requires last.ReleaseAsked? || (last.Callback? && last.t in RunAll(v, waiting).running
      && RunAll(v, waiting).running[last.t] == c)
    ensures var u := RunAll(v, waiting);
      && Issued(v, waiting) == []
      && Issues(u, last) == Some(c)
      && !PendingFor(Happen(u, last), c)
      && (forall again :: CanHappen(Happen(u, last), again) && (again.ReleaseAsked? || again.Callback?) ==>
            Issues(Happen(u, last), again) == None)
  {
    HeldGateIssuesNothing(v, waiting, c);
  }

  // --- How long a hold lasts ---

  /** Among steps that neither release nor drop the connection, a hold ends exactly
      when a timer callback set for this connection runs. */
  predicate Waits(e: Event) {
    e.HoldAsked? || e.Expires? || e.Callback? || e.StartupBegins? || e.Triggered? || e.Registers? || e.StateSet?
  }

  ghost predicate CallbackRuns(v: Net, events: seq<Event>, c: Conn)
    requires CanRun(v, events)
    decreases |events|
  {
    events != [] &&
    ((events[0].Callback? && v.running[events[0].t] == c) || CallbackRuns(Happen(v, events[0]), events[1..], c))
  }

  lemma {:induction false} HoldStandsIff(v: Net, events: seq<Event>, c: Conn)
    requires CanRun(v, events) && HeldFor(v, c)
    requires forall e :: e in events ==> Waits(e) && !e.HoldAsked?
    ensures HeldFor(RunAll(v, events), c) <==> !CallbackRuns(v, events, c)
    decreases |events|
  {
    if events != [] {
      var u := Happen(v, events[0]);
      if HeldFor(u, c) {
        HoldStandsIff(u, events[1..], c);
      } else {
        StaysReleased(u, events[1..], c);
      }
    }
  }

  lemma {:induction false} StaysReleased(v: Net, events: seq<Event>, c: Conn)
    requires CanRun(v, events) && !HeldFor(v, c)
    requires forall e :: e in events ==> Waits(e) && !e.HoldAsked?
    ensures !HeldFor(RunAll(v, events), c)
    decreases |events|
  {
    if events != [] {
      StaysReleased(Happen(v, events[0]), events[1..], c);
    }
  }

  /** No timer of connection c but `own` is armed, and none has expired. */
  ghost predicate OnlyTimer(v: Net, c: Conn, own: nat) {
    && (forall t :: t in v.armed && v.armed[t] == c ==> t == own)
    && (forall t :: t in v.running ==> v.running[t] != c)
  }

  /** Nothing releases the hold, drops its connection or runs out its own timer. */
  ghost predicate Undisturbed(v: Net, events: seq<Event>, own: nat) {
    CanRun(v, events) && forall e :: e in events ==> Waits(e) && !e.HoldAsked? && e != Expires(own)
  }

  ghost predicate Lasts(v: Net, c: Conn, own: nat) {
    forall events :: Undisturbed(v, events, own) ==> HeldFor(RunAll(v, events), c)
  }

  /** A new hold is sure to stand until its own timer expires, or a release, a disconnect
      or a new connection comes, if and only if no other timer of the connection is
      armed then and none has expired before. */
  lemma HoldLastsItsTimeIff(v: Net, c: Conn)
    requires v.conn == Some(c)
    ensures Lasts(Hold(v), c, v.next) <==> OnlyTimer(Hold(v), c, v.next)
  {
    var u := Hold(v);
    if OnlyTimer(u, c, v.next) {
      forall events | Undisturbed(u, events, v.next)
        ensures HeldFor(RunAll(u, events), c)
      {
        NoCallback(u, events, c, v.next);
        HoldStandsIff(u, events, c);
      }
    } else if t :| t in u.running && u.running[t] == c {
      CallbackEnds(u, t, c, v.next);
    } else {
      var t :| t in u.armed && u.armed[t] == c && t != v.next;
      ExpiryEnds(u, t, c, v.next);
    }
  }

  lemma CallbackEnds(u: Net, t: nat, c: Conn, own: nat)
    requires t in u.running && u.running[t] == c
    ensures Undisturbed(u, [Callback(t)], own) && !HeldFor(RunAll(u, [Callback(t)]), c)
  {
    assert [Callback(t)][1..] == [];
    assert CanRun(Happen(u, Callback(t)), []);
  }

  lemma ExpiryEnds(u: Net, t: nat, c: Conn, own: nat)
    requires t in u.armed && u.armed[t] == c && t != own
    ensures var events := [Expires(t), Callback(t)]; Undisturbed(u, events, own) && !HeldFor(RunAll(u, events), c)
  {
    assert [Expires(t), Callback(t)][1..] == [Callback(t)];
    CallbackEnds(Happen(u, Expires(t)), t, c, own);
  }

  lemma {:induction false} NoCallback(v: Net, events: seq<Event>, c: Conn, own: nat)
    requires CanRun(v, events) && OnlyTimer(v, c, own)
    requires forall e :: e in events ==> Waits(e) && !e.HoldAsked? && e != Expires(own)
    ensures !CallbackRuns(v, events, c)
    decreases |events|
  {
    if events != [] {
      NoCallback(Happen(v, events[0]), events[1..], c, own);
    }
  }

  /** Otherwise it may not: stopping a timer that has already expired does nothing, so
      its callback ends the hold that was to replace it, whose own timer then still
      runs. */
  lemma ExpiredTimerEndsALaterHold(v: Net, t: nat, c: Conn)
    requires v.conn == Some(c) && t in v.running && v.running[t] == c
    ensures var events := [HoldAsked, Callback(t)];
      CanRun(v, events) && HeldFor(Hold(v), c) && !HeldFor(RunAll(v, events), c) && v.next in RunAll(v, events).armed
  {
    var u := Hold(v);
    assert [HoldAsked, Callback(t)][1..] == [Callback(t)] && [Callback(t)][1..] == [];
    assert CanRun(Happen(u, Callback(t)), []);
    assert CanRun(u, [Callback(t)]);
    assert RunAll(u, [Callback(t)]) == Happen(u, Callback(t));
  }

  /** Such a state is reached from the start. */
  lemma ExpiredTimerIsReached(c: Conn)
    ensures var events := [Replaced(c), HoldAsked, Expires(0)];
      CanRun(START, events) && var v := RunAll(START, events); v.conn == Some(c) && 0 in v.running && v.running[0] == c
  {
    var a, b := Happen(START, Replaced(c)), Hold(Happen(START, Replaced(c)));
    assert [Replaced(c), HoldAsked, Expires(0)][1..] == [HoldAsked, Expires(0)];
    assert [HoldAsked, Expires(0)][1..] == [Expires(0)] && [Expires(0)][1..] == [];
    assert CanRun(Happen(b, Expires(0)), []);
    assert CanRun(b, [Expires(0)]);
    assert CanRun(a, [HoldAsked, Expires(0)]);
    assert RunAll(b, [Expires(0)]) == Happen(b, Expires(0));
    assert RunAll(a, [HoldAsked, Expires(0)]) == Happen(b, Expires(0));
  }

  // --- The gate in place ---

  /** internal/core/engine.go's fields for the network, changed under its lock. */
  class Engine {
    var conn: Option<Conn>
    var registered: bool
    var startup: nat
    var gate: Option<Gate>
    var armed: map<nat, Conn>
    var running: map<nat, Conn>
    var next: nat

    constructor ()
      ensures View() == START
    {
      conn, registered, startup, gate, armed, running, next := None, false, 0, None, map[], map[], 0;
    }

    function View(): Net
      reads this
    {
      Net(conn, registered, startup, gate, armed, running, next)
    }

    method StopTimer(t: Option<nat>)
      modifies this`armed
      ensures armed == Stopped(old(armed), t)
    {
      if t.Some? {
        armed := armed - {t.value};
      }
    }

    method HoldJoins() returns (ok: bool)
      modifies this`gate, this`armed, this`next
      ensures ok == conn.Some? && View() == Hold(old(View()))
    {
      if conn == None {
        return false;
      }
      var c := conn.value;
      var g := if gate.Some? then gate.value else Gate(false, false, c, None);
      if g.conn != c {
        StopTimer(g.timer);
        g := Gate(g.held, false, c, None);
      }
      StopTimer(g.timer);
      armed := armed[next := c];
      gate := Some(Gate(true, g.pending, c, Some(next)));
      next := next + 1;
      return true;
    }

    /** The connection to autojoin once the lock is free, if any. */
    method ReleaseJoins() returns (autojoin: Option<Conn>)
      modifies this`gate, this`armed
      ensures View() == Release(old(View())) && autojoin == Issues(old(View()), ReleaseAsked)
    {
      if gate == None {
        return None;
      }
      var g := gate.value;
      StopTimer(g.timer);
      g := g.(held := false, timer := None);
      if g.pending && conn == Some(g.conn) && registered {
        g := g.(pending := false);
        autojoin := conn;
      } else {
        autojoin := None;
      }
      gate := Some(g);
    }

    method AutoReleaseJoins(c: Conn) returns (autojoin: Option<Conn>)
      modifies this`gate
      ensures View() == AutoRelease(old(View()), c)
      ensures autojoin == if AutoReleaseFlushes(old(View()), c) then Some(c) else None
    {
      if gate == None || !gate.value.held || gate.value.conn != c {
        return None;
      }
      autojoin := if gate.value.pending && registered && conn == Some(c) then Some(c) else None;
      gate := Some(gate.value.(held := false, timer := None, pending := false));
    }

    method TriggerAutojoinOrQueue(n: nat, c: Conn) returns (autojoin: Option<Conn>)
      modifies this`gate
      ensures View() == Trigger(old(View()), n, c) && autojoin == Issues(old(View()), Triggered(n, c))
    {
      if !(registered && conn == Some(c) && startup == n) {
        return None;
      }
      if gate.Some? && gate.value.held && gate.value.conn == c {
        gate := Some(gate.value.(pending := true));
        return None;
      }
      return Some(c);
    }

    method ResetJoinGate()
      modifies this`gate, this`armed
      ensures View() == Reset(old(View()))
    {
      if gate.Some? {
        StopTimer(gate.value.timer);
        gate := None;
      }
    }
  }
}
