/** What the server does to a session, as a run of that session alone: claim safety and
    delivery are about the same histories. Whatever frames, link ends and takeovers the
    server goes through, each session it holds went through a run of SessionRun, so all
    that SessionTheorems proves holds of it. */
module ClaimHistories {
  import opened GoStrings
  import opened Buffer
  import opened SessionSpec
  import opened SessionRun
  import opened SessionTheorems
  import opened Claims

  // --- What a step of the server is to one session ---

  /** The step ends session sid for good: it is closed and leaves the indexes. */
  predicate Forgets(v: Registry, e: Event, sid: nat)
    requires Claims.Known(v, sid)
  {
    var s := v.heap[sid].s;
    match e
    case Forgotten(i) => i == sid
    case ConnectCame(l, id, handle, fp) =>
      && id != "" && handle != "" && handle !in v.byHandle && l in v.links
      && Key(v.links[l].instance, id) in v.sessions && v.sessions[Key(v.links[l].instance, id)] == sid
      && !HeldByNewer(v, l, sid) && !(Reusable(s) && v.heap[sid].fp == fp)
    case DetachCame(l, h) => h in v.byHandle && v.byHandle[h] == sid && s.handle == h && s.link == Some(l)
      && s.conn.Closed?
    case LinkGone(l, held) => sid in held && s.link == Some(l) && s.conn.Closed?
    case _ => false
  }

  function StepsOfOp(s: State, op: Local): seq<Step> {
    match op
    case Dialed => [Dial]
    case Ended(reason) => [Fail(reason)]
    case Came(raw, at, _) => [Receive(raw, at)]
    case Shed => [ShedGlobally]
    case Pulled(limit) => if s.link.Some? then [Send(limit)] else []
    case Acked(h, n) => [Acknowledge(h, n)]
  }

  /** The steps of SessionRun that a step of the server amounts to for session sid. */
  function StepsOf(v: Registry, e: Event, sid: nat): seq<Step>
    requires Claims.Known(v, sid)
  {
    match e
    case ConnectCame(l, id, handle, fp) => if Reattaches(v, l, id, handle, fp, sid) then [Claim(l, handle)] else []
    case DetachCame(l, h) =>
      if h in v.byHandle && v.byHandle[h] == sid && v.heap[sid].s.handle == h then [Step.Release(l)] else []
    case CloseCame(l, id, h) => if CloseAccepted(v, l, id, h, sid) then [CloseRequest(l, h)] else []
    case CloseEnds(i) => if i == sid then [Fail("closed by stugan")] else []
    case LinkGone(l, held) => if sid in held then [Step.Release(l)] else []
    case OnItsOwn(i, op) => if i == sid then StepsOfOp(v.heap[sid].s, op) else []
    case _ => []
  }

  /** A line that came in is no longer than the reader lets through, and is charged
      against the session's own cap. */
  predicate Fair(e: Event, cap: nat) {
    e.OnItsOwn? && e.op.Came? ==> e.op.cap == cap && |e.op.raw| <= MAX_LINE_BYTES + 1
  }

  function HandlesOf(e: Event): set<string> { if e.ConnectCame? then {e.handle} else {} }

  /** r is a history of session sid, on claims with these handles. */
  ghost predicate Shadows(r: Run, v: Registry, sid: nat, used: set<string>) {
    Claims.Known(v, sid) && r.s == v.heap[sid].s && r.s.handle in r.out && r.out.Keys <= used
  }

  lemma OneStep(r: Run, step: Step)
    requires Enabled(r, step)
    ensures Possible(r, [step]) && Execute(r, [step]) == Next(r, step)
  {
    hide Enabled, Next;
    assert [step][1..] == [];
  }

  lemma NoStep(r: Run)
    ensures Possible(r, []) && Execute(r, []) == r
  {}

  /** What a run's step keeps of its claims. */
  lemma StepClaims(r: Run, step: Step)
    requires Enabled(r, step) && r.s.handle in r.out
    ensures var t := Next(r, step);
      && t.s.handle in t.out && t.cap == r.cap
      && t.out.Keys == r.out.Keys + (if step.Claim? then {step.handle} else {})
  {
    match step
    case Receive(raw, at) => ReceiveClaims(r, raw, at);
    case Send(limit) => hide PullFrames, Pull; PullKeeps(r.s, limit);
    case _ => hide ReplayBurst, Above, Recent, Classify;
  }

  lemma PullKeeps(s: State, limit: nat)
    ensures Pull(s, limit).handle == s.handle
  {
    hide SentAfter, ClosesNow;
  }

  lemma {:induction false} ShedClaims(r: Run)
    ensures var t := ShedRun(r); t.s.handle == r.s.handle && t.out == r.out && t.cap == r.cap
    decreases |r.s.buf|
  {
    if Cost(r.s.buf) > r.cap && |r.s.buf| > 1 {
      ShedClaims(DropOne(r));
    }
  }

  lemma ReceiveClaims(r: Run, raw: string, at: int)
    requires Enabled(r, Receive(raw, at))
    ensures var t := Next(r, Receive(raw, at)); t.s.handle == r.s.handle && t.out == r.out && t.cap == r.cap
  {
    hide Track, Classify;
    var c := Classify(raw);
    if c.Relayed? {
      ShedClaims(Appended(r, c.line, raw, at));
    }
  }

  // --- One step of the server ---

  lemma OpFollows(r: Run, op: Local)
    requires r.s.handle in r.out && Fair(OnItsOwn(0, op), r.cap)
    ensures var steps := StepsOfOp(r.s, op);
      && Possible(r, steps) && Execute(r, steps).s == Apply(r.s, op)
      && Execute(r, steps).s.handle in Execute(r, steps).out && Execute(r, steps).cap == r.cap
      && Execute(r, steps).out.Keys == r.out.Keys
  {
    hide Possible, Execute;
    match op
    case Dialed => FollowOne(r, Dial);
    case Ended(reason) => FollowOne(r, Fail(reason));
    case Came(raw, at, _) => FollowOne(r, Receive(raw, at)); ReceiveFollows(r, raw, at);
    case Shed => FollowOne(r, ShedGlobally);
    case Pulled(limit) =>
      if r.s.link.Some? {
        FollowOne(r, Send(limit));
      } else {
        NoStep(r);
      }
    case Acked(h, n) => FollowOne(r, Acknowledge(h, n));
  }

  lemma FollowOne(r: Run, step: Step)
    requires Enabled(r, step) && r.s.handle in r.out
    ensures Possible(r, [step]) && Execute(r, [step]) == Next(r, step)
    ensures var t := Next(r, step);
      && t.s.handle in t.out && t.cap == r.cap
      && t.out.Keys == r.out.Keys + (if step.Claim? then {step.handle} else {})
  {
    hide *;
    OneStep(r, step);
    StepClaims(r, step);
  }

  lemma {:induction false} DropAllIs(v: Registry, l: Link, held: seq<nat>, sid: nat)
    requires Claims.Known(v, sid) && !(sid in held && v.heap[sid].s.link == Some(l) && v.heap[sid].s.conn.Closed?)
    ensures Claims.Known(DropAll(v, l, held), sid)
    ensures DropAll(v, l, held).heap[sid].s == if sid in held then Detach(v.heap[sid].s, l) else v.heap[sid].s
    decreases |held|
  {
    if held != [] {
      var u := if Claims.Known(v, held[0]) then LetGo(v, l, held[0]) else v;
      LetGoIs(v, l, held[0], sid);
      hide LetGo;
      DropAllIs(u, l, held[1..], sid);
      assert sid in held <==> sid == held[0] || sid in held[1..];
    }
  }

  lemma LetGoIs(v: Registry, l: Link, i: nat, sid: nat)
    requires Claims.Known(v, sid) && !(i == sid && v.heap[sid].s.link == Some(l) && v.heap[sid].s.conn.Closed?)
    ensures var u := if Claims.Known(v, i) then LetGo(v, l, i) else v;
      Claims.Known(u, sid) && u.heap[sid].s == if i == sid then Detach(v.heap[sid].s, l) else v.heap[sid].s
  {}

  lemma ConnectIs(v: Registry, l: Link, id: string, handle: string, fp: string, sid: nat)
    requires CanHappen(v, ConnectCame(l, id, handle, fp)) && Claims.Known(v, sid)
    requires !Forgets(v, ConnectCame(l, id, handle, fp), sid)
    ensures var u := Connect(v, l, id, handle, fp);
      && Claims.Known(u, sid)
      && u.heap[sid].s ==
           if Reattaches(v, l, id, handle, fp, sid) then Attach(v.heap[sid].s, l, handle) else v.heap[sid].s
  {
    hide Attach, Reusable, HeldByNewer;
  }

  /** Every step of the server that does not forget session sid is to it what its steps
      of SessionRun are. */
  lemma StepFollows(r: Run, v: Registry, e: Event, sid: nat, used: set<string>)
    requires Shadows(r, v, sid, used) && CanHappen(v, e) && Fair(e, r.cap)
    requires !Forgets(v, e, sid) && HandlesOf(e) !! used
    ensures var steps := StepsOf(v, e, sid);
      && Possible(r, steps)
      && Shadows(Execute(r, steps), Happen(v, e), sid, used + HandlesOf(e)) && Execute(r, steps).cap == r.cap
  {
    hide Happen, CanHappen, Forgets, Fair, Possible, Execute, StepsOf, Shadows;
    if e.ConnectCame? {
      ConnectFollows(r, v, e, sid, used);
    } else if e.DetachCame? || e.CloseCame? || e.LinkGone? {
      LinkFollows(r, v, e, sid, used);
    } else {
      SessionFollows(r, v, e, sid, used);
    }
  }

  lemma ConnectFollows(r: Run, v: Registry, e: Event, sid: nat, used: set<string>)
    requires Shadows(r, v, sid, used) && CanHappen(v, e) && e.ConnectCame?
    requires !Forgets(v, e, sid) && HandlesOf(e) !! used
    ensures var steps := StepsOf(v, e, sid);
      && Possible(r, steps)
      && Shadows(Execute(r, steps), Happen(v, e), sid, used + HandlesOf(e)) && Execute(r, steps).cap == r.cap
  {
    hide Possible, Execute, Connect, Attach, Reusable, HeldByNewer, Key, Recent;
    NoStep(r);
    ConnectIs(v, e.l, e.id, e.handle, e.fp, sid);
    if Reattaches(v, e.l, e.id, e.handle, e.fp, sid) {
      FollowOne(r, Claim(e.l, e.handle));
      ClaimIs(r, e.l, e.handle);
    }
  }

  lemma LinkFollows(r: Run, v: Registry, e: Event, sid: nat, used: set<string>)
    requires Shadows(r, v, sid, used) && CanHappen(v, e) && (e.DetachCame? || e.CloseCame? || e.LinkGone?)
    requires !Forgets(v, e, sid) && HandlesOf(e) !! used
    ensures var steps := StepsOf(v, e, sid);
      && Possible(r, steps)
      && Shadows(Execute(r, steps), Happen(v, e), sid, used + HandlesOf(e)) && Execute(r, steps).cap == r.cap
  {
    hide Possible, Execute, DropAll, Forget, DetachFrame, CloseFrame, Key;
    NoStep(r);
    match e
    case DetachCame(l, h) =>
      DetachIs(v, l, h, sid);
      FollowOne(r, Step.Release(l));
    case CloseCame(l, id, h) =>
      CloseIs(v, l, id, h, sid);
      if CloseAccepted(v, l, id, h, sid) {
        FollowOne(r, CloseRequest(l, h));
      }
    case LinkGone(l, held) =>
      DropAllIs(v, l, held, sid);
      FollowOne(r, Step.Release(l));
  }

  lemma SessionFollows(r: Run, v: Registry, e: Event, sid: nat, used: set<string>)
    requires Shadows(r, v, sid, used) && CanHappen(v, e) && Fair(e, r.cap)
      && !(e.ConnectCame? || e.DetachCame? || e.CloseCame? || e.LinkGone?)
    requires !Forgets(v, e, sid) && HandlesOf(e) !! used
    ensures var steps := StepsOf(v, e, sid);
      && Possible(r, steps)
      && Shadows(Execute(r, steps), Happen(v, e), sid, used + HandlesOf(e)) && Execute(r, steps).cap == r.cap
  {
    hide Possible, Execute, Forget, Apply, StepsOfOp;
    NoStep(r);
    match e
    case CloseEnds(i) => FollowOne(r, Fail("closed by stugan"));
    case OnItsOwn(i, op) =>
      if i == sid {
        OpFollows(r, op);
      }
    case Forgotten(i) => ForgetsAnother(v, i, sid);
    case Hello(_, _, _) =>
  }

  lemma ClaimIs(r: Run, l: Link, handle: string)
    requires Enabled(r, Claim(l, handle))
    ensures Next(r, Claim(l, handle)).s == Attach(r.s, l, handle)
  {
    hide Attach;
  }

  lemma ForgetsAnother(v: Registry, i: nat, sid: nat)
    requires Claims.Known(v, i) && Claims.Known(v, sid) && i != sid
    ensures Claims.Known(Forget(v, i), sid) && Forget(v, i).heap[sid] == v.heap[sid]
  {}

  lemma DetachIs(v: Registry, l: Link, h: string, sid: nat)
    requires Claims.Known(v, sid) && !Forgets(v, DetachCame(l, h), sid)
    ensures var u, s := DetachFrame(v, l, h), v.heap[sid].s;
      && Claims.Known(u, sid)
      && u.heap[sid].s == if h in v.byHandle && v.byHandle[h] == sid && s.handle == h then Detach(s, l) else s
  {}

  lemma CloseIs(v: Registry, l: Link, id: string, h: string, sid: nat)
    requires Claims.Known(v, sid) && l in v.links
    ensures var u, s := CloseFrame(v, l, id, h), v.heap[sid].s;
      && Claims.Known(u, sid)
      && u.heap[sid].s == if CloseAccepted(v, l, id, h, sid) then RequestClose(s, l) else s
  {}

  // --- Whole runs of the server ---

  /** Every connect of the run comes with a handle no connect had before. */
  predicate OwnHandles(events: seq<Event>, used: set<string>)
    decreases |events|
  {
    events == [] || (HandlesOf(events[0]) !! used && OwnHandles(events[1..], used + HandlesOf(events[0])))
  }

  /** Session sid is forgotten by no step of the run. */
  ghost predicate Stays(v: Registry, events: seq<Event>, sid: nat)
    requires CanRun(v, events)
    decreases |events|
  {
    events == [] ||
    ((Claims.Known(v, sid) ==> !Forgets(v, events[0], sid)) && Stays(Happen(v, events[0]), events[1..], sid))
  }

  ghost predicate AllFair(events: seq<Event>, cap: nat) { forall e :: e in events ==> Fair(e, cap) }

  lemma {:induction false} Then(r: Run, a: seq<Step>, b: seq<Step>)
    requires Possible(r, a) && Possible(Execute(r, a), b)
    ensures Possible(r, a + b) && Execute(r, a + b) == Execute(Execute(r, a), b)
    decreases |a|
  {
    hide Enabled, Next;
    if a == [] {
      assert a + b == b;
    } else {
      Then(Next(r, a[0]), a[1..], b);
      assert (a + b)[0] == a[0] && (a + b)[1..] == a[1..] + b;
    }
  }

  lemma {:induction false} RunFollows(r: Run, v: Registry, events: seq<Event>, sid: nat, used: set<string>)
    returns (steps: seq<Step>)
    requires Shadows(r, v, sid, used) && CanRun(v, events) && Stays(v, events, sid)
    requires AllFair(events, r.cap) && OwnHandles(events, used)
    ensures Possible(r, steps) && Claims.Known(RunAll(v, events), sid)
    ensures Execute(r, steps).s == RunAll(v, events).heap[sid].s
    decreases |events|
  {
    hide Happen, CanHappen, Possible, Execute, Fair, StepsOf, Forgets;
    if events == [] {
      steps := [];
      NoStep(r);
    } else {
      var e := events[0];
      var now := StepsOf(v, e, sid);
      StepFollows(r, v, e, sid, used);
      var later := RunFollows(Execute(r, now), Happen(v, e), events[1..], sid, used + HandlesOf(e));
      Then(r, now, later);
      steps := now + later;
    }
  }

  lemma {:induction false} DropAllSize(v: Registry, l: Link, held: seq<nat>)
    ensures |DropAll(v, l, held).heap| == |v.heap|
    decreases |held|
  {
    if held != [] {
      var u := if Claims.Known(v, held[0]) then LetGo(v, l, held[0]) else v;
      LetGoSize(v, l, held[0]);
      hide LetGo;
      DropAllSize(u, l, held[1..]);
    }
  }

  lemma LetGoSize(v: Registry, l: Link, i: nat)
    ensures Claims.Known(v, i) ==> |LetGo(v, l, i).heap| == |v.heap|
  {}

  /** A session comes into being by a connect that dials. */
  lemma BirthIs(v: Registry, e: Event, sid: nat)
    requires CanHappen(v, e) && !Claims.Known(v, sid) && Claims.Known(Happen(v, e), sid)
    ensures e.ConnectCame? && Happen(v, e).heap[sid].s == New(e.l, e.handle)
  {
    match e
    case LinkGone(l, held) => DropAllSize(v, l, held);
    case _ => hide Attach, Reusable, Apply, New;
  }

  ghost predicate IsRun(s: State, cap: nat, link: Link, handle: string, steps: seq<Step>) {
    Possible(Init(cap, link, handle), steps) && Outcome(cap, link, handle, steps).s == s
  }

  ghost predicate HasHistory(s: State, cap: nat) { exists link, handle, steps :: IsRun(s, cap, link, handle, steps) }

  lemma {:induction false} HistoryFrom(v: Registry, events: seq<Event>, sid: nat, cap: nat, used: set<string>)
    requires CanRun(v, events) && !Claims.Known(v, sid) && Claims.Known(RunAll(v, events), sid)
    requires Stays(v, events, sid) && AllFair(events, cap) && OwnHandles(events, used)
    ensures HasHistory(RunAll(v, events).heap[sid].s, cap)
    decreases |events|
  {
    hide Happen, CanHappen, Possible, Execute, Forgets, Fair, New;
    var e, u := events[0], Happen(v, events[0]);
    if Claims.Known(u, sid) {
      BirthIs(v, e, sid);
      var r := Init(cap, e.l, e.handle);
      Newborn(r, u, sid, cap, e.l, e.handle, used);
      var steps := RunFollows(r, u, events[1..], sid, used + HandlesOf(e));
      assert IsRun(RunAll(v, events).heap[sid].s, cap, e.l, e.handle, steps);
    } else {
      HistoryFrom(u, events[1..], sid, cap, used + HandlesOf(e));
    }
  }

  lemma Newborn(r: Run, u: Registry, sid: nat, cap: nat, link: Link, handle: string, used: set<string>)
    requires r == Init(cap, link, handle) && Claims.Known(u, sid) && u.heap[sid].s == New(link, handle)
    ensures Shadows(r, u, sid, used + {handle}) && r.cap == cap
  {}

  /** In every reachable state of the server, a session it has not forgotten has gone
      through a run of SessionRun from the connect that dialled it: the theorems about
      such runs are about the sessions the claims protect. */
  lemma EverySessionIsARun(events: seq<Event>, sid: nat, cap: nat)
    requires CanRun(EMPTY, events) && Claims.Known(RunAll(EMPTY, events), sid)
    requires Stays(EMPTY, events, sid) && AllFair(events, cap) && OwnHandles(events, {})
    ensures HasHistory(RunAll(EMPTY, events).heap[sid].s, cap)
  {
    HistoryFrom(EMPTY, events, sid, cap, {});
  }

  /** So its backlog is made of consecutive lines up to the last it numbered, all above
      what was acked, and within its cap. */
  lemma HeldBacklogIsTheTail(events: seq<Event>, sid: nat, cap: nat)
    requires CanRun(EMPTY, events) && Claims.Known(RunAll(EMPTY, events), sid)
    requires Stays(EMPTY, events, sid) && AllFair(events, cap) && OwnHandles(events, {})
    ensures var s := RunAll(EMPTY, events).heap[sid].s;
      && |s.buf| <= s.last - s.acked
      && (forall i :: 0 <= i < |s.buf| ==> s.buf[i].id == s.last - |s.buf| + 1 + i)
      && (cap >= MIN_BUFFER_BYTES ==> Cost(s.buf) <= cap)
  {
    hide HasHistory, RunAll, CanRun, Stays, AllFair, OwnHandles, Cost;
    EverySessionIsARun(events, sid, cap);
    TailOfHistory(RunAll(EMPTY, events).heap[sid].s, cap);
  }

  lemma TailOfHistory(s: State, cap: nat)
    requires HasHistory(s, cap)
    ensures |s.buf| <= s.last - s.acked
    ensures forall i :: 0 <= i < |s.buf| ==> s.buf[i].id == s.last - |s.buf| + 1 + i
    ensures cap >= MIN_BUFFER_BYTES ==> Cost(s.buf) <= cap
  {
    hide Possible, Execute, Cost;
    var link, handle, steps :| IsRun(s, cap, link, handle, steps);
    BacklogIsTheTail(cap, link, handle, steps);
    CapStays(Init(cap, link, handle), steps);
  }

  lemma {:induction false} CapStays(r: Run, steps: seq<Step>)
    requires Possible(r, steps) && r.s.handle in r.out
    ensures Execute(r, steps).cap == r.cap
    decreases |steps|
  {
    hide Enabled, Next;
    if steps != [] {
      StepClaims(r, steps[0]);
      CapStays(Next(r, steps[0]), steps[1..]);
    }
  }
}
