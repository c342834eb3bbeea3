/** A run of the relay in which a line goes all the way: off the socket, over the link,
    through the handlers and the event loop, and back as an ack the engine takes. The
    invariants of RelayTheorems speak of such runs. */
module AckRun {
  import opened GoStrings
  import opened IrcLine
  import opened Buffer
  import opened SessionSpec
  import opened SessionRun
  import opened SessionTheorems
  import opened Relay
  import opened RelayTheorems

  // --- Runs put together ---

  lemma Three(w: World, e: Event, f: Event, g: Event)
    requires CanHappen(w, e) && CanHappen(Happen(w, e), f) && CanHappen(Happen(Happen(w, e), f), g)
    ensures CanRun(w, [e, f, g]) && RunWorld(w, [e, f, g]) == Happen(Happen(Happen(w, e), f), g)
  {
    hide CanHappen, Happen;
    var u, v := Happen(w, e), Happen(Happen(w, e), f);
    assert [e, f, g][1..] == [f, g] && [f, g][1..] == [g] && [g][1..] == [];
    assert CanRun(Happen(v, g), []) && RunWorld(Happen(v, g), []) == Happen(v, g);
    assert CanRun(v, [g]) && RunWorld(v, [g]) == Happen(v, g);
    assert CanRun(u, [f, g]) && RunWorld(u, [f, g]) == Happen(v, g);
  }

  lemma {:induction false} RunOn(w: World, a: seq<Event>, b: seq<Event>)
    requires CanRun(w, a) && CanRun(RunWorld(w, a), b)
    ensures CanRun(w, a + b) && RunWorld(w, a + b) == RunWorld(RunWorld(w, a), b)
    decreases |a|
  {
    hide CanHappen, Happen;
    if a == [] {
      assert a + b == b;
    } else {
      RunOn(Happen(w, a[0]), a[1..], b);
      assert (a + b)[0] == a[0] && (a + b)[1..] == a[1..] + b;
    }
  }

  // --- The engine's side ---

  function Arriving(raw: string, at: int): seq<Event> {
    [Engine(Dial), Engine(Receive(raw, at)), Engine(Send(1))]
  }

  /** The engine's run once the line is written to the first claim. */
  ghost predicate HasWritten(r: Run, h: string, raw: string, at: int) {
    && h in r.out && r.out[h] == [Opened(h), LineFrame(h, 1, at, raw)]
    && r.s.handles == [h] && r.s.last == 1 && r.s.acked == 0 && r.s.buf == [BufferedLine(1, at, raw)]
  }

  lemma OneLineStays(r: Run, l: Line, raw: string, at: int)
    requires r.s.buf == []
    ensures ShedRun(Appended(r, l, raw, at)) == Appended(r, l, raw, at)
  {
    hide Track, Cost;
  }

  lemma WritesOne(r: Run, h: string, raw: string, at: int)
    requires r.s.link.Some? && r.s.handle == h && h in r.out && r.out[h] == []
    requires r.s.buf == [BufferedLine(1, at, raw)] && r.s.sent == 0 && r.s.conn.Open? && r.s.ctrl == [Opened(h)]
    ensures Enabled(r, Send(1))
    ensures Next(r, Send(1)).out == r.out[h := [Opened(h), LineFrame(h, 1, at, raw)]]
    ensures var s := Next(r, Send(1)).s;
      s.handles == r.s.handles && s.last == r.s.last && s.acked == r.s.acked && s.buf == r.s.buf
  {
    assert r.s.buf[1..] == [];
    assert Above(r.s.buf, 0) == r.s.buf;
    assert Batch(r.s, 1) == r.s.buf;
    hide Batch, Above, SentAfter;
    var fs := LineFrames(h, r.s.buf);
    assert fs == [LineFrame(h, 1, at, raw)];
    assert PullFrames(r.s, 1) == [Opened(h), LineFrame(h, 1, at, raw)] by {
      assert !ClosesNow(r.s, 1);
      assert [Opened(h)] + fs + [] == [Opened(h), LineFrame(h, 1, at, raw)];
    }
    assert r.out[h] + PullFrames(r.s, 1) == PullFrames(r.s, 1);
  }

  lemma Arrives(cap: nat, link: Link, h: string, pid: Pid, raw: string, at: int)
    requires Classify(raw).Relayed? && |raw| <= MAX_LINE_BYTES
    ensures var w := Start(cap, link, h, pid);
      && CanRun(w, Arriving(raw, at))
      && var r := RunWorld(w, Arriving(raw, at)).run;
      && HasWritten(r, h, raw, at) && RunWorld(w, Arriving(raw, at)) ==
        Side(r, h, pid, NewClaim(pid), Proc([], 0, true))
  {
    hide Classify, Track, CanRun, RunWorld, Pull;
    var r := Init(cap, link, h);
    var l := Classify(raw).line;
    var open := r.(s := DialOk(r.s));
    var taken := Appended(open, l, raw, at);
    OneLineStays(open, l, raw, at);
    WritesOne(taken, h, raw, at);
    Three(Start(cap, link, h, pid), Engine(Dial), Engine(Receive(raw, at)), Engine(Send(1)));
  }

  // --- The process's side ---

  function Side(r: Run, h: string, pid: Pid, c: AppClaim, p: Proc): World { World(r, map[h := c], map[pid := p]) }

  function Claimed(pid: Pid, inbox: Inbox, acks: Acks): AppClaim { AppClaim(pid, 2, false, false, false, inbox, acks) }

  const NO_ACKS := Acks(0, 0, 0, [], 0, 0)
  const READ_ONE := Inbox([LineEntry(1)], 1, 0, false, 1, 0, 0, 0)
  const HANDLED_ONE := Inbox([LineEntry(1)], 1, 1, false, 1, 0, 1, 0)
  const VOUCHED := Inbox([LineEntry(1), Probe(1)], 2, 2, false, 1, 1, 1, 1)

  lemma IsRead(r: Run, h: string, pid: Pid, raw: string, at: int)
    requires HasWritten(r, h, raw, at)
    ensures var w, events := Side(r, h, pid, NewClaim(pid), Proc([], 0, true)), [Dispatch(h), Dispatch(h), Read(h, 1)];
      CanRun(w, events) && RunWorld(w, events) == Side(r, h, pid, Claimed(pid, READ_ONE, NO_ACKS), Proc([], 0, true))
  {
    hide CanRun, RunWorld;
    var w := Side(r, h, pid, NewClaim(pid), Proc([], 0, true));
    var u := Side(r, h, pid, NewClaim(pid).(cursor := 1), Proc([], 0, true));
    assert Happen(w, Dispatch(h)) == u;
    assert [] + [LineEntry(1)] == [LineEntry(1)];
    var v := Side(r, h, pid, Claimed(pid, READ_ONE.(read := 0), NO_ACKS), Proc([], 0, true));
    assert Happen(u, Dispatch(h)) == v;
    Three(w, Dispatch(h), Dispatch(h), Read(h, 1));
  }

  lemma IsHandled(r: Run, h: string, pid: Pid)
    ensures var w, events := Side(r, h, pid, Claimed(pid, READ_ONE, NO_ACKS), Proc([], 0, true)),
      [Begin(h), Emit(h), End(h)];
      CanRun(w, events)
      && RunWorld(w, events) == Side(r, h, pid, Claimed(pid, HANDLED_ONE, NO_ACKS), Proc([LineEvent(h, 1)], 0, true))
  {
    hide CanRun, RunWorld, Next, Enabled, Dispatched, Flushed;
    var w := Side(r, h, pid, Claimed(pid, READ_ONE, NO_ACKS), Proc([], 0, true));
    assert [] + [LineEvent(h, 1)] == [LineEvent(h, 1)];
    Three(w, Begin(h), Emit(h), End(h));
  }

  lemma IsVouchedFor(r: Run, h: string, pid: Pid)
    ensures var p := Proc([LineEvent(h, 1)], 0, true);
      var w, events := Side(r, h, pid, Claimed(pid, HANDLED_ONE, NO_ACKS), p), [Read(h, 1), Begin(h), End(h)];
      CanRun(w, events) && RunWorld(w, events) == Side(r, h, pid, Claimed(pid, VOUCHED, NO_ACKS), p)
  {
    hide CanRun, RunWorld, Next, Enabled, Dispatched, Flushed;
    var w := Side(r, h, pid, Claimed(pid, HANDLED_ONE, NO_ACKS), Proc([LineEvent(h, 1)], 0, true));
    assert [LineEntry(1)] + [Probe(1)] == [LineEntry(1), Probe(1)];
    Three(w, Read(h, 1), Begin(h), End(h));
  }

  lemma IsCommitted(r: Run, h: string, pid: Pid)
    ensures var p := Proc([LineEvent(h, 1)], 0, true);
      var w, events := Side(r, h, pid, Claimed(pid, VOUCHED, NO_ACKS), p), [Tick(h), Commit(pid), Commit(pid)];
      && CanRun(w, events)
      && RunWorld(w, events) == Side(r, h, pid, Claimed(pid, VOUCHED, NO_ACKS.(queued := 1, pending := 1)),
                                     Proc([LineEvent(h, 1), Barrier(h, 1)], 2, true))
  {
    hide *;
    IsQueued(r, h, pid);
    EventIsDone(r, h, pid);
    BarrierIsDone(r, h, pid);
    Three(Side(r, h, pid, Claimed(pid, VOUCHED, NO_ACKS), Proc([LineEvent(h, 1)], 0, true)), Tick(h), Commit(pid),
      Commit(pid));
  }

  lemma IsQueued(r: Run, h: string, pid: Pid)
    ensures var w := Side(r, h, pid, Claimed(pid, VOUCHED, NO_ACKS), Proc([LineEvent(h, 1)], 0, true));
      && CanHappen(w, Tick(h))
      && Happen(w, Tick(h)) == Side(r, h, pid, Claimed(pid, VOUCHED, NO_ACKS.(queued := 1)),
                                    Proc([LineEvent(h, 1), Barrier(h, 1)], 0, true))
  {
    hide Next, Enabled, Dispatched, Flushed;
    assert [LineEvent(h, 1)] + [Barrier(h, 1)] == [LineEvent(h, 1), Barrier(h, 1)];
  }

  lemma EventIsDone(r: Run, h: string, pid: Pid)
    ensures var c, items := Claimed(pid, VOUCHED, NO_ACKS.(queued := 1)), [LineEvent(h, 1), Barrier(h, 1)];
      var w := Side(r, h, pid, c, Proc(items, 0, true));
      CanHappen(w, Commit(pid)) && Happen(w, Commit(pid)) == Side(r, h, pid, c, Proc(items, 1, true))
  {
    hide Next, Enabled, Dispatched, Flushed;
  }

  lemma BarrierIsDone(r: Run, h: string, pid: Pid)
    ensures var acks, items := NO_ACKS.(queued := 1), [LineEvent(h, 1), Barrier(h, 1)];
      var w := Side(r, h, pid, Claimed(pid, VOUCHED, acks), Proc(items, 1, true));
      && CanHappen(w, Commit(pid))
      && Happen(w, Commit(pid)) == Side(r, h, pid, Claimed(pid, VOUCHED, acks.(pending := 1)), Proc(items, 2, true))
  {
    hide Next, Enabled, Dispatched, Flushed;
  }

  lemma IsAcked(r: Run, h: string, pid: Pid, raw: string, at: int, p: Proc)
    requires HasWritten(r, h, raw, at) && p.alive
    ensures var w, events := Side(r, h, pid, Claimed(pid, VOUCHED, NO_ACKS.(queued := 1, pending := 1)), p),
      [Flush(h), TakeAck(h)];
      && CanRun(w, events)
      && var t := RunWorld(w, events);
      && t.run.s.acked == 1 && t.run.s.buf == [] && t.run.s.last == 1
      && t == Side(t.run, h, pid, Claimed(pid, VOUCHED, Acks(1, 1, 1, [1], 1, 1)), p)
  {
    hide Next, Enabled, AckCounts, Claimed;
    var w := Side(r, h, pid, Claimed(pid, VOUCHED, NO_ACKS.(queued := 1, pending := 1)), p);
    var u := Side(r, h, pid, Claimed(pid, VOUCHED, Acks(1, 1, 1, [1], 0, 0)), p);
    IsFlushed(r, h, pid, p);
    IsTaken(r, h, pid, raw, at, p);
    var t := Happen(u, TakeAck(h));
    hide Happen, CanHappen;
    assert [Flush(h), TakeAck(h)][1..] == [TakeAck(h)] && [TakeAck(h)][1..] == [];
    assert CanRun(t, []) && RunWorld(t, []) == t;
    assert CanRun(u, [TakeAck(h)]) && RunWorld(u, [TakeAck(h)]) == t;
  }

  lemma IsFlushed(r: Run, h: string, pid: Pid, p: Proc)
    requires p.alive
    ensures var w := Side(r, h, pid, Claimed(pid, VOUCHED, NO_ACKS.(queued := 1, pending := 1)), p);
      CanHappen(w, Flush(h)) && Happen(w, Flush(h)) ==
        Side(r, h, pid, Claimed(pid, VOUCHED, Acks(1, 1, 1, [1], 0, 0)), p)
  {
    hide Next, Enabled;
    assert [] + [1] == [1];
  }

  lemma IsTaken(r: Run, h: string, pid: Pid, raw: string, at: int, p: Proc)
    requires HasWritten(r, h, raw, at)
    ensures var u := Side(r, h, pid, Claimed(pid, VOUCHED, Acks(1, 1, 1, [1], 0, 0)), p);
      && CanHappen(u, TakeAck(h))
      && var t := Happen(u, TakeAck(h));
      && t.run.s.acked == 1 && t.run.s.buf == [] && t.run.s.last == 1
      && t == Side(t.run, h, pid, Claimed(pid, VOUCHED, Acks(1, 1, 1, [1], 1, 1)), p)
  {
    assert r.s.buf[1..] == [];
    assert Above(r.s.buf, 1) == [];
    AckIsStep(r, h, 1);
    hide Next, Enabled, Above;
  }

  function Whole(h: string, pid: Pid, raw: string, at: int): seq<Event> {
    Arriving(raw, at) + ([Dispatch(h), Dispatch(h), Read(h, 1)] + ([Begin(h), Emit(h), End(h)]
    + ([Read(h, 1), Begin(h), End(h)] + ([Tick(h), Commit(pid), Commit(pid)] + [Flush(h), TakeAck(h)]))))
  }

  /** From every start, for every line the engine relays, there is a run in which the
      engine takes an ack of it: the line has left the buffer, and it has been committed. */
  lemma AnAckIsTaken(cap: nat, link: Link, h: string, pid: Pid, raw: string, at: int)
    requires Classify(raw).Relayed? && |raw| <= MAX_LINE_BYTES
    ensures var w := Start(cap, link, h, pid);
      && CanRun(w, Whole(h, pid, raw, at))
      && var t := RunWorld(w, Whole(h, pid, raw, at));
      && t.run.s.acked == 1 == t.run.s.last && t.run.s.buf == []
      && h in t.claims && t.claims[h].acks.accepted == 1
      && CommittedBy(t, h, 1)
  {
    hide *;
    var w := Start(cap, link, h, pid);
    Arrives(cap, link, h, pid, raw, at);
    var r := RunWorld(w, Arriving(raw, at)).run;
    IsRead(r, h, pid, raw, at);
    IsHandled(r, h, pid);
    IsVouchedFor(r, h, pid);
    IsCommitted(r, h, pid);
    IsAcked(r, h, pid, raw, at, Proc([LineEvent(h, 1), Barrier(h, 1)], 2, true));
    var p := Proc([LineEvent(h, 1)], 0, true);
    RunOn(Side(r, h, pid, Claimed(pid, VOUCHED, NO_ACKS), p), [Tick(h), Commit(pid), Commit(pid)],
      [Flush(h), TakeAck(h)]);
    var e5 := [Tick(h), Commit(pid), Commit(pid)] + [Flush(h), TakeAck(h)];
    RunOn(Side(r, h, pid, Claimed(pid, HANDLED_ONE, NO_ACKS), p), [Read(h, 1), Begin(h), End(h)], e5);
    var e4 := [Read(h, 1), Begin(h), End(h)] + e5;
    RunOn(Side(r, h, pid, Claimed(pid, READ_ONE, NO_ACKS), Proc([], 0, true)), [Begin(h), Emit(h), End(h)], e4);
    var e3 := [Begin(h), Emit(h), End(h)] + e4;
    RunOn(Side(r, h, pid, NewClaim(pid), Proc([], 0, true)), [Dispatch(h), Dispatch(h), Read(h, 1)], e3);
    var e2 := [Dispatch(h), Dispatch(h), Read(h, 1)] + e3;
    RunOn(w, Arriving(raw, at), e2);
    WholeIs(h, pid, raw, at, e2);
    OneIsCommitted(RunWorld(w, Whole(h, pid, raw, at)).run, h, pid);
  }

  lemma OneIsCommitted(r: Run, h: string, pid: Pid)
    ensures var c, p := Claimed(pid, VOUCHED, Acks(1, 1, 1, [1], 1, 1)),
      Proc([LineEvent(h, 1), Barrier(h, 1)], 2, true);
      var t := Side(r, h, pid, c, p);
      h in t.claims && t.claims[h].acks.accepted == 1 && CommittedBy(t, h, 1)
  {
    assert VOUCHED.entries[..VOUCHED.handled] == [LineEntry(1)] + [Probe(1)];
    InIdsPush([LineEntry(1)], Probe(1));
    assert [LineEntry(1)] == [] + [LineEntry(1)];
    InIdsPush([], LineEntry(1));
  }

  lemma WholeIs(h: string, pid: Pid, raw: string, at: int, rest: seq<Event>)
    requires rest == [Dispatch(h), Dispatch(h), Read(h, 1)] + ([Begin(h), Emit(h), End(h)]
      + ([Read(h, 1), Begin(h), End(h)] + ([Tick(h), Commit(pid), Commit(pid)] + [Flush(h), TakeAck(h)])))
    ensures Whole(h, pid, raw, at) == Arriving(raw, at) + rest
  {}
}
