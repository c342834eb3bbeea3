/** That acks get through: from every state a run of the relay reaches, what a claim was
    handed can be handled, committed and acked by that claim's own steps alone, whatever
    else was going on. The invariants here are what such a run needs besides safety. */
module AckProgress {
  import opened GoStrings
  import opened Buffer
  import opened SessionSpec
  import opened SessionRun
  import opened SessionTheorems
  import opened Relay
  import opened RelayTheorems
  import opened AckRun

  /** The highest number a probe among these entries carries. */
  function MaxProbe(es: seq<Entry>): int {
    if es == [] then 0
    else
      var e := es[|es| - 1];
      Max(MaxProbe(es[..|es| - 1]), if e.Probe? then e.id else 0)
  }

  lemma MaxProbePush(es: seq<Entry>, e: Entry)
    ensures MaxProbe(es + [e]) == Max(MaxProbe(es), if e.Probe? then e.id else 0)
  {
    assert (es + [e])[..|es|] == es;
  }

  /** The number before the last one. */
  function BeforeLast(ids: seq<nat>): nat { if |ids| < 2 then 0 else ids[|ids| - 2] }

  /** No probe went missing: the last one put in is still there, and what the handlers
      saw of them is in the watermark. So is every line but the last one begun. */
  predicate VouchedFor(b: Inbox) {
    && b.handled <= Started(b) <= |b.entries| && b.probed <= MaxProbe(b.entries)
    && MaxProbe(b.entries[..Started(b)]) <= b.processed
    && b.lastSeq == LastIn(b.entries[..Started(b)])
    && BeforeLast(InIds(b.entries[..Started(b)])) <= b.processed
  }

  /** Watermark n has arrived, or waits behind its barrier. */
  predicate Due(a: Acks, h: string, p: Proc, n: nat) {
    n <= a.pending || exists i :: p.done <= i < |p.items| && p.items[i] == Barrier(h, n)
  }

  /** What was sent is on the wire, and what a claim the engine still knows had taken
      there is acked. */
  predicate WireCounts(a: Acks, h: string, s: State) {
    && (a.sent == 0 || (a.wire != [] && a.wire[|a.wire| - 1] == a.sent))
    && a.taken <= |a.wire|
    && (h in s.handles ==> forall i :: 0 <= i < a.taken ==> a.wire[i] <= s.acked)
  }

  predicate Ready(c: AppClaim, h: string, p: Proc, s: State) {
    VouchedFor(c.inbox) && Due(c.acks, h, p, c.acks.queued) && WireCounts(c.acks, h, s)
  }

  predicate ReadyInv(w: World) {
    forall h :: h in w.claims ==>
      w.claims[h].pid in w.procs && Ready(w.claims[h], h, w.procs[w.claims[h].pid], w.run.s)
  }

  // --- Every step keeps them ---

  lemma DeliveredCounts(b: Inbox, id: nat)
    requires VouchedFor(b)
    ensures VouchedFor(Delivered(b, id))
  {
    MaxProbePush(b.entries, LineEntry(id));
    hide MaxProbe, InIds;
    assert Delivered(b, id).entries[..Started(b)] == b.entries[..Started(b)];
  }

  lemma ReadCounts(b: Inbox, closed: bool, n: nat)
    requires VouchedFor(b)
    ensures VouchedFor(ReadUpTo(b, closed, n))
  {
    MaxProbePush(b.entries, Probe(b.delivered));
    hide MaxProbe, InIds;
    assert (b.entries + [Probe(b.delivered)])[..Started(b)] == b.entries[..Started(b)];
  }

  lemma BegunCounts(b: Inbox)
    requires VouchedFor(b) && !b.busy && b.handled < |b.entries|
    ensures VouchedFor(Begun(b))
  {
    var e := b.entries[b.handled];
    MaxProbePush(b.entries[..b.handled], e);
    InIdsPush(b.entries[..b.handled], e);
    hide MaxProbe, InIds;
    assert b.entries[..b.handled + 1] == b.entries[..b.handled] + [e];
  }

  lemma FlushCounts(a: Acks, h: string, s: State)
    requires WireCounts(a, h, s)
    ensures WireCounts(Flushed(a), h, s)
  {}

  /** The steps that change one claim and no loop. */
  lemma MovedReady(w: World, e: Event)
    requires CanHappen(w, e) && Moved(w, e).Some?
    ensures var (h, d) := Moved(w, e).value;
      h in w.claims && d.pid == w.claims[h].pid
      && forall p, s :: Ready(w.claims[h], h, p, s) ==> Ready(d, h, p, s)
  {
    hide MaxProbe, InIds, BeforeLast, WireCounts, Due, Next, Enabled;
    var (h, d) := Moved(w, e).value;
    var c := w.claims[h];
    forall p, s | Ready(c, h, p, s)
      ensures Ready(d, h, p, s)
    {
      match e
      case Dispatch(_) =>
        if d.inbox != c.inbox {
          DeliveredCounts(c.inbox, w.run.out[h][c.cursor].id);
        }
      case Read(_, n) => ReadCounts(c.inbox, c.closed, n);
      case Begin(_) => BegunCounts(c.inbox);
      case Flush(_) =>
        FlushCounts(c.acks, h, s);
        assert Due(d.acks, h, p, d.acks.queued) by { SameDue(c.acks, d.acks, h, p); }
      case _ =>
    }
  }

  lemma SameDue(a: Acks, b: Acks, h: string, p: Proc)
    requires b.queued == a.queued && b.pending == a.pending
    ensures Due(a, h, p, a.queued) <==> Due(b, h, p, b.queued)
  {}

  lemma MoveKeepsReady(w: World, e: Event)
    requires ReadyInv(w) && CanHappen(w, e) && Moved(w, e).Some?
    ensures ReadyInv(Happen(w, e))
  {
    MovedReady(w, e);
    MovedHappens(w, e);
    hide Happen, CanHappen, Moved, Ready;
  }

  /** What an engine step other than an ack leaves: the marks of the acks. */
  lemma EngineKeepsMarks(r: Run, step: Step)
    requires Inv(r) && Enabled(r, step)
    ensures var t := Next(r, step);
      && t.s.acked >= r.s.acked
      && forall h :: h in t.s.handles ==> h in r.s.handles || (step.Claim? && h == step.handle)
  {
    hide PullFrames, ReplayBurst, Above, Batch, SentAfter, ClosesNow, Inv, BufferInv, Classify, Grows;
    match step
    case Receive(raw, at) =>
      RelayTheorems.InvParts(r);
      AckedStays(r, raw, at);
      ReceiveKeepsHandles(r, raw, at);
    case _ =>
  }

  lemma ReceiveKeepsHandles(r: Run, raw: string, at: int)
    requires Enabled(r, Receive(raw, at))
    ensures Next(r, Receive(raw, at)).s.handles == r.s.handles
  {
    hide Track, Classify;
    if Classify(raw).Relayed? && r.s.conn.Open? {
      ShedKeepsHandles(Appended(r, Classify(raw).line, raw, at));
    }
  }

  lemma {:induction false} ShedKeepsHandles(r: Run)
    ensures ShedRun(r).s.handles == r.s.handles
    decreases |r.s.buf|
  {
    hide Cost;
    if Cost(r.s.buf) > r.cap && |r.s.buf| > 1 {
      ShedKeepsHandles(DropOne(r));
    }
  }

  lemma LaterMarks(a: Acks, h: string, s: State, t: State)
    requires WireCounts(a, h, s) && t.acked >= s.acked && (h in t.handles ==> h in s.handles)
    ensures WireCounts(a, h, t)
  {}

  lemma EngineKeepsReady(w: World, step: Step)
    requires ReadyInv(w) && Inv(w.run) && Enabled(w.run, step) && !step.Claim?
    ensures ReadyInv(w.(run := Next(w.run, step)))
  {
    EngineKeepsMarks(w.run, step);
    hide Next, Inv, Enabled, WireCounts, VouchedFor, Due;
    var v := w.(run := Next(w.run, step));
    forall h | h in v.claims
      ensures v.claims[h].pid in v.procs && Ready(v.claims[h], h, v.procs[v.claims[h].pid], v.run.s)
    {
      LaterMarks(w.claims[h].acks, h, w.run.s, v.run.s);
    }
  }

  lemma FreshReady(pid: Pid, h: string, p: Proc, s: State)
    ensures Ready(NewClaim(pid), h, p, s)
  {}

  lemma ConnectKeepsReady(w: World, link: Link, handle: string, pid: Pid)
    requires ReadyInv(w) && Inv(w.run) && CanHappen(w, Connect(link, handle, pid))
    ensures ReadyInv(Happen(w, Connect(link, handle, pid)))
  {
    ConnectParts(w, link, handle, pid);
    EngineKeepsMarks(w.run, SessionRun.Claim(link, handle));
    FreshReady(pid, handle, w.procs[pid], Happen(w, Connect(link, handle, pid)).run.s);
    hide CanHappen, Happen, Next, Inv, Enabled, WireCounts, VouchedFor, Due, NewClaim;
    var v := Happen(w, Connect(link, handle, pid));
    forall h | h in v.claims
      ensures v.claims[h].pid in v.procs && Ready(v.claims[h], h, v.procs[v.claims[h].pid], v.run.s)
    {
      if h != handle {
        LaterMarks(w.claims[h].acks, h, w.run.s, v.run.s);
      } else {
        NewPid(pid);
      }
    }
  }

  lemma NewPid(pid: Pid)
    ensures NewClaim(pid).pid == pid
  {}

  /** A loop with more items has what it had. */
  lemma DuePushed(a: Acks, h: string, p: Proc, item: Item, n: nat)
    requires Due(a, h, p, n) && p.done <= |p.items|
    ensures Due(a, h, p.(items := p.items + [item]), n)
  {
    var q := p.(items := p.items + [item]);
    if n > a.pending {
      var i :| p.done <= i < |p.items| && p.items[i] == Barrier(h, n);
      assert q.items[i] == Barrier(h, n);
    }
  }

  lemma QueueKeepsReady(w: World, pid: Pid, item: Item)
    requires ReadyInv(w) && ItemsKnown(w) && pid in w.procs
    ensures ReadyInv(Queue(w, pid, item))
  {
    hide WireCounts, VouchedFor, Due;
    var v := Queue(w, pid, item);
    forall h | h in v.claims
      ensures v.claims[h].pid in v.procs && Ready(v.claims[h], h, v.procs[v.claims[h].pid], v.run.s)
    {
      if w.claims[h].pid == pid {
        DuePushed(w.claims[h].acks, h, w.procs[pid], item, w.claims[h].acks.queued);
      }
    }
  }

  /** The ack loop's barrier: the watermark it is for is the one queued last. */
  lemma TickKeepsReady(w: World, h: string)
    requires ReadyInv(w) && ItemsKnown(w) && CanHappen(w, Tick(h))
    ensures ReadyInv(Happen(w, Tick(h)))
  {
    var c := w.claims[h];
    var n := c.inbox.processed;
    QueueKeepsReady(w, c.pid, Barrier(h, n));
    TickedDue(c.acks, h, w.procs[c.pid], n);
    TickIs(w, h);
    hide WireCounts, VouchedFor, Due, CanHappen, Happen, Queue;
    var u := Queue(w, c.pid, Barrier(h, n));
    assert WireCounts(c.acks.(queued := n), h, u.run.s) by { SameWire(c.acks, h, u.run.s, n); }
  }

  lemma TickIs(w: World, h: string)
    requires CanHappen(w, Tick(h))
    ensures var c, n := w.claims[h], w.claims[h].inbox.processed;
      var u := Queue(w, c.pid, Barrier(h, n));
      && u.claims == w.claims && c.pid in u.procs && u.run == w.run
      && u.procs[c.pid] == w.procs[c.pid].(items := w.procs[c.pid].items + [Barrier(h, n)])
      && Happen(w, Tick(h)) == SetClaim(u, h, c.(acks := c.acks.(queued := n)))
  {}

  lemma TickedDue(a: Acks, h: string, p: Proc, n: nat)
    requires p.done <= |p.items|
    ensures Due(a.(queued := n), h, p.(items := p.items + [Barrier(h, n)]), n)
  {
    assert p.(items := p.items + [Barrier(h, n)]).items[|p.items|] == Barrier(h, n);
  }

  lemma SameWire(a: Acks, h: string, s: State, n: nat)
    ensures WireCounts(a.(queued := n), h, s) <==> WireCounts(a, h, s)
    ensures WireCounts(Settled(a, n), h, s) <==> WireCounts(a, h, s)
  {}

  /** A loop that is done with an item: a watermark that waited behind it arrives. */
  lemma DueDone(a: Acks, h: string, p: Proc, n: nat)
    requires Due(a, h, p, n) && p.done < |p.items|
    ensures var item, q := p.items[p.done], p.(done := p.done + 1);
      Due(if item == Barrier(h, item.id) then Settled(a, item.id) else a, h, q, n)
  {
    var q := p.(done := p.done + 1);
    if n > a.pending {
      var i :| p.done <= i < |p.items| && p.items[i] == Barrier(h, n);
      assert i > p.done ==> q.items[i] == Barrier(h, n);
    }
  }

  /** What a commit does to a claim of its process, and to any other. */
  lemma CommitIs(w: World, pid: Pid, h: string)
    requires CanHappen(w, Commit(pid)) && ItemsKnown(w) && h in w.claims
    ensures var v, p, c := Happen(w, Commit(pid)), w.procs[pid], w.claims[h];
      var item := p.items[p.done];
      && v.run == w.run && v.procs == w.procs[pid := p.(done := p.done + 1)] && v.claims.Keys == w.claims.Keys
      && v.claims[h] == if c.pid == pid && item == Barrier(h, item.id) then c.(acks := Settled(c.acks, item.id)) else c
  {
    var p := w.procs[pid];
    var item := p.items[p.done];
    assert item == Barrier(h, item.id) <==> item.Barrier? && item.handle == h;
  }

  lemma CommitKeepsReady(w: World, pid: Pid)
    requires ReadyInv(w) && ItemsKnown(w) && CanHappen(w, Commit(pid))
    ensures ReadyInv(Happen(w, Commit(pid)))
  {
    var v := Happen(w, Commit(pid));
    forall h | h in v.claims
      ensures v.claims[h].pid in v.procs && Ready(v.claims[h], h, v.procs[v.claims[h].pid], v.run.s)
    {
      CommitKeepsClaim(w, pid, h);
    }
  }

  lemma CommitKeepsClaim(w: World, pid: Pid, h: string)
    requires ReadyInv(w) && ItemsKnown(w) && CanHappen(w, Commit(pid)) && h in Happen(w, Commit(pid)).claims
    ensures var v := Happen(w, Commit(pid));
      v.claims[h].pid in v.procs && Ready(v.claims[h], h, v.procs[v.claims[h].pid], v.run.s)
  {
    var p := w.procs[pid];
    CommittedIn(w, pid, h);
    CommitIs(w, pid, h);
    hide WireCounts, VouchedFor, Due, Happen, CanHappen;
    var c, id := w.claims[h], p.items[p.done].id;
    SameWire(c.acks, h, w.run.s, id);
    if c.pid == pid {
      DueDone(c.acks, h, p, c.acks.queued);
    }
  }

  lemma CommittedIn(w: World, pid: Pid, h: string)
    requires ItemsKnown(w) && CanHappen(w, Commit(pid)) && h in Happen(w, Commit(pid)).claims
    ensures h in w.claims && pid in w.procs && w.procs[pid].done < |w.procs[pid].items|
  {}

  /** What a claim acks is a line there is. */
  lemma WireInLog(w: World, h: string, n: nat)
    requires WorldInv(w) && h in w.claims && n in w.claims[h].acks.wire
    ensures n <= w.run.s.last
  {
    hide *;
    StreamOf(w, h);
    SoundClaim(w, h);
    var c := w.claims[h];
    WireIsMark(c, w.run.out[h], h, w.procs[c.pid], n);
    HandedInLog(w.run, h, c.acks.pending);
  }

  lemma WireIsMark(c: AppClaim, frames: seq<Frame>, h: string, p: Proc, n: nat)
    requires Sound(c, frames, h, p) && n in c.acks.wire
    ensures n <= c.acks.pending && (c.acks.pending == 0 || c.acks.pending in LineIds(frames))
  {
    var b := c.inbox;
    InboxSizes(b);
    InIdsPrefix(b.entries, b.handled);
    hide InboxInv, BarrierInv, InIds, LineIds, EventsDone;
    var done, all, ids := InIds(b.entries[..b.handled]), InIds(b.entries), LineIds(frames);
    if c.acks.pending != 0 {
      var i :| 0 <= i < |done| && done[i] == c.acks.pending;
      assert all[i] == done[i];
      assert ids[i] == all[i];
    }
  }

  lemma HandedInLog(r: Run, h: string, n: nat)
    requires h in r.out && h in r.start && Handed(r, h) && (n == 0 || n in LineIds(r.out[h]))
    ensures n <= r.s.last
  {
    hide LineIds, Increasing, Exact, Gone;
  }

  // --- Taking an ack ---

  /** What the engine makes of the next ack of a claim it knows: from then on it is in
      its own mark. */
  lemma TakenCounts(w: World, h: string)
    requires WorldInv(w) && ReadyInv(w) && CanHappen(w, TakeAck(h))
    ensures h in w.claims && w.claims[h].acks.taken < |w.claims[h].acks.wire|
    ensures var n := w.claims[h].acks.wire[w.claims[h].acks.taken];
      var t := AfterAck(w.run, h, n);
      && t.s.acked >= w.run.s.acked && t.s.handles == w.run.s.handles
      && (h in w.run.s.handles ==> t.s.acked >= n)
      && WireCounts(AfterTake(w.claims[h], n, AckCounts(w.run.s, h, n)).acks, h, t.s)
  {
    hide *;
    TakeIs(w, h);
    var c := w.claims[h];
    var n := c.acks.wire[c.acks.taken];
    WireInLog(w, h, n);
    ReadyOf(w, h);
    AcksTaken(c, n, h, w.run);
  }

  lemma ReadyOf(w: World, h: string)
    requires ReadyInv(w) && h in w.claims
    ensures w.claims[h].pid in w.procs && Ready(w.claims[h], h, w.procs[w.claims[h].pid], w.run.s)
    ensures VouchedFor(w.claims[h].inbox) && WireCounts(w.claims[h].acks, h, w.run.s)
    ensures Due(w.claims[h].acks, h, w.procs[w.claims[h].pid], w.claims[h].acks.queued)
  {
    hide VouchedFor, WireCounts, Due;
  }

  lemma AcksTaken(c: AppClaim, n: nat, h: string, r: Run)
    requires WireCounts(c.acks, h, r.s) && c.acks.taken < |c.acks.wire| && n == c.acks.wire[c.acks.taken]
    requires n <= r.s.last
    ensures var t := AfterAck(r, h, n);
      && t.s.acked >= r.s.acked && t.s.handles == r.s.handles && (h in r.s.handles ==> t.s.acked >= n)
      && WireCounts(AfterTake(c, n, AckCounts(r.s, h, n)).acks, h, t.s)
  {
    hide Above;
  }

  lemma TakeKeepsReady(w: World, h: string)
    requires WorldInv(w) && ReadyInv(w) && CanHappen(w, TakeAck(h))
    ensures ReadyInv(Happen(w, TakeAck(h)))
  {
    hide *;
    TakeIs(w, h);
    TakenCounts(w, h);
    ReadyOf(w, h);
    var c := w.claims[h];
    var n := c.acks.wire[c.acks.taken];
    var d, r := AfterTake(c, n, AckCounts(w.run.s, h, n)), AfterAck(w.run, h, n);
    SameQueue(c, n, AckCounts(w.run.s, h, n), h, w.procs[c.pid], r.s);
    OneMoved(w, h, d, r);
  }

  lemma SameQueue(c: AppClaim, n: nat, counts: bool, h: string, p: Proc, s: State)
    requires VouchedFor(c.inbox) && Due(c.acks, h, p, c.acks.queued) && WireCounts(AfterTake(c, n, counts).acks, h, s)
    ensures var d := AfterTake(c, n, counts); d.pid == c.pid && Ready(d, h, p, s)
  {
    hide WireCounts, VouchedFor;
  }

  lemma OneMoved(w: World, h: string, d: AppClaim, r: Run)
    requires ReadyInv(w) && h in w.claims && d.pid == w.claims[h].pid && d.pid in w.procs
    requires Ready(d, h, w.procs[d.pid], r.s) && r.s.acked >= w.run.s.acked && r.s.handles == w.run.s.handles
    ensures ReadyInv(SetClaim(w, h, d).(run := r))
  {
    hide WireCounts, VouchedFor, Due;
    var v := SetClaim(w, h, d).(run := r);
    forall g | g in v.claims
      ensures v.claims[g].pid in v.procs && Ready(v.claims[g], g, v.procs[v.claims[g].pid], v.run.s)
    {
      if g != h {
        LaterMarks(w.claims[g].acks, g, w.run.s, r.s);
      }
    }
  }

  lemma ProcsKeepReady(w: World, v: World)
    requires ReadyInv(w) && v == w.(procs := v.procs) && w.procs.Keys <= v.procs.Keys
    requires forall pid :: pid in w.procs ==> v.procs[pid] == w.procs[pid].(alive := v.procs[pid].alive)
    ensures ReadyInv(v)
  {
    hide VouchedFor, WireCounts;
  }

  lemma StepKeepsReady(w: World, e: Event)
    requires WorldInv(w) && ReadyInv(w) && CanHappen(w, e)
    ensures ReadyInv(Happen(w, e))
  {
    SafeOf(w);
    InvOfWorld(w);
    hide *;
    match e
    case Engine(step) => EngineReady(w, step);
    case Connect(link, handle, pid) => ConnectKeepsReady(w, link, handle, pid);
    case Tick(h) => TickKeepsReady(w, h);
    case Commit(pid) => CommitKeepsReady(w, pid);
    case TakeAck(h) => TakeKeepsReady(w, h);
    case _ =>
      if e.Launch? || e.Crash? {
        ProcsReady(w, e);
      } else if e.Emit? || e.FinalAck? {
        QueuedReady(w, e);
      } else {
        MovesOne(w, e);
        MoveKeepsReady(w, e);
      }
  }

  lemma EngineReady(w: World, step: Step)
    requires ReadyInv(w) && Inv(w.run) && CanHappen(w, Engine(step))
    ensures ReadyInv(Happen(w, Engine(step)))
  {
    hide ReadyInv, Inv, Next, Enabled;
    EngineKeepsReady(w, step);
  }

  lemma ProcsReady(w: World, e: Event)
    requires ReadyInv(w) && CanHappen(w, e) && (e.Launch? || e.Crash?)
    ensures ReadyInv(Happen(w, e))
  {
    hide ReadyInv;
    ProcsKeepReady(w, Happen(w, e));
  }

  lemma QueuedReady(w: World, e: Event)
    requires ReadyInv(w) && ItemsKnown(w) && CanHappen(w, e) && (e.Emit? || e.FinalAck?)
    ensures ReadyInv(Happen(w, e))
  {
    hide ReadyInv, ItemsKnown, Queue;
    var b, pid := w.claims[e.h].inbox, w.claims[e.h].pid;
    QueueKeepsReady(w, pid, if e.Emit? then LineEvent(e.h, b.entries[b.handled].id) else Barrier(e.h, b.lastSeq));
  }

  lemma MovesOne(w: World, e: Event)
    requires CanHappen(w, e)
    ensures Moved(w, e).Some? || e.Engine? || e.Launch? || e.Crash? || e.Connect? || e.Emit? || e.Tick? || e.FinalAck?
      || e.Commit? || e.TakeAck?
  {
    hide CanHappen;
  }

  /** Both invariants over whole runs. */
  ghost predicate Good(w: World) { WorldInv(w) && ReadyInv(w) }

  lemma StepKeepsGood(w: World, e: Event)
    requires Good(w) && CanHappen(w, e)
    ensures Good(Happen(w, e))
  {
    StepKeepsWorld(w, e);
    StepKeepsReady(w, e);
    hide CanHappen, Happen, WorldInv, ReadyInv;
  }

  lemma StartIsGood(cap: nat, link: Link, handle: string, pid: Pid)
    ensures Good(Start(cap, link, handle, pid))
  {
    StartWorldInv(cap, link, handle, pid);
    hide WorldInv;
    var w := Start(cap, link, handle, pid);
    FreshReady(pid, handle, w.procs[pid], w.run.s);
  }

  lemma {:induction false} RunKeepsGood(w: World, events: seq<Event>)
    requires Good(w) && CanRun(w, events)
    ensures Good(RunWorld(w, events))
    decreases |events|
  {
    hide Good, CanHappen, Happen;
    if events != [] {
      StepKeepsGood(w, events[0]);
      RunKeepsGood(Happen(w, events[0]), events[1..]);
    }
  }

  // --- Runs of one claim ---

  /** A step of claim h or of the loop its process runs. */
  predicate Own(e: Event, h: string, pid: Pid) {
    match e
    case Read(g, _) => g == h
    case Begin(g) => g == h
    case End(g) => g == h
    case Tick(g) => g == h
    case FinalAck(g) => g == h
    case Flush(g) => g == h
    case TakeAck(g) => g == h
    case Commit(p) => p == pid
    case _ => false
  }

  predicate AllOwn(es: seq<Event>, h: string, pid: Pid) { forall e :: e in es ==> Own(e, h, pid) }

  lemma First(w: World, e: Event, es: seq<Event>)
    requires CanHappen(w, e) && CanRun(Happen(w, e), es)
    ensures CanRun(w, [e] + es) && RunWorld(w, [e] + es) == RunWorld(Happen(w, e), es)
  {
    hide CanHappen, Happen;
    assert ([e] + es)[1..] == es;
  }

  lemma Nothing(w: World)
    ensures CanRun(w, []) && RunWorld(w, []) == w
  {}

  /** The steps of `es` change claim h to d and nothing else. */
  predicate Becomes(w: World, h: string, es: seq<Event>, d: AppClaim)
    requires h in w.claims
  {
    CanRun(w, es) && RunWorld(w, es) == SetClaim(w, h, d) && d.pid == w.claims[h].pid && AllOwn(es, h, d.pid)
  }

  lemma FirstBecomes(w: World, h: string, e: Event, c: AppClaim, es: seq<Event>, d: AppClaim)
    requires h in w.claims && CanHappen(w, e) && Own(e, h, c.pid) && Happen(w, e) == SetClaim(w, h, c)
    requires c.pid == w.claims[h].pid && Becomes(SetClaim(w, h, c), h, es, d)
    ensures Becomes(w, h, [e] + es, d)
  {
    hide CanHappen, Happen, Own, CanRun, RunWorld;
    First(w, e, es);
    assert SetClaim(SetClaim(w, h, c), h, d) == SetClaim(w, h, d);
  }

  lemma NothingBecomes(w: World, h: string)
    requires h in w.claims
    ensures Becomes(w, h, [], w.claims[h])
  {
    Nothing(w);
    assert w.claims[h := w.claims[h]] == w.claims;
  }

  // --- Reading and handling ---

  /** Two reads leave nothing to read, and a probe behind the last line. */
  lemma ReadsAll(b: Inbox)
    requires b.read <= |b.entries|
    ensures var n := |b.entries| + 2;
      var d := ReadUpTo(ReadUpTo(b, false, n), false, n);
      && d.read == |d.entries| && d.probed >= d.delivered == b.delivered
      && d.handled == b.handled && d.busy == b.busy
  {}

  lemma ReadStep(w: World, h: string, n: nat)
    requires Live(w, h) && !w.claims[h].returned && !w.claims[h].closed
    ensures CanHappen(w, Read(h, n))
    ensures var c := w.claims[h]; Happen(w, Read(h, n)) == SetClaim(w, h, c.(inbox := ReadUpTo(c.inbox, false, n)))
  {
    hide ReadUpTo;
  }

  /** Claim h can read: its process runs, and it is neither closed nor given up. */
  predicate Reading(w: World, h: string) {
    Live(w, h) && !w.claims[h].returned && !w.claims[h].closed
  }

  lemma TwoReads(w: World, h: string, n: nat)
    requires Reading(w, h)
    ensures var c := w.claims[h];
      Becomes(w, h, [Read(h, n)] + ([Read(h, n)] + []),
              c.(inbox := ReadUpTo(ReadUpTo(c.inbox, false, n), false, n)))
  {
    hide CanHappen, Happen, ReadUpTo, CanRun, RunWorld, Becomes;
    var c := w.claims[h];
    var one := c.(inbox := ReadUpTo(c.inbox, false, n));
    var two := c.(inbox := ReadUpTo(one.inbox, false, n));
    var u := SetClaim(w, h, one);
    ReadStep(w, h, n);
    ReadStep(u, h, n);
    NothingBecomes(SetClaim(u, h, two), h);
    FirstBecomes(u, h, Read(h, n), two, [], two);
    FirstBecomes(w, h, Read(h, n), one, [Read(h, n)] + [], two);
  }

  lemma ReadMany(w: World, h: string) returns (es: seq<Event>, d: Inbox)
    requires Good(w) && Reading(w, h)
    ensures var c := w.claims[h]; Becomes(w, h, es, c.(inbox := d)) && InIds(d.entries) == InIds(c.inbox.entries)
    ensures d.read == |d.entries| && d.probed >= d.delivered == w.claims[h].inbox.delivered
    ensures d.handled <= |d.entries| && (d.busy ==> d.handled < |d.entries|)
  {
    InClaims(w, h);
    hide *;
    InboxOf(w, h);
    var b := w.claims[h].inbox;
    var n := |b.entries| + 2;
    var one := ReadUpTo(b, false, n);
    d := ReadUpTo(one, false, n);
    InboxSizes(b);
    ReadsAll(b);
    ReadKeepsInbox(b, false, n);
    ReadKeepsInbox(one, false, n);
    InboxSizes(d);
    StartedIs(d);
    TwoReads(w, h, n);
    es := [Read(h, n)] + ([Read(h, n)] + []);
  }

  lemma InClaims(w: World, h: string)
    requires Live(w, h)
    ensures h in w.claims && w.claims[h].pid in w.procs && w.procs[w.claims[h].pid].alive
  {}

  lemma StartedIs(b: Inbox)
    requires Started(b) <= |b.entries|
    ensures b.handled <= |b.entries| && (b.busy ==> b.handled < |b.entries|)
  {}

  lemma InboxOf(w: World, h: string)
    requires Good(w) && h in w.claims
    ensures InboxInv(w.claims[h].inbox) && w.claims[h].pid in w.procs && VouchedFor(w.claims[h].inbox)
  {
    StreamOf(w, h);
    ReadyOf(w, h);
    hide WorldInv, ReadyInv, InboxInv, VouchedFor, ClaimInv;
  }

  lemma BeginStep(w: World, h: string)
    requires Reading(w, h) && var b := w.claims[h].inbox; !b.busy && b.handled < b.read <= |b.entries|
    ensures CanHappen(w, Begin(h)) && Own(Begin(h), h, w.claims[h].pid)
    ensures var c := w.claims[h]; Happen(w, Begin(h)) == SetClaim(w, h, c.(inbox := Begun(c.inbox)))
  {}

  lemma EndStep(w: World, h: string)
    requires Live(w, h) && w.claims[h].inbox.busy
    ensures CanHappen(w, End(h)) && Own(End(h), h, w.claims[h].pid)
    ensures var c := w.claims[h]; Happen(w, End(h)) == SetClaim(w, h, c.(inbox := Ended(c.inbox)))
  {}

  /** What was read gets handled. */
  lemma {:induction false} HandleAll(w: World, h: string) returns (es: seq<Event>, d: Inbox)
    requires Reading(w, h)
    requires var b := w.claims[h].inbox;
      b.read == |b.entries| && b.handled <= |b.entries| && (b.busy ==> b.handled < |b.entries|)
    ensures var c := w.claims[h];
      Becomes(w, h, es, c.(inbox := d)) && d.entries == c.inbox.entries && d.delivered == c.inbox.delivered
    ensures d.probed == w.claims[h].inbox.probed && d.handled == |d.entries| && !d.busy
    decreases |w.claims[h].inbox.entries| - w.claims[h].inbox.handled, !w.claims[h].inbox.busy
  {
    hide CanHappen, Happen, CanRun, RunWorld, Becomes, Own;
    var c := w.claims[h];
    var b := c.inbox;
    if b.busy {
      EndStep(w, h);
      var rest;
      rest, d := HandleAll(SetClaim(w, h, c.(inbox := Ended(b))), h);
      FirstBecomes(w, h, End(h), c.(inbox := Ended(b)), rest, c.(inbox := d));
      es := [End(h)] + rest;
    } else if b.handled < |b.entries| {
      BeginStep(w, h);
      var rest;
      rest, d := HandleAll(SetClaim(w, h, c.(inbox := Begun(b))), h);
      FirstBecomes(w, h, Begin(h), c.(inbox := Begun(b)), rest, c.(inbox := d));
      es := [Begin(h)] + rest;
    } else {
      NothingBecomes(w, h);
      es, d := [], b;
    }
  }

  // --- Committing and acking ---

  /** From w to t, commits brought watermarks to claim h, and nothing else changed for it. */
  predicate OnlyCommits(w: World, t: World, h: string) {
    Live(w, h) && Live(t, h) && t.run == w.run
    && t.claims[h] == w.claims[h].(acks := w.claims[h].acks.(pending := t.claims[h].acks.pending))
  }

  lemma CommitStep(w: World, h: string, n: nat)
    requires Good(w) && Live(w, h) && Due(w.claims[h].acks, h, w.procs[w.claims[h].pid], n)
    requires w.procs[w.claims[h].pid].done < |w.procs[w.claims[h].pid].items|
    ensures var pid := w.claims[h].pid;
      CanHappen(w, Commit(pid)) && Own(Commit(pid), h, pid) && Good(Happen(w, Commit(pid)))
      && OnlyCommits(w, Happen(w, Commit(pid)), h)
    ensures var pid, v := w.claims[h].pid, Happen(w, Commit(w.claims[h].pid));
      && Due(v.claims[h].acks, h, v.procs[pid], n)
      && v.procs[pid] == w.procs[pid].(done := w.procs[pid].done + 1)
  {
    var pid := w.claims[h].pid;
    InClaims(w, h);
    CanCommit(w, pid);
    hide *;
    GoodParts(w);
    StepKeepsGood(w, Commit(pid));
    CommitIs(w, pid, h);
    DueDone(w.claims[h].acks, h, w.procs[pid], n);
    OwnCommit(h, pid);
    OnlyCommitted(w, Happen(w, Commit(pid)), h, pid, w.procs[pid].items[w.procs[pid].done]);
  }

  lemma CanCommit(w: World, pid: Pid)
    requires pid in w.procs && w.procs[pid].alive && w.procs[pid].done < |w.procs[pid].items|
    ensures CanHappen(w, Commit(pid))
  {}

  lemma OwnCommit(h: string, pid: Pid)
    ensures Own(Commit(pid), h, pid)
  {}

  lemma OnlyCommitted(w: World, v: World, h: string, pid: Pid, item: Item)
    requires Live(w, h) && pid == w.claims[h].pid && v.run == w.run && h in v.claims
    requires v.procs == w.procs[pid := w.procs[pid].(done := w.procs[pid].done + 1)]
    requires var c := w.claims[h];
      v.claims[h] == if item == Barrier(h, item.id) then c.(acks := Settled(c.acks, item.id)) else c
    ensures OnlyCommits(w, v, h)
    ensures v.claims[h].acks == if item == Barrier(h, item.id) then Settled(w.claims[h].acks, item.id)
                                else w.claims[h].acks
  {}

  lemma GoodParts(w: World)
    requires Good(w)
    ensures ItemsKnown(w) && WorldInv(w) && ReadyInv(w) && Inv(w.run)
  {
    SafeOf(w);
    InvOfWorld(w);
    hide WorldInv, ReadyInv, Inv, ItemsKnown;
  }

  lemma {:induction false} CommitAll(w: World, h: string, n: nat) returns (es: seq<Event>)
    requires Good(w) && Live(w, h) && Due(w.claims[h].acks, h, w.procs[w.claims[h].pid], n)
    ensures CanRun(w, es) && AllOwn(es, h, w.claims[h].pid) && OnlyCommits(w, RunWorld(w, es), h)
    ensures Good(RunWorld(w, es)) && RunWorld(w, es).claims[h].acks.pending >= n
    decreases |w.procs[w.claims[h].pid].items| - w.procs[w.claims[h].pid].done
  {
    hide Good, CanHappen, Happen, CanRun, RunWorld, Own;
    var pid := w.claims[h].pid;
    if w.procs[pid].done < |w.procs[pid].items| {
      CommitStep(w, h, n);
      hide Due;
      var v := Happen(w, Commit(pid));
      var rest := CommitAll(v, h, n);
      First(w, Commit(pid), rest);
      es := [Commit(pid)] + rest;
    } else {
      es := [];
      Nothing(w);
    }
  }

  lemma FlushStep(w: World, h: string)
    requires Live(w, h)
    ensures CanHappen(w, Flush(h)) && Own(Flush(h), h, w.claims[h].pid)
    ensures var c := w.claims[h];
      Happen(w, Flush(h)) == SetClaim(w, h, c.(acks := Flushed(c.acks))) && Flushed(c.acks).sent >= c.acks.pending
  {}

  /** From w to t, the engine took acks of claim h. */
  predicate OnlyTakes(w: World, t: World, h: string) {
    h in w.claims && h in t.claims && t.run.s.handles == w.run.s.handles
    && t.claims[h] == w.claims[h].(acks := w.claims[h].acks.(taken := t.claims[h].acks.taken,
                                                             accepted := t.claims[h].acks.accepted))
  }

  lemma TakeStep(w: World, h: string)
    requires Good(w) && h in w.claims && w.claims[h].acks.taken < |w.claims[h].acks.wire|
    ensures CanHappen(w, TakeAck(h)) && Own(TakeAck(h), h, w.claims[h].pid) && Good(Happen(w, TakeAck(h)))
    ensures OnlyTakes(w, Happen(w, TakeAck(h)), h)
    ensures Happen(w, TakeAck(h)).claims[h].acks.taken == w.claims[h].acks.taken + 1
  {
    assert CanHappen(w, TakeAck(h));
    GoodParts(w);
    StepKeepsGood(w, TakeAck(h));
    TakeIs(w, h);
    TakenCounts(w, h);
    hide Good, CanHappen, Happen, WorldInv, ReadyInv, AfterAck, AckCounts, WireCounts;
  }

  lemma {:induction false} TakeAll(w: World, h: string) returns (es: seq<Event>)
    requires Good(w) && h in w.claims && w.claims[h].acks.taken <= |w.claims[h].acks.wire|
    ensures CanRun(w, es) && AllOwn(es, h, w.claims[h].pid) && OnlyTakes(w, RunWorld(w, es), h)
    ensures Good(RunWorld(w, es)) && RunWorld(w, es).claims[h].acks.taken == |w.claims[h].acks.wire|
    decreases |w.claims[h].acks.wire| - w.claims[h].acks.taken
  {
    hide Good, CanHappen, Happen, CanRun, RunWorld, Own;
    if w.claims[h].acks.taken < |w.claims[h].acks.wire| {
      TakeStep(w, h);
      var rest := TakeAll(Happen(w, TakeAck(h)), h);
      First(w, TakeAck(h), rest);
      es := [TakeAck(h)] + rest;
    } else {
      es := [];
      Nothing(w);
    }
  }

  /** The engine is past line n: it acked it, and buffers nothing up to it. */
  predicate Past(s: State, n: nat) { n <= s.acked && forall l :: l in s.buf ==> l.id > n }

  lemma PastAcked(r: Run, n: nat)
    requires Inv(r) && n <= r.s.acked
    ensures Past(r.s, n)
  {
    hide DeliveryInv, LossInv, ClosedInv, CapInv, Above;
    forall l | l in r.s.buf
      ensures l.id > n
    {
      var i :| 0 <= i < |r.s.buf| && r.s.buf[i] == l;
      assert r.log[r.Base() + i] == l;
    }
  }

  lemma WireOut(w: World, h: string, n: nat)
    requires Good(w) && h in w.claims && w.claims[h].acks.sent >= n && h in w.run.s.handles
    requires w.claims[h].acks.taken == |w.claims[h].acks.wire|
    ensures Past(w.run.s, n)
  {
    ReadyOf(w, h);
    GoodParts(w);
    hide Good, WorldInv, ReadyInv, Inv, ItemsKnown, Due, VouchedFor, Past;
    PastAcked(w.run, n);
  }

  /** A watermark that is due gets to the engine. */
  lemma AckOut(w: World, h: string, n: nat) returns (es: seq<Event>)
    requires Good(w) && Live(w, h) && Due(w.claims[h].acks, h, w.procs[w.claims[h].pid], n)
    ensures CanRun(w, es) && AllOwn(es, h, w.claims[h].pid) && Good(RunWorld(w, es))
    ensures var t := RunWorld(w, es);
      && h in t.claims && t.claims[h].inbox == w.claims[h].inbox && t.run.s.handles == w.run.s.handles
      && (h in w.run.s.handles ==> Past(t.run.s, n))
  {
    hide Good, CanHappen, Happen, CanRun, RunWorld, Own, Due, Past, Flushed;
    var commits := CommitAll(w, h, n);
    var u := RunWorld(w, commits);
    var out := FlushOut(u, h, n);
    RunOn(w, commits, out);
    es := commits + out;
  }

  lemma FlushOut(w: World, h: string, n: nat) returns (es: seq<Event>)
    requires Good(w) && Live(w, h) && w.claims[h].acks.pending >= n
    ensures CanRun(w, es) && AllOwn(es, h, w.claims[h].pid) && Good(RunWorld(w, es))
    ensures var t := RunWorld(w, es);
      && h in t.claims && t.claims[h].inbox == w.claims[h].inbox && t.run.s.handles == w.run.s.handles
      && (h in w.run.s.handles ==> Past(t.run.s, n))
  {
    hide Good, CanHappen, Happen, CanRun, RunWorld, Own, Past, Flushed;
    FlushStep(w, h);
    StepKeepsGood(w, Flush(h));
    var v := Happen(w, Flush(h));
    TakenOf(v, h);
    var takes := TakeAll(v, h);
    var t := RunWorld(v, takes);
    if h in t.run.s.handles {
      WireOut(t, h, n);
    }
    First(w, Flush(h), takes);
    es := [Flush(h)] + takes;
  }

  lemma TakenOf(w: World, h: string)
    requires Good(w) && h in w.claims
    ensures w.claims[h].acks.taken <= |w.claims[h].acks.wire|
  {
    ReadyOf(w, h);
    hide Good, ReadyInv, WorldInv;
  }

  // --- The whole way ---

  /** A claim of a process that runs and whose client reads on. */
  predicate Working(w: World, h: string) { Reading(w, h) && !w.claims[h].failed }

  lemma Vouched(w: World, h: string)
    requires Good(w) && h in w.claims
    requires var b := w.claims[h].inbox;
      b.probed >= b.delivered && b.handled == |b.entries| && !b.busy
    ensures w.claims[h].inbox.processed >= w.claims[h].inbox.delivered
  {
    hide *;
    InboxOf(w, h);
    AllBegun(w.claims[h].inbox);
  }

  lemma AllBegun(b: Inbox)
    requires VouchedFor(b) && b.handled == |b.entries| && !b.busy
    ensures b.probed <= b.processed
  {
    hide MaxProbe;
    assert b.entries[..|b.entries|] == b.entries;
  }

  /** Reading and handling all there is leaves the last line vouched for. */
  lemma WorkOff(w: World, h: string) returns (es: seq<Event>, d: Inbox)
    requires Good(w) && Reading(w, h)
    ensures Becomes(w, h, es, w.claims[h].(inbox := d)) && Good(SetClaim(w, h, w.claims[h].(inbox := d)))
    ensures InIds(d.entries) == InIds(w.claims[h].inbox.entries) && d.delivered == w.claims[h].inbox.delivered
    ensures d.handled == |d.entries| && !d.busy && d.processed >= d.delivered
  {
    hide Good, CanHappen, Happen, CanRun, RunWorld, Own, InIds;
    var c := w.claims[h];
    var first, one := ReadMany(w, h);
    var u := SetClaim(w, h, c.(inbox := one));
    var works;
    works, d := HandleAll(u, h);
    RunOn(w, first, works);
    es := first + works;
    var t := SetClaim(w, h, c.(inbox := d));
    assert SetClaim(u, h, c.(inbox := d)) == t;
    RunKeepsGood(w, es);
    Vouched(t, h);
  }

  /** The ack loop's next watermark covers all that is vouched for. */
  lemma TickOut(w: World, h: string) returns (es: seq<Event>)
    requires Good(w) && Live(w, h)
    ensures CanRun(w, es) && AllOwn(es, h, w.claims[h].pid) && Good(RunWorld(w, es))
    ensures var t := RunWorld(w, es);
      && h in t.claims && t.claims[h].inbox == w.claims[h].inbox && t.run.s.handles == w.run.s.handles
      && (h in w.run.s.handles ==> Past(t.run.s, w.claims[h].inbox.processed))
  {
    hide Good, CanHappen, Happen, CanRun, RunWorld, Own, Due, Past;
    var c := w.claims[h];
    ReadyOfGood(w, h);
    if c.inbox.processed > c.acks.queued {
      TickStep(w, h);
      var rest := AckOut(Happen(w, Tick(h)), h, c.inbox.processed);
      First(w, Tick(h), rest);
      es := [Tick(h)] + rest;
    } else {
      es := AckOut(w, h, c.acks.queued);
      if h in w.run.s.handles {
        PastLess(RunWorld(w, es).run.s, c.acks.queued, c.inbox.processed);
      }
    }
  }

  lemma PastLess(s: State, n: nat, m: nat)
    requires Past(s, n) && m <= n
    ensures Past(s, m)
  {}

  lemma ReadyOfGood(w: World, h: string)
    requires Good(w) && h in w.claims
    ensures w.claims[h].pid in w.procs
    ensures Due(w.claims[h].acks, h, w.procs[w.claims[h].pid], w.claims[h].acks.queued)
  {
    ReadyOf(w, h);
    hide WorldInv, ReadyInv, Due;
  }

  lemma TickStep(w: World, h: string)
    requires Good(w) && Live(w, h) && w.claims[h].inbox.processed > w.claims[h].acks.queued
    ensures CanHappen(w, Tick(h)) && Own(Tick(h), h, w.claims[h].pid)
    ensures var v, c := Happen(w, Tick(h)), w.claims[h];
      && Good(v) && Live(v, h) && v.claims[h].inbox == c.inbox && v.claims[h].pid == c.pid && v.run == w.run
      && Due(v.claims[h].acks, h, v.procs[c.pid], c.inbox.processed)
  {
    assert CanHappen(w, Tick(h));
    TickIs(w, h);
    StepKeepsGood(w, Tick(h));
    hide Good, CanHappen, Happen, Due;
    ReadyOfGood(Happen(w, Tick(h)), h);
  }

  /** Whatever the relay went through, a working claim can still do its part, by steps of
      its own alone: handle every line it was delivered, commit what they led to, and, if
      the engine still knows the claim, have the engine take an ack of the last of them
      and forget all it held up to there. */
  lemma DeliveredLinesGetAcked(cap: nat, link: Link, handle: string, pid: Pid, events: seq<Event>, h: string)
      returns (more: seq<Event>)
    requires CanRun(Start(cap, link, handle, pid), events)
    requires Working(RunWorld(Start(cap, link, handle, pid), events), h)
    ensures CanRun(Start(cap, link, handle, pid), events + more)
    ensures var w, t := RunWorld(Start(cap, link, handle, pid), events),
                        RunWorld(Start(cap, link, handle, pid), events + more);
      && AllOwn(more, h, w.claims[h].pid) && h in t.claims
      && var b, d := w.claims[h].inbox, t.claims[h].inbox;
      && d.delivered == b.delivered == LastIn(b.entries) && InIds(d.entries) == InIds(b.entries)
      && d.handled == |d.entries| && !d.busy
      && (h in w.run.s.handles ==> Past(t.run.s, b.delivered))
  {
    var s := Start(cap, link, handle, pid);
    var w := RunWorld(s, events);
    StartIsGood(cap, link, handle, pid);
    RunKeepsGood(s, events);
    LastDelivered(w, h);
    hide Good, CanHappen, Happen, CanRun, RunWorld, Own, InIds, Past, LastIn, Start;
    var works, d := WorkOff(w, h);
    var u := RunWorld(w, works);
    var acks := TickOut(u, h);
    RunOn(w, works, acks);
    more := works + acks;
    RunOn(s, events, more);
    if h in w.run.s.handles {
      PastLess(RunWorld(u, acks).run.s, d.processed, d.delivered);
    }
  }

  lemma LastDelivered(w: World, h: string)
    requires Good(w) && h in w.claims
    ensures w.claims[h].inbox.delivered == LastIn(w.claims[h].inbox.entries)
  {
    InboxOf(w, h);
    hide Good, LastIn, ProbesVouch, Mark;
  }

  /** Nor does it take reading on: with what was handled so far and nothing more, every line
      but the last one begun can get acked, and every line a probe has vouched for. */
  lemma EarlierLinesGetAcked(cap: nat, link: Link, handle: string, pid: Pid, events: seq<Event>, h: string)
      returns (more: seq<Event>)
    requires CanRun(Start(cap, link, handle, pid), events)
    requires var w := RunWorld(Start(cap, link, handle, pid), events); Live(w, h) && !w.claims[h].failed
    ensures CanRun(Start(cap, link, handle, pid), events + more)
    ensures var w, t := RunWorld(Start(cap, link, handle, pid), events),
                        RunWorld(Start(cap, link, handle, pid), events + more);
      var b := w.claims[h].inbox;
      && AllOwn(more, h, w.claims[h].pid) && h in t.claims && t.claims[h].inbox == b && Started(b) <= |b.entries|
      && (h in w.run.s.handles ==>
            && Past(t.run.s, BeforeLast(InIds(b.entries[..Started(b)])))
            && Past(t.run.s, MaxProbe(b.entries[..Started(b)])))
  {
    var s := Start(cap, link, handle, pid);
    var w := RunWorld(s, events);
    StartIsGood(cap, link, handle, pid);
    RunKeepsGood(s, events);
    WatermarkCovers(w, h);
    hide Good, CanHappen, Happen, CanRun, RunWorld, Own, InIds, Past, Start, MaxProbe, BeforeLast, Started;
    more := TickOut(w, h);
    RunOn(s, events, more);
    var b := w.claims[h].inbox;
    if h in w.run.s.handles {
      PastLess(RunWorld(w, more).run.s, b.processed, BeforeLast(InIds(b.entries[..Started(b)])));
      PastLess(RunWorld(w, more).run.s, b.processed, MaxProbe(b.entries[..Started(b)]));
    }
  }

  lemma WatermarkCovers(w: World, h: string)
    requires Good(w) && h in w.claims
    ensures var b := w.claims[h].inbox;
      && Started(b) <= |b.entries| && 0 <= MaxProbe(b.entries[..Started(b)]) <= b.processed
      && BeforeLast(InIds(b.entries[..Started(b)])) <= b.processed
  {
    InboxOf(w, h);
    hide Good, InboxInv, InIds, BeforeLast;
    var b := w.claims[h].inbox;
    MaxProbeNat(b.entries[..Started(b)]);
  }

  lemma MaxProbeNat(es: seq<Entry>)
    ensures MaxProbe(es) >= 0
  {}

  /** And when its client has returned, the last watermark covers every line it handled. */
  lemma HandledLinesGetAcked(cap: nat, link: Link, handle: string, pid: Pid, events: seq<Event>, h: string)
      returns (more: seq<Event>)
    requires CanRun(Start(cap, link, handle, pid), events)
    requires var w := RunWorld(Start(cap, link, handle, pid), events);
      Live(w, h) && w.claims[h].returned && !w.claims[h].failed && !w.claims[h].inbox.busy
    ensures CanRun(Start(cap, link, handle, pid), events + more)
    ensures var w, t := RunWorld(Start(cap, link, handle, pid), events),
                        RunWorld(Start(cap, link, handle, pid), events + more);
      var b := w.claims[h].inbox;
      && AllOwn(more, h, w.claims[h].pid) && b.handled <= |b.entries|
      && (h in w.run.s.handles ==> Past(t.run.s, LastIn(b.entries[..b.handled])))
  {
    var s := Start(cap, link, handle, pid);
    var w := RunWorld(s, events);
    StartIsGood(cap, link, handle, pid);
    RunKeepsGood(s, events);
    LastHandled(w, h);
    hide Good, CanHappen, Happen, CanRun, RunWorld, Own, InIds, Past, LastIn, Start, Due, Live;
    more := FinalOut(w, h);
    RunOn(s, events, more);
  }

  lemma FinalOut(w: World, h: string) returns (es: seq<Event>)
    requires Good(w) && Live(w, h) && w.claims[h].returned && !w.claims[h].inbox.busy
    ensures CanRun(w, es) && AllOwn(es, h, w.claims[h].pid)
    ensures h in w.run.s.handles ==> Past(RunWorld(w, es).run.s, w.claims[h].inbox.lastSeq)
  {
    hide Good, CanHappen, Happen, CanRun, RunWorld, Own, Past, Due, Live;
    InClaims(w, h);
    var b := w.claims[h].inbox;
    if b.lastSeq > 0 {
      FinalStep(w, h);
      var rest := AckOut(Happen(w, FinalAck(h)), h, b.lastSeq);
      First(w, FinalAck(h), rest);
      es := [FinalAck(h)] + rest;
    } else {
      es := [];
      Nothing(w);
      AtStart(w);
    }
  }

  lemma LastHandled(w: World, h: string)
    requires Good(w) && h in w.claims && !w.claims[h].inbox.busy
    ensures var b := w.claims[h].inbox; b.handled <= |b.entries| && b.lastSeq == LastIn(b.entries[..b.handled])
  {
    InboxOf(w, h);
    hide Good, LastIn, ProbesVouch, Mark;
  }

  lemma AtStart(w: World)
    requires Good(w)
    ensures Past(w.run.s, 0)
  {
    GoodParts(w);
    hide Good, WorldInv, ReadyInv, ItemsKnown, Inv, Past;
    PastAcked(w.run, 0);
  }

  lemma FinalStep(w: World, h: string)
    requires Good(w) && Live(w, h) && w.claims[h].returned && !w.claims[h].inbox.busy && w.claims[h].inbox.lastSeq > 0
    ensures CanHappen(w, FinalAck(h)) && Own(FinalAck(h), h, w.claims[h].pid)
    ensures var v, c := Happen(w, FinalAck(h)), w.claims[h];
      && Good(v) && Live(v, h) && v.claims[h] == c && v.run == w.run
      && Due(v.claims[h].acks, h, v.procs[c.pid], c.inbox.lastSeq)
  {
    var c := w.claims[h];
    CanFinish(w, h);
    hide *;
    DoneInItems(w, h);
    StepKeepsGood(w, FinalAck(h));
    PushedDue(c.acks, h, w.procs[c.pid], c.inbox.lastSeq);
  }

  lemma CanFinish(w: World, h: string)
    requires Live(w, h) && w.claims[h].returned && !w.claims[h].inbox.busy && w.claims[h].inbox.lastSeq > 0
    ensures CanHappen(w, FinalAck(h)) && Own(FinalAck(h), h, w.claims[h].pid)
    ensures var v, c := Happen(w, FinalAck(h)), w.claims[h];
      && Live(v, h) && v.claims == w.claims && v.run == w.run
      && v.procs[c.pid] == w.procs[c.pid].(items := w.procs[c.pid].items + [Barrier(h, c.inbox.lastSeq)])
  {}

  lemma DoneInItems(w: World, h: string)
    requires Good(w) && h in w.claims && w.claims[h].pid in w.procs
    ensures w.procs[w.claims[h].pid].done <= |w.procs[w.claims[h].pid].items|
  {
    GoodParts(w);
    hide Good, WorldInv, ReadyInv, Inv;
  }

  lemma PushedDue(a: Acks, h: string, p: Proc, n: nat)
    requires p.done <= |p.items|
    ensures Due(a, h, p.(items := p.items + [Barrier(h, n)]), n)
  {
    assert p.(items := p.items + [Barrier(h, n)]).items[|p.items|] == Barrier(h, n);
  }
}
