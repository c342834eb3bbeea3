/** What every run of the relay keeps: no line is lost without a trace, and the
    chain of watermarks from the engine's acks back to the lines it numbered. */
module RelayTheorems {
  import opened GoStrings
  import opened Buffer
  import opened SessionSpec
  import opened SessionRun
  import opened SessionTheorems
  import opened Relay

  ghost predicate ClaimInv(w: World, h: string)
    requires h in w.claims
  {
    var c := w.claims[h];
    && h in w.run.out && c.pid in w.procs
    && StreamInv(c, w.run.out[h])
    && InboxInv(c.inbox)
    && BarrierInv(c.inbox, h, w.procs[c.pid])
    && AckInv(c.inbox, c.acks, h, w.procs[c.pid])
  }

  /** What waits on a process's loop is about a claim of that very process. */
  predicate ItemsKnown(w: World) {
    && (forall pid :: pid in w.procs ==> w.procs[pid].done <= |w.procs[pid].items|)
    && (forall pid, i :: pid in w.procs && 0 <= i < |w.procs[pid].items| ==>
          var h := w.procs[pid].items[i].handle; h in w.claims && w.claims[h].pid == pid)
  }

  ghost predicate CommittedBy(w: World, h: string, k: nat) {
    h in w.claims && w.claims[h].pid in w.procs &&
    var b, p := w.claims[h].inbox, w.procs[w.claims[h].pid];
    b.handled <= |b.entries| && k in InIds(b.entries[..b.handled])
    && forall i :: EventAt(p, i, h) && p.items[i].id == k ==> i < p.done
  }

  /** Some process handled line k and committed every event its handlers emitted. */
  ghost predicate Committed(w: World, k: nat) { exists h :: CommittedBy(w, h, k) }

  /** What the engine forgot on the app's word is committed, but for what it shed
      before or what the replay stands for. */
  ghost predicate SafeInv(w: World) {
    forall k: nat :: 1 <= k <= w.run.s.acked ==>
      k in w.run.shed || Committed(w, k) || k <= w.run.s.trk.burstCovered
  }

  /** The engine's watermark is one that some claim's acks carried. */
  ghost predicate AckedInv(w: World) {
    w.run.s.acked == 0 || exists h :: AckedVia(w, h)
  }

  predicate AckedVia(w: World, h: string) { h in w.claims && w.run.s.acked <= w.claims[h].acks.accepted }

  /** A claim starts at what was acked or is replayed, and no claim starts above. */
  ghost predicate StartInv(r: Run) {
    forall h :: h in r.start ==> r.start[h] <= Max(r.s.acked, r.s.trk.burstCovered)
  }

  ghost predicate WorldInv(w: World) {
    && Inv(w.run) && StartInv(w.run)
    && w.claims.Keys == w.run.out.Keys
    && ItemsKnown(w)
    && (forall h :: h in w.claims ==> ClaimInv(w, h))
    && SafeInv(w) && AckedInv(w)
  }

  lemma StartWorldInv(cap: nat, link: Link, handle: string, pid: Pid)
    ensures WorldInv(Start(cap, link, handle, pid))
  {
    var w := Start(cap, link, handle, pid);
    InitInv(cap, link, handle);
    FreshClaim(pid, handle, w.procs[pid]);
  }

  lemma FreshClaim(pid: Pid, handle: string, p: Proc)
    requires p.done <= |p.items| && forall i :: 0 <= i < |p.items| ==> p.items[i].handle != handle
    ensures var c := NewClaim(pid);
            StreamInv(c, []) && InboxInv(c.inbox) && BarrierInv(c.inbox, handle, p)
              && AckInv(c.inbox, c.acks, handle, p)
  {
    assert InIds([]) == [] && LineIds([]) == [];
  }

  // --- Framing ---

  /** What a claim's invariant depends on. */
  lemma ClaimFramed(w: World, v: World, h: string)
    requires h in w.claims && h in v.claims && ClaimInv(w, h)
    requires v.claims[h] == w.claims[h]
    requires h in v.run.out && w.run.out[h] <= v.run.out[h]
    requires var pid := w.claims[h].pid;
             pid in v.procs && v.procs[pid].items == w.procs[pid].items && v.procs[pid].done == w.procs[pid].done
    ensures ClaimInv(v, h)
  {
    var more := v.run.out[h][|w.run.out[h]|..];
    assert v.run.out[h] == w.run.out[h] + more;
    StreamGrows(w.claims[h], w.run.out[h], more);
    var pid := w.claims[h].pid;
    assert forall i :: EventAt(v.procs[pid], i, h) <==> EventAt(w.procs[pid], i, h);
    assert forall i :: BarrierAt(v.procs[pid], i, h) <==> BarrierAt(w.procs[pid], i, h);
    hide StreamInv, InboxInv, Mark;
  }

  /** From w to v, claim h got only further. */
  ghost predicate Progress(w: World, v: World, h: string)
    requires h in w.claims
  {
    h in v.claims && v.claims[h].pid == w.claims[h].pid && w.claims[h].pid in w.procs && w.claims[h].pid in v.procs &&
    var b, d := w.claims[h].inbox, v.claims[h].inbox;
    var p, q := w.procs[w.claims[h].pid], v.procs[w.claims[h].pid];
    && b.entries <= d.entries && b.handled <= d.handled <= |d.entries| && b.handled <= |b.entries|
    && p.items <= q.items && p.done <= q.done
    && w.claims[h].acks.accepted <= v.claims[h].acks.accepted
    && forall i :: |p.items| <= i && EventAt(q, i, h) ==> q.items[i].id !in InIds(b.entries[..b.handled])
  }

  lemma CommittedStays(w: World, v: World)
    requires forall h :: h in w.claims ==> Progress(w, v, h)
    ensures forall k :: Committed(w, k) ==> Committed(v, k)
  {
    forall h, k | CommittedBy(w, h, k)
      ensures CommittedBy(v, h, k)
    {
      var b, d := w.claims[h].inbox, v.claims[h].inbox;
      MarkStays(b, d, k);
      InIdsPrefix(d.entries[..d.handled], b.handled);
      assert d.entries[..d.handled][..b.handled] == b.entries[..b.handled];
      var p, q := w.procs[w.claims[h].pid], v.procs[w.claims[h].pid];
      assert forall i :: EventAt(q, i, h) && i < |p.items| ==> EventAt(p, i, h) && q.items[i] == p.items[i];
    }
    forall k | Committed(w, k)
      ensures Committed(v, k)
    {
      var h :| CommittedBy(w, h, k);
      assert CommittedBy(v, h, k);
    }
  }

  lemma SafeStays(w: World, v: World)
    requires SafeInv(w) && forall h :: h in w.claims ==> Progress(w, v, h)
    requires v.run.s.acked == w.run.s.acked && w.run.shed <= v.run.shed
    requires w.run.s.trk.burstCovered <= v.run.s.trk.burstCovered
    ensures SafeInv(v)
  {
    CommittedStays(w, v);
    hide Progress, Committed;
  }

  lemma AckedViaStays(w: World, v: World)
    requires AckedInv(w) && forall h :: h in w.claims ==> Progress(w, v, h)
    requires v.run.s.acked == w.run.s.acked
    ensures AckedInv(v)
  {
    if w.run.s.acked != 0 {
      var h :| AckedVia(w, h);
      assert Progress(w, v, h);
      assert AckedVia(v, h);
    }
  }

  /** Putting the parts back together. */
  lemma WorldFrom(w: World, v: World)
    requires WorldInv(w)
    requires Inv(v.run) && StartInv(v.run) && v.claims.Keys == v.run.out.Keys && ItemsKnown(v)
    requires forall h :: h in v.claims ==> ClaimInv(v, h)
    requires forall h :: h in w.claims ==> Progress(w, v, h)
    requires v.run.s.acked == w.run.s.acked && w.run.shed <= v.run.shed
    requires w.run.s.trk.burstCovered <= v.run.s.trk.burstCovered
    ensures WorldInv(v)
  {
    hide Inv, StartInv, ItemsKnown, ClaimInv, Progress, SafeInv, AckedInv;
    SafeStays(w, v);
    AckedViaStays(w, v);
  }

  /** What a step may do to one claim while it leaves the event loops alone. */
  ghost predicate MayMove(w: World, h: string, c: AppClaim) {
    h in w.claims && h in w.run.out && c.pid == w.claims[h].pid && c.pid in w.procs
    && StreamInv(c, w.run.out[h]) && InboxInv(c.inbox)
    && w.claims[h].inbox.entries <= c.inbox.entries
    && w.claims[h].inbox.handled <= c.inbox.handled <= |c.inbox.entries|
    && AckInv(c.inbox, c.acks, h, w.procs[c.pid])
    && w.claims[h].acks.accepted <= c.acks.accepted
  }

  lemma ClaimMoves(w: World, h: string, c: AppClaim)
    requires WorldInv(w) && MayMove(w, h, c)
    ensures WorldInv(SetClaim(w, h, c))
  {
    hide Inv, StartInv, SafeInv, AckedInv, ClaimInv, Progress, ItemsKnown, MayMove;
    var v := SetClaim(w, h, c);
    forall g | g in w.claims
      ensures ClaimInv(v, g) && Progress(w, v, g)
    {
      MovedOrNot(w, h, c, g);
    }
    MoveKeepsItems(w, h, c);
    WorldFrom(w, v);
  }

  lemma MoveKeepsItems(w: World, h: string, c: AppClaim)
    requires ItemsKnown(w) && MayMove(w, h, c)
    ensures h in w.claims && ItemsKnown(SetClaim(w, h, c))
  {
    hide StreamInv, InboxInv, AckInv;
  }

  lemma MovedOrNot(w: World, h: string, c: AppClaim, g: string)
    requires g in w.claims && ClaimInv(w, g) && MayMove(w, h, c)
    ensures ClaimInv(SetClaim(w, h, c), g) && Progress(w, SetClaim(w, h, c), g)
  {
    var v := SetClaim(w, h, c);
    if g == h {
      MovedClaim(w, h, c);
    } else {
      ClaimFramed(w, v, g);
    }
    InboxSizes(w.claims[g].inbox);
    NoNewItems(w, v, g);
    hide ClaimInv, Progress;
  }

  lemma MovedClaim(w: World, h: string, c: AppClaim)
    requires MayMove(w, h, c) && ClaimInv(w, h)
    ensures ClaimInv(SetClaim(w, h, c), h)
  {
    hide InboxInv, StreamInv, BarrierInv, AckInv;
    var b := w.claims[h];
    InboxSizes(b.inbox);
    InboxGrows(b.inbox, c.inbox, b.acks, h, w.procs[c.pid]);
  }

  lemma NoNewItems(w: World, v: World, h: string)
    requires h in w.claims && ClaimInv(w, h)
    requires h in v.claims && v.claims[h].pid == w.claims[h].pid && w.claims[h].pid in v.procs
    requires var b, d := w.claims[h].inbox, v.claims[h].inbox;
             b.entries <= d.entries && b.handled <= d.handled <= |d.entries|
    requires v.procs[w.claims[h].pid].items == w.procs[w.claims[h].pid].items
    requires w.procs[w.claims[h].pid].done <= v.procs[w.claims[h].pid].done
    requires w.claims[h].acks.accepted <= v.claims[h].acks.accepted
    ensures Progress(w, v, h)
  {
    InboxSizes(w.claims[h].inbox);
    hide InboxInv, StreamInv, BarrierInv, AckInv;
  }

  // --- Steps of the engine ---

  lemma StepExtendsOut(r: Run, step: Step)
    requires Enabled(r, step) && Inv(r)
    ensures var t := Next(r, step);
            && (forall h :: h in r.out ==> h in t.out && r.out[h] <= t.out[h])
            && (!step.Claim? ==> t.out.Keys == r.out.Keys && t.start == r.start)
            && (!step.Acknowledge? ==> t.s.acked == r.s.acked)
  {
    hide PullFrames, ReplayBurst, Above, Batch, SentAfter, ClosesNow, Inv, BufferInv, Classify, ShedRun, Appended,
      Grows;
    match step
    case Receive(raw, at) =>
      InvParts(r);
      ReceiveKeepsBuffer(r, raw, at);
      AckedStays(r, raw, at);
    case _ =>
  }

  lemma AckedStays(r: Run, raw: string, at: int)
    requires BufferInv(r) && Enabled(r, Receive(raw, at))
    ensures Next(r, Receive(raw, at)).s.acked == r.s.acked
  {
    hide Track, Classify;
    if Classify(raw).Relayed? && r.s.conn.Open? {
      AppendKeepsBuffer(r, Classify(raw).line, raw, at);
      ShedRunKeeps(Appended(r, Classify(raw).line, raw, at));
    }
  }

  lemma EngineKeepsStart(r: Run, step: Step)
    requires Inv(r) && StartInv(r) && Enabled(r, step) && !step.Claim?
    ensures StartInv(Next(r, step))
  {
    StepExtendsOut(r, step);
    StepGrows(r, step);
    hide Next, Enabled, Inv;
  }

  lemma EngineMoves(w: World, step: Step)
    requires WorldInv(w) && Enabled(w.run, step) && !step.Claim? && !step.Acknowledge?
    ensures WorldInv(w.(run := Next(w.run, step)))
  {
    hide Next, Enabled, Inv, SafeInv, AckedInv, StartInv, ClaimInv, Progress, BufferInv, ItemsKnown, Grows;
    var v := w.(run := Next(w.run, step));
    InvParts(w.run);
    StepKeepsInv(w.run, step);
    StepExtendsOut(w.run, step);
    EngineKeepsStart(w.run, step);
    EngineGrows(w.run, step);
    forall g | g in w.claims
      ensures ClaimInv(v, g) && Progress(w, v, g)
    {
      EngineFramed(w, v, g);
    }
    SameItems(w, v);
    WorldFrom(w, v);
  }

  lemma SameItems(w: World, v: World)
    requires ItemsKnown(w) && v == w.(run := v.run)
    ensures ItemsKnown(v)
  {}

  lemma EngineGrows(r: Run, step: Step)
    requires BufferInv(r) && Enabled(r, step)
    ensures r.shed <= Next(r, step).shed && r.s.trk.burstCovered <= Next(r, step).s.trk.burstCovered
  {
    StepGrows(r, step);
  }

  lemma InvParts(r: Run)
    requires Inv(r)
    ensures BufferInv(r) && DeliveryInv(r)
  {}

  lemma EngineFramed(w: World, v: World, g: string)
    requires g in w.claims && ClaimInv(w, g) && v == w.(run := v.run)
    requires forall h :: h in w.run.out ==> h in v.run.out && w.run.out[h] <= v.run.out[h]
    ensures ClaimInv(v, g) && Progress(w, v, g)
  {
    ClaimFramed(w, v, g);
    InboxSizes(w.claims[g].inbox);
    NoNewItems(w, v, g);
  }

  // --- Steps of the event loops ---

  /** What a claim was handed rises strictly, from above 0. */
  lemma IdsIncrease(r: Run, c: AppClaim, h: string)
    requires h in r.out && h in r.start && Handed(r, h) && StreamInv(c, r.out[h])
    ensures Increasing([0] + InIds(c.inbox.entries))
  {
    var ids, all := InIds(c.inbox.entries), LineIds(r.out[h]);
    hide InIds, LineIds;
    forall i | 0 <= i < |ids|
      ensures ids[i] > 0
    {
      assert all[i] in all && all[i] == ids[i];
    }
    assert forall i, j :: 0 <= i < j < |ids| ==> ids[i] == all[i] < all[j] == ids[j];
  }

  lemma StreamOf(w: World, h: string)
    requires WorldInv(w) && h in w.claims
    ensures h in w.run.out && h in w.run.start && Handed(w.run, h) && ClaimInv(w, h)
    ensures StreamInv(w.claims[h], w.run.out[h]) && InboxInv(w.claims[h].inbox)
  {
    hide BufferInv, LossInv, ClosedInv, CapInv, SafeInv, AckedInv, ItemsKnown, StartInv, StreamInv, InboxInv,
      BarrierInv, AckInv, Handed;
  }

  /** An item that may join the loop of process pid: see PushKeepsAcks. */
  ghost predicate MayJoin(w: World, pid: Pid, item: Item) {
    item.handle in w.claims && w.claims[item.handle].pid == pid &&
    var b := w.claims[item.handle].inbox;
    && b.handled <= |b.entries|
    && (item.Barrier? ==> Mark(b, item.id))
    && (item.LineEvent? ==> forall n: nat :: Mark(b, n) ==> n < item.id)
  }

  lemma ItemJoins(w: World, pid: Pid, item: Item)
    requires WorldInv(w) && pid in w.procs && MayJoin(w, pid, item)
    ensures WorldInv(Queue(w, pid, item))
  {
    hide Inv, StartInv, SafeInv, AckedInv, ClaimInv, Progress, Mark;
    var v := Queue(w, pid, item);
    assert ItemsKnown(v);
    hide MayJoin, ItemsKnown;
    forall g | g in w.claims
      ensures ClaimInv(v, g) && Progress(w, v, g)
    {
      QueuedClaim(w, pid, item, g);
    }
    WorldFrom(w, v);
  }

  lemma QueuedClaim(w: World, pid: Pid, item: Item, g: string)
    requires g in w.claims && ClaimInv(w, g) && pid in w.procs && MayJoin(w, pid, item)
    ensures ClaimInv(Queue(w, pid, item), g) && Progress(w, Queue(w, pid, item), g)
  {
    var v := Queue(w, pid, item);
    InboxSizes(w.claims[g].inbox);
    if w.claims[g].pid != pid {
      ClaimFramed(w, v, g);
      NoNewItems(w, v, g);
    } else {
      var c, p := w.claims[g], w.procs[pid];
      PushKeepsAcks(c.inbox, c.acks, g, p, item);
      ItemsPushed(p, item);
      IdIsMark(c.inbox, item.id);
      hide InboxInv, StreamInv, BarrierInv, AckInv, Mark;
    }
  }

  lemma IdIsMark(b: Inbox, n: nat)
    requires b.handled <= |b.entries|
    ensures n in InIds(b.entries[..b.handled]) ==> Mark(b, n)
  {}

  lemma MarksBelow(b: Inbox)
    requires b.handled < |b.entries| && b.entries[b.handled].LineEntry? && Increasing([0] + InIds(b.entries))
    ensures forall n: nat :: Mark(b, n) ==> n < b.entries[b.handled].id
  {
    forall n: nat | Mark(b, n)
      ensures n < b.entries[b.handled].id
    {
      MarkBelow(b, n);
    }
  }

  lemma EmitMayJoin(w: World, h: string)
    requires CanHappen(w, Emit(h)) && Increasing([0] + InIds(w.claims[h].inbox.entries))
    ensures var c := w.claims[h];
            && c.pid in w.procs && c.inbox.handled < |c.inbox.entries|
            && MayJoin(w, c.pid, LineEvent(h, c.inbox.entries[c.inbox.handled].id))
            && Happen(w, Emit(h)) == Queue(w, c.pid, LineEvent(h, c.inbox.entries[c.inbox.handled].id))
  {
    hide Increasing, InIds, Mark, Queue;
    MarksBelow(w.claims[h].inbox);
  }

  lemma ClaimOf(w: World, h: string)
    requires CanHappen(w, Emit(h))
    ensures h in w.claims
  {}

  lemma EmitMoves(w: World, h: string)
    requires WorldInv(w) && CanHappen(w, Emit(h))
    ensures WorldInv(Happen(w, Emit(h)))
  {
    hide *;
    ClaimOf(w, h);
    var c := w.claims[h];
    StreamOf(w, h);
    IdsIncrease(w.run, c, h);
    EmitMayJoin(w, h);
    ItemJoins(w, c.pid, LineEvent(h, c.inbox.entries[c.inbox.handled].id));
  }

  lemma BarrierMoves(w: World, h: string, n: nat)
    requires WorldInv(w) && h in w.claims && w.claims[h].pid in w.procs
    requires n == w.claims[h].inbox.processed || (n == w.claims[h].inbox.lastSeq && !w.claims[h].inbox.busy)
    ensures WorldInv(Queue(w, w.claims[h].pid, Barrier(h, n)))
  {
    hide *;
    StreamOf(w, h);
    HandledMark(w.claims[h].inbox, n);
    BarrierMayJoin(w, h, n);
    ItemJoins(w, w.claims[h].pid, Barrier(h, n));
  }

  lemma HandledMark(b: Inbox, n: nat)
    requires InboxInv(b) && (n == b.processed || (n == b.lastSeq && !b.busy))
    ensures b.handled <= |b.entries| && Mark(b, n)
  {
    hide InIds, ProbesVouch;
  }

  lemma BarrierMayJoin(w: World, h: string, n: nat)
    requires h in w.claims && w.claims[h].inbox.handled <= |w.claims[h].inbox.entries| && Mark(w.claims[h].inbox, n)
    ensures MayJoin(w, w.claims[h].pid, Barrier(h, n))
  {
    hide Mark;
  }

  lemma CommitMoves(w: World, pid: Pid)
    requires WorldInv(w) && CanHappen(w, Commit(pid))
    ensures WorldInv(Happen(w, Commit(pid)))
  {
    hide Inv, StartInv, SafeInv, AckedInv, ClaimInv, Progress;
    var v := Happen(w, Commit(pid));
    assert ItemsKnown(v);
    forall g | g in w.claims
      ensures ClaimInv(v, g) && Progress(w, v, g)
    {
      CommittedClaim(w, pid, g);
    }
    WorldFrom(w, v);
  }

  lemma CommittedClaim(w: World, pid: Pid, g: string)
    requires g in w.claims && ClaimInv(w, g) && ItemsKnown(w) && CanHappen(w, Commit(pid))
    ensures g in Happen(w, Commit(pid)).claims
    ensures ClaimInv(Happen(w, Commit(pid)), g) && Progress(w, Happen(w, Commit(pid)), g)
  {
    hide InboxInv, BarrierInv, AckInv, Progress, InIds, LineIds;
    var v, p := Happen(w, Commit(pid)), w.procs[pid];
    var c := w.claims[g];
    InboxSizes(c.inbox);
    NoNewItems(w, v, g);
    if c.pid == pid {
      var item := p.items[p.done];
      CommitKeepsAcks(c.inbox, c.acks, g, p);
      assert item == Barrier(g, item.id) <==> item.Barrier? && item.handle == g;
      assert v.claims[g] == if item == Barrier(g, item.id) then c.(acks := Settled(c.acks, item.id)) else c;
    } else {
      assert v.claims[g] == c;
      ClaimFramed(w, v, g);
    }
  }

  // --- Claims and processes come and go ---

  lemma ConnectMoves(w: World, link: Link, handle: string, pid: Pid)
    requires WorldInv(w) && CanHappen(w, Connect(link, handle, pid))
    ensures WorldInv(Happen(w, Connect(link, handle, pid)))
  {
    hide *;
    var step := SessionRun.Claim(link, handle);
    ConnectParts(w, link, handle, pid);
    var v := Happen(w, Connect(link, handle, pid));
    InvOfWorld(w);
    StepKeepsInv(w.run, step);
    StepExtendsOut(w.run, step);
    InvParts(w.run);
    EngineGrows(w.run, step);
    forall g | g in v.claims
      ensures ClaimInv(v, g)
      ensures g in w.claims ==> Progress(w, v, g)
    {
      ConnectedClaim(w, link, handle, pid, g);
    }
    ConnectKeepsItems(w, link, handle, pid);
    WorldFrom(w, v);
  }

  lemma InvOfWorld(w: World)
    requires WorldInv(w)
    ensures Inv(w.run)
    ensures forall g :: g in w.claims ==> ClaimInv(w, g)
  {
    hide Inv, StartInv, SafeInv, AckedInv, ClaimInv, ItemsKnown;
  }

  lemma ConnectParts(w: World, link: Link, handle: string, pid: Pid)
    requires CanHappen(w, Connect(link, handle, pid))
    ensures var step, v := SessionRun.Claim(link, handle), Happen(w, Connect(link, handle, pid));
            && Enabled(w.run, step) && handle !in w.claims && pid in w.procs && step.Claim?
            && v.run == Next(w.run, step) && v.claims == w.claims[handle := NewClaim(pid)] && v.procs == w.procs
  {
    hide Next;
  }

  lemma ConnectKeepsItems(w: World, link: Link, handle: string, pid: Pid)
    requires WorldInv(w) && CanHappen(w, Connect(link, handle, pid))
    ensures var v := Happen(w, Connect(link, handle, pid));
            ItemsKnown(v) && StartInv(v.run) && v.claims.Keys == v.run.out.Keys
  {
    hide Inv, SafeInv, AckedInv, ClaimInv, Reusable, ReplayBurst, Above;
  }

  lemma ConnectedClaim(w: World, link: Link, handle: string, pid: Pid, g: string)
    requires WorldInv(w) && CanHappen(w, Connect(link, handle, pid))
    requires g in Happen(w, Connect(link, handle, pid)).claims
    ensures var v := Happen(w, Connect(link, handle, pid));
            ClaimInv(v, g) && (g in w.claims ==> Progress(w, v, g))
  {
    hide Inv, SafeInv, AckedInv, ClaimInv, Reusable, ReplayBurst, Above, StartInv, Progress, InIds, LineIds;
    var v := Happen(w, Connect(link, handle, pid));
    if g in w.claims {
      assert ClaimInv(w, g);
      OldClaim(w, v, g);
    } else {
      var p := w.procs[pid];
      assert forall i :: 0 <= i < |p.items| ==> p.items[i].handle != handle;
      NewClaimInv(w, v, handle, pid);
    }
  }

  lemma OldClaim(w: World, v: World, g: string)
    requires g in w.claims && ClaimInv(w, g)
    requires g in v.claims && v.claims[g] == w.claims[g] && v.procs == w.procs
    requires g in w.run.out && g in v.run.out && v.run.out[g] == w.run.out[g]
    ensures ClaimInv(v, g) && Progress(w, v, g)
  {
    InboxSizes(w.claims[g].inbox);
    ClaimFramed(w, v, g);
    NoNewItems(w, v, g);
  }

  lemma NewClaimInv(w: World, v: World, handle: string, pid: Pid)
    requires WorldInv(w) && pid in w.procs && v.procs == w.procs && handle in v.claims
      && v.claims[handle] == NewClaim(pid)
    requires handle !in w.claims && handle in v.run.out && v.run.out[handle] == []
    ensures ClaimInv(v, handle)
  {
    hide Inv, SafeInv, AckedInv, StartInv;
    var p := w.procs[pid];
    hide ClaimInv;
    assert forall i :: 0 <= i < |p.items| ==> p.items[i].handle != handle;
    FreshClaim(pid, handle, p);
  }

  /** A process starting or dying touches no claim. */
  lemma ProcsMove(w: World, v: World)
    requires WorldInv(w) && v == w.(procs := v.procs) && w.procs.Keys <= v.procs.Keys
    requires forall pid :: pid in w.procs ==> v.procs[pid] == w.procs[pid].(alive := v.procs[pid].alive)
    requires forall pid :: pid in v.procs && pid !in w.procs ==> v.procs[pid] == Proc([], 0, true)
    ensures WorldInv(v)
  {
    hide Inv, StartInv, SafeInv, AckedInv, ClaimInv, Progress;
    assert ItemsKnown(v);
    hide ItemsKnown;
    forall g | g in w.claims
      ensures ClaimInv(v, g) && Progress(w, v, g)
    {
      ProcsMovedClaim(w, v, g);
    }
    WorldFrom(w, v);
  }

  lemma ProcsMovedClaim(w: World, v: World, g: string)
    requires g in w.claims && ClaimInv(w, g) && v == w.(procs := v.procs) && w.procs.Keys <= v.procs.Keys
    requires forall pid :: pid in w.procs ==> v.procs[pid] == w.procs[pid].(alive := v.procs[pid].alive)
    ensures ClaimInv(v, g) && Progress(w, v, g)
  {
    InboxSizes(w.claims[g].inbox);
    hide InboxInv, StreamInv, BarrierInv, AckInv, InIds;
    ClaimFramed(w, v, g);
    NoNewItems(w, v, g);
  }

  // --- Steps of one claim ---

  /** The claim after step e, for the steps that change one claim and no loop. */
  function Moved(w: World, e: Event): Option<(string, AppClaim)>
    requires CanHappen(w, e)
  {
    match e
    case Dispatch(h) => Some((h, Dispatched(w.claims[h], w.run.out[h][w.claims[h].cursor])))
    case Drop(h) => Some((h, w.claims[h].(failed := true)))
    case CloseSession(h) => Some((h, w.claims[h].(closed := true)))
    case Read(h, n) => Some((h, w.claims[h].(inbox := ReadUpTo(w.claims[h].inbox, w.claims[h].closed, n))))
    case Begin(h) => Some((h, w.claims[h].(inbox := Begun(w.claims[h].inbox))))
    case End(h) => Some((h, w.claims[h].(inbox := Ended(w.claims[h].inbox))))
    case Return(h) => Some((h, w.claims[h].(returned := true)))
    case Flush(h) => Some((h, w.claims[h].(acks := Flushed(w.claims[h].acks))))
    case _ => None
  }

  lemma MovedMayMove(w: World, e: Event)
    requires WorldInv(w) && CanHappen(w, e) && Moved(w, e).Some?
    ensures MayMove(w, Moved(w, e).value.0, Moved(w, e).value.1)
  {
    hide *;
    MovedIsClaim(w, e);
    var h := Moved(w, e).value.0;
    StreamOf(w, h);
    MovedMay(w, e);
  }

  lemma MovedIsClaim(w: World, e: Event)
    requires CanHappen(w, e) && Moved(w, e).Some?
    ensures Moved(w, e).value.0 in w.claims
  {}

  /** What a step makes of a claim still fits the frames and the loop it goes with. */
  ghost predicate Fits(c: AppClaim, d: AppClaim, frames: seq<Frame>, h: string, p: Proc) {
    && d.pid == c.pid && StreamInv(d, frames) && InboxInv(d.inbox)
    && c.inbox.entries <= d.inbox.entries && c.inbox.handled <= d.inbox.handled <= |d.inbox.entries|
    && AckInv(d.inbox, d.acks, h, p) && c.acks.accepted <= d.acks.accepted
  }

  ghost predicate Sound(c: AppClaim, frames: seq<Frame>, h: string, p: Proc) {
    && StreamInv(c, frames) && InboxInv(c.inbox) && BarrierInv(c.inbox, h, p) && AckInv(c.inbox, c.acks, h, p)
  }

  lemma FitsFromInbox(c: AppClaim, d: AppClaim, frames: seq<Frame>, h: string, p: Proc)
    requires Sound(c, frames, h, p) && d.pid == c.pid && d.acks == c.acks
    requires StreamInv(d, frames) && InboxInv(d.inbox)
    requires c.inbox.entries <= d.inbox.entries && c.inbox.handled <= d.inbox.handled
    ensures Fits(c, d, frames, h, p)
  {
    InboxSizes(c.inbox);
    InboxSizes(d.inbox);
    hide StreamInv, InboxInv, BarrierInv, AckInv;
    InboxGrows(c.inbox, d.inbox, c.acks, h, p);
  }

  lemma SoundParts(c: AppClaim, frames: seq<Frame>, h: string, p: Proc)
    requires Sound(c, frames, h, p)
    ensures StreamInv(c, frames) && InboxInv(c.inbox)
  {
    hide StreamInv, InboxInv, BarrierInv, AckInv;
  }

  lemma DispatchedParts(c: AppClaim, f: Frame)
    ensures var d := Dispatched(c, f);
            && d.pid == c.pid && d.acks == c.acks
            && c.inbox.entries <= d.inbox.entries && c.inbox.handled == d.inbox.handled
  {}

  lemma DispatchFits(c: AppClaim, frames: seq<Frame>, h: string, p: Proc)
    requires Sound(c, frames, h, p) && c.cursor < |frames| && Increasing(LineIds(frames))
    ensures Fits(c, Dispatched(c, frames[c.cursor]), frames, h, p)
  {
    hide *;
    SoundParts(c, frames, h, p);
    DispatchKeepsStream(c, frames);
    DispatchKeepsInbox(c, frames);
    DispatchedParts(c, frames[c.cursor]);
    FitsFromInbox(c, Dispatched(c, frames[c.cursor]), frames, h, p);
  }

  lemma FlagsFit(c: AppClaim, d: AppClaim, frames: seq<Frame>, h: string, p: Proc)
    requires Sound(c, frames, h, p)
    requires d == c.(failed := d.failed, closed := d.closed, returned := d.returned)
    requires (c.failed ==> d.failed) && (c.closed ==> d.closed)
    ensures Fits(c, d, frames, h, p)
  {
    hide InboxInv, BarrierInv, AckInv, InIds, LineIds, Fits;
    FitsFromInbox(c, d, frames, h, p);
  }

  lemma ReadFits(c: AppClaim, n: nat, frames: seq<Frame>, h: string, p: Proc)
    requires Sound(c, frames, h, p)
    ensures Fits(c, c.(inbox := ReadUpTo(c.inbox, c.closed, n)), frames, h, p)
  {
    ReadKeepsInbox(c.inbox, c.closed, n);
    hide InboxInv, BarrierInv, AckInv, InIds, LineIds, Fits;
    FitsFromInbox(c, c.(inbox := ReadUpTo(c.inbox, c.closed, n)), frames, h, p);
  }

  lemma BeginFits(c: AppClaim, frames: seq<Frame>, h: string, p: Proc)
    requires Sound(c, frames, h, p) && !c.inbox.busy && c.inbox.handled < c.inbox.read <= |c.inbox.entries|
    ensures Fits(c, c.(inbox := Begun(c.inbox)), frames, h, p)
  {
    BeginKeepsInbox(c.inbox);
    hide InboxInv, BarrierInv, AckInv, InIds, LineIds, Fits;
    FitsFromInbox(c, c.(inbox := Begun(c.inbox)), frames, h, p);
  }

  lemma EndFits(c: AppClaim, frames: seq<Frame>, h: string, p: Proc)
    requires Sound(c, frames, h, p) && c.inbox.busy
    ensures Fits(c, c.(inbox := Ended(c.inbox)), frames, h, p)
  {
    EndKeepsInbox(c.inbox);
    hide InboxInv, BarrierInv, AckInv, InIds, LineIds, Fits;
    FitsFromInbox(c, c.(inbox := Ended(c.inbox)), frames, h, p);
  }

  lemma FlushFits(c: AppClaim, frames: seq<Frame>, h: string, p: Proc)
    requires Sound(c, frames, h, p)
    ensures Fits(c, c.(acks := Flushed(c.acks)), frames, h, p)
  {
    InboxSizes(c.inbox);
    hide InboxInv, BarrierInv, AckInv, InIds, LineIds;
    FlushKeepsAcks(c.inbox, c.acks, h, p);
  }

  lemma SoundClaim(w: World, h: string)
    requires h in w.claims && ClaimInv(w, h)
    ensures h in w.run.out && w.claims[h].pid in w.procs
    ensures Sound(w.claims[h], w.run.out[h], h, w.procs[w.claims[h].pid])
  {}

  lemma MovedMay(w: World, e: Event)
    requires CanHappen(w, e) && Moved(w, e).Some? && Moved(w, e).value.0 in w.claims
    requires var h := Moved(w, e).value.0; ClaimInv(w, h) && h in w.run.start && Handed(w.run, h)
    ensures MayMove(w, Moved(w, e).value.0, Moved(w, e).value.1)
  {
    var (h, d) := Moved(w, e).value;
    SoundClaim(w, h);
    var c, frames, p := w.claims[h], w.run.out[h], w.procs[w.claims[h].pid];
    assert Increasing(LineIds(frames));
    hide ClaimInv, Sound, Handed, Increasing, LineIds, InIds, StreamInv, InboxInv, BarrierInv, AckInv;
    assert Fits(c, d, frames, h, p) by {
      hide Fits;
      match e
      case Dispatch(_) => DispatchFits(c, frames, h, p);
      case Read(_, n) => ReadFits(c, n, frames, h, p);
      case Begin(_) => BeginFits(c, frames, h, p);
      case End(_) => EndFits(c, frames, h, p);
      case Flush(_) => FlushFits(c, frames, h, p);
      case _ => FlagsFit(c, d, frames, h, p);
    }
  }

  lemma MovedHappens(w: World, e: Event)
    requires CanHappen(w, e) && Moved(w, e).Some?
    ensures Happen(w, e) == SetClaim(w, Moved(w, e).value.0, Moved(w, e).value.1)
  {}

  // --- An ack reaches the engine ---

  /** A line at or below an ack that counts is committed by the claim that acked it,
      or was never the app's to handle. */
  lemma AckedLine(w: World, h: string, n: nat, k: nat)
    requires WorldInv(w) && h in w.claims && n <= w.claims[h].acks.pending
    requires w.run.s.acked < k <= n
    ensures k in w.run.shed || CommittedBy(w, h, k) || k <= w.run.s.trk.burstCovered
  {
    hide *;
    StreamOf(w, h);
    StartOf(w, h);
    SoundClaim(w, h);
    AckedHere(w.run, w.claims[h], h, w.procs[w.claims[h].pid], k);
    CommittedIs(w, h, k);
  }

  lemma StartOf(w: World, h: string)
    requires WorldInv(w) && h in w.run.start
    ensures w.run.start[h] <= Max(w.run.s.acked, w.run.s.trk.burstCovered)
  {
    hide Inv, SafeInv, AckedInv, ClaimInv, ItemsKnown;
  }

  /** Line k is handled and its events are committed. */
  ghost predicate Settles(b: Inbox, h: string, p: Proc, k: nat) {
    b.handled <= |b.entries| && k in InIds(b.entries[..b.handled])
    && forall i :: EventAt(p, i, h) && p.items[i].id == k ==> i < p.done
  }

  lemma CommittedIs(w: World, h: string, k: nat)
    requires h in w.claims && w.claims[h].pid in w.procs
    ensures CommittedBy(w, h, k) <==> Settles(w.claims[h].inbox, h, w.procs[w.claims[h].pid], k)
  {}

  lemma AckedHere(r: Run, c: AppClaim, h: string, p: Proc, k: nat)
    requires h in r.out && h in r.start && Handed(r, h) && Sound(c, r.out[h], h, p)
    requires r.start[h] <= Max(r.s.acked, r.s.trk.burstCovered)
    requires r.s.acked < k <= c.acks.pending
    ensures k in r.shed || Settles(c.inbox, h, p, k) || k <= r.s.trk.burstCovered
  {
    hide Handed, Sound, InIds, LineIds, Settles, Increasing;
    var b, top := c.inbox, c.acks.pending;
    AckedParts(r, c, h, p);
    var done, ids := InIds(b.entries[..b.handled]), LineIds(r.out[h]);
    if k in ids {
      InPrefix(done, ids, top, k);
    } else if k > r.start[h] {
      assert Gone(r, k);
    }
  }

  lemma AckedParts(r: Run, c: AppClaim, h: string, p: Proc)
    requires h in r.out && h in r.start && Handed(r, h) && Sound(c, r.out[h], h, p) && c.acks.pending > 0
    ensures c.inbox.handled <= |c.inbox.entries|
    ensures var b, top := c.inbox, c.acks.pending;
      var done, ids := InIds(b.entries[..b.handled]), LineIds(r.out[h]);
      && done <= ids && Increasing(ids) && top in done
      && (forall k :: r.start[h] < k <= top && k !in ids ==> Gone(r, k))
      && (forall k :: k in done && k <= top ==> Settles(b, h, p, k))
  {
    var b, top := c.inbox, c.acks.pending;
    InIdsPrefix(b.entries, b.handled);
    assert Mark(b, top);
    hide InIds, LineIds, ProbesVouch, StreamInv;
    var done, ids := InIds(b.entries[..b.handled]), LineIds(r.out[h]);
    assert done <= ids;
    var j :| 0 <= j < |done| && done[j] == top;
    assert ids[j] == top;
    assert top <= ids[|ids| - 1];
  }

  lemma SafeOf(w: World)
    requires WorldInv(w)
    ensures SafeInv(w) && AckedInv(w) && ItemsKnown(w) && StartInv(w.run) && w.claims.Keys == w.run.out.Keys
  {
    hide Inv, SafeInv, AckedInv, ItemsKnown, StartInv, ClaimInv;
  }

  lemma SameCommitted(w: World, v: World)
    requires v.claims == w.claims && v.procs == w.procs
    ensures forall h, k :: CommittedBy(w, h, k) <==> CommittedBy(v, h, k)
    ensures forall k :: Committed(w, k) ==> Committed(v, k)
  {
    assert forall h, k :: CommittedBy(w, h, k) <==> CommittedBy(v, h, k);
    hide CommittedBy;
  }

  lemma AckIsSafe(w: World, h: string, n: nat, v: World)
    requires WorldInv(w) && h in w.claims && n <= w.claims[h].acks.pending
    requires v.claims == w.claims && v.procs == w.procs
    requires v.run.shed == w.run.shed && v.run.s.trk == w.run.s.trk
    requires v.run.s.acked == Max(w.run.s.acked, n)
    ensures SafeInv(v)
  {
    hide WorldInv, CommittedBy;
    SafeOf(w);
    SameCommitted(w, v);
    forall k: nat | 1 <= k <= v.run.s.acked
      ensures k in v.run.shed || Committed(v, k) || k <= v.run.s.trk.burstCovered
    {
      if k > w.run.s.acked {
        AckedLine(w, h, n, k);
        assert CommittedBy(w, h, k) ==> CommittedBy(v, h, k);
      }
    }
  }

  function AfterTake(c: AppClaim, n: nat, counts: bool): AppClaim {
    c.(acks := c.acks.(taken := c.acks.taken + 1,
      accepted := if counts then Max(c.acks.accepted, n) else c.acks.accepted))
  }

  lemma TakeFits(c: AppClaim, n: nat, counts: bool, frames: seq<Frame>, h: string, p: Proc)
    requires Sound(c, frames, h, p) && c.acks.taken < |c.acks.wire| && n == c.acks.wire[c.acks.taken]
    ensures Fits(c, AfterTake(c, n, counts), frames, h, p) && n <= c.acks.pending
  {
    InboxSizes(c.inbox);
    hide InboxInv, BarrierInv, InIds, LineIds, Mark;
  }

  lemma TakeMoves(w: World, h: string, n: nat, counts: bool)
    requires WorldInv(w) && h in w.claims && w.claims[h].acks.taken < |w.claims[h].acks.wire|
    requires n == w.claims[h].acks.wire[w.claims[h].acks.taken]
    ensures WorldInv(SetClaim(w, h, AfterTake(w.claims[h], n, counts))) && n <= w.claims[h].acks.pending
  {
    hide *;
    StreamOf(w, h);
    SoundClaim(w, h);
    var c, p := w.claims[h], w.procs[w.claims[h].pid];
    TakeFits(c, n, counts, w.run.out[h], h, p);
    FitMoves(w, h, AfterTake(c, n, counts));
    ClaimMoves(w, h, AfterTake(c, n, counts));
  }

  lemma FitMoves(w: World, h: string, c: AppClaim)
    requires h in w.claims && h in w.run.out && w.claims[h].pid in w.procs
    requires Fits(w.claims[h], c, w.run.out[h], h, w.procs[w.claims[h].pid])
    ensures MayMove(w, h, c)
  {
    hide StreamInv, InboxInv, AckInv;
  }

  function AfterAck(r: Run, h: string, n: nat): Run { r.(s := Ack(r.s, h, n)) }

  lemma AckIsStep(r: Run, h: string, n: nat)
    ensures Enabled(r, Acknowledge(h, n)) && Next(r, Acknowledge(h, n)) == AfterAck(r, h, n)
  {}

  lemma AckKeepsRun(r: Run, h: string, n: nat)
    requires Inv(r) && StartInv(r)
    ensures Inv(AfterAck(r, h, n)) && StartInv(AfterAck(r, h, n))
  {
    hide *;
    AckIsStep(r, h, n);
    StepKeepsInv(r, Acknowledge(h, n));
    AckIsEngines(h, n);
    EngineKeepsStart(r, Acknowledge(h, n));
  }

  lemma AckIsEngines(h: string, n: nat)
    ensures !Acknowledge(h, n).Claim?
  {}

  lemma AckNext(r: Run, h: string, n: nat)
    ensures var t := AfterAck(r, h, n);
            t.out == r.out && t.shed == r.shed && t.s.trk == r.s.trk
    ensures AckCounts(r.s, h, n) ==> AfterAck(r, h, n).s.acked == n > r.s.acked
    ensures !AckCounts(r.s, h, n) ==> AfterAck(r, h, n) == r
  {}

  /** The engine's half of taking an ack that counts. */
  lemma AckLands(w: World, h: string, n: nat)
    requires WorldInv(w) && h in w.claims && n <= w.claims[h].acks.pending && n <= w.claims[h].acks.accepted
    requires AckCounts(w.run.s, h, n)
    ensures WorldInv(w.(run := AfterAck(w.run, h, n)))
  {
    hide Inv, SafeInv, AckedInv, StartInv, ClaimInv, ItemsKnown, WorldInv, Progress, AfterAck, AckCounts;
    var v := w.(run := AfterAck(w.run, h, n));
    AckNext(w.run, h, n);
    SafeOf(w);
    InvOfWorld(w);
    AckKeepsRun(w.run, h, n);
    SameItems(w, v);
    forall g | g in w.claims
      ensures ClaimInv(v, g)
    {
      EngineFramed(w, v, g);
    }
    AckIsSafe(w, h, n, v);
    AckedByNow(v, h);
    WorldParts(v);
  }

  lemma AckedByNow(v: World, h: string)
    requires AckedVia(v, h)
    ensures AckedInv(v)
  {}

  lemma WorldParts(v: World)
    requires Inv(v.run) && StartInv(v.run) && v.claims.Keys == v.run.out.Keys && ItemsKnown(v)
    requires forall h :: h in v.claims ==> ClaimInv(v, h)
    requires SafeInv(v) && AckedInv(v)
    ensures WorldInv(v)
  {
    hide Inv, SafeInv, AckedInv, StartInv, ClaimInv, ItemsKnown;
  }

  /** TakeAck in its two halves. */
  lemma TakeIs(w: World, h: string)
    requires CanHappen(w, TakeAck(h))
    ensures h in w.claims && w.claims[h].acks.taken < |w.claims[h].acks.wire|
    ensures var n := w.claims[h].acks.wire[w.claims[h].acks.taken];
            var u := SetClaim(w, h, AfterTake(w.claims[h], n, AckCounts(w.run.s, h, n)));
            Happen(w, TakeAck(h)) == u.(run := AfterAck(u.run, h, n)) && u.run == w.run
  {
    AckIsStep(w.run, h, w.claims[h].acks.wire[w.claims[h].acks.taken]);
  }

  lemma TakeAckMoves(w: World, h: string)
    requires WorldInv(w) && CanHappen(w, TakeAck(h))
    ensures WorldInv(Happen(w, TakeAck(h)))
  {
    hide WorldInv, Happen, CanHappen, AckCounts, AfterAck;
    TakeIs(w, h);
    var c := w.claims[h];
    var n := c.acks.wire[c.acks.taken];
    var counts := AckCounts(w.run.s, h, n);
    var u := SetClaim(w, h, AfterTake(c, n, counts));
    TakeMoves(w, h, n, counts);
    AckNext(w.run, h, n);
    if counts {
      AckLands(u, h, n);
    } else {
      assert u.(run := w.run) == u;
    }
  }

  // --- All steps, all runs ---

  lemma QueueingMoves(w: World, e: Event)
    requires WorldInv(w) && CanHappen(w, e) && (e.Tick? || e.FinalAck?)
    ensures WorldInv(Happen(w, e))
  {
    hide *;
    QueueingIs(w, e);
    var h := e.h;
    var c := w.claims[h];
    if e.Tick? {
      TickMayMove(w, h);
      var d := c.(acks := c.acks.(queued := c.inbox.processed));
      ClaimMoves(w, h, d);
      SetClaimIs(w, h, d);
      BarrierMoves(SetClaim(w, h, d), h, c.inbox.processed);
    } else {
      BarrierMoves(w, h, c.inbox.lastSeq);
    }
  }

  lemma SetClaimIs(w: World, h: string, d: AppClaim)
    ensures var v := SetClaim(w, h, d); h in v.claims && v.claims[h] == d && v.procs == w.procs
  {}

  lemma TickMayMove(w: World, h: string)
    requires WorldInv(w) && h in w.claims
    ensures var c := w.claims[h]; MayMove(w, h, c.(acks := c.acks.(queued := c.inbox.processed)))
  {
    hide *;
    StreamOf(w, h);
    SoundClaim(w, h);
    var c := w.claims[h];
    TickFits(c, w.run.out[h], h, w.procs[c.pid]);
    FitMoves(w, h, c.(acks := c.acks.(queued := c.inbox.processed)));
  }

  lemma TickFits(c: AppClaim, frames: seq<Frame>, h: string, p: Proc)
    requires Sound(c, frames, h, p)
    ensures Fits(c, c.(acks := c.acks.(queued := c.inbox.processed)), frames, h, p)
  {
    InboxSizes(c.inbox);
    hide InboxInv, BarrierInv, InIds, LineIds, Mark;
  }

  lemma QueueingIs(w: World, e: Event)
    requires CanHappen(w, e) && (e.Tick? || e.FinalAck?)
    ensures e.h in w.claims && w.claims[e.h].pid in w.procs
    ensures var c := w.claims[e.h];
            if e.Tick? then
              var v := SetClaim(w, e.h, c.(acks := c.acks.(queued := c.inbox.processed)));
              c.pid in v.procs && Happen(w, e) == Queue(v, c.pid, Barrier(e.h, c.inbox.processed))
            else !c.inbox.busy && Happen(w, e) == Queue(w, c.pid, Barrier(e.h, c.inbox.lastSeq))
  {}

  lemma EngineIs(w: World, step: Step)
    requires CanHappen(w, Engine(step))
    ensures Enabled(w.run, step) && !step.Claim? && !step.Acknowledge?
    ensures Happen(w, Engine(step)) == w.(run := Next(w.run, step))
  {
    hide Next, Enabled;
  }

  lemma StepKeepsWorld(w: World, e: Event)
    requires WorldInv(w) && CanHappen(w, e)
    ensures WorldInv(Happen(w, e))
  {
    hide WorldInv, Happen, CanHappen, Enabled, MayMove;
    if Moved(w, e).Some? {
      MovedMayMove(w, e);
      MovedHappens(w, e);
      ClaimMoves(w, Moved(w, e).value.0, Moved(w, e).value.1);
    } else {
      match e
      case Engine(step) => EngineIs(w, step); EngineMoves(w, step);
      case Launch(_) => ProcsIs(w, e); ProcsMove(w, Happen(w, e));
      case Crash(_) => ProcsIs(w, e); ProcsMove(w, Happen(w, e));
      case Connect(link, handle, pid) => ConnectMoves(w, link, handle, pid);
      case Emit(h) => EmitMoves(w, h);
      case Commit(pid) => CommitMoves(w, pid);
      case TakeAck(h) => TakeAckMoves(w, h);
      case _ => QueueingMoves(w, e);
    }
  }

  lemma ProcsIs(w: World, e: Event)
    requires CanHappen(w, e) && (e.Launch? || e.Crash?)
    ensures var v := Happen(w, e);
            && v == w.(procs := v.procs) && w.procs.Keys <= v.procs.Keys
            && (forall pid :: pid in w.procs ==> v.procs[pid] == w.procs[pid].(alive := v.procs[pid].alive))
            && (forall pid :: pid in v.procs && pid !in w.procs ==> v.procs[pid] == Proc([], 0, true))
  {}

  lemma {:induction false} RunKeepsWorld(w: World, events: seq<Event>)
    requires WorldInv(w) && CanRun(w, events)
    ensures WorldInv(RunWorld(w, events))
    decreases |events|
  {
    hide WorldInv, Happen, CanHappen;
    if events != [] {
      StepKeepsWorld(w, events[0]);
      RunKeepsWorld(Happen(w, events[0]), events[1..]);
    }
  }

  // --- The theorems ---

  /** Line k is still in the buffer, as it came in. */
  predicate Buffered(r: Run, k: nat) {
    1 <= k && r.s.last - |r.s.buf| < k <= r.s.last == |r.log|
    && r.s.buf[k - 1 - (r.s.last - |r.s.buf|)] == r.log[k - 1]
  }

  /** No silent loss. However processes crash, detach, take over and re-attach, every
      line the engine ever numbered is still in its buffer as it came in, or was shed
      by a budget, or was handled by a process that committed every event its
      handlers emitted, or lies in the registration burst that a re-attach replays. */
  lemma NoSilentLoss(cap: nat, link: Link, handle: string, pid: Pid, events: seq<Event>, k: nat)
    requires CanRun(Start(cap, link, handle, pid), events)
    requires 1 <= k <= RunWorld(Start(cap, link, handle, pid), events).run.s.last
    ensures var w := RunWorld(Start(cap, link, handle, pid), events);
            Buffered(w.run, k) || k in w.run.shed || Committed(w, k) || k <= w.run.s.trk.burstCovered
  {
    hide *;
    var w := RunWorld(Start(cap, link, handle, pid), events);
    StartWorldInv(cap, link, handle, pid);
    RunKeepsWorld(Start(cap, link, handle, pid), events);
    SafeOf(w);
    InvOfWorld(w);
    InvParts(w.run);
    LineIsSomewhere(w, k);
  }

  lemma LineIsSomewhere(w: World, k: nat)
    requires BufferInv(w.run) && SafeInv(w) && 1 <= k <= w.run.s.last
    ensures Buffered(w.run, k) || k in w.run.shed || Committed(w, k) || k <= w.run.s.trk.burstCovered
  {
    hide Committed;
    var r := w.run;
    if k > r.Base() {
      assert r.s.buf[k - 1 - r.Base()] == r.log[k - 1];
    }
  }

  /** The last line of the longest run of handled lines, from the claim's first on,
      whose emitted events are all committed; 0 when there is none. */
  ghost function CommittedThrough(p: Proc, h: string, ids: seq<nat>): nat {
    if ids == [] then 0
    else if forall i :: EventAt(p, i, h) && p.items[i].id in ids ==> i < p.done then ids[|ids| - 1]
    else CommittedThrough(p, h, ids[..|ids| - 1])
  }

  lemma {:induction false} CommittedReaches(p: Proc, h: string, ids: seq<nat>, n: nat)
    requires Increasing(ids) && n in ids && EventsDone(p, h, n)
    ensures n <= CommittedThrough(p, h, ids) <= ids[|ids| - 1]
  {
    var top := |ids| - 1;
    if n != ids[top] {
      assert ids[..top] != [] && n in ids[..top];
      CommittedReaches(p, h, ids[..top], n);
    } else {
      forall i | EventAt(p, i, h) && p.items[i].id in ids
        ensures i < p.done
      {
        var j :| 0 <= j < |ids| && ids[j] == p.items[i].id;
      }
    }
  }

  lemma {:induction false} CommittedAtMost(p: Proc, h: string, ids: seq<nat>)
    requires Increasing(ids)
    ensures CommittedThrough(p, h, ids) <= if ids == [] then 0 else ids[|ids| - 1]
  {
    if ids != [] {
      CommittedAtMost(p, h, ids[..|ids| - 1]);
    }
  }

  /** The ids of the lines whose handlers are through. */
  function HandledIds(b: Inbox): seq<nat>
  {
    if b.handled <= |b.entries| then InIds(b.entries[..b.handled]) else []
  }

  /** Per claim, in every reachable state: what the engine accepted, what was sent,
      what is to be sent, what is committed without a gap, what was delivered and what
      the engine numbered follow each other; and every line up to what is to be sent
      that this claim was handed is handled and committed. */
  lemma WatermarkChain(cap: nat, link: Link, handle: string, pid: Pid, events: seq<Event>, h: string)
    requires CanRun(Start(cap, link, handle, pid), events)
    requires h in RunWorld(Start(cap, link, handle, pid), events).claims
    ensures var w := RunWorld(Start(cap, link, handle, pid), events);
            var c := w.claims[h];
            && c.pid in w.procs
            && c.acks.accepted <= c.acks.sent <= c.acks.pending
                 <= CommittedThrough(w.procs[c.pid], h, HandledIds(c.inbox))
                 <= c.inbox.delivered <= w.run.s.last
            && (forall i :: 0 <= i < |c.acks.wire| ==> c.acks.wire[i] <= c.acks.sent)
            && (forall k :: k in InIds(c.inbox.entries) && k <= c.acks.pending ==> CommittedBy(w, h, k))
  {
    hide *;
    var w := RunWorld(Start(cap, link, handle, pid), events);
    StartWorldInv(cap, link, handle, pid);
    RunKeepsWorld(Start(cap, link, handle, pid), events);
    StreamOf(w, h);
    SoundClaim(w, h);
    var c, p := w.claims[h], w.procs[w.claims[h].pid];
    ClaimChain(w.run, c, h, p);
    forall k | k in InIds(c.inbox.entries) && k <= c.acks.pending
      ensures CommittedBy(w, h, k)
    {
      PendingSettles(w.run, c, h, p, k);
      CommittedIs(w, h, k);
    }
  }

  /** In a rising sequence, what is not above a member of a prefix is in the prefix. */
  lemma InPrefix(done: seq<nat>, ids: seq<nat>, top: nat, k: nat)
    requires done <= ids && Increasing(ids) && top in done && k in ids && k <= top
    ensures k in done
  {
    var i :| 0 <= i < |ids| && ids[i] == k;
    var j :| 0 <= j < |done| && done[j] == top;
    assert ids[j] == top;
    assert done[i] == k;
  }

  lemma RisingFrom(ids: seq<nat>)
    requires Increasing([0] + ids)
    ensures Increasing(ids) && forall k :: k in ids ==> k > 0
  {
    var all := [0] + ids;
    assert forall i :: 0 <= i < |ids| ==> all[i + 1] == ids[i] && all[0] < all[i + 1];
  }

  /** What the ack side knows of a sound claim, in terms of its ids. */
  lemma SoundAcks(c: AppClaim, frames: seq<Frame>, h: string, p: Proc)
    requires Sound(c, frames, h, p)
    ensures c.inbox.handled <= |c.inbox.entries| && EventsDone(p, h, c.acks.pending)
    ensures c.acks.pending == 0 || c.acks.pending in InIds(c.inbox.entries[..c.inbox.handled])
    ensures c.acks.accepted <= c.acks.sent <= c.acks.pending
    ensures forall i :: 0 <= i < |c.acks.wire| ==> c.acks.wire[i] <= c.acks.sent
    ensures StreamInv(c, frames) && InIds(c.inbox.entries) <= LineIds(frames)
      && c.inbox.delivered == LastIn(c.inbox.entries)
  {
    hide InIds, LineIds, ProbesVouch, EventsDone, LastIn;
  }

  lemma PendingSettles(r: Run, c: AppClaim, h: string, p: Proc, k: nat)
    requires h in r.out && h in r.start && Handed(r, h) && Sound(c, r.out[h], h, p)
    requires k in InIds(c.inbox.entries) && k <= c.acks.pending
    ensures Settles(c.inbox, h, p, k)
  {
    hide Sound, InIds, LineIds, StreamInv, Handed, Increasing, EventAt;
    var b := c.inbox;
    SoundAcks(c, r.out[h], h, p);
    IdsIncrease(r, c, h);
    RisingFrom(InIds(b.entries));
    InIdsPrefix(b.entries, b.handled);
    InPrefix(InIds(b.entries[..b.handled]), InIds(b.entries), c.acks.pending, k);
  }

  /** The last of a rising sequence bounds each prefix of it. */
  lemma PrefixBelow(done: seq<nat>, ids: seq<nat>)
    requires done <= ids && Increasing(ids)
    ensures Increasing(done) && (done != [] ==> ids != [] && done[|done| - 1] <= ids[|ids| - 1])
  {}

  lemma ClaimChain(r: Run, c: AppClaim, h: string, p: Proc)
    requires h in r.out && h in r.start && Handed(r, h) && Sound(c, r.out[h], h, p)
    ensures c.acks.accepted <= c.acks.sent <= c.acks.pending
              <= CommittedThrough(p, h, HandledIds(c.inbox)) <= c.inbox.delivered <= r.s.last
    ensures forall i :: 0 <= i < |c.acks.wire| ==> c.acks.wire[i] <= c.acks.sent
  {
    hide Sound, InIds, LineIds, StreamInv, Handed, EventAt, EventsDone, CommittedThrough, Increasing;
    var b := c.inbox;
    SoundAcks(c, r.out[h], h, p);
    IdsIncrease(r, c, h);
    InIdsPrefix(b.entries, b.handled);
    DeliveredIsNumbered(r, c, h);
    RisingFrom(InIds(b.entries));
    PrefixBelow(InIds(b.entries[..b.handled]), InIds(b.entries));
    CommittedAtMost(p, h, InIds(b.entries[..b.handled]));
    if c.acks.pending != 0 {
      CommittedReaches(p, h, InIds(b.entries[..b.handled]), c.acks.pending);
    }
  }

  lemma DeliveredIsNumbered(r: Run, c: AppClaim, h: string)
    requires h in r.out && h in r.start && Handed(r, h)
    requires InIds(c.inbox.entries) <= LineIds(r.out[h]) && c.inbox.delivered == LastIn(c.inbox.entries)
    ensures c.inbox.delivered <= r.s.last
  {
    hide InIds, LineIds;
    var ids, all := InIds(c.inbox.entries), LineIds(r.out[h]);
    if ids != [] {
      assert all[|ids| - 1] == ids[|ids| - 1];
      assert all[|ids| - 1] in all;
    }
  }

  /** And the engine has forgotten, on anyone's word, no more than one claim's acks
      vouch for. */
  lemma AckedIsVouched(cap: nat, link: Link, handle: string, pid: Pid, events: seq<Event>)
    requires CanRun(Start(cap, link, handle, pid), events)
    ensures var w := RunWorld(Start(cap, link, handle, pid), events);
            w.run.s.acked == 0 || exists h :: h in w.claims && w.run.s.acked <= w.claims[h].acks.accepted
  {
    var w := RunWorld(Start(cap, link, handle, pid), events);
    hide WorldInv, RunWorld, CanRun, Start;
    StartWorldInv(cap, link, handle, pid);
    RunKeepsWorld(Start(cap, link, handle, pid), events);
    SafeOf(w);
    if w.run.s.acked != 0 {
      var h :| AckedVia(w, h);
    }
  }

  /** A line need not wait for a next one to be acked: once the client has read and
      handled all there is, its next read gets a probe, and with the probe handled the
      last line delivered is known to be handled. */
  lemma ProbeVouchesForTheTail(b: Inbox, n: nat)
    requires InboxInv(b) && Increasing(InIds(b.entries)) && n >= 1
    requires !b.busy && b.handled == b.read == |b.entries| && b.delivered > b.probed
    ensures var r := ReadUpTo(b, false, n);
            r.handled < r.read <= |r.entries| &&
            var d := Ended(Begun(r));
            d.processed == b.delivered && d.handled == d.read == |d.entries|
  {
    var ids := InIds(b.entries);
    assert b.entries[..b.handled] == b.entries;
    hide InIds, ProbesVouch;
    if b.processed != 0 {
      var i :| 0 <= i < |ids| && ids[i] == b.processed;
      assert ids[i] <= ids[|ids| - 1];
    }
  }
}
