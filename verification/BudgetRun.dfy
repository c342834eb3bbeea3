/** The bytes charged against internal/engine/buffer.go's budget, under any interleaving
    of the engine's sessions. A step is what one session's lock, or the server's, covers.
    An ack and a forget refund what they freed only after they let go of the lock, so
    refunds may be on their way at any time; a session may be used after it was
    forgotten. */
module BudgetRun {
  import opened GoStrings
  import opened IrcLine
  import opened Buffer
  import opened SessionSpec
  import opened EngineSession

  /** The sessions registered, those forgotten, the refunds on their way, by number, and
      the budget's total. */
  datatype Pool = Pool(held: map<nat, State>, gone: map<nat, State>, refunds: map<nat, nat>, used: int)

  const EMPTY := Pool(map[], map[], map[], 0)

  datatype Event =
    | Admits(id: nat, link: Link, handle: string)
    | Forgets(id: nat, refund: nat)
    | Refunded(refund: nat)
    | Happens(id: nat, op: Op, refund: nat)

  datatype Op =
    | Ingests(raw: string, at: int, cap: nat)
    | Acks(handle: string, n: nat)
    | Sheds
    | Attaches(link: Link, handle: string)
    | Detaches(link: Link)
    | Pulls(limit: nat)
    | Dials
    | Shuts(reason: string)
    | Closes(link: Link)

  /** What an operation does: the session afterwards, what it charges less what it
      refunds at once, and what it is to refund later. */
  datatype Effect = Effect(now: State, charged: int, freed: nat)

  /** What ingest's loop refunds, line by line. */
  function ShedCost(s: State, cap: nat): nat
    decreases |s.buf|
  {
    if Cost(s.buf) > cap && |s.buf| > 1 then LineCost(s.buf[0].text) + ShedCost(DropOldest(s), cap) else 0
  }

  /** What ackThrough sums up, line by line. */
  function AckedCost(lines: seq<BufferedLine>, n: nat): nat {
    if lines == [] then 0
    else (if lines[0].id > n then 0 else LineCost(lines[0].text)) + AckedCost(lines[1..], n)
  }

  function On(s: State, op: Op): Effect {
    match op
    case Ingests(raw, at, cap) =>
      (match Classify(raw)
       case Relayed(l) =>
         if s.conn.Open?
         then Effect(Ingest(s, raw, at, cap), LineCost(raw) - ShedCost(Append(s, l, raw, at), cap), 0)
         else Effect(s, 0, 0)
       case _ => Effect(s, 0, 0))
    case Acks(handle, n) => Effect(Ack(s, handle, n), 0, if AckCounts(s, handle, n) then AckedCost(s.buf, n) else 0)
    case Sheds => Effect(ShedOldest(s), if |s.buf| <= 1 then 0 else 0 - LineCost(s.buf[0].text), 0)
    case Attaches(link, handle) => Effect(if s.conn.Open? then Attach(s, link, handle) else s, 0, 0)
    case Detaches(link) => Effect(Detach(s, link), 0, 0)
    case Pulls(limit) => Effect(Pull(s, limit), 0, 0)
    case Dials => Effect(DialOk(s), 0, 0)
    case Shuts(reason) => Effect(Shutdown(s, reason), 0, 0)
    case Closes(link) => Effect(RequestClose(s, link), 0, 0)
  }

  predicate Known(p: Pool, id: nat) { id in p.held || id in p.gone }

  function At(p: Pool, id: nat): State
    requires Known(p, id)
  {
    if id in p.held then p.held[id] else p.gone[id]
  }

  /** A session is forgotten only once it has closed. */
  predicate CanHappen(p: Pool, e: Event) {
    match e
    case Admits(id, _, _) => !Known(p, id)
    case Forgets(id, refund) => Known(p, id) && At(p, id).conn.Closed? && refund !in p.refunds
    case Refunded(refund) => refund in p.refunds
    case Happens(id, _, refund) => Known(p, id) && refund !in p.refunds
  }

  function Happen(p: Pool, e: Event): Pool
    requires CanHappen(p, e)
  {
    match e
    case Admits(id, link, handle) => p.(held := p.held[id := New(link, handle)])
    case Forgets(id, refund) =>
      p.(held := p.held - {id}, gone := p.gone[id := At(p, id).(buf := [])],
         refunds := p.refunds[refund := Cost(At(p, id).buf)])
    case Refunded(refund) => p.(refunds := p.refunds - {refund}, used := p.used - p.refunds[refund])
    case Happens(id, op, refund) =>
      var f := On(At(p, id), op);
      var q := if id in p.held then p.(held := p.held[id := f.now]) else p.(gone := p.gone[id := f.now]);
      q.(used := p.used + f.charged, refunds := p.refunds[refund := f.freed])
  }

  ghost predicate CanRun(p: Pool, events: seq<Event>)
    decreases |events|
  {
    events == [] || (CanHappen(p, events[0]) && CanRun(Happen(p, events[0]), events[1..]))
  }

  ghost function RunAll(p: Pool, events: seq<Event>): Pool
    requires CanRun(p, events)
    decreases |events|
  {
    if events == [] then p else RunAll(Happen(p, events[0]), events[1..])
  }

  // --- One session ---

  lemma {:induction false} ShedCostIs(s: State, cap: nat)
    ensures Cost(ShedOver(s, cap).buf) + ShedCost(s, cap) == Cost(s.buf)
    decreases |s.buf|
  {
    if Cost(s.buf) > cap && |s.buf| > 1 {
      ShedCostIs(DropOldest(s), cap);
    }
  }

  lemma {:induction false} AckedCostIs(lines: seq<BufferedLine>, n: nat)
    ensures Cost(Above(lines, n)) + AckedCost(lines, n) == Cost(lines)
  {
    if lines != [] {
      AckedCostIs(lines[1..], n);
      if lines[0].id > n {
        assert ([lines[0]] + Above(lines[1..], n))[1..] == Above(lines[1..], n);
      } else {
        assert [] + Above(lines[1..], n) == Above(lines[1..], n);
      }
    }
  }

  lemma {:induction false} ShedOverKeepsConn(s: State, cap: nat)
    ensures ShedOver(s, cap).conn == s.conn
    decreases |s.buf|
  {
    if Cost(s.buf) > cap && |s.buf| > 1 {
      ShedOverKeepsConn(DropOldest(s), cap);
    }
  }

  lemma IngestIsCharged(s: State, raw: string, at: int, cap: nat)
    ensures var f := On(s, Ingests(raw, at, cap)); Cost(f.now.buf) + f.freed == Cost(s.buf) + f.charged
  {
    hide Classify, Track, ShedOver, ShedCost;
    match Classify(raw)
    case Relayed(l) =>
      CostOne(s.buf, BufferedLine(s.last + 1, at, raw));
      ShedCostIs(Append(s, l, raw, at), cap);
    case _ =>
  }

  /** What an operation buffers and frees is what it charges and refunds. */
  lemma OpIsCharged(s: State, op: Op)
    ensures var f := On(s, op); Cost(f.now.buf) + f.freed == Cost(s.buf) + f.charged
  {
    hide Ingest, Classify, Above, AckedCost, ReplayBurst, Recent, Batch, SentAfter, ClosesNow;
    match op
    case Ingests(raw, at, cap) => IngestIsCharged(s, raw, at, cap);
    case Acks(_, n) => AckedCostIs(s.buf, n);
    case _ =>
  }

  predicate Spent(s: State) { s.conn.Closed? && s.buf == [] }

  /** A session that closed and was cleared stays so, whatever still reaches it. */
  lemma SpentForGood(s: State, op: Op)
    requires Spent(s)
    ensures On(s, op) == Effect(On(s, op).now, 0, 0) && Spent(On(s, op).now)
  {
    hide Classify, Track, ShedOver, ShedCost, Batch, SentAfter, ClosesNow;
  }

  // --- All of them ---

  /** The cost of everything buffered by these sessions. */
  ghost function Total(v: map<nat, State>): nat { Sum(Costs(v)) }

  ghost function Costs(v: map<nat, State>): map<nat, nat> { map i | i in v :: Cost(v[i].buf) }

  /** The total is what the registered sessions hold and what is still to be refunded;
      nothing is charged for a session that was forgotten. */
  ghost predicate Exact(p: Pool) {
    && p.used == Total(p.held) + Sum(p.refunds)
    && p.held.Keys !! p.gone.Keys
    && forall id :: id in p.gone ==> Spent(p.gone[id])
  }

  lemma SumAdd(m: map<nat, nat>, k: nat, v: nat)
    requires k !in m
    ensures Sum(m[k := v]) == Sum(m) + v
  {
    SumWithout(m[k := v], k);
    assert m[k := v] - {k} == m;
  }

  lemma TotalWith(v: map<nat, State>, id: nat, s: State)
    ensures Total(v[id := s]) == Total(v) - (if id in v then Cost(v[id].buf) else 0) + Cost(s.buf)
  {
    hide Cost;
    assert Costs(v[id := s]) == Costs(v)[id := Cost(s.buf)];
    if id in v {
      SumUpdate(Costs(v), id, Cost(s.buf));
    } else {
      SumAdd(Costs(v), id, Cost(s.buf));
    }
  }

  lemma TotalWithout(v: map<nat, State>, id: nat)
    requires id in v
    ensures Total(v - {id}) == Total(v) - Cost(v[id].buf)
  {
    hide Cost;
    assert Costs(v - {id}) == Costs(v) - {id};
    SumWithout(Costs(v), id);
  }

  lemma StepKeepsExact(p: Pool, e: Event)
    requires Exact(p) && CanHappen(p, e)
    ensures Exact(Happen(p, e))
  {
    hide Total, Sum, Cost, On;
    match e
    case Admits(id, link, handle) =>
      TotalWith(p.held, id, New(link, handle));
      assert Cost([]) == 0 by { NothingCosts(); }
    case Forgets(id, refund) =>
      SumAdd(p.refunds, refund, Cost(At(p, id).buf));
      if id in p.held {
        TotalWithout(p.held, id);
      } else {
        assert p.held - {id} == p.held;
        NothingCosts();
      }
    case Refunded(refund) =>
      SumWithout(p.refunds, refund);
    case Happens(id, op, refund) =>
      SumAdd(p.refunds, refund, On(At(p, id), op).freed);
      if id in p.held {
        OpIsCharged(p.held[id], op);
        TotalWith(p.held, id, On(p.held[id], op).now);
      } else {
        SpentForGood(p.gone[id], op);
      }
  }

  lemma {:induction false} RunKeepsExact(p: Pool, events: seq<Event>)
    requires Exact(p) && CanRun(p, events)
    ensures Exact(RunAll(p, events))
    decreases |events|
  {
    hide Exact, Happen, CanHappen;
    if events != [] {
      StepKeepsExact(p, events[0]);
      RunKeepsExact(Happen(p, events[0]), events[1..]);
    }
  }

  lemma NothingCharged()
    ensures Sum<nat>(map[]) == 0 && Total(map[]) == 0 && Exact(EMPTY)
  {
    assert Costs(map[]) == map[];
  }

  /** After any run the budget's total is what is buffered and what is still to be
      refunded. So it is never negative; once no refund is on its way it is exact; and
      it is zero once every session has been forgotten too. */
  lemma AccountsAreExact(events: seq<Event>)
    requires CanRun(EMPTY, events)
    ensures var p := RunAll(EMPTY, events);
      && p.used == Total(p.held) + Sum(p.refunds)
      && p.used >= 0
      && (p.refunds == map[] ==> p.used == Total(p.held))
      && (p.refunds == map[] && p.held == map[] ==> p.used == 0)
  {
    hide RunAll, Happen, CanHappen, Spent, Total, Sum;
    NothingCharged();
    RunKeepsExact(EMPTY, events);
  }
}
