/** A held socket by its history: what its log, its connection, its claims and its holder
    are, read off the steps that were taken alone; and that what is owed does go out. */
module SessionHistory {
  import opened GoStrings
  import opened IrcLine
  import opened Buffer
  import opened SessionSpec
  import opened SessionLaws
  import opened SessionRun
  import opened SessionTheorems

  // --- The connection and the log ---

  /** A dial that is on its way succeeds once; a failure ends the socket for good. */
  function ConnNext(c: ConnState, step: Step): ConnState {
    match step
    case Dial => if c == Dialing then Open else c
    case Fail(_) => Closed
    case _ => c
  }

  function ConnAfter(c: ConnState, steps: seq<Step>): ConnState
    decreases |steps|
  {
    if steps == [] then c else ConnAfter(ConnNext(c, steps[0]), steps[1..])
  }

  /** Why the socket ended: the first failure says. */
  function FirstReason(c: ConnState, was: string, steps: seq<Step>): string
    decreases |steps|
  {
    if steps == [] then was
    else if steps[0].Fail? && c != Closed then steps[0].reason
    else FirstReason(ConnNext(c, steps[0]), was, steps[1..])
  }

  /** The lines for the app that came in while the socket was open, with their times. */
  function Came(c: ConnState, steps: seq<Step>): seq<(string, int)>
    decreases |steps|
  {
    if steps == [] then []
    else
      var now := if steps[0].Receive? && c == Open
        && ForTheApp(steps[0].raw) then [(steps[0].raw, steps[0].at)] else [];
      now + Came(ConnNext(c, steps[0]), steps[1..])
  }

  /** They are numbered in order, from n + 1 on. */
  function Stamped(came: seq<(string, int)>, n: nat): seq<BufferedLine> {
    seq(|came|, i requires 0 <= i < |came| => BufferedLine(n + 1 + i, came[i].1, came[i].0))
  }

  lemma {:induction false} ShedRunKeepsSocket(r: Run)
    ensures var t := ShedRun(r);
      t.s.conn == r.s.conn && t.s.closeErr == r.s.closeErr && t.log == r.log && t.s.last == r.s.last
      && t.s.link == r.s.link && t.s.handle == r.s.handle && t.s.handles == r.s.handles && t.s.trk == r.s.trk
    decreases |r.s.buf|
  {
    if Cost(r.s.buf) > r.cap && |r.s.buf| > 1 {
      ShedRunKeepsSocket(DropOne(r));
    }
  }

  lemma SocketNext(r: Run, step: Step)
    requires Enabled(r, step) && |r.log| == r.s.last
    ensures var t := Next(r, step);
      && t.s.conn == ConnNext(r.s.conn, step)
      && t.s.closeErr == (if step.Fail? && r.s.conn != Closed then step.reason else r.s.closeErr)
      && t.log == r.log + Stamped(Came(r.s.conn, [step]), |r.log|) && |t.log| == t.s.last
  {
    match step
    case Receive(raw, at) => ReceiveNext(r, raw, at);
    case _ =>
      hide ReplayBurst, Above, Recent, SentAfter, ClosesNow, Batch, Reusable, ForTheApp;
      CameOne(r.s.conn, step);
      assert r.log + [] == r.log;
  }

  lemma CameOne(c: ConnState, step: Step)
    ensures Came(c, [step]) ==
      if step.Receive? && c == Open && ForTheApp(step.raw) then [(step.raw, step.at)] else []
  {
    hide ForTheApp;
    assert [step][1..] == [];
  }

  lemma ReceiveNext(r: Run, raw: string, at: int)
    requires Enabled(r, Receive(raw, at)) && |r.log| == r.s.last
    ensures var t := Next(r, Receive(raw, at));
      && t.s.conn == r.s.conn && t.s.closeErr == r.s.closeErr
      && t.log == r.log + Stamped(Came(r.s.conn, [Receive(raw, at)]), |r.log|) && |t.log| == t.s.last
  {
    TakesIff(raw);
    CameOne(r.s.conn, Receive(raw, at));
    hide Classify, Track, ForTheApp, Came;
    if Classify(raw).Relayed? && r.s.conn.Open? {
      ShedRunKeepsSocket(Appended(r, Classify(raw).line, raw, at));
      hide ShedRun;
    } else {
      assert r.log + [] == r.log;
    }
  }

  lemma {:induction false} SocketIsHistory(r: Run, steps: seq<Step>)
    requires Possible(r, steps) && |r.log| == r.s.last
    ensures var t := Execute(r, steps);
      && t.s.conn == ConnAfter(r.s.conn, steps)
      && t.s.closeErr == FirstReason(r.s.conn, r.s.closeErr, steps)
      && t.log == r.log + Stamped(Came(r.s.conn, steps), |r.log|)
    decreases |steps|
  {
    hide Next, Enabled, Stamped, Came;
    if steps == [] {
      NothingCame(r.s.conn, r.log);
    } else {
      var u := Next(r, steps[0]);
      SocketNext(r, steps[0]);
      SocketIsHistory(u, steps[1..]);
      ReasonStays(ConnNext(r.s.conn, steps[0]), u.s.closeErr, steps[1..]);
      CameCons(r.s.conn, steps, r.log);
    }
  }

  lemma NothingCame(c: ConnState, log: seq<BufferedLine>)
    ensures log + Stamped(Came(c, []), |log|) == log
  {}

  lemma {:induction false} ReasonStays(c: ConnState, was: string, steps: seq<Step>)
    ensures c == Closed ==> FirstReason(c, was, steps) == was
    decreases |steps|
  {
    if steps != [] && c == Closed {
      ReasonStays(ConnNext(c, steps[0]), was, steps[1..]);
    }
  }

  lemma CameCons(c: ConnState, steps: seq<Step>, log: seq<BufferedLine>)
    requires steps != []
    ensures var now, later := Came(c, [steps[0]]), Came(ConnNext(c, steps[0]), steps[1..]);
      log + Stamped(now, |log|) + Stamped(later, |log + Stamped(now, |log|)|) == log + Stamped(Came(c, steps), |log|)
  {
    var now, later := Came(c, [steps[0]]), Came(ConnNext(c, steps[0]), steps[1..]);
    CameOne(c, steps[0]);
    assert Came(c, steps) == now + later by { hide ForTheApp, ConnNext; }
    hide Came, ForTheApp, ConnNext;
    StampedConcat(log, now, later);
  }

  lemma StampedConcat(log: seq<BufferedLine>, a: seq<(string, int)>, b: seq<(string, int)>)
    ensures log + Stamped(a, |log|) + Stamped(b, |log + Stamped(a, |log|)|) == log + Stamped(a + b, |log|)
  {
    var n := |log|;
    assert Stamped(a, n) + Stamped(b, n + |a|) == Stamped(a + b, n);
    assert |log + Stamped(a, n)| == n + |a|;
  }

  /** After any run the log is the lines for the app that came in while the socket was
      open, each once, in order and numbered from 1; whether it is open, and why it ended,
      is what the dial and the first failure say. */
  lemma LogIsWhatCame(cap: nat, link: Link, handle: string, steps: seq<Step>)
    requires Possible(Init(cap, link, handle), steps)
    ensures var r, came := Outcome(cap, link, handle, steps), Came(Dialing, steps);
      && |r.log| == |came| == r.s.last
      && (forall i :: 0 <= i < |came| ==> r.log[i] == BufferedLine(i + 1, came[i].1, came[i].0))
      && r.s.conn == ConnAfter(Dialing, steps)
      && r.s.closeErr == FirstReason(Dialing, "", steps)
  {
    hide ConnAfter, Came, FirstReason;
    var r := Outcome(cap, link, handle, steps);
    SocketIsHistory(Init(cap, link, handle), steps);
    BacklogIsTheTail(cap, link, handle, steps);
  }

  // --- The claims ---

  /** The handles of the run's claims, in order. */
  function ClaimsIn(steps: seq<Step>): seq<string>
    decreases |steps|
  {
    if steps == [] then []
    else (if steps[0].Claim? then [steps[0].handle] else []) + ClaimsIn(steps[1..])
  }

  function LastEight(handles: seq<string>): seq<string> {
    if |handles| > 8 then handles[|handles| - 8..] else handles
  }

  /** Who holds the session: who claimed it last, unless that link let go of it. */
  function HolderNext(holder: Option<Link>, step: Step): Option<Link> {
    match step
    case Claim(link, _) => Some(link)
    case Release(link) => if holder == Some(link) then None else holder
    case CloseRequest(link, _) => if holder == Some(link) then None else holder
    case _ => holder
  }

  function HolderAfter(holder: Option<Link>, steps: seq<Step>): Option<Link>
    decreases |steps|
  {
    if steps == [] then holder else HolderAfter(HolderNext(holder, steps[0]), steps[1..])
  }

  lemma ClaimsNext(r: Run, step: Step)
    requires Enabled(r, step)
    ensures var t := Next(r, step);
      && t.s.link == HolderNext(r.s.link, step)
      && t.s.handles == (if step.Claim? then LastEight(r.s.handles + [step.handle]) else r.s.handles)
      && t.s.handle == (if step.Claim? then step.handle else r.s.handle)
  {
    match step
    case Receive(raw, at) =>
      hide Classify, Track;
      if Classify(raw).Relayed? && r.s.conn.Open? {
        ShedRunKeepsSocket(Appended(r, Classify(raw).line, raw, at));
      }
    case _ => hide ReplayBurst, Above, SentAfter, ClosesNow, Batch, Reusable;
  }

  lemma LastEightMore(handles: seq<string>, h: string)
    ensures LastEight(LastEight(handles) + [h]) == LastEight(handles + [h])
  {}

  lemma {:induction false} ClaimsAreHistory(r: Run, steps: seq<Step>, before: seq<string>)
    requires Possible(r, steps) && r.s.handles == LastEight(before) && before != []
      && r.s.handle == before[|before| - 1]
    ensures var t, all := Execute(r, steps), before + ClaimsIn(steps);
      && t.s.link == HolderAfter(r.s.link, steps)
      && t.s.handles == LastEight(all) && t.s.handle == all[|all| - 1]
    decreases |steps|
  {
    hide Next, Enabled, LastEight, HolderNext;
    if steps == [] {
      assert before + [] == before;
    } else {
      var now := if steps[0].Claim? then [steps[0].handle] else [];
      ClaimsNext(r, steps[0]);
      if steps[0].Claim? {
        LastEightMore(before, steps[0].handle);
      } else {
        assert before + now == before;
      }
      ClaimsAreHistory(Next(r, steps[0]), steps[1..], before + now);
      assert before + now + ClaimsIn(steps[1..]) == before + (now + ClaimsIn(steps[1..]));
    }
  }

  /** After any run the session is held under the handle of its last claim, by the link
      that made it unless that link let go, and remembers its last eight claims. */
  lemma ClaimsAreTheLastEight(cap: nat, link: Link, handle: string, steps: seq<Step>)
    requires Possible(Init(cap, link, handle), steps)
    ensures var s, all := Outcome(cap, link, handle, steps).s, [handle] + ClaimsIn(steps);
      && s.link == HolderAfter(Some(link), steps)
      && s.handle == all[|all| - 1] && s.handles == LastEight(all)
  {
    ClaimsAreHistory(Init(cap, link, handle), steps, [handle]);
  }

  /** An ack counts if and only if it comes from one of the last eight claims and moves
      forward, to a line there is; then exactly the lines above it stay. */
  lemma AckCountsIff(cap: nat, link: Link, handle: string, steps: seq<Step>, h: string, n: nat)
    requires Possible(Init(cap, link, handle), steps)
    ensures var r := Outcome(cap, link, handle, steps); 0 <= r.Base() <= |r.log| == r.s.last
    ensures var r := Outcome(cap, link, handle, steps);
      var t := Next(r, Acknowledge(h, n));
      if h in LastEight([handle] + ClaimsIn(steps)) && r.s.acked < n <= r.s.last
      then t == r.(s := r.s.(acked := n, buf := r.log[if n > r.Base() then n else r.Base()..]))
      else t == r
  {
    hide Possible, Execute, ClaimsIn, LastEight;
    var r := Outcome(cap, link, handle, steps);
    ClaimsAreTheLastEight(cap, link, handle, steps);
    ReachableInv(cap, link, handle, steps);
    AckOf(r, h, n);
  }

  lemma ReachableInv(cap: nat, link: Link, handle: string, steps: seq<Step>)
    requires Possible(Init(cap, link, handle), steps)
    ensures Inv(Outcome(cap, link, handle, steps))
  {
    hide Inv;
    InitInv(cap, link, handle);
    RunKeepsInv(Init(cap, link, handle), steps);
  }

  lemma AckOf(r: Run, h: string, n: nat)
    requires Inv(r)
    ensures 0 <= r.Base() <= |r.log| && r.s.last == |r.log|
    ensures var t := Next(r, Acknowledge(h, n));
      if h in r.s.handles && r.s.acked < n <= r.s.last
      then t == r.(s := r.s.(acked := n, buf := r.log[if n > r.Base() then n else r.Base()..]))
      else t == r
  {
    hide DeliveryInv, LossInv, ClosedInv, CapInv, Above;
    if n <= r.s.last {
      AboveInLog(r, n);
    }
  }

  // --- What goes out ---

  /** What the log has for a link that stands at line m: the next n lines, as they came. */
  function NextLines(h: string, log: seq<BufferedLine>, m: nat, n: nat): seq<Frame>
    requires m + n <= |log|
  {
    seq(n, i requires 0 <= i < n => LineFrame(h, m + 1 + i, log[m + i].at, log[m + i].text))
  }

  /** How many lines the holder is still to get: all above what it was sent that the
      session has, once the socket is there. */
  function Owed(r: Run): int { if r.s.conn == Dialing then 0 else r.s.last - Max(r.s.sent, r.Base()) }

  /** The next `limit` of them, or all. */
  function HandedNow(r: Run, limit: nat): int { if limit < Owed(r) then limit else Owed(r) }

  /** A pull hands the holder what waits for it, in the order it is due: the frames about
      the socket, then as many lines as asked for, each as it came, and, once the socket
      has ended and nothing is left, the closed frame with the reason. */
  lemma PullHandsOut(r: Run, limit: nat)
    requires Inv(r) && Enabled(r, Send(limit))
    ensures 0 <= HandedNow(r, limit) && 0 <= Max(r.s.sent, r.Base()) <= Max(r.s.sent, r.Base()) + Owed(r) <= |r.log|
    ensures var t, h := Next(r, Send(limit)), r.s.handle;
      var m, n := Max(r.s.sent, r.Base()), HandedNow(r, limit);
      var ends := r.s.conn == Closed && !r.s.finished && n == Owed(r);
      && t.out == r.out[h := r.out[h] + (r.s.ctrl + NextLines(h, r.log, m, n)
                                         + if ends then [ClosedFrame(h, r.s.closeErr)] else [])]
      && t.s == r.s.(ctrl := [], sent := if n == 0 then r.s.sent else m + n, everSent := t.s.everSent,
                     finished := r.s.finished || ends)
      && t.log == r.log && t.start == r.start
      && (n > 0 ==> t.s.everSent >= m + n)
  {
    InvParts(r);
    FramesAre(r, limit);
    SentAfterInLog(r, limit);
    BatchIs(r, limit);
    ClosesIs(r, limit);
    hide Inv, BufferInv, DeliveryInv, Batch, SentAfter, ClosesNow, PullFrames, NextLines, HandedNow, Owed;
  }

  lemma FramesAre(r: Run, limit: nat)
    requires BufferInv(r) && |r.log| == r.s.last
    ensures 0 <= HandedNow(r, limit) && Max(r.s.sent, r.Base()) <= Max(r.s.sent, r.Base()) + Owed(r) <= |r.log|
    ensures HandedNow(r, limit) <= Owed(r) && 0 <= Max(r.s.sent, r.Base())
    ensures var m, n := Max(r.s.sent, r.Base()), HandedNow(r, limit);
      var ends := r.s.conn == Closed && !r.s.finished && n == Owed(r);
      PullFrames(r.s, limit) == r.s.ctrl + NextLines(r.s.handle, r.log, m, n)
                                + if ends then [ClosedFrame(r.s.handle, r.s.closeErr)] else []
  {
    SentAfterInLog(r, limit);
    BatchIs(r, limit);
    ClosesIs(r, limit);
    LogIsNumbered(r);
    LinesAre(r.s.handle, Batch(r.s, limit), r.log, Max(r.s.sent, r.Base()));
    hide BufferInv, Batch, ClosesNow, LineFrames, NextLines;
  }

  lemma LogIsNumbered(r: Run)
    requires BufferInv(r)
    ensures Numbered(r.log) && 0 <= r.Base() && r.s.sent <= |r.log| && r.Base() <= |r.log|
  {
    hide Above;
  }

  lemma InvParts(r: Run)
    requires Inv(r)
    ensures BufferInv(r) && DeliveryInv(r) && |r.log| == r.s.last && 0 <= r.Base() <= r.s.last && r.s.sent <= r.s.last
  {
    hide DeliveryInv, LossInv, ClosedInv, CapInv;
  }

  lemma BatchIs(r: Run, limit: nat)
    requires BufferInv(r)
    ensures |Batch(r.s, limit)| == HandedNow(r, limit)
  {
    AboveInLog(r, r.s.sent);
    hide Above;
  }

  lemma ClosesIs(r: Run, limit: nat)
    requires BufferInv(r)
    ensures ClosesNow(r.s, limit) <==> r.s.conn == Closed && !r.s.finished && HandedNow(r, limit) == Owed(r)
  {
    SentAfterInLog(r, limit);
    BatchIs(r, limit);
    AboveInLog(r, r.s.sent);
    SentInLog(r, limit);
    AboveInLog(r, SentAfter(r.s, limit));
    hide Above, Batch, SentAfter;
  }

  lemma SentInLog(r: Run, limit: nat)
    requires BufferInv(r)
    ensures SentAfter(r.s, limit) <= r.s.last
  {
    SentAfterInLog(r, limit);
    hide Batch, SentAfter;
  }

  lemma LinesAre(h: string, b: seq<BufferedLine>, log: seq<BufferedLine>, m: nat)
    requires m + |b| <= |log| && b == log[m..m + |b|] && Numbered(log)
    ensures LineFrames(h, b) == NextLines(h, log, m, |b|)
  {
    forall i | 0 <= i < |b|
      ensures LineFrames(h, b)[i] == NextLines(h, log, m, |b|)[i]
    {
      assert b[i] == log[m + i];
    }
  }

  // --- Pulling to the end ---

  function Sends(limit: nat, n: nat): seq<Step> { if n == 0 then [] else [Send(limit)] + Sends(limit, n - 1) }

  /** Nothing is left for the holder. */
  predicate Idle(r: Run) { Owed(r) == 0 && r.s.ctrl == [] && (r.s.conn == Closed ==> r.s.finished) }

  lemma SendAgain(r: Run, limit: nat, n: nat)
    requires Enabled(r, Send(limit)) && n > 0
    ensures Possible(r, Sends(limit, n)) <==> Possible(Next(r, Send(limit)), Sends(limit, n - 1))
    ensures Possible(r, Sends(limit, n)) ==>
      Execute(r, Sends(limit, n)) == Execute(Next(r, Send(limit)), Sends(limit, n - 1))
  {
    hide Enabled, Next;
    assert Sends(limit, n)[1..] == Sends(limit, n - 1);
  }

  lemma SendStaysHeld(r: Run, limit: nat)
    requires Inv(r) && Enabled(r, Send(limit))
    ensures Inv(Next(r, Send(limit))) && Enabled(Next(r, Send(limit)), Send(limit))
  {
    StepKeepsInv(r, Send(limit));
    PullHandsOut(r, limit);
    hide Inv, NextLines, Owed, HandedNow;
  }

  lemma {:induction false} IdleStays(r: Run, limit: nat, n: nat)
    requires Inv(r) && Enabled(r, Send(limit)) && Idle(r)
    ensures Possible(r, Sends(limit, n)) && Execute(r, Sends(limit, n)).out == r.out
    ensures Idle(Execute(r, Sends(limit, n)))
    decreases n
  {
    hide *;
    if n == 0 {
      NoSends(r, limit);
    } else {
      IdleSend(r, limit);
      SendStaysHeld(r, limit);
      SendAgain(r, limit, n);
      IdleStays(Next(r, Send(limit)), limit, n - 1);
    }
  }

  lemma NoSends(r: Run, limit: nat)
    ensures Possible(r, Sends(limit, 0)) && Execute(r, Sends(limit, 0)) == r
  {}

  lemma IdleSend(r: Run, limit: nat)
    requires Inv(r) && Enabled(r, Send(limit)) && Idle(r)
    ensures Next(r, Send(limit)).out == r.out && Idle(Next(r, Send(limit)))
  {
    PullHandsOut(r, limit);
    OwedLater(r, limit);
    hide Inv, Next, Enabled;
    var h := r.s.handle;
    assert r.out[h] + (r.s.ctrl + NextLines(h, r.log, Max(r.s.sent, r.Base()), 0) + []) == r.out[h];
  }

  /** However a holder pulls, a line or more at a time, it is handed all there is: after
      as many pulls as lines are owed, and one, it has every line above what it was sent
      that the session still had, and, once the socket has ended, the closed frame as the
      last, with the reason. */
  lemma {:induction false} PullingDrains(r: Run, limit: nat, n: nat)
    requires Inv(r) && Enabled(r, Send(limit)) && limit >= 1 && n > Owed(r)
    ensures Possible(r, Sends(limit, n))
    ensures var t, h := Execute(r, Sends(limit, n)), r.s.handle;
      && Idle(t) && h in t.out
      && (r.s.conn != Dialing ==> forall k: nat :: Max(r.s.sent, r.Base()) < k <= r.s.last ==> k in LineIds(t.out[h]))
      && (r.s.conn == Closed && !r.s.finished ==>
            t.out[h] != [] && t.out[h][|t.out[h]| - 1] == ClosedFrame(h, r.s.closeErr))
    decreases n
  {
    hide *;
    var t := Next(r, Send(limit));
    SendStaysHeld(r, limit);
    OwedLater(r, limit);
    SendAgain(r, limit, n);
    HandedIds(r, limit);
    if HandedNow(r, limit) == Owed(r) {
      LastPull(r, limit);
      IdleStays(t, limit, n - 1);
    } else {
      PullingDrains(t, limit, n - 1);
      KeepsIds(t, limit, n - 1);
    }
  }

  lemma LastPull(r: Run, limit: nat)
    requires Inv(r) && Enabled(r, Send(limit)) && HandedNow(r, limit) == Owed(r)
    ensures var t, h := Next(r, Send(limit)), r.s.handle;
      && Idle(t) && h in t.out
      && (r.s.conn != Dialing ==> Max(r.s.sent, r.Base()) + HandedNow(r, limit) == r.s.last)
      && (r.s.conn == Closed && !r.s.finished ==>
            t.out[h] != [] && t.out[h][|t.out[h]| - 1] == ClosedFrame(h, r.s.closeErr))
  {
    PullHandsOut(r, limit);
    OwedLater(r, limit);
    hide Inv, Next, Enabled, NextLines;
  }

  lemma OwedLater(r: Run, limit: nat)
    requires Inv(r) && Enabled(r, Send(limit))
    ensures var t := Next(r, Send(limit));
      Owed(t) == Owed(r) - HandedNow(r, limit) && t.s.ctrl == [] && t.s.handle == r.s.handle && t.s.conn == r.s.conn
      && t.s.closeErr == r.s.closeErr && t.s.last == r.s.last
      && Max(t.s.sent, t.Base()) == Max(r.s.sent, r.Base()) + HandedNow(r, limit)
      && t.s.finished == (r.s.finished || (r.s.conn == Closed && HandedNow(r, limit) == Owed(r)))
      && 0 <= HandedNow(r, limit) <= Owed(r) && (HandedNow(r, limit) == Owed(r) || HandedNow(r, limit) == limit)
      && (r.s.conn == Dialing ==> Owed(r) == 0)
  {
    PullHandsOut(r, limit);
    hide Inv, Enabled, Next, NextLines;
  }

  lemma HandedIds(r: Run, limit: nat)
    requires Inv(r) && Enabled(r, Send(limit))
    ensures r.s.handle in r.out && r.s.handle in Next(r, Send(limit)).out
    ensures var m := Max(r.s.sent, r.Base());
      forall k: nat :: m < k <= m + HandedNow(r, limit) ==> k in LineIds(Next(r, Send(limit)).out[r.s.handle])
  {
    InvParts(r);
    SendShape(r, limit);
    BatchIs(r, limit);
    hide Inv, BufferInv, DeliveryInv, Next, LineIds, Batch, PullFrames;
    var m, n := Max(r.s.sent, r.Base()), |Batch(r.s, limit)|;
    forall k: nat | m < k <= m + n
      ensures k in LineIds(Next(r, Send(limit)).out[r.s.handle])
    {
      ReachedBy(LineIds(r.out[r.s.handle]), m, n, k);
    }
  }

  lemma {:induction false} KeepsIds(r: Run, limit: nat, n: nat)
    requires Inv(r) && Enabled(r, Send(limit)) && Possible(r, Sends(limit, n))
    ensures var t, h := Execute(r, Sends(limit, n)), r.s.handle;
      h in r.out && h in t.out && forall k :: k in LineIds(r.out[h]) ==> k in LineIds(t.out[h])
    decreases n
  {
    hide *;
    if n == 0 {
      NoSends(r, limit);
      HandedIds(r, limit);
    } else {
      SendStaysHeld(r, limit);
      SendAgain(r, limit, n);
      OwedLater(r, limit);
      MoreIds(r, limit);
      KeepsIds(Next(r, Send(limit)), limit, n - 1);
    }
  }

  lemma MoreIds(r: Run, limit: nat)
    requires Inv(r) && Enabled(r, Send(limit))
    ensures var t, h := Next(r, Send(limit)), r.s.handle;
      h in r.out && h in t.out && forall k :: k in LineIds(r.out[h]) ==> k in LineIds(t.out[h])
  {
    InvParts(r);
    SendShape(r, limit);
    hide Inv, BufferInv, DeliveryInv, Next, LineIds, Batch, PullFrames, Consecutive;
  }

  // --- Loss, exactly ---

  /** What went to a link is not above everSent, and nothing counted as lost did. */
  ghost predicate LostIsNew(r: Run) {
    && (forall h, k: nat :: WrittenTo(r, h, k) ==> k <= r.s.everSent)
    && (forall k: nat :: k in r.missed ==> !Written(r, k) && k <= r.Base())
  }

  lemma LostSame(r: Run, t: Run)
    requires LostIsNew(r) && t.missed == r.missed && r.s.everSent <= t.s.everSent && r.Base() <= t.Base()
    requires forall h, k: nat :: WrittenTo(t, h, k) ==> WrittenTo(r, h, k)
    ensures LostIsNew(t)
  {
    hide WrittenTo;
  }

  lemma DropOneKeepsLost(r: Run)
    requires BufferInv(r) && LostIsNew(r)
    ensures LostIsNew(DropOne(r))
  {
    DropOneKeepsBuffer(r);
    hide BufferInv, LineIds;
    var t := DropOne(r);
    assert forall h, k: nat :: WrittenTo(t, h, k) <==> WrittenTo(r, h, k);
    assert forall k: nat :: Written(t, k) ==> Written(r, k);
  }

  lemma {:induction false} ShedRunKeepsLost(r: Run)
    requires BufferInv(r) && LostIsNew(r)
    ensures LostIsNew(ShedRun(r))
    decreases |r.s.buf|
  {
    hide LostIsNew, BufferInv;
    if Cost(r.s.buf) > r.cap && |r.s.buf| > 1 {
      DropOneKeepsBuffer(r);
      DropOneKeepsLost(r);
      ShedRunKeepsLost(DropOne(r));
    }
  }

  lemma SendKeepsLost(r: Run, limit: nat)
    requires Inv(r) && LostIsNew(r) && Enabled(r, Send(limit))
    ensures LostIsNew(Next(r, Send(limit)))
  {
    InvParts(r);
    SendShape(r, limit);
    BatchIs(r, limit);
    PullHandsOut(r, limit);
    hide Inv, BufferInv, DeliveryInv, Next, LineIds, Batch, PullFrames, NextLines, HandedNow, Owed;
    SentKeepsLost(r, Next(r, Send(limit)), r.s.handle, Max(r.s.sent, r.Base()), HandedNow(r, limit));
  }

  lemma SentKeepsLost(r: Run, t: Run, h: string, m: nat, n: nat)
    requires LostIsNew(r) && h in r.out && t.missed == r.missed && r.s.everSent <= t.s.everSent
      && t.Base() == r.Base() <= m
    requires exists more :: t.out == r.out[h := r.out[h] + more]
    requires h in t.out && LineIds(t.out[h]) == LineIds(r.out[h]) + Consecutive(m, n)
    requires n > 0 ==> t.s.everSent >= m + n
    ensures LostIsNew(t)
  {
    hide LineIds;
    forall g, k: nat | WrittenTo(t, g, k)
      ensures WrittenTo(r, g, k) || m < k <= m + n
    {
      if g == h && k !in LineIds(r.out[h]) {
        assert k in Consecutive(m, n);
      }
    }
    forall k: nat | k in t.missed
      ensures !Written(t, k)
    {
      assert !Written(r, k);
    }
  }

  lemma StepKeepsLost(r: Run, step: Step)
    requires Inv(r) && LostIsNew(r) && Enabled(r, step)
    ensures LostIsNew(Next(r, step))
  {
    InvParts(r);
    match step
    case Receive(raw, at) => ReceiveKeepsLost(r, raw, at);
    case ShedGlobally => DropOneKeepsLost(r);
    case Send(limit) => hide *; SendKeepsLost(r, limit);
    case _ =>
      StepGrows(r, step);
      hide Inv, BufferInv, ReplayBurst, Above, Recent, LostIsNew;
      WrittenBefore(r, Next(r, step));
      LostSame(r, Next(r, step));
  }

  lemma WrittenBefore(r: Run, t: Run)
    requires forall h :: h in t.out ==> (h in r.out && t.out[h] == r.out[h]) || t.out[h] == []
    ensures forall h, k: nat :: WrittenTo(t, h, k) ==> WrittenTo(r, h, k)
  {}

  lemma ReceiveKeepsLost(r: Run, raw: string, at: int)
    requires BufferInv(r) && LostIsNew(r) && Enabled(r, Receive(raw, at))
    ensures LostIsNew(Next(r, Receive(raw, at)))
  {
    hide Track, Classify;
    var c := Classify(raw);
    if c.Relayed? && r.s.conn.Open? {
      var a := Appended(r, c.line, raw, at);
      AppendKeepsBuffer(r, c.line, raw, at);
      hide BufferInv, LostIsNew, WrittenTo;
      LostSame(r, a);
      ShedRunKeepsLost(a);
    }
  }

  lemma {:induction false} RunKeepsLost(r: Run, steps: seq<Step>)
    requires Inv(r) && LostIsNew(r) && Possible(r, steps)
    ensures LostIsNew(Execute(r, steps))
    decreases |steps|
  {
    hide Inv, LostIsNew, Next, Enabled;
    if steps != [] {
      StepKeepsInv(r, steps[0]);
      StepKeepsLost(r, steps[0]);
      RunKeepsLost(Next(r, steps[0]), steps[1..]);
    }
  }

  /** The lines counted as lost were shed and went to no link, ever; every other line that
      was shed went to one, or lies in the burst a replay stands for. */
  lemma LostNeverWentOut(cap: nat, link: Link, handle: string, steps: seq<Step>)
    requires Possible(Init(cap, link, handle), steps)
    ensures var r := Outcome(cap, link, handle, steps);
      && |r.missed| == r.reported + r.s.lost && r.missed <= r.shed
      && (forall k: nat, h :: k in r.missed && h in r.out ==> k !in LineIds(r.out[h]))
  {
    LossIsReported(cap, link, handle, steps);
    InitInv(cap, link, handle);
    assert LostIsNew(Init(cap, link, handle)) by { assert LineIds([]) == []; }
    RunKeepsLost(Init(cap, link, handle), steps);
    var r := Outcome(cap, link, handle, steps);
    hide Possible, Execute, Inv, LineIds;
    forall k: nat, h | k in r.missed && h in r.out
      ensures k !in LineIds(r.out[h])
    {
      assert !Written(r, k);
      assert !WrittenTo(r, h, k);
    }
  }

  // --- When a closed frame is no longer due ---

  predicate AskedToClose(steps: seq<Step>) { exists i :: 0 <= i < |steps| && steps[i].CloseRequest? }

  predicate AnyClosed(out: map<string, seq<Frame>>) { exists h :: h in out && HasClosed(out[h]) }

  ghost predicate FinishedRightly(r: Run, asked: bool) { r.s.finished <==> asked || AnyClosed(r.out) }

  lemma SameFinished(r: Run, t: Run, asked: bool)
    requires FinishedRightly(r, asked) && t.s.finished == r.s.finished
    requires forall h :: h in r.out ==> h in t.out && t.out[h] == r.out[h]
    requires forall h :: h in t.out && h !in r.out ==> !HasClosed(t.out[h])
    ensures FinishedRightly(t, asked)
  {
    hide HasClosed;
  }

  lemma SendFinishes(r: Run, limit: nat, asked: bool)
    requires Inv(r) && FinishedRightly(r, asked) && Enabled(r, Send(limit))
    ensures FinishedRightly(Next(r, Send(limit)), asked)
  {
    InvParts(r);
    PullHandsOut(r, limit);
    ControlOnly(r);
    var m, n, h := Max(r.s.sent, r.Base()), HandedNow(r, limit), r.s.handle;
    var ends := r.s.conn == Closed && !r.s.finished && n == Owed(r);
    hide Inv, BufferInv, DeliveryInv, Next, Enabled, Owed, HandedNow;
    ClosedAmong(r.out[h], r.s.ctrl, NextLines(h, r.log, m, n), h, r.s.closeErr, ends);
    SentFinishes(r, Next(r, Send(limit)), asked, h, ends);
  }

  lemma SentFinishes(r: Run, t: Run, asked: bool, h: string, ends: bool)
    requires FinishedRightly(r, asked) && h in r.out && h in t.out && t.out.Keys == r.out.Keys
    requires forall g :: g in r.out && g != h ==> t.out[g] == r.out[g]
    requires HasClosed(t.out[h]) <==> HasClosed(r.out[h]) || ends
    requires t.s.finished == (r.s.finished || ends)
    ensures FinishedRightly(t, asked)
  {
    hide HasClosed;
    if g :| g in r.out && HasClosed(r.out[g]) {
      assert g in t.out && HasClosed(t.out[g]);
    }
    if ends {
      assert h in t.out && HasClosed(t.out[h]);
    }
  }

  lemma ClosedAmong(was: seq<Frame>, ctrl: seq<Frame>, lines: seq<Frame>, h: string, error: string, ends: bool)
    requires (forall f :: f in ctrl ==> Control(f)) && forall f :: f in lines ==> f.LineFrame?
    ensures HasClosed(was + (ctrl + lines + if ends then [ClosedFrame(h, error)] else [])) <==> HasClosed(was) || ends
  {
    var more := ctrl + lines + if ends then [ClosedFrame(h, error)] else [];
    var all := was + more;
    assert forall i :: 0 <= i < |was| ==> all[i] == was[i];
    assert forall i :: 0 <= i < |more| ==> all[|was| + i] == more[i];
    assert forall i :: 0 <= i < |ctrl| ==> more[i] == ctrl[i] && ctrl[i] in ctrl;
    assert forall i :: 0 <= i < |lines| ==> more[|ctrl| + i] == lines[i] && lines[i] in lines;
    if ends {
      assert more[|ctrl| + |lines|].ClosedFrame?;
      assert all[|was| + |ctrl| + |lines|].ClosedFrame?;
    }
  }

  lemma StepFinishes(r: Run, step: Step, asked: bool)
    requires Inv(r) && FinishedRightly(r, asked) && Enabled(r, step)
    ensures FinishedRightly(Next(r, step), asked || step.CloseRequest?)
  {
    match step
    case Send(limit) => hide *; SendFinishes(r, limit, asked);
    case Receive(raw, at) => hide FinishedRightly; ReceiveFinishes(r, raw, at); SameFinished(r, Next(r, step), asked);
    case CloseRequest(_, _) => hide Inv, AnyClosed;
    case _ => hide Inv, FinishedRightly, ReplayBurst, Above, Recent; SameFinished(r, Next(r, step), asked);
  }

  lemma ReceiveFinishes(r: Run, raw: string, at: int)
    requires Enabled(r, Receive(raw, at))
    ensures var t := Next(r, Receive(raw, at)); t.s.finished == r.s.finished && t.out == r.out
  {
    hide Track, Classify;
    if Classify(raw).Relayed? && r.s.conn.Open? {
      ShedRunFinishes(Appended(r, Classify(raw).line, raw, at));
    }
  }

  lemma {:induction false} ShedRunFinishes(r: Run)
    ensures ShedRun(r).s.finished == r.s.finished && ShedRun(r).out == r.out
    decreases |r.s.buf|
  {
    if Cost(r.s.buf) > r.cap && |r.s.buf| > 1 {
      ShedRunFinishes(DropOne(r));
    }
  }

  lemma {:induction false} RunFinishes(r: Run, steps: seq<Step>, asked: bool)
    requires Inv(r) && FinishedRightly(r, asked) && Possible(r, steps)
    ensures FinishedRightly(Execute(r, steps), asked || AskedToClose(steps))
    decreases |steps|
  {
    hide Inv, FinishedRightly, Next, Enabled;
    if steps != [] {
      StepKeepsInv(r, steps[0]);
      StepFinishes(r, steps[0], asked);
      RunFinishes(Next(r, steps[0]), steps[1..], asked || steps[0].CloseRequest?);
      assert AskedToClose(steps) <==> steps[0].CloseRequest? || AskedToClose(steps[1..]) by { AskedCons(steps); }
    }
  }

  lemma AskedCons(steps: seq<Step>)
    requires steps != []
    ensures AskedToClose(steps) <==> steps[0].CloseRequest? || AskedToClose(steps[1..])
  {
    if i :| 0 <= i < |steps| && steps[i].CloseRequest? {
      assert i > 0 ==> steps[1..][i - 1] == steps[i];
    }
    if i :| 0 <= i < |steps[1..]| && steps[1..][i].CloseRequest? {
      assert steps[i + 1] == steps[1..][i];
    }
  }

  /** A closed frame is due until one went out, or the app asked for the close itself. */
  lemma FinishedIff(cap: nat, link: Link, handle: string, steps: seq<Step>)
    requires Possible(Init(cap, link, handle), steps)
    ensures var r := Outcome(cap, link, handle, steps);
      r.s.finished <==> AskedToClose(steps) || exists h :: h in r.out && HasClosed(r.out[h])
  {
    InitInv(cap, link, handle);
    RunFinishes(Init(cap, link, handle), steps, false);
  }
}
