/** What holds after every run of a held socket: the shape of the backlog, what a
    claim is handed and in which order, and where every lost line is counted. */
module SessionTheorems {
  import opened GoStrings
  import opened IrcLine
  import opened Buffer
  import opened SessionSpec
  import opened SessionRun

  const MIN_BUFFER_BYTES: nat := 0x1_0000

  // --- Loss accounting ---

  predicate WrittenTo(r: Run, h: string, k: nat) { h in r.out && k in LineIds(r.out[h]) }

  ghost predicate Written(r: Run, k: nat) { exists h :: WrittenTo(r, h, k) }

  /** Shedding line k loses nothing the app has no word of: it was written to some
      link, or it lies inside the registration burst the replay describes. */
  ghost predicate Accounted(r: Run, k: nat) { Written(r, k) || k <= r.s.trk.burstCovered }

  ghost predicate LossInv(r: Run) {
    && |r.missed| == r.reported + r.s.lost
    && r.missed <= r.shed
    && (forall k :: k in r.shed && k !in r.missed ==> Accounted(r, k))
    && (forall k: nat :: r.Base() < k <= Max(r.s.everSent, r.s.sent) ==> Accounted(r, k))
  }

  lemma DropOneKeepsLoss(r: Run)
    requires BufferInv(r) && LossInv(r)
    ensures LossInv(DropOne(r))
  {
    var t := DropOne(r);
    DropOneKeepsBuffer(r);
    if r.s.buf != [] {
      var id := r.Base() + 1;
      assert id !in r.missed;
      assert id <= r.s.everSent ==> Accounted(r, id);
    }
    AccountedStable(r, t);
  }

  lemma AccountedStable(r: Run, t: Run)
    requires r.s.trk.burstCovered <= t.s.trk.burstCovered
    requires forall h :: h in r.out ==> h in t.out && r.out[h] <= t.out[h]
    ensures forall k :: Accounted(r, k) ==> Accounted(t, k)
  {
    forall k, h | WrittenTo(r, h, k)
      ensures WrittenTo(t, h, k)
    {
      var more := t.out[h][|r.out[h]|..];
      assert t.out[h] == r.out[h] + more;
      LineIdsConcat(r.out[h], more);
    }
    forall k | Accounted(r, k)
      ensures Accounted(t, k)
    {
      if Written(r, k) {
        var h :| WrittenTo(r, h, k);
        assert WrittenTo(t, h, k);
      }
    }
  }

  lemma {:induction false} ShedRunKeepsLoss(r: Run)
    requires BufferInv(r) && LossInv(r)
    ensures LossInv(ShedRun(r))
    decreases |r.s.buf|
  {
    if Cost(r.s.buf) > r.cap && |r.s.buf| > 1 {
      DropOneKeepsBuffer(r);
      DropOneKeepsLoss(r);
      ShedRunKeepsLoss(DropOne(r));
    }
  }

  lemma ReceiveKeepsLoss(r: Run, raw: string, at: int)
    requires BufferInv(r) && LossInv(r) && Enabled(r, Receive(raw, at))
    ensures LossInv(Next(r, Receive(raw, at)))
  {
    hide Track, Classify;
    var c := Classify(raw);
    if c.Relayed? && r.s.conn.Open? {
      var a := Appended(r, c.line, raw, at);
      AppendKeepsBuffer(r, c.line, raw, at);
      AccountedStable(r, a);
      ShedRunKeepsLoss(a);
    }
  }

  lemma SendKeepsLoss(r: Run, limit: nat)
    requires BufferInv(r) && DeliveryInv(r) && LossInv(r) && Enabled(r, Send(limit))
    ensures LossInv(Next(r, Send(limit)))
  {
    hide *;
    SendShape(r, limit);
    SentIsKnown(r, limit);
    LogShape(r);
    SentKeepsLoss(r, Next(r, Send(limit)), r.s.handle, Max(r.s.sent, r.Base()), |Batch(r.s, limit)|);
  }

  lemma SentIsKnown(r: Run, limit: nat)
    requires Enabled(r, Send(limit))
    ensures r.s.handle in r.out
  {}

  /** A step that writes the n lines behind line m to claim h, and nothing else. */
  lemma SentKeepsLoss(r: Run, t: Run, h: string, m: nat, n: nat)
    requires LossInv(r) && h in r.out && h in t.out
    requires t.shed == r.shed && t.missed == r.missed && t.reported == r.reported
    requires t.s == r.s.(ctrl := [], sent := t.s.sent, everSent := t.s.everSent, finished := t.s.finished)
    requires exists more :: t.out == r.out[h := r.out[h] + more]
    requires LineIds(t.out[h]) == LineIds(r.out[h]) + Consecutive(m, n)
    requires m == Max(r.s.sent, r.Base()) && t.s.sent == if n == 0 then r.s.sent else m + n
    requires r.s.everSent <= t.s.everSent <= Max(r.s.everSent, t.s.sent)
    ensures LossInv(t)
  {
    hide LineIds, Written, Consecutive;
    AccountedStable(r, t);
    forall k: nat | t.Base() < k <= Max(t.s.everSent, t.s.sent)
      ensures Accounted(t, k)
    {
      if k > Max(r.s.everSent, r.s.sent) {
        WrittenNow(t, h, LineIds(r.out[h]), m, n, k);
      }
    }
  }

  lemma WrittenNow(t: Run, h: string, before: seq<nat>, m: nat, n: nat, k: nat)
    requires h in t.out && LineIds(t.out[h]) == before + Consecutive(m, n) && m < k <= m + n
    ensures Written(t, k)
  {
    hide LineIds;
    assert Consecutive(m, n)[k - m - 1] == k;
    assert WrittenTo(t, h, k);
  }

  lemma StepKeepsLoss(r: Run, step: Step)
    requires BufferInv(r) && DeliveryInv(r) && LossInv(r) && Enabled(r, step)
    ensures LossInv(Next(r, step))
  {
    match step
    case Receive(raw, at) => hide *; ReceiveKeepsLoss(r, raw, at);
    case ShedGlobally => hide BufferInv, LossInv; DropOneKeepsLoss(r);
    case Send(limit) => hide *; SendKeepsLoss(r, limit);
    case Claim(link, handle) => hide *; ClaimKeepsLoss(r, link, handle);
    case _ => hide *; OthersKeepLoss(r, step);
  }

  lemma ClaimKeepsLoss(r: Run, link: Link, handle: string)
    requires BufferInv(r) && LossInv(r) && Enabled(r, Claim(link, handle))
    ensures LossInv(Next(r, Claim(link, handle)))
  {
    hide ReplayBurst, Above, Recent, Reusable, Written;
    AccountedStable(r, Next(r, Claim(link, handle)));
  }

  lemma OthersKeepLoss(r: Run, step: Step)
    requires BufferInv(r) && LossInv(r) && Enabled(r, step)
    requires !step.Receive? && !step.ShedGlobally? && !step.Send? && !step.Claim?
    ensures LossInv(Next(r, step))
  {
    StepGrows(r, step);
    hide BufferInv, Written, Reusable, Above;
    AccountedStable(r, Next(r, step));
  }

  // --- The end of a connection ---

  predicate HasClosed(fs: seq<Frame>) { exists i :: 0 <= i < |fs| && fs[i].ClosedFrame? }

  predicate ClosedLast(fs: seq<Frame>) { forall i :: 0 <= i < |fs| && fs[i].ClosedFrame? ==> i == |fs| - 1 }

  predicate NothingOwed(r: Run) { r.s.ctrl == [] && Max(r.s.sent, r.Base()) == r.s.last }

  /** Once a closed frame went out, it stays the last frame of its claim and every
      line above the claim's start was handed over before it, shed or acknowledged. */
  ghost predicate ClosedInv(r: Run) {
    forall h :: h in r.out && h in r.start ==>
      && ClosedLast(r.out[h])
      && (HasClosed(r.out[h]) ==>
            && r.s.conn.Closed? && r.s.finished && NothingOwed(r)
            && (forall k :: r.start[h] < k <= r.s.last ==> k in LineIds(r.out[h]) || Gone(r, k)))
  }

  lemma NothingOwedNothingSent(r: Run, limit: nat)
    requires BufferInv(r) && NothingOwed(r) && r.s.finished
    ensures PullFrames(r.s, limit) == []
      && Next(r.(out := map[r.s.handle := []], s := r.s.(link := Some(0))), Send(limit)).s.sent == r.s.sent
  {
    AboveInLog(r, r.s.sent);
  }

  lemma PullShape(s: State, limit: nat)
    requires forall f :: f in s.ctrl ==> Control(f)
    ensures ClosedLast(PullFrames(s, limit))
    ensures HasClosed(PullFrames(s, limit)) <==> ClosesNow(s, limit)
  {
    var fs := PullFrames(s, limit);
    var body := s.ctrl + LineFrames(s.handle, Batch(s, limit));
    assert fs == body + Closing(s, limit);
    hide ClosesNow, Batch, PullFrames;
    forall i | 0 <= i < |body|
      ensures !fs[i].ClosedFrame?
    {
      assert fs[i] == body[i];
      if i < |s.ctrl| {
        assert body[i] in s.ctrl;
      }
    }
    if ClosesNow(s, limit) {
      assert fs[|body|].ClosedFrame?;
    }
  }

  lemma SendAfterClosed(r: Run, limit: nat)
    requires BufferInv(r) && ClosedInv(r) && Enabled(r, Send(limit))
    requires r.s.finished && NothingOwed(r)
    ensures ClosedInv(Next(r, Send(limit)))
  {
    var t := Next(r, Send(limit));
    NothingOwedNothingSent(r, limit);
    assert r.out[r.s.handle] + [] == r.out[r.s.handle];
    assert t.out == r.out;
  }

  /** When a pull adds the closed frame, nothing is left to hand out. */
  lemma ClosingOwesNothing(r: Run, limit: nat)
    requires BufferInv(r) && DeliveryInv(r) && Enabled(r, Send(limit)) && ClosesNow(r.s, limit)
    ensures var t := Next(r, Send(limit));
            && NothingOwed(t) && t.s.finished && t.s.conn.Closed?
            && (forall k :: t.start[r.s.handle] < k <= t.s.last ==> k in LineIds(t.out[r.s.handle]) || Gone(t, k))
  {
    var t := Next(r, Send(limit));
    SendKeepsHanded(r, limit);
    StepKeepsBuffer(r, Send(limit));
    assert Above(t.s.buf, t.s.sent) == [];
    AboveInLog(t, t.s.sent);
  }

  lemma FirstSendOfClosed(r: Run, limit: nat)
    requires BufferInv(r) && DeliveryInv(r) && ClosedInv(r) && Enabled(r, Send(limit))
    requires forall g :: g in r.out ==> !HasClosed(r.out[g])
    ensures ClosedInv(Next(r, Send(limit)))
  {
    ControlOnly(r);
    PullShape(r.s, limit);
    SendShape(r, limit);
    hide DeliveryInv, BufferInv, PullFrames, ClosesNow, Next, Enabled, LineIds, HasClosed, ClosedLast, Consecutive;
    ClosedAtEnd(r.out[r.s.handle], PullFrames(r.s, limit));
    if ClosesNow(r.s, limit) {
      ClosingOwesNothing(r, limit);
    }
    FirstClosed(r, Next(r, Send(limit)), r.s.handle, PullFrames(r.s, limit));
  }

  lemma ControlOnly(r: Run)
    requires DeliveryInv(r)
    ensures r.s.handle in r.out && forall f :: f in r.s.ctrl ==> Control(f)
  {}

  /** A first closed frame, if there is one among what claim h gets, ends it rightly. */
  lemma FirstClosed(r: Run, t: Run, h: string, fs: seq<Frame>)
    requires ClosedInv(r) && h in r.out && t.out == r.out[h := r.out[h] + fs] && t.start == r.start
    requires forall g :: g in r.out ==> !HasClosed(r.out[g])
    requires ClosedLast(r.out[h] + fs)
    requires HasClosed(r.out[h] + fs) && h in t.start ==>
      && t.s.conn.Closed? && t.s.finished && NothingOwed(t)
      && (forall k :: t.start[h] < k <= t.s.last ==> k in LineIds(t.out[h]) || Gone(t, k))
    ensures ClosedInv(t)
  {
    hide LineIds, HasClosed, ClosedLast, NothingOwed, Gone;
  }

  lemma SendKeepsClosed(r: Run, limit: nat)
    requires BufferInv(r) && DeliveryInv(r) && ClosedInv(r) && Enabled(r, Send(limit))
    ensures ClosedInv(Next(r, Send(limit)))
  {
    hide Next, BufferInv, Enabled;
    if g :| g in r.out && HasClosed(r.out[g]) {
      SendAfterClosed(r, limit);
    } else {
      FirstSendOfClosed(r, limit);
    }
  }

  lemma ClosedAtEnd(a: seq<Frame>, b: seq<Frame>)
    requires !HasClosed(a) && ClosedLast(b)
    ensures ClosedLast(a + b) && (HasClosed(a + b) <==> HasClosed(b))
  {
    forall i | 0 <= i < |a + b| && (a + b)[i].ClosedFrame?
      ensures i == |a + b| - 1 && HasClosed(b)
    {
      assert i >= |a|;
      assert b[i - |a|] == (a + b)[i];
    }
    if HasClosed(b) {
      var i :| 0 <= i < |b| && b[i].ClosedFrame?;
      assert (a + b)[|a| + i].ClosedFrame?;
    }
  }

  lemma QuietKeepsClosed(r: Run, step: Step)
    requires BufferInv(r) && DeliveryInv(r) && ClosedInv(r) && Enabled(r, step)
    requires !step.Send? && !step.Receive? && !step.ShedGlobally?
    ensures ClosedInv(Next(r, step))
  {
    StepGrows(r, step);
    hide ReplayBurst, LineIds, BufferInv, Handed, Above;
  }

  lemma StepKeepsClosed(r: Run, step: Step)
    requires BufferInv(r) && DeliveryInv(r) && ClosedInv(r) && Enabled(r, step)
    ensures ClosedInv(Next(r, step))
  {
    StepGrows(r, step);
    match step
    case Send(limit) => hide *; SendKeepsClosed(r, limit);
    case Receive(raw, at) =>
      hide Track, Classify;
      ReceiveKeepsBuffer(r, raw, at);
    case ShedGlobally => DropOneKeepsBuffer(r);
    case _ => hide *; QuietKeepsClosed(r, step);
  }

  // --- The per-connection cap ---

  /** No backlog is over its cap, given a cap that one line cannot exceed. */
  predicate CapInv(r: Run) {
    r.cap >= MIN_BUFFER_BYTES ==> Cost(r.s.buf) <= r.cap
  }

  lemma CostOfSuffix(lines: seq<BufferedLine>, i: nat)
    requires i <= |lines|
    ensures Cost(lines[i..]) <= Cost(lines)
  {
    CostSplit(lines, i);
  }

  lemma ReceiveKeepsCap(r: Run, raw: string, at: int)
    requires BufferInv(r) && CapInv(r) && Enabled(r, Receive(raw, at))
    ensures CapInv(Next(r, Receive(raw, at)))
  {
    hide Track, Classify, TrackBurst;
    var t := Next(r, Receive(raw, at));
    var c := Classify(raw);
    if c.Relayed? && r.s.conn.Open? {
      var a := Appended(r, c.line, raw, at);
      AppendKeepsBuffer(r, c.line, raw, at);
      ShedRunKeeps(a);
      OneLineFits(t, raw);
    }
  }

  lemma OneLineFits(t: Run, raw: string)
    requires BufferInv(t) && t.s.last >= 1 && t.log[t.s.last - 1].text == raw && |raw| <= MAX_LINE_BYTES + 1
    requires Cost(t.s.buf) <= t.cap || |t.s.buf| <= 1
    ensures CapInv(t)
  {
    if |t.s.buf| == 1 {
      assert t.s.buf[0] == t.log[t.s.last - 1];
      assert t.s.buf == [t.s.buf[0]] + t.s.buf[1..];
      assert t.s.buf[1..] == [];
      assert Cost(t.s.buf[1..]) == 0;
    }
  }

  lemma AckKeepsCap(r: Run, handle: string, n: nat)
    requires BufferInv(r) && CapInv(r)
    ensures CapInv(Next(r, Acknowledge(handle, n)))
  {
    if AckCounts(r.s, handle, n) {
      var i := Max(n, r.Base()) - r.Base();
      AboveInLog(r, n);
      CostOfSuffix(r.s.buf, i);
      assert Above(r.s.buf, n) == r.s.buf[i..];
    }
  }

  lemma StepKeepsCap(r: Run, step: Step)
    requires BufferInv(r) && CapInv(r) && Enabled(r, step)
    ensures CapInv(Next(r, step))
  {
    match step
    case Receive(raw, at) => ReceiveKeepsCap(r, raw, at);
    case ShedGlobally => if |r.s.buf| > 1 { CostOfSuffix(r.s.buf, 1); }
    case Acknowledge(handle, n) => AckKeepsCap(r, handle, n);
    case _ =>
  }

  // --- Whole runs ---

  ghost predicate Inv(r: Run) {
    BufferInv(r) && DeliveryInv(r) && LossInv(r) && ClosedInv(r) && CapInv(r)
  }

  lemma InitInv(cap: nat, link: Link, handle: string)
    ensures Inv(Init(cap, link, handle))
  {
    var r := Init(cap, link, handle);
    assert LineIds([]) == [];
    assert r.s.buf == r.log[r.Base()..];
  }

  lemma StepKeepsInv(r: Run, step: Step)
    requires Inv(r) && Enabled(r, step)
    ensures Inv(Next(r, step))
  {
    hide Next, Enabled, BufferInv, DeliveryInv, LossInv, ClosedInv, CapInv;
    StepKeepsBuffer(r, step);
    StepKeepsDelivery(r, step);
    StepKeepsLoss(r, step);
    StepKeepsClosed(r, step);
    StepKeepsCap(r, step);
  }

  lemma {:induction false} RunKeepsInv(r: Run, steps: seq<Step>)
    requires Inv(r) && Possible(r, steps)
    ensures Inv(Execute(r, steps))
    decreases |steps|
  {
    if steps != [] {
      StepKeepsInv(r, steps[0]);
      RunKeepsInv(Next(r, steps[0]), steps[1..]);
    }
  }

  /** The state after a run of a socket that `handle` on `link` asked for. */
  function Outcome(cap: nat, link: Link, handle: string, steps: seq<Step>): Run
    requires Possible(Init(cap, link, handle), steps)
  {
    Execute(Init(cap, link, handle), steps)
  }

  /** The backlog is exactly the consecutive lines (last - len, last] as they came
      in, all above what was acknowledged and within the cap; and every line below
      was shed or acknowledged. */
  lemma BacklogIsTheTail(cap: nat, link: Link, handle: string, steps: seq<Step>)
    requires Possible(Init(cap, link, handle), steps)
    ensures var r := Outcome(cap, link, handle, steps);
            && |r.log| == r.s.last && |r.s.buf| <= r.s.last - r.s.acked
            && r.s.buf == r.log[r.s.last - |r.s.buf|..]
            && (forall i :: 0 <= i < |r.s.buf| ==> r.s.buf[i].id == r.s.last - |r.s.buf| + 1 + i)
            && (forall k :: 1 <= k <= r.s.last - |r.s.buf| ==> k in r.shed || k <= r.s.acked)
            && (r.cap >= MIN_BUFFER_BYTES ==> Cost(r.s.buf) <= r.cap)
  {
    hide Inv, Next, Enabled, New;
    InitInv(cap, link, handle);
    RunKeepsInv(Init(cap, link, handle), steps);
    TailShape(Outcome(cap, link, handle, steps));
  }

  lemma TailShape(r: Run)
    requires Inv(r)
    ensures |r.log| == r.s.last && |r.s.buf| <= r.s.last - r.s.acked
    ensures r.s.buf == r.log[r.s.last - |r.s.buf|..]
    ensures forall i :: 0 <= i < |r.s.buf| ==> r.s.buf[i].id == r.s.last - |r.s.buf| + 1 + i
    ensures forall k :: 1 <= k <= r.s.last - |r.s.buf| ==> k in r.shed || k <= r.s.acked
    ensures r.cap >= MIN_BUFFER_BYTES ==> Cost(r.s.buf) <= r.cap
  {
    hide DeliveryInv, LossInv, ClosedInv;
    assert forall i :: 0 <= i < |r.s.buf| ==> r.s.buf[i] == r.log[r.s.last - |r.s.buf| + i];
  }

  /** What any claim was handed: numbers strictly increasing and above its start,
      each with the text and time that came in, a number left out only if that line
      was shed or acknowledged; a closed frame only as the very last frame, once all
      of that holds up to the last line there is. */
  lemma ClaimsAreHandedTheStream(cap: nat, link: Link, handle: string, steps: seq<Step>, h: string)
    requires Possible(Init(cap, link, handle), steps)
    requires h in Outcome(cap, link, handle, steps).out
    ensures var r := Outcome(cap, link, handle, steps);
            && h in r.start
            && var fs, ids := r.out[h], LineIds(r.out[h]);
            && Increasing(ids)
            && (forall k :: k in ids ==> r.start[h] < k <= r.s.last)
            && (forall f :: f in fs && f.LineFrame? ==>
                  1 <= f.id <= |r.log| && BufferedLine(f.id, f.at, f.text) == r.log[f.id - 1])
            && (forall k :: r.start[h] < k <= LastId(fs) ==> k in ids || Gone(r, k))
            && ClosedLast(fs)
            && (HasClosed(fs) ==> forall k :: r.start[h] < k <= r.s.last ==> k in ids || Gone(r, k))
  {
    InitInv(cap, link, handle);
    RunKeepsInv(Init(cap, link, handle), steps);
    var r := Outcome(cap, link, handle, steps);
    assert Handed(r, h);
    assert forall f :: f in r.out[h] ==> Exact(r, h, f);
  }

  /** The Lost figures reported so far and the counter not yet reported add up to
      the lines shed before any link had them; every other line that was shed had
      been written to some link, or lies inside the recorded burst. */
  lemma LossIsReported(cap: nat, link: Link, handle: string, steps: seq<Step>)
    requires Possible(Init(cap, link, handle), steps)
    ensures var r := Outcome(cap, link, handle, steps);
            && r.missed <= r.shed
            && r.reported + r.s.lost == |r.missed|
            && forall k :: k in r.shed - r.missed ==>
                 (exists h :: h in r.out && k in LineIds(r.out[h])) || k <= r.s.trk.burstCovered
  {
    InitInv(cap, link, handle);
    RunKeepsInv(Init(cap, link, handle), steps);
    var r := Outcome(cap, link, handle, steps);
    forall k | k in r.shed - r.missed
      ensures (exists h :: h in r.out && k in LineIds(r.out[h])) || k <= r.s.trk.burstCovered
    {
      assert Accounted(r, k);
      if Written(r, k) {
        var h :| WrittenTo(r, h, k);
      }
    }
  }

  lemma {:induction false} StartStays(r: Run, steps: seq<Step>, h: string)
    requires Inv(r) && Possible(r, steps) && h in r.out
    ensures var t := Execute(r, steps);
            h in t.out && h in t.start && h in r.start && t.start[h] == r.start[h]
    decreases |steps|
  {
    if steps != [] {
      StepKeepsInv(r, steps[0]);
      StepKeepsStart(r, steps[0], h);
      StartStays(Next(r, steps[0]), steps[1..], h);
    }
  }

  lemma StepKeepsStart(r: Run, step: Step, h: string)
    requires Inv(r) && Enabled(r, step) && h in r.out
    ensures var t := Next(r, step);
            h in t.out && h in t.start && h in r.start && t.start[h] == r.start[h]
  {
    match step
    case Receive(raw, at) => ReceiveKeepsBuffer(r, raw, at);
    case _ => hide ReplayBurst, PullFrames, Above, Batch;
  }

  /** No duplicates: whatever a later claim is handed, however the run goes on, lies
      above what had been acknowledged, and above the burst it gets as a replay. */
  lemma NoRedelivery(r: Run, link: Link, handle: string, later: seq<Step>)
    requires Inv(r) && Enabled(r, Claim(link, handle))
    requires Possible(Next(r, Claim(link, handle)), later)
    ensures var t := Execute(Next(r, Claim(link, handle)), later);
            handle in t.out &&
            forall k :: k in LineIds(t.out[handle]) ==> k > r.s.acked && k > r.s.trk.burstCovered
  {
    var c := Next(r, Claim(link, handle));
    StepKeepsInv(r, Claim(link, handle));
    assert c.start[handle] == Max(r.s.acked, r.s.trk.burstCovered);
    StartStays(c, later, handle);
    RunKeepsInv(c, later);
    var t := Execute(c, later);
    assert Handed(t, handle);
  }
}
