/** Whole runs of one held IRC socket, from the connect that created it until it is
    forgotten: any interleaving of what the socket, the budget, the links and the
    acknowledgements do to it, with a history of what came in and what went out. */
module SessionRun {
  import opened GoStrings
  import opened IrcLine
  import opened Buffer
  import opened SessionSpec

  /** The session and its history: every line numbered so far, the ids of the
      lines shed and of those shed above everSent, the frames written per claim,
      where each claim's line frames start, and the sum of the Lost figures
      reported in attached frames. */
  datatype Run = Run(
    s: State, cap: nat, log: seq<BufferedLine>,
    shed: set<nat>, missed: set<nat>,
    out: map<string, seq<Frame>>, start: map<string, nat>, reported: nat)
  {
    /** Everything numbered up to here has left the buffer. */
    function Base(): int { s.last - |s.buf| }
  }

  datatype Step =
    | Dial
    | Fail(reason: string)
    | Receive(raw: string, at: int)
    | ShedGlobally
    | Claim(link: Link, handle: string)
    | Release(link: Link)
    | Send(limit: nat)
    | Acknowledge(handle: string, n: nat)
    | CloseRequest(link: Link, handle: string)

  function Init(cap: nat, link: Link, handle: string): Run {
    Run(New(link, handle), cap, [], {}, {}, map[handle := []], map[handle := 0], 0)
  }

  /** A line is no longer than the socket reader lets through, and a claim comes
      with a handle of its own (the app draws 128 random bits for each). */
  predicate Enabled(r: Run, step: Step) {
    match step
    case Receive(raw, _) => |raw| <= MAX_LINE_BYTES + 1
    case Claim(_, handle) => Reusable(r.s) && handle !in r.out
    case Send(_) => r.s.link.Some? && r.s.handle in r.out
    case CloseRequest(link, handle) => CloseAllowed(r.s, handle, link)
    case _ => true
  }

  function DropOne(r: Run): Run {
    if r.s.buf == [] then r
    else
      var k := r.s.buf[0].id;
      r.(s := DropOldest(r.s), shed := r.shed + {k},
         missed := if k > r.s.everSent then r.missed + {k} else r.missed)
  }

  function ShedRun(r: Run): Run
    decreases |r.s.buf|
  {
    if Cost(r.s.buf) > r.cap && |r.s.buf| > 1 then ShedRun(DropOne(r)) else r
  }

  function Appended(r: Run, l: Line, raw: string, at: int): Run {
    r.(s := Append(r.s, l, raw, at), log := r.log + [BufferedLine(r.s.last + 1, at, raw)])
  }

  function Next(r: Run, step: Step): Run
    requires Enabled(r, step)
  {
    match step
    case Dial => r.(s := DialOk(r.s))
    case Fail(reason) => r.(s := Shutdown(r.s, reason))
    case Receive(raw, at) =>
      var c := Classify(raw);
      if c.Relayed? && r.s.conn.Open? then ShedRun(Appended(r, c.line, raw, at)) else r
    case ShedGlobally => if |r.s.buf| <= 1 then r else DropOne(r)
    case Claim(link, handle) =>
      var s := Attach(r.s, link, handle);
      r.(s := s, out := r.out[handle := []], start := r.start[handle := s.sent],
         reported := r.reported + r.s.lost)
    case Release(link) => r.(s := Detach(r.s, link))
    case Send(limit) =>
      r.(s := Pull(r.s, limit),
         out := r.out[r.s.handle := r.out[r.s.handle] + PullFrames(r.s, limit)])
    case Acknowledge(handle, n) => r.(s := Ack(r.s, handle, n))
    case CloseRequest(link, _) => r.(s := RequestClose(r.s, link))
  }

  predicate Possible(r: Run, steps: seq<Step>)
    decreases |steps|
  {
    steps == [] || (Enabled(r, steps[0]) && Possible(Next(r, steps[0]), steps[1..]))
  }

  function Execute(r: Run, steps: seq<Step>): Run
    requires Possible(r, steps)
    decreases |steps|
  {
    if steps == [] then r else Execute(Next(r, steps[0]), steps[1..])
  }

  /** The history shadows the operations of SessionSpec exactly. */
  lemma {:induction false} ShedRunFollows(r: Run)
    ensures ShedRun(r).s == ShedOver(r.s, r.cap)
    decreases |r.s.buf|
  {
    if Cost(r.s.buf) > r.cap && |r.s.buf| > 1 {
      ShedRunFollows(DropOne(r));
    }
  }

  lemma ReceiveFollows(r: Run, raw: string, at: int)
    requires Enabled(r, Receive(raw, at))
    ensures Next(r, Receive(raw, at)).s == Ingest(r.s, raw, at, r.cap)
  {
    if Classify(raw).Relayed? {
      ShedRunFollows(Appended(r, Classify(raw).line, raw, at));
    }
  }

  // --- The buffer ---

  /** The buffer is the tail of what came in, in full, and whatever is not in it
      any more was shed or acknowledged. */
  ghost predicate BufferInv(r: Run) {
    && |r.log| == r.s.last
    && (forall i :: 0 <= i < |r.log| ==> r.log[i].id == i + 1)
    && r.Base() >= 0
    && r.s.buf == r.log[r.Base()..]
    && r.s.acked <= r.Base()
    && r.s.sent <= r.s.last && r.s.everSent <= r.s.last && r.s.trk.burstCovered <= r.s.last
    && (forall k :: k in r.shed ==> 1 <= k <= r.Base())
    && (forall k :: 1 <= k <= r.Base() ==> k in r.shed || k <= r.s.acked)
  }

  /** In a buffer of consecutive numbers, a filter by number is a suffix of the log. */
  lemma AboveInLog(r: Run, n: nat)
    requires BufferInv(r) && n <= r.s.last
    ensures Above(r.s.buf, n) == r.log[Max(n, r.Base())..]
    ensures n <= r.Base() ==> Above(r.s.buf, n) == r.s.buf
  {
    var i := Max(n, r.Base()) - r.Base();
    AboveIsSuffix(r.s.buf, n, i);
  }

  /** How many lines it sheds is all that ShedRun decides. */
  lemma {:induction false} ShedRunKeeps(r: Run)
    requires BufferInv(r)
    ensures BufferInv(ShedRun(r))
    ensures ShedRun(r).s == r.s.(buf := ShedRun(r).s.buf, lost := ShedRun(r).s.lost)
    ensures ShedRun(r) == r.(s := ShedRun(r).s, shed := ShedRun(r).shed, missed := ShedRun(r).missed)
    ensures Cost(ShedRun(r).s.buf) <= r.cap || |ShedRun(r).s.buf| <= 1
    ensures |r.s.buf| >= 1 ==> |ShedRun(r).s.buf| >= 1
    ensures r.shed <= ShedRun(r).shed && r.missed <= ShedRun(r).missed && r.Base() <= ShedRun(r).Base()
    decreases |r.s.buf|
  {
    if Cost(r.s.buf) > r.cap && |r.s.buf| > 1 {
      DropOneKeepsBuffer(r);
      ShedRunKeeps(DropOne(r));
    }
  }

  lemma DropOneKeepsBuffer(r: Run)
    requires BufferInv(r)
    ensures BufferInv(DropOne(r))
    ensures r.s.buf != [] ==> DropOne(r).Base() == r.Base() + 1 && r.s.buf[0].id == r.Base() + 1
  {
    if r.s.buf != [] {
      var t := DropOne(r);
      assert r.s.buf[0] == r.log[r.Base()];
      assert t.s.buf == r.log[r.Base() + 1..];
    }
  }

  lemma TrackCovered(t: Tracked, l: Line, raw: string, last: nat, attached: bool)
    ensures Track(t, l, raw, last, attached).burstCovered == if t.burstOpen then last else t.burstCovered
  {
    SelfCovers(TrackBurst(t, l, raw, last), l, attached);
    hide TrackSelf, ToUpper, EndOfBurst;
  }

  lemma SelfCovers(t: Tracked, l: Line, attached: bool)
    ensures TrackSelf(t, l, attached).burstCovered == t.burstCovered
  {
    hide AddChannels, RemoveChannels, RemoveChannel, FromSelf, Split, Fold;
  }

  lemma AppendKeepsBuffer(r: Run, l: Line, raw: string, at: int)
    requires BufferInv(r)
    ensures BufferInv(Appended(r, l, raw, at))
    ensures Appended(r, l, raw, at).Base() == r.Base()
    ensures Appended(r, l, raw, at).s.trk.burstCovered >= r.s.trk.burstCovered
  {
    var t := Appended(r, l, raw, at);
    TrackCovered(r.s.trk, l, raw, r.s.last + 1, r.s.link.Some?);
    hide Track;
    LogGrows(r.log, BufferedLine(r.s.last + 1, at, raw), r.Base());
  }

  lemma LogGrows(log: seq<BufferedLine>, l: BufferedLine, i: nat)
    requires i <= |log|
    ensures log[i..] + [l] == (log + [l])[i..]
  {}

  lemma SentAfterInLog(r: Run, limit: nat)
    requires BufferInv(r)
    ensures var m, b := Max(r.s.sent, r.Base()), Batch(r.s, limit);
            && m + |b| <= r.s.last
            && b == r.log[m..m + |b|]
            && SentAfter(r.s, limit) == if b == [] then r.s.sent else m + |b|
  {
    hide *;
    LogShape(r);
    AboveInLog(r, r.s.sent);
    BatchSlice(r.s, limit, r.log, Max(r.s.sent, r.Base()));
  }

  lemma LogShape(r: Run)
    requires BufferInv(r)
    ensures |r.log| == r.s.last && Numbered(r.log)
    ensures r.s.sent <= r.s.last && 0 <= r.Base() <= Max(r.s.sent, r.Base()) <= r.s.last
  {}

  predicate Numbered(log: seq<BufferedLine>) { forall i :: 0 <= i < |log| ==> log[i].id == i + 1 }

  lemma BatchSlice(s: State, limit: nat, log: seq<BufferedLine>, m: nat)
    requires Numbered(log) && m <= |log| && Above(s.buf, s.sent) == log[m..]
    ensures var b := Batch(s, limit);
            && m + |b| <= |log|
            && b == log[m..m + |b|]
            && SentAfter(s, limit) == if b == [] then s.sent else m + |b|
  {
    hide Above;
    var b := Batch(s, limit);
    assert b == log[m..m + |b|];
    assert b != [] ==> b[|b| - 1] == log[m + |b| - 1];
  }

  lemma ReceiveKeepsBuffer(r: Run, raw: string, at: int)
    requires BufferInv(r) && Enabled(r, Receive(raw, at))
    ensures var t := Next(r, Receive(raw, at));
            BufferInv(t) && Grows(r, t) && SameClaims(r, t)
  {
    hide Track, Classify;
    var c := Classify(raw);
    if c.Relayed? && r.s.conn.Open? {
      var a := Appended(r, c.line, raw, at);
      AppendKeepsBuffer(r, c.line, raw, at);
      ShedRunKeeps(a);
      hide Appended;
    }
  }

  /** What only grows, whatever the step. */
  predicate Grows(r: Run, t: Run) {
    && r.log <= t.log && r.s.last <= t.s.last && r.shed <= t.shed && r.missed <= t.missed
    && r.s.acked <= t.s.acked && r.s.everSent <= t.s.everSent && r.Base() <= t.Base()
    && r.s.trk.burstCovered <= t.s.trk.burstCovered && t.cap == r.cap
  }

  /** The claim, and what was handed out so far, are as they were. */
  predicate SameClaims(r: Run, t: Run) {
    && t.out == r.out && t.start == r.start && t.reported == r.reported
    && t.s == r.s.(buf := t.s.buf, last := t.s.last, acked := t.s.acked, lost := t.s.lost, trk := t.s.trk,
                   conn := t.s.conn, closeErr := t.s.closeErr)
  }

  lemma SameBuffer(r: Run, t: Run)
    requires BufferInv(r) && t.log == r.log && t.shed == r.shed
    requires t.s.buf == r.s.buf && t.s.last == r.s.last && t.s.acked == r.s.acked
    requires t.s.sent <= r.s.last && t.s.everSent <= r.s.last && t.s.trk.burstCovered == r.s.trk.burstCovered
    ensures BufferInv(t)
  {}

  /** The steps that change neither the log nor the buffer. */
  predicate Quiet(step: Step) { !step.Receive? && !step.ShedGlobally? && !step.Send? && !step.Acknowledge? }

  lemma QuietStep(r: Run, step: Step)
    requires Quiet(step) && Enabled(r, step)
    ensures var t := Next(r, step);
            && t.log == r.log && t.shed == r.shed && t.s.buf == r.s.buf && t.s.last == r.s.last
            && t.s.acked == r.s.acked && t.s.everSent == r.s.everSent
            && t.s.trk.burstCovered == r.s.trk.burstCovered
            && t.s.sent == if step.Claim? then Max(r.s.acked, r.s.trk.burstCovered) else r.s.sent
  {
    hide ReplayBurst, Above, Recent, Reusable;
  }

  lemma BufferBounds(r: Run)
    requires BufferInv(r)
    ensures r.s.sent <= r.s.last && r.s.everSent <= r.s.last && r.s.acked <= r.s.last
      && r.s.trk.burstCovered <= r.s.last
  {}

  lemma SendKeepsBuffer(r: Run, limit: nat)
    requires BufferInv(r) && Enabled(r, Send(limit))
    ensures BufferInv(Next(r, Send(limit)))
  {
    SentAfterInLog(r, limit);
    BufferBounds(r);
    hide Batch, PullFrames, SentAfter, ClosesNow, BufferInv;
    SameBuffer(r, Next(r, Send(limit)));
  }

  lemma AckKeepsBuffer(r: Run, handle: string, n: nat)
    requires BufferInv(r)
    ensures BufferInv(Next(r, Acknowledge(handle, n)))
  {
    if AckCounts(r.s, handle, n) {
      AboveInLog(r, n);
      hide Above;
      AckedBuffer(r, Next(r, Acknowledge(handle, n)), n);
    }
  }

  lemma AckedBuffer(r: Run, t: Run, n: nat)
    requires BufferInv(r) && r.s.acked <= n <= r.s.last
    requires t == r.(s := r.s.(buf := r.log[Max(n, r.Base())..], acked := n))
    ensures BufferInv(t)
  {}

  lemma StepKeepsBuffer(r: Run, step: Step)
    requires BufferInv(r) && Enabled(r, step)
    ensures BufferInv(Next(r, step))
  {
    hide BufferInv, Next, Enabled;
    match step
    case Receive(raw, at) => ReceiveKeepsBuffer(r, raw, at);
    case ShedGlobally => ShedKeepsBuffer(r);
    case Send(limit) => SendKeepsBuffer(r, limit);
    case Acknowledge(handle, n) => AckKeepsBuffer(r, handle, n);
    case _ =>
      BufferBounds(r);
      QuietStep(r, step);
      SameBuffer(r, Next(r, step));
  }

  lemma ShedKeepsBuffer(r: Run)
    requires BufferInv(r)
    ensures BufferInv(Next(r, ShedGlobally))
  {
    hide BufferInv;
    DropOneKeepsBuffer(r);
  }

  // --- What each claim is handed ---

  /** The numbers of the line frames among fs, in order. */
  function LineIds(fs: seq<Frame>): seq<nat> {
    if fs == [] then []
    else (match fs[0] case LineFrame(_, id, _, _) => [id] case _ => []) + LineIds(fs[1..])
  }

  function LastId(fs: seq<Frame>): nat {
    var ids := LineIds(fs);
    if ids == [] then 0 else ids[|ids| - 1]
  }

  predicate Increasing(ids: seq<nat>) {
    forall i, j :: 0 <= i < j < |ids| ==> ids[i] < ids[j]
  }

  ghost predicate Exact(r: Run, h: string, f: Frame) {
    match f
    case LineFrame(handle, id, at, text) =>
      handle == h && 1 <= id <= |r.log| && BufferedLine(id, at, text) == r.log[id - 1]
    case Opened(handle) => handle == h
    case Attached(handle, _, _, _, _, _, _) => handle == h
    case ClosedFrame(handle, _) => handle == h
  }

  /** Line k is out of the session's hands. */
  predicate Gone(r: Run, k: nat) { k in r.shed || k <= r.s.acked }

  /** What claim h has been handed: the exact lines above its start, in order, with
      nothing left out up to its last but lines shed or acknowledged. */
  ghost predicate Handed(r: Run, h: string)
    requires h in r.out && h in r.start
  {
    var fs, ids := r.out[h], LineIds(r.out[h]);
    && Increasing(ids)
    && (forall k :: k in ids ==> r.start[h] < k <= r.s.last)
    && (forall f :: f in fs ==> Exact(r, h, f))
    && (forall k :: r.start[h] < k <= LastId(fs) ==> k in ids || Gone(r, k))
  }

  predicate Control(f: Frame) { f.Opened? || f.Attached? }

  ghost predicate ControlInv(r: Run) {
    forall f :: f in r.s.ctrl ==> Control(f) && f.handle == r.s.handle
  }

  ghost predicate DeliveryInv(r: Run) {
    && r.out.Keys == r.start.Keys
    && r.s.handle in r.out
    && ControlInv(r)
    && r.s.sent == Max(r.start[r.s.handle], LastId(r.out[r.s.handle]))
    && (forall h :: h in r.out ==> Handed(r, h))
  }

  lemma {:induction false} LineIdsConcat(a: seq<Frame>, b: seq<Frame>)
    ensures LineIds(a + b) == LineIds(a) + LineIds(b)
  {
    if a == [] {
      assert a + b == b;
    } else {
      var one := match a[0] case LineFrame(_, id, _, _) => [id] case _ => [];
      LineIdsConcat(a[1..], b);
      assert (a + b)[1..] == a[1..] + b;
      assert one + (LineIds(a[1..]) + LineIds(b)) == one + LineIds(a[1..]) + LineIds(b);
    }
  }

  lemma {:induction false} NoLineIds(fs: seq<Frame>)
    requires forall f :: f in fs ==> !f.LineFrame?
    ensures LineIds(fs) == []
  {
    if fs != [] {
      NoLineIds(fs[1..]);
    }
  }

  lemma {:induction false} LineIdsOfLines(handle: string, lines: seq<BufferedLine>)
    ensures LineIds(LineFrames(handle, lines)) == seq(|lines|, i requires 0 <= i < |lines| => lines[i].id)
  {
    if lines != [] {
      LineIdsOfLines(handle, lines[1..]);
      assert LineFrames(handle, lines)[1..] == LineFrames(handle, lines[1..]);
    }
  }

  /** The lines a pull adds carry on from where the claim stands. */
  function Closing(s: State, limit: nat): seq<Frame> {
    if ClosesNow(s, limit) then [ClosedFrame(s.handle, s.closeErr)] else []
  }

  /** The numbers of `count` consecutive lines after m. */
  function Consecutive(m: nat, count: nat): seq<nat> {
    seq(count, i requires 0 <= i < count => m + 1 + i)
  }

  lemma {:induction false} PullIdsConcat(s: State, limit: nat)
    requires forall f :: f in s.ctrl ==> Control(f)
    ensures LineIds(PullFrames(s, limit)) == LineIds(LineFrames(s.handle, Batch(s, limit)))
  {
    hide ClosesNow, Batch;
    var lines := LineFrames(s.handle, Batch(s, limit));
    LineIdsConcat(s.ctrl + lines, Closing(s, limit));
    LineIdsConcat(s.ctrl, lines);
    NoLineIds(s.ctrl);
    NoLineIds(Closing(s, limit));
  }

  /** The lines a pull adds carry on from where the claim stands. */
  lemma PullIds(r: Run, limit: nat)
    requires BufferInv(r) && ControlInv(r)
    ensures var m, b := Max(r.s.sent, r.Base()), Batch(r.s, limit);
            && m + |b| <= r.s.last
            && LineIds(PullFrames(r.s, limit)) == Consecutive(m, |b|)
  {
    SentAfterInLog(r, limit);
    PullIdsConcat(r.s, limit);
    LineIdsOfLines(r.s.handle, Batch(r.s, limit));
  }

  lemma PullExact(r: Run, limit: nat)
    requires BufferInv(r) && ControlInv(r)
    ensures forall f :: f in PullFrames(r.s, limit) ==> Exact(r, r.s.handle, f)
  {
    SentAfterInLog(r, limit);
    hide ClosesNow, SentAfter;
    var b, m := Batch(r.s, limit), Max(r.s.sent, r.Base());
    hide Batch;
    var lines := LineFrames(r.s.handle, b);
    forall i | 0 <= i < |lines|
      ensures Exact(r, r.s.handle, lines[i])
    {
      assert b[i] == r.log[m + i];
    }
  }

  /** What a send does to the history of the claim it goes to. */
  lemma SendShape(r: Run, limit: nat)
    requires BufferInv(r) && DeliveryInv(r) && Enabled(r, Send(limit))
    ensures var t, h := Next(r, Send(limit)), r.s.handle;
            var m, n := Max(r.s.sent, r.Base()), |Batch(r.s, limit)|;
            && t.out == r.out[h := r.out[h] + PullFrames(r.s, limit)] && t.start == r.start
            && t.log == r.log && t.shed == r.shed && t.missed == r.missed && t.reported == r.reported
            && t.s == r.s.(ctrl := [], sent := t.s.sent, everSent := t.s.everSent, finished := t.s.finished)
            && LineIds(t.out[h]) == LineIds(r.out[h]) + Consecutive(m, n)
            && t.s.sent == (if n == 0 then r.s.sent else m + n) && m + n <= r.s.last
            && r.s.everSent <= t.s.everSent <= Max(r.s.everSent, t.s.sent)
  {
    PullIds(r, limit);
    SentAfterInLog(r, limit);
    LineIdsConcat(r.out[r.s.handle], PullFrames(r.s, limit));
    hide Batch, PullFrames, ClosesNow, Consecutive, LineIds, BufferInv, DeliveryInv;
  }

  /** A claim that was handed rightly so far is so with the next lines as well, if
      nothing before them is left but what is gone. */
  lemma HandedMore(r: Run, t: Run, h: string, m: nat, n: nat)
    requires h in r.out && h in r.start && Handed(r, h) && h in t.out && h in t.start && t.start[h] == r.start[h]
    requires LineIds(t.out[h]) == LineIds(r.out[h]) + Consecutive(m, n) && m + n <= t.s.last && r.s.last == t.s.last
    requires LastId(r.out[h]) <= m && r.start[h] <= m
    requires forall k :: r.start[h] < k && LastId(r.out[h]) < k <= m ==> Gone(t, k)
    requires forall k :: Gone(r, k) ==> Gone(t, k)
    requires forall f :: f in t.out[h] ==> Exact(t, h, f)
    ensures Handed(t, h) && LastId(t.out[h]) == if n == 0 then LastId(r.out[h]) else m + n
  {
    HandedParts(r, h);
    hide Gone, Exact, LineIds, Handed, Consecutive, Increasing;
    var was, ids := LineIds(r.out[h]), LineIds(t.out[h]);
    ExtendIds(was, m, n);
    LastOf(was, m, n);
    forall k | r.start[h] < k <= LastId(t.out[h])
      ensures k in ids || Gone(t, k)
    {
      ReachedBy(was, m, n, k);
    }
    HandedIs(t, h);
  }

  lemma HandedParts(r: Run, h: string)
    requires h in r.out && h in r.start && Handed(r, h)
    ensures Increasing(LineIds(r.out[h]))
    ensures forall k :: k in LineIds(r.out[h]) ==> r.start[h] < k <= r.s.last
    ensures forall k :: r.start[h] < k <= LastId(r.out[h]) ==> k in LineIds(r.out[h]) || Gone(r, k)
  {
    hide LineIds, Gone, Exact;
  }

  lemma HandedIs(t: Run, h: string)
    requires h in t.out && h in t.start && Increasing(LineIds(t.out[h]))
    requires forall k :: k in LineIds(t.out[h]) ==> t.start[h] < k <= t.s.last
    requires forall f :: f in t.out[h] ==> Exact(t, h, f)
    requires forall k :: t.start[h] < k <= LastId(t.out[h]) ==> k in LineIds(t.out[h]) || Gone(t, k)
    ensures Handed(t, h)
  {
    hide LineIds, Gone, Exact, Increasing;
  }

  lemma LastOf(was: seq<nat>, m: nat, n: nat)
    ensures var ids := was + Consecutive(m, n);
            (n > 0 ==> ids != [] && ids[|ids| - 1] == m + n) && (n == 0 ==> ids == was)
  {}

  lemma ReachedBy(was: seq<nat>, m: nat, n: nat, k: int)
    ensures forall x :: x in was ==> x in was + Consecutive(m, n)
    ensures m < k <= m + n ==> k in was + Consecutive(m, n)
  {
    var ids := was + Consecutive(m, n);
    assert forall i :: 0 <= i < |was| ==> ids[i] == was[i];
    if m < k <= m + n {
      assert ids[|was| + (k - m - 1)] == k;
    }
  }

  lemma BelowBaseIsGone(r: Run, k: nat)
    requires BufferInv(r) && 1 <= k <= r.Base()
    ensures Gone(r, k)
  {}

  lemma ExactStays(r: Run, t: Run, h: string, f: Frame)
    requires Exact(r, h, f) && r.log <= t.log
    ensures Exact(t, h, f)
  {}

  lemma HandedOf(r: Run, h: string)
    requires DeliveryInv(r) && h in r.out
    ensures h in r.start && Handed(r, h) && (h == r.s.handle ==> r.s.sent == Max(r.start[h], LastId(r.out[h])))
    ensures r.s.handle in r.out && ControlInv(r) && r.out.Keys == r.start.Keys
  {
    hide Handed, ControlInv;
  }

  lemma ExactOf(r: Run, h: string, f: Frame)
    requires h in r.out && h in r.start && Handed(r, h) && f in r.out[h]
    ensures Exact(r, h, f)
  {}

  lemma SendKeepsHanded(r: Run, limit: nat)
    requires BufferInv(r) && DeliveryInv(r) && Enabled(r, Send(limit))
    ensures var t := Next(r, Send(limit));
            && Handed(t, r.s.handle)
            && t.s.sent == Max(t.start[r.s.handle], LastId(t.out[r.s.handle]))
  {
    assert r.s.handle in r.out;
    hide Next, Enabled, BufferInv, DeliveryInv, Handed, Exact, Batch, PullFrames, LineIds, ControlInv, Consecutive,
      LastId;
    var h, t := r.s.handle, Next(r, Send(limit));
    var m, n := Max(r.s.sent, r.Base()), |Batch(r.s, limit)|;
    SendShape(r, limit);
    HandedOf(r, h);
    PullExact(r, limit);
    forall f | f in t.out[h]
      ensures Exact(t, h, f)
    {
      if f in r.out[h] {
        ExactOf(r, h, f);
      } else {
        assert f in PullFrames(r.s, limit);
      }
      ExactStays(r, t, h, f);
    }
    forall k | r.start[h] < k && LastId(r.out[h]) < k <= m
      ensures Gone(t, k)
    {
      BelowBaseIsGone(r, k);
    }
    HandedMore(r, t, h, m, n);
  }

  lemma ExtendIds(was: seq<nat>, m: nat, n: nat)
    requires Increasing(was) && (was != [] ==> was[|was| - 1] <= m)
    ensures Increasing(was + Consecutive(m, n))
    ensures forall k :: k in was ==> k <= m
    ensures forall k :: k in was + Consecutive(m, n) ==> k in was || m < k <= m + n
  {
    assert forall i :: 0 <= i < |was| ==> was[i] <= was[|was| - 1];
  }

  /** Nothing a claim was handed can come undone by what happens elsewhere. */
  lemma HandedStable(r: Run, t: Run, h: string)
    requires h in r.out && h in r.start && Handed(r, h)
    requires h in t.out && h in t.start && t.out[h] == r.out[h] && t.start[h] == r.start[h]
    requires r.log <= t.log && r.s.last <= t.s.last && r.shed <= t.shed && r.s.acked <= t.s.acked
    ensures Handed(t, h)
  {
    forall f | f in t.out[h]
      ensures Exact(t, h, f)
    {
      assert Exact(r, h, f);
    }
    assert forall k :: Gone(r, k) ==> Gone(t, k);
  }

  lemma StepGrows(r: Run, step: Step)
    requires BufferInv(r) && Enabled(r, step)
    ensures Grows(r, Next(r, step))
  {
    match step
    case Receive(raw, at) => ReceiveKeepsBuffer(r, raw, at);
    case Acknowledge(handle, n) =>
      if AckCounts(r.s, handle, n) {
        AboveInLog(r, n);
      }
    case ShedGlobally => DropOneKeepsBuffer(r);
    case _ =>
  }

  lemma OthersKeepDelivery(r: Run, step: Step)
    requires BufferInv(r) && DeliveryInv(r) && Enabled(r, step)
    requires !step.Send? && !step.Claim?
    ensures DeliveryInv(Next(r, step))
  {
    hide BufferInv, Next, Enabled, Handed, ControlInv, LastId;
    var t := Next(r, step);
    StepGrows(r, step);
    KeepsClaims(r, step);
    forall h | h in t.out
      ensures Handed(t, h)
    {
      HandedStable(r, t, h);
    }
  }

  lemma KeepsClaims(r: Run, step: Step)
    requires BufferInv(r) && ControlInv(r) && Enabled(r, step)
    requires !step.Send? && !step.Claim?
    ensures var t := Next(r, step);
      t.out == r.out && t.start == r.start && t.s.handle == r.s.handle && t.s.sent == r.s.sent && ControlInv(t)
  {
    match step
    case Receive(raw, at) =>
      ReceiveKeepsBuffer(r, raw, at);
      hide *;
      ControlStays(r, Next(r, step));
    case _ => hide BufferInv, Classify;
  }

  lemma ControlStays(r: Run, t: Run)
    requires ControlInv(r) && SameClaims(r, t)
    ensures t.out == r.out && t.start == r.start && t.s.handle == r.s.handle && t.s.sent == r.s.sent && ControlInv(t)
  {}

  lemma ClaimShape(r: Run, link: Link, handle: string)
    requires Enabled(r, Claim(link, handle))
    ensures var t := Next(r, Claim(link, handle));
            && handle !in r.out && t.s.handle == handle && t.s.sent == t.start[handle] && t.s.acked == r.s.acked
            && t.out == r.out[handle := []] && t.start == r.start[handle := t.s.sent]
            && t.log == r.log && t.s.last == r.s.last && t.shed == r.shed
            && |t.s.ctrl| == 1 && Control(t.s.ctrl[0]) && t.s.ctrl[0].handle == handle
  {
    hide Reusable, ReplayBurst, Recent, Above;
  }

  lemma FreshHanded(t: Run, h: string)
    requires h in t.out && h in t.start && t.out[h] == []
    ensures Handed(t, h) && LastId(t.out[h]) == 0
  {
    assert LineIds([]) == [];
  }

  lemma ClaimKeepsDelivery(r: Run, link: Link, handle: string)
    requires BufferInv(r) && DeliveryInv(r) && Enabled(r, Claim(link, handle))
    ensures DeliveryInv(Next(r, Claim(link, handle)))
  {
    hide Next, Enabled, BufferInv, Handed, Control;
    var t := Next(r, Claim(link, handle));
    ClaimShape(r, link, handle);
    FreshHanded(t, handle);
    assert ControlInv(t);
    forall h | h in r.out
      ensures Handed(t, h)
    {
      HandedStable(r, t, h);
    }
  }

  lemma SendKeepsDelivery(r: Run, limit: nat)
    requires BufferInv(r) && DeliveryInv(r) && Enabled(r, Send(limit))
    ensures DeliveryInv(Next(r, Send(limit)))
  {
    hide Next, Enabled, BufferInv, Handed, Batch, PullFrames, LineIds, Consecutive, LastId;
    var t := Next(r, Send(limit));
    SendShape(r, limit);
    SendKeepsHanded(r, limit);
    forall h | h in t.out && h != r.s.handle
      ensures Handed(t, h)
    {
      HandedStable(r, t, h);
    }
  }

  lemma StepKeepsDelivery(r: Run, step: Step)
    requires BufferInv(r) && DeliveryInv(r) && Enabled(r, step)
    ensures DeliveryInv(Next(r, step))
  {
    hide BufferInv, DeliveryInv, Next, Enabled;
    match step
    case Send(limit) => SendKeepsDelivery(r, limit);
    case Claim(link, handle) => ClaimKeepsDelivery(r, link, handle);
    case _ => OthersKeepDelivery(r, step);
  }
}
