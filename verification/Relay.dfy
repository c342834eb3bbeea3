/** The relay end to end: a held socket in the engine (SessionRun), any number of
    stugan processes that claim it one after the other or at once, and in each of
    them the session of internal/enginelink, the handlers and ack loop of
    internal/irc, and the event loop of internal/core. Crashes, detaches, takeovers
    and reconnects may come anywhere between two steps. */
module Relay {
  import opened GoStrings
  import opened Buffer
  import opened SessionSpec
  import opened SessionRun
  import opened SessionTheorems

  type Pid = nat

  /** What the client reads, in order: relayed lines, and the probe that vouches for
      every line before it. */
  datatype Entry = LineEntry(id: nat) | Probe(id: nat)

  /** What waits on a process's event loop: an event some handler of line `id` of
      claim `handle` emitted, or the barrier behind which an ack waits. */
  datatype Item = LineEvent(handle: string, id: nat) | Barrier(handle: string, id: nat)

  /** What was ever queued for the client, in order, of which it has read `read`
      entries and its handlers are through with `handled`, busy with the next or not;
      the last line delivered, the last one a probe went out for, the last one whose
      handling began, and the last one known to be handled. */
  datatype Inbox = Inbox(
    entries: seq<Entry>, read: nat, handled: nat, busy: bool,
    delivered: nat, probed: nat, lastSeq: nat, processed: nat)

  /** The last watermark put behind a barrier, the one committed and the one sent;
      every ack ever put on the link, of which the engine has taken `taken`, the
      highest it accepted being `accepted`. */
  datatype Acks = Acks(queued: nat, pending: nat, sent: nat, wire: seq<nat>, taken: nat, accepted: nat)

  /** The app's side of one claim: the process, the frames dispatched so far, whether
      the far side failed, the session was closed, the client returned. */
  datatype AppClaim = AppClaim(
    pid: Pid, cursor: nat, failed: bool, closed: bool, returned: bool, inbox: Inbox, acks: Acks)

  /** A process: every item ever put on its event loop, how many the loop is done
      with, and whether it still runs. */
  datatype Proc = Proc(items: seq<Item>, done: nat, alive: bool)

  datatype World = World(run: Run, claims: map<string, AppClaim>, procs: map<Pid, Proc>)

  function NewClaim(pid: Pid): AppClaim {
    AppClaim(pid, 0, false, false, false, Inbox([], 0, 0, false, 0, 0, 0, 0), Acks(0, 0, 0, [], 0, 0))
  }

  function Start(cap: nat, link: Link, handle: string, pid: Pid): World {
    World(Init(cap, link, handle), map[handle := NewClaim(pid)], map[pid := Proc([], 0, true)])
  }

  // --- The app's side, one claim at a time ---

  /** deliver. */
  function Delivered(b: Inbox, id: nat): Inbox {
    b.(entries := b.entries + [LineEntry(id)], delivered := Max(b.delivered, id))
  }

  /** enginelink's dispatch of one frame: deliver for a line, remoteClosed for the
      closed frame; the others carry no line of the stream. */
  function Dispatched(c: AppClaim, f: Frame): AppClaim {
    match f
    case LineFrame(_, id, _, _) =>
      if c.closed || c.failed then c.(cursor := c.cursor + 1)
      else c.(cursor := c.cursor + 1, inbox := Delivered(c.inbox, id))
    case ClosedFrame(_, _) => c.(cursor := c.cursor + 1, failed := true)
    case _ => c.(cursor := c.cursor + 1)
  }

  /** Session.Read: with nothing left to read and a line not yet vouched for, an ack
      probe is queued; then up to n entries are read. */
  function WithProbe(b: Inbox, closed: bool): Inbox {
    if b.read == |b.entries| && b.delivered > b.probed && !closed
    then b.(probed := b.delivered, entries := b.entries + [Probe(b.delivered)])
    else b
  }

  function ReadUpTo(b: Inbox, closed: bool, n: nat): Inbox {
    var d := WithProbe(b, closed);
    d.(read := if d.read + n < |d.entries| then d.read + n else |d.entries|)
  }

  /** The ALL_EVENTS handler, which sees an event before any other handler does. */
  function Begun(b: Inbox): Inbox
    requires b.handled < |b.entries|
  {
    match b.entries[b.handled]
    case Probe(id) => b.(busy := true, processed := Max(b.processed, id))
    case LineEntry(id) => b.(busy := true, processed := Max(b.processed, b.lastSeq), lastSeq := id)
  }

  function Ended(b: Inbox): Inbox { b.(busy := false, handled := b.handled + 1) }

  // --- Steps ---

  datatype Event =
    | Engine(step: Step)
    | Launch(pid: Pid)
    | Crash(pid: Pid)
    | Connect(link: Link, handle: string, pid: Pid)
    | Dispatch(h: string)
    | Drop(h: string)
    | CloseSession(h: string)
    | Read(h: string, n: nat)
    | Begin(h: string)
    | Emit(h: string)
    | End(h: string)
    | Return(h: string)
    | Tick(h: string)
    | FinalAck(h: string)
    | Commit(pid: Pid)
    | Flush(h: string)
    | TakeAck(h: string)

  predicate Live(w: World, h: string) {
    h in w.claims && w.claims[h].pid in w.procs && w.procs[w.claims[h].pid].alive
  }

  /** The handlers run one event at a time (Begin ... End), each emitting as many
      events as it likes; girc returns only between two events. */
  predicate CanHappen(w: World, e: Event) {
    match e
    case Engine(step) => !step.Claim? && !step.Acknowledge? && Enabled(w.run, step)
    case Launch(pid) => pid !in w.procs
    case Crash(pid) => pid in w.procs
    case Connect(link, handle, pid) =>
      Enabled(w.run, SessionRun.Claim(link, handle)) && handle !in w.claims && pid in w.procs && w.procs[pid].alive
    case Dispatch(h) => Live(w, h) && h in w.run.out && w.claims[h].cursor < |w.run.out[h]|
    case Drop(h) => Live(w, h)
    case CloseSession(h) => Live(w, h)
    case Read(h, _) => Live(w, h) && !w.claims[h].returned
    case Begin(h) =>
      Live(w, h) && !w.claims[h].returned
      && var b := w.claims[h].inbox; !b.busy && b.handled < b.read <= |b.entries|
    case Emit(h) =>
      Live(w, h)
      && var b := w.claims[h].inbox; b.busy && b.handled < |b.entries| && b.entries[b.handled].LineEntry?
    case End(h) => Live(w, h) && w.claims[h].inbox.busy
    case Return(h) => Live(w, h) && !w.claims[h].inbox.busy
    case Tick(h) => Live(w, h) && w.claims[h].inbox.processed > w.claims[h].acks.queued
    case FinalAck(h) =>
      Live(w, h) && w.claims[h].returned && !w.claims[h].inbox.busy && w.claims[h].inbox.lastSeq > 0
    case Commit(pid) => pid in w.procs && w.procs[pid].alive && w.procs[pid].done < |w.procs[pid].items|
    case Flush(h) => Live(w, h)
    case TakeAck(h) => h in w.claims && w.claims[h].acks.taken < |w.claims[h].acks.wire|
  }

  function SetClaim(w: World, h: string, c: AppClaim): World { w.(claims := w.claims[h := c]) }

  function Queue(w: World, pid: Pid, item: Item): World
    requires pid in w.procs
  {
    var p := w.procs[pid];
    w.(procs := w.procs[pid := p.(items := p.items + [item])])
  }

  /** Ack, when the loop reaches a barrier. */
  function Settled(a: Acks, n: nat): Acks { a.(pending := Max(a.pending, n)) }

  function Settle(w: World, item: Item): World {
    if item.Barrier? && item.handle in w.claims then
      var c := w.claims[item.handle];
      SetClaim(w, item.handle, c.(acks := Settled(c.acks, item.id)))
    else w
  }

  /** flushAcks, for one session. */
  function Flushed(a: Acks): Acks {
    if a.pending <= a.sent then a else a.(wire := a.wire + [a.pending], sent := a.pending)
  }

  function Happen(w: World, e: Event): World
    requires CanHappen(w, e)
  {
    match e
    case Engine(step) => w.(run := Next(w.run, step))
    case Launch(pid) => w.(procs := w.procs[pid := Proc([], 0, true)])
    case Crash(pid) => w.(procs := w.procs[pid := w.procs[pid].(alive := false)])
    case Connect(link, handle, pid) =>
      w.(run := Next(w.run, SessionRun.Claim(link, handle)), claims := w.claims[handle := NewClaim(pid)])
    case Dispatch(h) => SetClaim(w, h, Dispatched(w.claims[h], w.run.out[h][w.claims[h].cursor]))
    case Drop(h) => SetClaim(w, h, w.claims[h].(failed := true))
    case CloseSession(h) => SetClaim(w, h, w.claims[h].(closed := true))
    case Read(h, n) =>
      var c := w.claims[h];
      SetClaim(w, h, c.(inbox := ReadUpTo(c.inbox, c.closed, n)))
    case Begin(h) => SetClaim(w, h, w.claims[h].(inbox := Begun(w.claims[h].inbox)))
    case Emit(h) =>
      var c := w.claims[h];
      Queue(w, c.pid, LineEvent(h, c.inbox.entries[c.inbox.handled].id))
    case End(h) => SetClaim(w, h, w.claims[h].(inbox := Ended(w.claims[h].inbox)))
    case Return(h) => SetClaim(w, h, w.claims[h].(returned := true))
    case Tick(h) =>
      var c := w.claims[h];
      Queue(SetClaim(w, h, c.(acks := c.acks.(queued := c.inbox.processed))), c.pid, Barrier(h, c.inbox.processed))
    case FinalAck(h) =>
      var c := w.claims[h];
      Queue(w, c.pid, Barrier(h, c.inbox.lastSeq))
    case Commit(pid) =>
      var p := w.procs[pid];
      Settle(w.(procs := w.procs[pid := p.(done := p.done + 1)]), p.items[p.done])
    case Flush(h) => SetClaim(w, h, w.claims[h].(acks := Flushed(w.claims[h].acks)))
    case TakeAck(h) =>
      var c, a := w.claims[h], w.claims[h].acks;
      var n := a.wire[a.taken];
      var b := a.(taken := a.taken + 1,
        accepted := if AckCounts(w.run.s, h, n) then Max(a.accepted, n) else a.accepted);
      SetClaim(w, h, c.(acks := b)).(run := Next(w.run, Acknowledge(h, n)))
  }

  predicate CanRun(w: World, events: seq<Event>)
    decreases |events|
  {
    events == [] || (CanHappen(w, events[0]) && CanRun(Happen(w, events[0]), events[1..]))
  }

  function RunWorld(w: World, events: seq<Event>): World
    requires CanRun(w, events)
    decreases |events|
  {
    if events == [] then w else RunWorld(Happen(w, events[0]), events[1..])
  }

  // --- One claim's channel ---

  /** The numbers of the line entries, in order. */
  function InIds(es: seq<Entry>): seq<nat> {
    if es == [] then []
    else InIds(es[..|es| - 1]) + (if es[|es| - 1].LineEntry? then [es[|es| - 1].id] else [])
  }

  function LastIn(es: seq<Entry>): nat {
    var ids := InIds(es);
    if ids == [] then 0 else ids[|ids| - 1]
  }

  /** How many entries the handlers have at least begun. */
  function Started(b: Inbox): nat { if b.busy then b.handled + 1 else b.handled }

  /** Line n is fully handled, or n is the 0 before any line. */
  predicate Mark(b: Inbox, n: nat)
    requires b.handled <= |b.entries|
  {
    n == 0 || n in InIds(b.entries[..b.handled])
  }

  /** The client's stream is what the engine wrote for this claim, up to where it
      failed or was closed. */
  ghost predicate StreamInv(c: AppClaim, frames: seq<Frame>) {
    && c.cursor <= |frames|
    && InIds(c.inbox.entries) <= LineIds(frames)
    && (!c.failed && !c.closed ==> InIds(c.inbox.entries) == LineIds(frames[..c.cursor]))
  }

  /** A probe names the last line before it. */
  ghost predicate ProbesVouch(es: seq<Entry>) {
    forall i :: 0 <= i < |es| && es[i].Probe? ==> es[i].id == LastIn(es[..i])
  }

  lemma ProbesPush(es: seq<Entry>, e: Entry)
    requires ProbesVouch(es) && (e.Probe? ==> e.id == LastIn(es))
    ensures ProbesVouch(es + [e])
  {
    hide LastIn;
    var fs := es + [e];
    forall i | 0 <= i < |fs| && fs[i].Probe?
      ensures fs[i].id == LastIn(fs[..i])
    {
      assert fs[..i] == es[..i];
      assert i == |es| ==> es[..i] == es;
    }
  }

  /** The watermarks of the handlers name lines they are through with. */
  ghost predicate InboxInv(b: Inbox) {
    && b.delivered == LastIn(b.entries)
    && b.handled <= Started(b) <= b.read <= |b.entries|
    && ProbesVouch(b.entries)
    && b.lastSeq == LastIn(b.entries[..Started(b)])
    && Mark(b, b.processed)
  }

  lemma InIdsPush(es: seq<Entry>, e: Entry)
    ensures InIds(es + [e]) == InIds(es) + (if e.LineEntry? then [e.id] else [])
    ensures LastIn(es + [e]) == if e.LineEntry? then e.id else LastIn(es)
  {
    assert (es + [e])[..|es|] == es;
  }

  lemma {:induction false} InIdsPrefix(es: seq<Entry>, n: nat)
    requires n <= |es|
    ensures InIds(es[..n]) <= InIds(es)
  {
    if n < |es| {
      InIdsPrefix(es[..|es| - 1], n);
      assert es[..|es| - 1][..n] == es[..n];
    } else {
      assert es[..n] == es;
    }
  }

  lemma MarkStays(b: Inbox, d: Inbox, n: nat)
    requires b.handled <= |b.entries| && d.handled <= |d.entries|
    requires b.entries <= d.entries && b.handled <= d.handled && Mark(b, n)
    ensures Mark(d, n)
  {
    InIdsPrefix(d.entries[..d.handled], b.handled);
    assert d.entries[..d.handled][..b.handled] == b.entries[..b.handled];
  }

  lemma LineIdsPrefix(fs: seq<Frame>, more: seq<Frame>)
    ensures LineIds(fs) <= LineIds(fs + more)
  {
    LineIdsConcat(fs, more);
  }

  lemma StreamGrows(c: AppClaim, frames: seq<Frame>, more: seq<Frame>)
    requires StreamInv(c, frames)
    ensures StreamInv(c, frames + more)
  {
    LineIdsPrefix(frames, more);
    assert (frames + more)[..c.cursor] == frames[..c.cursor];
  }

  lemma PushKeepsInbox(b: Inbox, e: Entry)
    requires InboxInv(b) && (e.Probe? ==> e.id == b.delivered)
    ensures InboxInv(b.(entries := b.entries + [e], delivered := if e.LineEntry? then e.id else b.delivered))
  {
    InIdsPush(b.entries, e);
    ProbesPush(b.entries, e);
    hide InIds, LastIn, ProbesVouch;
    var es := b.entries + [e];
    assert es[..Started(b)] == b.entries[..Started(b)];
    assert es[..b.handled] == b.entries[..b.handled];
  }

  lemma LineIdsOfPrefix(frames: seq<Frame>, n: nat)
    requires n <= |frames|
    ensures LineIds(frames[..n]) <= LineIds(frames)
  {
    hide LineIds;
    var a, b := frames[..n], frames[n..];
    LineIdsConcat(a, b);
    assert a + b == frames;
  }

  lemma OneLineId(f: Frame)
    ensures LineIds([f]) == if f.LineFrame? then [f.id] else []
  {
    assert [f][1..] == [];
  }

  /** The line ids of a stream one frame longer. */
  lemma NextLineId(frames: seq<Frame>, n: nat)
    requires n < |frames|
    ensures var f := frames[n];
            LineIds(frames[..n + 1]) == LineIds(frames[..n]) + (if f.LineFrame? then [f.id] else [])
    ensures LineIds(frames[..n + 1]) <= LineIds(frames)
  {
    hide *;
    TakeNext(frames, n);
    OneLineId(frames[n]);
    LineIdsConcat(frames[..n], [frames[n]]);
    LineIdsOfPrefix(frames, n + 1);
  }

  lemma TakeNext(frames: seq<Frame>, n: nat)
    requires n < |frames|
    ensures frames[..n + 1] == frames[..n] + [frames[n]]
  {}

  lemma DispatchKeepsStream(c: AppClaim, frames: seq<Frame>)
    requires StreamInv(c, frames) && c.cursor < |frames|
    ensures StreamInv(Dispatched(c, frames[c.cursor]), frames)
  {
    hide InIds, LineIds, LastIn;
    var f := frames[c.cursor];
    NextLineId(frames, c.cursor);
    if f.LineFrame? {
      InIdsPush(c.inbox.entries, LineEntry(f.id));
    }
  }

  lemma DispatchKeepsInbox(c: AppClaim, frames: seq<Frame>)
    requires StreamInv(c, frames) && InboxInv(c.inbox) && c.cursor < |frames| && Increasing(LineIds(frames))
    ensures InboxInv(Dispatched(c, frames[c.cursor]).inbox)
  {
    var f := frames[c.cursor];
    if f.LineFrame? && !c.closed && !c.failed {
      PushKeepsInbox(c.inbox, LineEntry(f.id));
      DispatchedIsLater(c, frames);
      assert c.inbox.delivered == LastIn(c.inbox.entries);
      hide LineIds, InIds, LastIn, InboxInv, StreamInv, Increasing;
      assert Delivered(c.inbox, f.id) == c.inbox.(entries := c.inbox.entries + [LineEntry(f.id)], delivered := f.id);
    }
  }

  lemma DispatchedIsLater(c: AppClaim, frames: seq<Frame>)
    requires StreamInv(c, frames) && c.cursor < |frames| && Increasing(LineIds(frames))
    requires frames[c.cursor].LineFrame? && !c.closed && !c.failed
    ensures LastIn(c.inbox.entries) <= frames[c.cursor].id
  {
    NextLineId(frames, c.cursor);
    var ids, was := LineIds(frames), InIds(c.inbox.entries);
    hide LineIds, InIds;
    assert ids[|was|] == frames[c.cursor].id;
    if was != [] {
      assert ids[|was| - 1] == was[|was| - 1];
    }
  }

  lemma ReadKeepsInbox(b: Inbox, closed: bool, n: nat)
    requires InboxInv(b)
    ensures InboxInv(ReadUpTo(b, closed, n))
    ensures InIds(ReadUpTo(b, closed, n).entries) == InIds(b.entries)
  {
    var d := WithProbe(b, closed);
    ProbeKeepsInbox(b, closed);
    hide InIds, WithProbe, InboxInv;
    assert b.read <= |b.entries| <= |d.entries| by { InboxSizes(b); }
    ReadMore(d, ReadUpTo(b, closed, n).read);
  }

  lemma InboxSizes(b: Inbox)
    requires InboxInv(b)
    ensures b.handled <= Started(b) <= b.read <= |b.entries|
  {}

  lemma ProbeKeepsInbox(b: Inbox, closed: bool)
    requires InboxInv(b)
    ensures var d := WithProbe(b, closed);
            InboxInv(d) && d.read == b.read && |b.entries| <= |d.entries| && InIds(d.entries) == InIds(b.entries)
  {
    PushKeepsInbox(b, Probe(b.delivered));
    InIdsPush(b.entries, Probe(b.delivered));
    hide InIds, LastIn, ProbesVouch, Mark;
  }

  lemma ReadMore(b: Inbox, read: nat)
    requires InboxInv(b) && b.read <= read <= |b.entries|
    ensures InboxInv(b.(read := read))
  {
    hide InIds, LastIn, ProbesVouch;
  }

  lemma BeginKeepsInbox(b: Inbox)
    requires InboxInv(b) && !b.busy && b.handled < b.read
    ensures InboxInv(Begun(b))
  {
    var e := b.entries[b.handled];
    assert b.entries[..b.handled + 1] == b.entries[..b.handled] + [e];
    InIdsPush(b.entries[..b.handled], e);
    assert e.Probe? ==> e.id == LastIn(b.entries[..b.handled]);
    assert Mark(b, b.lastSeq);
    hide InIds, ProbesVouch;
  }

  lemma EndKeepsInbox(b: Inbox)
    requires InboxInv(b) && b.busy
    ensures InboxInv(Ended(b))
  {
    MarkStays(b, Ended(b), b.processed);
  }

  // --- One claim's events and acks ---

  predicate EventAt(p: Proc, i: int, h: string) {
    0 <= i < |p.items| && p.items[i].LineEvent? && p.items[i].handle == h
  }

  predicate BarrierAt(p: Proc, i: int, h: string) {
    0 <= i < |p.items| && p.items[i].Barrier? && p.items[i].handle == h
  }

  /** Every event the handlers of lines through n emitted is committed. */
  ghost predicate EventsDone(p: Proc, h: string, n: nat) {
    forall i :: EventAt(p, i, h) && p.items[i].id <= n ==> i < p.done
  }

  /** A barrier names a handled line, and no event of that line or of one before it
      comes behind the barrier. */
  ghost predicate BarrierInv(b: Inbox, h: string, p: Proc)
    requires b.handled <= |b.entries|
  {
    && p.done <= |p.items|
    && (forall i :: BarrierAt(p, i, h) ==> Mark(b, p.items[i].id))
    && (forall i, j :: BarrierAt(p, i, h) && EventAt(p, j, h) && i < j ==> p.items[i].id < p.items[j].id)
  }

  /** So what is to be acked is committed, and nothing else is ever sent. */
  ghost predicate AckInv(b: Inbox, a: Acks, h: string, p: Proc)
    requires b.handled <= |b.entries|
  {
    && Mark(b, a.pending) && EventsDone(p, h, a.pending)
    && a.accepted <= a.sent <= a.pending
    && (forall i :: 0 <= i < |a.wire| ==> a.wire[i] <= a.sent)
  }

  lemma InboxGrows(b: Inbox, d: Inbox, a: Acks, h: string, p: Proc)
    requires b.handled <= |b.entries| && d.handled <= |d.entries|
    requires BarrierInv(b, h, p) && AckInv(b, a, h, p)
    requires b.entries <= d.entries && b.handled <= d.handled
    ensures BarrierInv(d, h, p) && AckInv(d, a, h, p)
  {
    forall i | BarrierAt(p, i, h)
      ensures Mark(d, p.items[i].id)
    {
      MarkStays(b, d, p.items[i].id);
    }
    MarkStays(b, d, a.pending);
    hide Mark;
  }

  lemma MarkBelow(b: Inbox, n: nat)
    requires b.handled < |b.entries| && b.entries[b.handled].LineEntry? && Increasing([0] + InIds(b.entries))
      && Mark(b, n)
    ensures n < b.entries[b.handled].id
  {
    var e, before := b.entries[b.handled], InIds(b.entries[..b.handled]);
    InIdsPush(b.entries[..b.handled], e);
    assert b.entries[..b.handled + 1] == b.entries[..b.handled] + [e];
    InIdsPrefix(b.entries, b.handled + 1);
    var ids := [0] + InIds(b.entries);
    assert ids[1 + |before|] == e.id && ids[0] == 0;
    if n != 0 {
      var i :| 0 <= i < |before| && before[i] == n;
      assert ids[1 + i] == n;
    }
  }

  lemma ItemsPushed(p: Proc, item: Item)
    ensures var q := p.(items := p.items + [item]);
            && q.items[|p.items|] == item
            && (forall i, h :: i != |p.items| ==> (EventAt(q, i, h) <==> EventAt(p, i, h)))
            && (forall i, h :: i != |p.items| ==> (BarrierAt(q, i, h) <==> BarrierAt(p, i, h)))
            && (forall i :: 0 <= i < |p.items| ==> q.items[i] == p.items[i])
  {}

  /** An item may join the queue if it is about another claim, is a barrier for a
      handled line, or is an event of the line being handled. */
  lemma PushKeepsAcks(b: Inbox, a: Acks, h: string, p: Proc, item: Item)
    requires b.handled <= |b.entries| && BarrierInv(b, h, p) && AckInv(b, a, h, p)
    requires item.handle == h && item.Barrier? ==> Mark(b, item.id)
    requires item.handle == h && item.LineEvent? ==> forall n: nat :: Mark(b, n) ==> n < item.id
    ensures var q := p.(items := p.items + [item]); BarrierInv(b, h, q) && AckInv(b, a, h, q)
  {
    hide Mark;
    ItemsPushed(p, item);
    var q := p.(items := p.items + [item]);
    assert forall i :: BarrierAt(q, i, h) ==> Mark(b, q.items[i].id);
    forall i, j | BarrierAt(q, i, h) && EventAt(q, j, h) && i < j
      ensures q.items[i].id < q.items[j].id
    {
      assert BarrierAt(p, i, h);
    }
  }

  lemma CommitKeepsAcks(b: Inbox, a: Acks, h: string, p: Proc)
    requires b.handled <= |b.entries| && BarrierInv(b, h, p) && AckInv(b, a, h, p) && p.done < |p.items|
    ensures var item, q := p.items[p.done], p.(done := p.done + 1);
            && BarrierInv(b, h, q)
            && AckInv(b, if item == Barrier(h, item.id) then Settled(a, item.id) else a, h, q)
  {
    hide Mark;
    var item, q := p.items[p.done], p.(done := p.done + 1);
    assert forall i :: EventAt(q, i, h) <==> EventAt(p, i, h);
    assert forall i :: BarrierAt(q, i, h) <==> BarrierAt(p, i, h);
    if item == Barrier(h, item.id) {
      assert BarrierAt(p, p.done, h);
      assert Mark(b, item.id);
      assert EventsDone(q, h, item.id);
    }
  }

  lemma FlushKeepsAcks(b: Inbox, a: Acks, h: string, p: Proc)
    requires b.handled <= |b.entries| && AckInv(b, a, h, p)
    ensures AckInv(b, Flushed(a), h, p)
  {
    hide Mark;
  }
}
