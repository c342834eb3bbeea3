/** internal/engine/session.go and the shared half of buffer.go as they run: a
    session whose methods update its fields, and the budget all sessions share. Each
    method is one critical section, and does to View() what SessionSpec says. */
module EngineSession {
  import opened GoStrings
  import opened IrcLine
  import opened Buffer
  import opened SessionSpec
  import opened SessionLaws

  /** No line is numbered above n. */
  predicate Bounded(lines: seq<BufferedLine>, n: nat) {
    forall i :: 0 <= i < |lines| ==> lines[i].id <= n
  }

  lemma BoundedPush(lines: seq<BufferedLine>, l: BufferedLine, n: nat)
    requires Bounded(lines, n) && l.id == n + 1
    ensures lines != [] ==> lines[|lines| - 1].id < l.id
    ensures Bounded(lines + [l], n + 1)
    ensures Cost(lines + [l]) == Cost(lines) + LineCost(l.text)
  {
    CostConcat(lines, [l]);
  }

  lemma BoundedTail(lines: seq<BufferedLine>, n: nat)
    requires Bounded(lines, n)
    ensures lines != [] ==> Bounded(lines[1..], n) && Cost(lines) == LineCost(lines[0].text) + Cost(lines[1..])
  {}

  /** pull, put together from its parts. */
  lemma PullParts(was: State, limit: nat, now: State)
    requires now == was.(ctrl := [], sent := now.sent, everSent := now.everSent, finished := now.finished)
    requires now.sent == SentAfter(was, limit)
    requires now.everSent == if was.conn.Dialing? then was.everSent else Max(was.everSent, now.sent)
    requires now.finished == (was.finished || (was.conn == Closed && !was.finished && Above(was.buf, now.sent) == []))
    ensures now == SessionSpec.Pull(was, limit)
    ensures ClosesNow(was, limit) == (was.conn == Closed && !was.finished && Above(was.buf, now.sent) == [])
    ensures var body := was.ctrl + LineFrames(was.handle, Batch(was, limit));
            PullFrames(was, limit) == if ClosesNow(was, limit) then body + [ClosedFrame(was.handle, was.closeErr)]
              else body
  {
    hide Batch, Above, SentAfter;
    var body := was.ctrl + LineFrames(was.handle, Batch(was, limit));
    assert body + [] == body;
  }

  lemma BoundedAbove(lines: seq<BufferedLine>, n: nat, m: nat)
    requires Sorted(lines) && Bounded(lines, m)
    ensures Bounded(Above(lines, n), m)
  {
    var i := SortedSplits(lines, n);
    hide Above, Sorted;
  }

  lemma AppendIs(was: State, now: State, l: Line, raw: string, at: int)
    requires now == was.(last := was.last + 1, buf := was.buf + [BufferedLine(was.last + 1, at, raw)],
                         trk := Track(was.trk, l, raw, was.last + 1, was.link.Some?))
    ensures now == Append(was, l, raw, at)
  {
    hide Track;
  }

  class Session {
    const budget: Budget
    const cap: nat
    const buf: LineBuffer

    var conn: ConnState
    var closeErr: string
    var link: Option<Link>
    var handle: string
    var handles: seq<string>

    var last: nat
    var acked: nat
    var sent: nat
    var everSent: nat
    var lost: nat
    var ctrl: seq<Frame>
    var finished: bool

    var registered: bool
    var unattended: bool
    var burst: seq<string>
    var burstBytes: nat
    var burstOpen: bool
    var burstCovered: nat
    var welcomeIdx: int
    var nick: string
    var channels: seq<string>
    var capLog: seq<string>
    var capLogBytes: nat

    ghost predicate Valid()
      reads this, buf, buf.backing
    {
      buf.Valid() && Bounded(buf.Contents(), last)
    }

    ghost function Known(): Tracked
      reads this
    {
      Tracked(registered, unattended, burst, burstBytes, burstOpen, burstCovered, welcomeIdx,
              nick, channels, capLog, capLogBytes)
    }

    ghost function View(): State
      reads this, buf, buf.backing
      requires Valid()
    {
      State(conn, closeErr, link, handle, handles, buf.Contents(), last, acked, sent, everSent, lost,
            ctrl, finished, Known())
    }

    /** newSession. */
    constructor (budget: Budget, cap: nat, link: Link, handle: string)
      ensures Valid() && fresh(buf) && fresh(buf.backing)
      ensures this.budget == budget && this.cap == cap && View() == New(link, handle)
    {
      this.budget, this.cap := budget, cap;
      buf := new LineBuffer();
      conn, closeErr, this.link, this.handle, handles := Dialing, "", Some(link), handle, [handle];
      last, acked, sent, everSent, lost, ctrl, finished := 0, 0, 0, 0, 0, [], false;
      registered, unattended, burst, burstBytes, burstOpen, burstCovered := false, false, [], 0, false, 0;
      welcomeIdx, nick, channels, capLog, capLogBytes := -1, "", [], [], 0;
    }

    /** ingest, up to the reclaim that follows it outside the lock. `pong` is the
        line it queues for the socket. */
    method Ingest(raw: string, at: int) returns (pong: Option<string>)
      requires Valid()
      modifies this, buf, buf.backing, budget`used
      ensures Valid() && (buf.backing == old(buf.backing) || fresh(buf.backing))
      ensures View() == SessionSpec.Ingest(old(View()), raw, at, cap)
      ensures budget.used - Cost(View().buf) == old(budget.used) - Cost(old(View()).buf)
      ensures if old(conn) == Open && ForTheApp(raw)
              then exists k :: TakenIn(old(View()), View(), raw, at, cap, k) else View() == old(View())
      ensures pong.Some? <==> IsPing(raw)
      ensures IsPing(raw) ==> Parse(pong.value) == Some(Line("", "PONG", [Parse(raw).value.Last()]))
      ensures pong == match Classify(raw) case Answered(r) => Some(r) case _ => None
    {
      IngestIff(View(), raw, at, cap);
      PingIsAnswered(raw);
      hide ForTheApp, IsPing, TakenIn, Parse;
      pong := None;
      match Classify(raw)
      case Dropped => return;
      case Answered(reply) => return Some(reply);
      case Relayed(l) =>
        if conn != Open {
          return;
        }
        hide Classify, Track, Append, ShedOver;
        Enqueue(l, raw, at);
        ShedLoop();
    }

    /** ingest's first half: the line is numbered, buffered, charged and tracked. */
    method Enqueue(l: Line, raw: string, at: int)
      requires Valid()
      modifies this, buf, buf.backing, budget`used
      ensures Valid() && (buf.backing == old(buf.backing) || fresh(buf.backing))
      ensures View() == Append(old(View()), l, raw, at)
      ensures budget.used - Cost(View().buf) == old(budget.used) - Cost(old(View()).buf)
    {
      hide Track, Cost, Append, Session.View, Session.Valid, LineBuffer.Valid;
      ghost var was := View();
      Number(raw, at);
      Follow(l, raw);
      AppendIs(was, View(), l, raw, at);
    }

    /** The line gets its number, its place in the buffer and its charge. */
    method Number(raw: string, at: int)
      requires Valid()
      modifies this`last, buf, buf.backing, budget`used
      ensures Valid() && (buf.backing == old(buf.backing) || fresh(buf.backing))
      ensures var was := old(View());
              View() == was.(last := was.last + 1, buf := was.buf + [BufferedLine(was.last + 1, at, raw)])
      ensures budget.used - Cost(View().buf) == old(budget.used) - Cost(old(View()).buf)
    {
      hide Bounded, Cost, LineCost, Sorted;
      var l := BufferedLine(last + 1, at, raw);
      BoundedPush(buf.Contents(), l, last);
      last := last + 1;
      buf.Push(l);
      budget.Charge(LineCost(l.text));
    }

    /** track, on the line just numbered. */
    method Follow(l: Line, raw: string)
      requires Valid()
      modifies this`registered, this`unattended, this`burst, this`burstBytes, this`burstOpen, this`burstCovered,
               this`welcomeIdx, this`nick, this`channels, this`capLog, this`capLogBytes
      ensures Valid()
      ensures var was := old(View()); View() == was.(trk := Track(was.trk, l, raw, was.last, was.link.Some?))
    {
      hide Track, Bounded, Cost, Sorted;
      TrackLine(l, raw);
    }

    /** ingest's shedding loop. */
    method ShedLoop()
      requires Valid()
      modifies this`lost, buf, buf.backing, budget`used
      ensures Valid() && (buf.backing == old(buf.backing) || fresh(buf.backing))
      ensures View() == ShedOver(old(View()), cap)
      ensures budget.used - Cost(View().buf) == old(budget.used) - Cost(old(View()).buf)
    {
      while buf.bytes > cap && buf.count > 1
        invariant Valid() && (buf.backing == old(buf.backing) || fresh(buf.backing))
        invariant ShedOver(View(), cap) == ShedOver(old(View()), cap)
        invariant budget.used - Cost(View().buf) == old(budget.used) - Cost(old(View()).buf)
        decreases buf.count
      {
        DropOldestLocked();
      }
    }

    /** dropOldestLocked. */
    method DropOldestLocked()
      requires Valid()
      modifies this`lost, buf, buf.backing, budget`used
      ensures Valid() && (buf.backing == old(buf.backing) || fresh(buf.backing))
      ensures View() == DropOldest(old(View()))
      ensures budget.used - Cost(View().buf) == old(budget.used) - Cost(old(View()).buf)
    {
      hide Sorted, Bounded, Cost, LineCost;
      BoundedTail(buf.Contents(), last);
      var l, ok := buf.DropOldest();
      if !ok {
        return;
      }
      budget.Refund(LineCost(l.text));
      if l.id > everSent {
        lost := lost + 1;
      }
    }

    /** shedOldest; false when nothing can go. */
    method ShedOldestLine() returns (ok: bool)
      requires Valid()
      modifies this`lost, buf, buf.backing, budget`used
      ensures Valid() && (buf.backing == old(buf.backing) || fresh(buf.backing))
      ensures View() == ShedOldest(old(View())) && ok == (|old(View()).buf| > 1)
      ensures budget.used - Cost(View().buf) == old(budget.used) - Cost(old(View()).buf)
    {
      if buf.count <= 1 {
        return false;
      }
      DropOldestLocked();
      return true;
    }

    /** track. */
    method TrackLine(l: Line, raw: string)
      modifies this`registered, this`unattended, this`burst, this`burstBytes, this`burstOpen, this`burstCovered,
               this`welcomeIdx, this`nick, this`channels, this`capLog, this`capLogBytes
      ensures Known() == Track(old(Known()), l, raw, last, link.Some?)
    {
      TrackRegistration(l, raw);
      TrackOurselves(l);
    }

    method TrackRegistration(l: Line, raw: string)
      modifies this`burst, this`burstBytes, this`burstOpen, this`burstCovered, this`welcomeIdx, this`capLog,
        this`capLogBytes
      ensures Known() == TrackBurst(old(Known()), l, raw, last)
    {
      if burstOpen {
        burstCovered := last;
        if l.cmd in BURST_COMMANDS {
          if burstBytes + |raw| > MAX_BURST_BYTES {
            burstOpen := false;
          } else {
            burst := burst + [raw];
            burstBytes := burstBytes + |raw|;
            if l.cmd == "001" && welcomeIdx < 0 {
              welcomeIdx := |burst| - 1;
            }
          }
        }
        if EndOfBurst(l.cmd) {
          burstOpen := false;
        }
      } else if l.cmd == "CAP" && (ToUpper(l.Param(1)) == "ACK" || ToUpper(l.Param(1)) == "DEL") {
        if capLogBytes + |raw| <= MAX_CAP_LOG_BYTES {
          capLog := capLog + [raw];
          capLogBytes := capLogBytes + |raw|;
        }
      }
    }

    method TrackOurselves(l: Line)
      modifies this`registered, this`unattended, this`nick, this`channels
      ensures Known() == TrackSelf(old(Known()), l, link.Some?)
    {
      var fromSelf := FromSelf(nick, l);
      match l.cmd
      case "001" =>
        if !registered {
          registered := true;
          unattended := link == None;
        }
        if l.Param(0) != "" {
          nick := l.Param(0);
        }
      case "NICK" =>
        if fromSelf && l.Param(0) != "" {
          nick := l.Param(0);
        }
      case "JOIN" =>
        if fromSelf {
          JoinChannels(Split(l.Param(0), ','));
        }
      case "PART" =>
        if fromSelf {
          LeaveChannels(Split(l.Param(0), ','));
        }
      case "KICK" =>
        if nick != "" && Fold(l.Param(1)) == Fold(nick) {
          LeaveChannel(l.Param(0));
        }
      case _ =>
    }

    method JoinChannels(names: seq<string>)
      modifies this`channels
      ensures channels == AddChannels(old(channels), names)
    {
      assert names[0..] == names;
      for i := 0 to |names|
        invariant AddChannels(channels, names[i..]) == AddChannels(old(channels), names)
      {
        JoinChannel(names[i]);
        assert names[i..][1..] == names[i + 1..];
      }
    }

    method LeaveChannels(names: seq<string>)
      modifies this`channels
      ensures channels == RemoveChannels(old(channels), names)
    {
      assert names[0..] == names;
      for i := 0 to |names|
        invariant RemoveChannels(channels, names[i..]) == RemoveChannels(old(channels), names)
      {
        LeaveChannel(names[i]);
        assert names[i..][1..] == names[i + 1..];
      }
    }

    /** addChannel. */
    method JoinChannel(ch: string)
      modifies this`channels
      ensures channels == AddChannel(old(channels), ch)
    {
      if ch == "" || ch == "0" {
        return;
      }
      var f := Fold(ch);
      for i := 0 to |channels|
        invariant forall j :: 0 <= j < i ==> Fold(channels[j]) != f
      {
        if Fold(channels[i]) == f {
          return;
        }
      }
      channels := channels + [ch];
    }

    /** removeChannel: slices.DeleteFunc. */
    method LeaveChannel(ch: string)
      modifies this`channels
      ensures channels == RemoveChannel(old(channels), ch)
    {
      hide Fold;
      var f, kept := Fold(ch), [];
      assert channels[0..] == channels;
      for i := 0 to |channels|
        invariant kept + RemoveChannel(channels[i..], ch) == RemoveChannel(channels, ch)
      {
        var rest := RemoveChannel(channels[i + 1..], ch);
        assert channels[i..][1..] == channels[i + 1..];
        if Fold(channels[i]) != f {
          assert kept + ([channels[i]] + rest) == kept + [channels[i]] + rest;
          kept := kept + [channels[i]];
        } else {
          assert [] + rest == rest;
        }
      }
      channels := kept;
    }

    /** attachLocked. */
    method AttachLocked(l: Link, h: string)
      requires Valid()
      modifies this
      ensures Valid() && View() == Attach(old(View()), l, h)
    {
      hide ReplayBurst, Above, Recent, Session.View, Session.Valid;
      Claimed(l, h);
      Announced();
    }

    /** The claim changes hands, and starts behind what was acked or is replayed. */
    method Claimed(l: Link, h: string)
      requires Valid()
      modifies this`link, this`handle, this`handles, this`sent
      ensures Valid()
      ensures var was := old(View());
              View() == was.(link := Some(l), handle := h, handles := Recent(was.handles + [h]),
                             sent := Max(was.acked, was.trk.burstCovered))
    {
      hide Recent, Sorted, Bounded, Cost;
      ghost var was := View();
      TakeClaim(l, h);
      sent := Max(acked, burstCovered);
      assert View() == was.(link := link, handle := handle, handles := handles, sent := sent);
    }

    method TakeClaim(l: Link, h: string)
      modifies this`link, this`handle, this`handles
      ensures link == Some(l) && handle == h && handles == Recent(old(handles) + [h])
    {
      link, handle, handles := Some(l), h, handles + [h];
      if |handles| > RECENT_HANDLES {
        handles := handles[|handles| - RECENT_HANDLES..];
      }
    }

    method Announced()
      requires Valid()
      modifies this`ctrl, this`lost, this`unattended
      ensures Valid()
      ensures var was := old(View());
              View() == was.(ctrl := [Attached(was.handle, ReplayBurst(was.trk) + was.trk.capLog, was.trk.nick,
                was.trk.channels,
                                               was.trk.unattended, |Above(was.buf, was.sent)|, was.lost)],
                             lost := 0, trk := was.trk.(unattended := false))
    {
      hide ReplayBurst, Sorted, Bounded, Cost, Above;
      ghost var was := View();
      Announce();
      assert View() == was.(ctrl := ctrl, lost := 0, trk := was.trk.(unattended := false));
    }

    /** The attached frame, and the counters it reports being taken back. */
    method Announce()
      requires Valid()
      modifies this`ctrl, this`lost, this`unattended
      ensures Valid() && lost == 0 && !unattended
      ensures ctrl == [Attached(handle, ReplayBurst(old(Known())) + capLog, nick, channels, old(unattended),
                                |Above(buf.Contents(), sent)|, old(lost))]
    {
      hide ReplayBurst, Sorted, Bounded, Cost, Above;
      var backlog := buf.CountAfter(sent);
      var replay := BuildReplay();
      ctrl := [Attached(handle, replay, nick, channels, unattended, backlog, lost)];
      lost := 0;
      unattended := false;
    }

    /** attachLocked's loop over the recorded burst. */
    method BuildReplay() returns (replay: seq<string>)
      ensures replay == ReplayBurst(Known()) + capLog
    {
      hide RewriteTarget;
      ghost var full := ReplayBurst(Known());
      assert |full| == |burst|;
      replay := [];
      for i := 0 to |burst|
        invariant |replay| == i
        invariant forall j :: 0 <= j < i ==> replay[j] == full[j]
      {
        var line := burst[i];
        if i == welcomeIdx && nick != "" {
          line := RewriteTarget(line, nick);
        }
        replay := replay + [line];
      }
      assert replay == full;
      replay := replay + capLog;
    }

    /** detachLocked. */
    method DetachLocked(l: Link) returns (detached: bool)
      requires Valid()
      modifies this`link, this`ctrl
      ensures Valid() && View() == Detach(old(View()), l) && detached == (old(link) == Some(l))
    {
      if link != Some(l) {
        return false;
      }
      link, ctrl := None, [];
      return true;
    }

    /** pull. */
    method PullOwed(l: Link, limit: nat) returns (out: seq<Frame>, done: bool, stale: bool)
      requires Valid()
      modifies this`ctrl, this`sent, this`everSent, this`finished
      ensures Valid() && stale == (old(link) != Some(l))
      ensures stale ==> out == [] && !done && View() == old(View())
      ensures !stale ==>
        && out == PullFrames(old(View()), limit)
        && View() == SessionSpec.Pull(old(View()), limit)
        && done == ClosesNow(old(View()), limit)
    {
      stale := link != Some(l);
      if stale {
        return [], false, true;
      }
      hide *;
      out, done := PullHeld(limit);
    }

    /** pull, once the link is known to hold the session. */
    method PullHeld(limit: nat) returns (out: seq<Frame>, done: bool)
      requires Valid()
      modifies this`ctrl, this`sent, this`everSent, this`finished
      ensures Valid()
      ensures out == PullFrames(old(View()), limit)
      ensures View() == SessionSpec.Pull(old(View()), limit)
      ensures done == ClosesNow(old(View()), limit)
    {
      hide Batch, Sorted, Bounded, Cost, SentAfter, Above, PullFrames, SessionSpec.Pull, ClosesNow, LineFrames;
      ghost var was := View();
      var lines := PullLines(limit);
      out, ctrl := ctrl + lines, [];
      done := CloseIfDone();
      PullParts(was, limit, View());
      if done {
        out := out + [ClosedFrame(handle, closeErr)];
      }
    }

    /** pull's last part: whether the closed frame goes out now. */
    method CloseIfDone() returns (done: bool)
      requires Valid()
      modifies this`finished
      ensures Valid()
      ensures done == (conn == Closed && !old(finished) && Above(buf.Contents(), sent) == [])
      ensures finished == (old(finished) || done)
    {
      var owed := buf.CountAfter(sent);
      done := conn == Closed && !finished && owed == 0;
      finished := finished || done;
    }

    /** pull's loop over the lines past what this link has been sent. */
    method PullLines(limit: nat) returns (out: seq<Frame>)
      requires Valid()
      modifies this`sent, this`everSent
      ensures Valid() && out == LineFrames(handle, Batch(old(View()), limit))
      ensures sent == SentAfter(old(View()), limit)
      ensures everSent == if conn == Dialing then old(everSent) else Max(old(everSent), sent)
    {
      hide Batch, Sorted, Bounded, Cost, Above, LineFrames;
      var lines := NextBatch(limit);
      out := Emit(lines);
      if conn != Dialing {
        everSent := Max(everSent, sent);
      }
    }

    method Emit(lines: seq<BufferedLine>) returns (out: seq<Frame>)
      modifies this`sent
      ensures out == LineFrames(handle, lines)
      ensures sent == if lines == [] then old(sent) else lines[|lines| - 1].id
    {
      out := [];
      for i := 0 to |lines|
        invariant out == LineFrames(handle, lines)[..i]
        invariant sent == if i == 0 then old(sent) else lines[i - 1].id
      {
        out := out + [LineFrame(handle, lines[i].id, lines[i].at, lines[i].text)];
        sent := lines[i].id;
      }
    }

    method NextBatch(limit: nat) returns (lines: seq<BufferedLine>)
      requires Valid()
      ensures lines == Batch(View(), limit)
    {
      hide Sorted, Bounded, Cost, Above;
      lines := [];
      if conn != Dialing {
        lines := buf.After(sent, limit);
      }
    }

    /** ack, with the refund it makes once the lock is released. */
    method Acknowledge(h: string, n: nat)
      requires Valid()
      modifies this`acked, buf, buf.backing, budget`used
      ensures Valid() && (buf.backing == old(buf.backing) || fresh(buf.backing))
      ensures View() == Ack(old(View()), h, n)
      ensures budget.used - Cost(View().buf) == old(budget.used) - Cost(old(View()).buf)
    {
      AckSeen(h, n);
      if h !in handles || n <= acked || n > last {
        return;
      }
      hide Above, Cost, Session.View, Session.Valid, LineBuffer.Valid;
      var freed := ForgetThrough(n);
      budget.Refund(freed);
    }

    /** ack, once it counts: the bytes freed. */
    method ForgetThrough(n: nat) returns (freed: nat)
      requires Valid()
      modifies this`acked, buf, buf.backing
      ensures Valid() && (buf.backing == old(buf.backing) || fresh(buf.backing))
      ensures View() == old(View()).(buf := Above(old(View()).buf, n), acked := n)
      ensures freed == Cost(old(View()).buf) - Cost(View().buf)
    {
      hide Above, Cost, Bounded, LineBuffer.Valid, Sorted;
      ghost var was := View();
      StaysBounded(n);
      freed := buf.AckThrough(n);
      acked := n;
      assert View() == was.(buf := View().buf, acked := n);
    }

    lemma StaysBounded(n: nat)
      requires Valid()
      ensures Bounded(Above(buf.Contents(), n), last)
    {
      BoundedAbove(buf.Contents(), n, last);
      hide Above, Bounded, Sorted, Cost;
    }

    lemma AckSeen(h: string, n: nat)
      requires Valid()
      ensures AckCounts(View(), h, n) <==> h in handles && acked < n <= last
    {
      hide LineBuffer.Valid, Bounded;
    }

    /** dial's outcome. */
    method Dialed(err: Option<string>)
      requires Valid()
      modifies this`conn, this`closeErr, this`burstOpen, this`ctrl
      ensures Valid()
      ensures View() == if old(conn) != Dialing then old(View())
                        else if err.None? then DialOk(old(View())) else SessionSpec.Shutdown(old(View()), err.value)
    {
      if conn != Dialing {
        return;
      }
      match err
      case Some(reason) => conn, closeErr := Closed, reason;
      case None => Connected();
    }

    method Connected()
      requires Valid() && conn.Dialing?
      modifies this`conn, this`burstOpen, this`ctrl
      ensures Valid() && View() == DialOk(old(View()))
    {
      hide Sorted, Bounded, Cost;
      ghost var was := View();
      conn, burstOpen := Open, true;
      ctrl := ctrl + [Opened(handle)];
      assert View() == was.(conn := Open, ctrl := ctrl, trk := was.trk.(burstOpen := true));
    }

    /** shutdown: the link to tell, and whether this call did it. */
    method Shutdown(reason: string) returns (l: Option<Link>, did: bool)
      requires Valid()
      modifies this`conn, this`closeErr
      ensures Valid() && View() == SessionSpec.Shutdown(old(View()), reason)
      ensures did == (old(conn) != Closed) && l == if did then link else None
    {
      if conn == Closed {
        return None, false;
      }
      conn, closeErr := Closed, reason;
      return link, true;
    }

    /** What handleClose does to a session whose close it accepts. */
    method RequestClose(l: Link)
      requires Valid()
      modifies this`link, this`ctrl, this`finished
      ensures Valid() && View() == SessionSpec.RequestClose(old(View()), l)
    {
      var detached := DetachLocked(l);
      finished := true;
    }

    /** reusable, but for the fingerprint. */
    predicate Reusable()
      reads this
    {
      conn == Open && registered && welcomeIdx >= 0
    }
  }

  // --- The budget every session shares ---

  /** The sum of a map's values. */
  ghost function Sum<K>(m: map<K, nat>): nat
    decreases |m|
  {
    if m == map[] then 0
    else
      var k :| k in m;
      m[k] + Sum(m - {k})
  }

  lemma {:induction false} SumWithout<K>(m: map<K, nat>, k: K)
    requires k in m
    ensures Sum(m) == m[k] + Sum(m - {k})
    decreases |m|
  {
    var j :| j in m && Sum(m) == m[j] + Sum(m - {j});
    if j != k {
      SumWithout(m - {j}, k);
      SumWithout(m - {k}, j);
      assert (m - {j}) - {k} == (m - {k}) - {j};
    }
  }

  lemma SumUpdate<K>(m: map<K, nat>, k: K, v: nat)
    requires k in m
    ensures Sum(m[k := v]) == Sum(m) - m[k] + v
  {
    SumWithout(m, k);
    SumWithout(m[k := v], k);
    assert m[k := v] - {k} == m - {k};
  }

  lemma Factor(n: nat, b: nat)
    requires n > 0
    ensures n * b == b + (n - 1) * b
  {}

  lemma {:induction false} SumBound<K>(m: map<K, nat>, bound: nat)
    requires forall k :: k in m ==> m[k] <= bound
    ensures Sum(m) <= |m| * bound
    decreases |m|
  {
    if m != map[] {
      var k :| k in m && Sum(m) == m[k] + Sum(m - {k});
      SumBound(m - {k}, bound);
      Factor(|m|, bound);
    }
  }

  class Budget {
    const max: nat
    var used: int
    var sessions: set<Session>

    constructor (limit: nat)
      ensures max == limit && used == 0 && sessions == {} && Valid() && Exact()
    {
      max, used, sessions := limit, 0, {};
    }

    method Charge(n: nat)
      modifies this`used
      ensures used == old(used) + n
    {
      used := used + n;
    }

    method Refund(n: int)
      modifies this`used
      ensures used == old(used) - n
    {
      used := used - n;
    }

    method Register(s: Session)
      modifies this`sessions
      ensures sessions == old(sessions) + {s}
    {
      sessions := sessions + {s};
    }

    method Unregister(s: Session)
      modifies this`sessions
      ensures sessions == old(sessions) - {s}
    {
      sessions := sessions - {s};
    }

    /** Every registered session charges this budget, and no two share a buffer. */
    ghost predicate Valid()
      reads this, sessions, set s | s in sessions :: s.buf, set s | s in sessions :: s.buf.backing
    {
      && (forall s :: s in sessions ==> s.budget == this && s.Valid())
      && (forall s, t :: s in sessions && t in sessions && s != t ==>
            s.buf != t.buf && s.buf.backing != t.buf.backing)
    }

    ghost function Views(): map<Session, State>
      reads this, sessions, set s | s in sessions :: s.buf, set s | s in sessions :: s.buf.backing
      requires Valid()
    {
      map s | s in sessions :: s.View()
    }

    /** The total charged is what the registered sessions hold. */
    ghost predicate Exact()
      reads this, sessions, set s | s in sessions :: s.buf, set s | s in sessions :: s.buf.backing
      requires Valid()
    {
      used == Bytes(Views())
    }

    /** newSession, registered as handleConnect does. */
    method Admit(cap: nat, link: Link, handle: string) returns (s: Session)
      requires Valid()
      modifies this`sessions
      ensures Valid() && fresh(s) && fresh(s.buf) && fresh(s.buf.backing)
      ensures sessions == old(sessions) + {s} && s.cap == cap && s.budget == this
      ensures s.Valid() && s.View() == New(link, handle)
      ensures Views() == old(Views())[s := New(link, handle)]
      ensures old(Exact()) ==> Exact()
    {
      hide Cost, Bytes, Session.View, Valid;
      s := Enter(cap, link, handle);
      assert Views() == old(Views())[s := New(link, handle)];
      BytesAdd(old(Views()), s, New(link, handle));
    }

    method Enter(cap: nat, link: Link, handle: string) returns (s: Session)
      requires Valid()
      modifies this`sessions
      ensures Valid() && fresh(s) && fresh(s.buf) && fresh(s.buf.backing)
      ensures sessions == old(sessions) + {s} && s.cap == cap && s.budget == this
      ensures s.Valid() && s.View() == New(link, handle)
      ensures forall t :: t in old(sessions) ==> t.View() == old(t.View())
    {
      hide Bounded, Cost, Sorted, Session.View;
      s := new Session(this, cap, link, handle);
      Register(s);
    }

    /** Session s shares no buffer with a registered one. */
    ghost predicate Apart(s: Session)
      reads this, sessions, set t | t in sessions :: t.buf, s, s.buf
    {
      s.budget == this && forall t :: t in sessions && t != s ==> t.buf != s.buf && t.buf.backing != s.buf.backing
    }

    /** A session that has closed is forgotten: its buffer is cleared, it leaves the
        budget, and what it held is refunded. One forgotten before holds nothing. */
    method Forget(s: Session)
      requires Valid() && s.Valid() && Apart(s) && (s in sessions || s.View().buf == [])
      modifies this`used, this`sessions, s.buf
      ensures Valid() && s.Valid() && s.View() == old(s.View()).(buf := []) && fresh(s.buf.backing)
      ensures sessions == old(sessions) - {s} && Views() == old(Views()) - {s}
      ensures old(Exact()) ==> Exact()
    {
      hide Cost, Bytes, Session.View, Session.Valid;
      Leave(s);
      assert Views() == old(Views()) - {s};
      if s in old(sessions) {
        BytesWithout(old(Views()), s);
      } else {
        assert Views() == old(Views());
        NothingCosts();
      }
    }

    method Leave(s: Session)
      requires Valid() && s.Valid() && Apart(s)
      modifies this`used, this`sessions, s.buf
      ensures Valid() && s.Valid() && s.View() == old(s.View()).(buf := []) && fresh(s.buf.backing)
      ensures sessions == old(sessions) - {s} && used == old(used) - Cost(old(s.View()).buf)
      ensures forall t :: t in sessions ==> t.View() == old(t.View())
    {
      hide Cost, Session.View, Session.Valid;
      var freed := Empty(s);
      Unregister(s);
      Refund(freed);
    }

    method Empty(s: Session) returns (freed: int)
      requires Valid() && s.Valid() && Apart(s)
      modifies s.buf
      ensures Valid() && s.Valid() && Apart(s) && fresh(s.buf.backing)
      ensures s.View() == old(s.View()).(buf := []) && freed == Cost(old(s.View()).buf)
      ensures forall t :: t in sessions && t != s ==> t.View() == old(t.View())
    {
      hide Cost, Sorted;
      freed := s.buf.Clear();
    }

    /** What a step that works on one session does to them all. */
    twostate lemma OneChanged(s: Session)
      requires old(Valid()) && Valid() && sessions == old(sessions) && s in sessions
      requires s.buf.backing == old(s.buf.backing) || fresh(s.buf.backing)
      requires forall t :: t in sessions && t != s ==> t.buf.backing == old(t.buf.backing) && t.View() == old(t.View())
      ensures s in old(Views()) && old(Views())[s] == old(s.View())
      ensures Views() == old(Views())[s := s.View()] && Frame(old(Backings()))
    {
      hide Session.View, LineBuffer.Valid, Bounded, Cost, Frame, Backings;
      ArraysChanged(s);
    }

    twostate lemma ArraysChanged(s: Session)
      requires sessions == old(sessions) && s in sessions
      requires s.buf.backing == old(s.buf.backing) || fresh(s.buf.backing)
      requires forall t :: t in sessions && t != s ==> t.buf.backing == old(t.buf.backing)
      ensures Frame(old(Backings()))
    {
    }

    /** A line comes in for one session. */
    method Ingest(s: Session, raw: string, at: int) returns (pong: Option<string>)
      requires Valid() && s in sessions
      modifies this`used, s, s.buf, s.buf.backing
      ensures Valid() && Frame(old(Backings()))
      ensures s in old(Views()) && Views() == old(Views())[s := SessionSpec.Ingest(old(Views())[s], raw, at, s.cap)]
      ensures pong == match Classify(raw) case Answered(r) => Some(r) case _ => None
      ensures old(Exact()) ==> Exact()
    {
      hide Valid, SessionSpec.Ingest, Cost, Session.View, Session.Valid, LineBuffer.Valid, Bytes, Classify, Views,
        Frame, Backings;
      pong := TakeIn(s, raw, at);
      OneChanged(s);
      SumsUpdate(old(Views()), s, Views()[s]);
    }

    method TakeIn(s: Session, raw: string, at: int) returns (pong: Option<string>)
      requires Valid() && s in sessions
      modifies this`used, s, s.buf, s.buf.backing
      ensures Valid() && (s.buf.backing == old(s.buf.backing) || fresh(s.buf.backing))
      ensures forall t :: t in sessions && t != s ==> t.buf.backing == old(t.buf.backing) && t.View() == old(t.View())
      ensures s.View() == SessionSpec.Ingest(old(s.View()), raw, at, s.cap)
      ensures used - Cost(s.View().buf) == old(used) - Cost(old(s.View()).buf)
      ensures pong == match Classify(raw) case Answered(r) => Some(r) case _ => None
    {
      hide SessionSpec.Ingest, Cost, Bounded, Sorted, Session.View, Session.Valid, LineBuffer.Valid, Classify, Parse,
        TakenIn, ForTheApp, IsPing;
      pong := s.Ingest(raw, at);
    }

    /** An ack comes for one session. */
    method Acknowledge(s: Session, h: string, n: nat)
      requires Valid() && s in sessions
      modifies this`used, s`acked, s.buf, s.buf.backing
      ensures Valid() && Frame(old(Backings()))
      ensures s in old(Views()) && Views() == old(Views())[s := Ack(old(Views())[s], h, n)]
      ensures old(Exact()) ==> Exact()
    {
      hide Valid, Ack, Cost, Session.View, Session.Valid, LineBuffer.Valid, Bytes, Views, Frame, Backings;
      TakeAck(s, h, n);
      OneChanged(s);
      SumsUpdate(old(Views()), s, Views()[s]);
    }

    method TakeAck(s: Session, h: string, n: nat)
      requires Valid() && s in sessions
      modifies this`used, s`acked, s.buf, s.buf.backing
      ensures Valid() && (s.buf.backing == old(s.buf.backing) || fresh(s.buf.backing))
      ensures forall t :: t in sessions && t != s ==> t.buf.backing == old(t.buf.backing) && t.View() == old(t.View())
      ensures s.View() == Ack(old(s.View()), h, n)
      ensures used - Cost(s.View().buf) == old(used) - Cost(old(s.View()).buf)
    {
      hide Ack, Cost, Bounded, Sorted, Session.View;
      s.Acknowledge(h, n);
    }

    /** ingest with the reclaim that follows a line it buffered: then the total is
        within the budget, or no more than one line a session. */
    method Receive(s: Session, raw: string, at: int, ghost maxLine: nat)
      returns (pong: Option<string>, ghost drops: map<Session, nat>)
      requires Valid() && Exact() && s in sessions && LinesFit(Views(), maxLine) && LineCost(raw) <= maxLine
      modifies this`used, sessions, set s | s in sessions :: s.buf, set s | s in sessions :: s.buf.backing
      ensures Valid() && Exact() && sessions == old(sessions) && LinesFit(Views(), maxLine)
      ensures s in old(Views()) && ShedEach(old(Views())[s := SessionSpec.Ingest(old(Views())[s], raw, at, s.cap)],
        Views(), drops)
      ensures Buffers(old(Views())[s], raw) ==> used <= max || used <= |sessions| * maxLine
    {
      hide Valid, SessionSpec.Ingest, Cost, Bounded, Session.View, Bytes, Classify, LinesFit, ShedEach, Views,
        LineCost, Exact;
      StateOf(s);
      ghost var v := Views();
      var buffers := Classify(raw).Relayed? && s.conn == Open;
      pong := Ingest(s, raw, at);
      IngestFits(v, s, raw, at, s.cap, maxLine);
      if buffers {
        drops := Reclaim(maxLine);
      } else {
        drops := NoDrops(Views());
      }
    }

    lemma StateOf(s: Session)
      requires Valid() && s in sessions
      ensures s in Views() && Views()[s].conn == s.conn
    {
      hide Cost, Bounded, Sorted;
    }

    /** reclaim's scan for the largest buffer that is not empty. */
    method Largest() returns (largest: Session?)
      requires Valid()
      ensures largest == null ==> NoneLargerThan(Views(), 0)
      ensures Views().Keys == sessions
      ensures largest != null ==> largest in sessions && NoneLargerThan(Views(), Cost(Views()[largest].buf))
    {
      hide Cost, Bounded, Sorted;
      largest := null;
      var size, rest := 0, sessions;
      while rest != {}
        invariant rest <= sessions
        invariant largest == null ==> size == 0
        invariant largest != null ==> largest in sessions && size == Cost(largest.View().buf)
        invariant forall s :: s in sessions - rest ==> Cost(s.View().buf) <= size
        decreases |rest|
      {
        var s :| s in rest;
        rest := rest - {s};
        if s.buf.bytes > size {
          largest, size := s, s.buf.bytes;
        }
      }
    }

    /** One session sheds its oldest line; the others are not touched. */
    method ShedFrom(s: Session) returns (ok: bool)
      requires Valid() && s in sessions && s in Views()
      modifies this`used, s`lost, s.buf, s.buf.backing
      ensures Valid() && Frame(old(Backings()))
      ensures ok == (|old(Views())[s].buf| > 1)
      ensures Views() == old(Views())[s := ShedOldest(old(Views())[s])]
      ensures used - Cost(ShedOldest(old(Views())[s]).buf) == old(used) - Cost(old(Views())[s].buf)
    {
      hide Valid, ShedOldest, Cost, Session.View, Session.Valid, LineBuffer.Valid, Views, Frame, Backings;
      ok := TakeFrom(s);
      OneChanged(s);
    }

    method TakeFrom(s: Session) returns (ok: bool)
      requires Valid() && s in sessions
      modifies this`used, s`lost, s.buf, s.buf.backing
      ensures Valid() && (s.buf.backing == old(s.buf.backing) || fresh(s.buf.backing))
      ensures forall t :: t in sessions && t != s ==> t.buf.backing == old(t.buf.backing) && t.View() == old(t.View())
      ensures ok == (|old(s.View()).buf| > 1) && s.View() == ShedOldest(old(s.View()))
      ensures used - Cost(ShedOldest(old(s.View())).buf) == old(used) - Cost(old(s.View()).buf)
    {
      hide ShedOldest, Cost, Bounded, Sorted;
      ok := s.ShedOldestLine();
    }

    /** reclaim: the largest buffers shed their oldest lines until the total fits,
        each never its last line. It ends, because every round takes a line. With
        lines that cost at most maxLine, either the total fits or what is buffered
        is no more than one line a session. `drops` says how many lines went where. */
    method Reclaim(ghost maxLine: nat) returns (ghost drops: map<Session, nat>)
      requires Valid() && LinesFit(Views(), maxLine)
      modifies this`used, sessions, set s | s in sessions :: s.buf, set s | s in sessions :: s.buf.backing
      ensures Valid() && sessions == old(sessions) && ShedEach(old(Views()), Views(), drops)
      ensures used - Bytes(Views()) == old(used - Bytes(Views()))
      ensures used <= max || Bytes(Views()) <= |sessions| * maxLine
      ensures LinesFit(Views(), maxLine)
      ensures old(Exact()) ==> Exact() && (used <= max || used <= |sessions| * maxLine)
      ensures old(used) <= max ==> used == old(used) && Views() == old(Views())
      ensures Tight(old(Views()), Views(), drops, old(used - Bytes(Views())), max)
    {
      hide LinesFit, Bytes, Lines, ShedEach, ShedOldest, NoneLargerThan, Valid, Views, Tight, Round, Session.View,
        Session.Valid, LineBuffer.Valid;
      drops := NoDrops(Views());
      TightAtFirst(Views(), drops, used - Bytes(Views()), max);
      ghost var arrays := Backings();
      var more := true;
      while more && used > max
        invariant Valid() && sessions == old(sessions) && Frame(arrays)
        invariant ShedEach(old(Views()), Views(), drops) && LinesFit(Views(), maxLine)
        invariant used - Bytes(Views()) == old(used - Bytes(Views()))
        invariant !more ==> Bytes(Views()) <= |sessions| * maxLine
        invariant old(used) <= max ==> used == old(used) && Views() == old(Views())
        invariant Tight(old(Views()), Views(), drops, old(used - Bytes(Views())), max)
        decreases more, Lines(Views())
      {
        ghost var v, were := Views(), drops;
        more, drops := ShedLargest(old(Views()), drops, maxLine);
        TightStill(old(Views()), v, Views(), were, drops, old(used - Bytes(Views())), max);
      }
    }

    /** The arrays the sessions' buffers sit in. */
    ghost function Backings(): map<Session, array<BufferedLine>>
      reads this, set s | s in sessions :: s.buf
    {
      map s | s in sessions :: s.buf.backing
    }

    /** Every buffer sits where it did, or in a new array. */
    twostate predicate Frame(was: map<Session, array<BufferedLine>>)
      reads this, set s | s in sessions :: s.buf
    {
      forall s :: s in sessions ==> s in was && (s.buf.backing == was[s] || fresh(s.buf.backing))
    }

    twostate lemma NothingMoved()
      ensures old(Backings()) == Backings() ==> Frame(old(Backings()))
    {}

    /** One round of reclaim; false when nothing can go. */
    method ShedLargest(ghost was: map<Session, State>, ghost drops: map<Session, nat>, ghost maxLine: nat)
      returns (ok: bool, ghost drops': map<Session, nat>)
      requires Valid() && LinesFit(Views(), maxLine) && ShedEach(was, Views(), drops)
      modifies this`used, sessions, set s | s in sessions :: s.buf, set s | s in sessions :: s.buf.backing
      ensures Valid() && sessions == old(sessions) && Frame(old(Backings()))
      ensures LinesFit(Views(), maxLine) && ShedEach(was, Views(), drops')
      ensures used - Bytes(Views()) == old(used - Bytes(Views()))
      ensures if ok then Lines(Views()) < old(Lines(Views())) else Bytes(Views()) <= |sessions| * maxLine
      ensures Round(old(Views()), Views(), drops, drops')
    {
      hide Valid, Views, LinesFit, Bytes, Lines, ShedEach, NoneLargerThan, Cost, Backings;
      var largest := Largest();
      if largest == null {
        BytesBound(Views(), 0, maxLine);
        NothingMoved();
        return false, drops;
      }
      ok, drops' := ShedRound(largest, was, drops, maxLine);
    }

    /** That round, once the largest buffer is known. */
    method ShedRound(s: Session, ghost was: map<Session, State>, ghost drops: map<Session, nat>, ghost maxLine: nat)
      returns (ok: bool, ghost drops': map<Session, nat>)
      requires Valid() && LinesFit(Views(), maxLine) && ShedEach(was, Views(), drops)
      requires Views().Keys == sessions && s in sessions && NoneLargerThan(Views(), Cost(Views()[s].buf))
      modifies this`used, sessions, set s | s in sessions :: s.buf, set s | s in sessions :: s.buf.backing
      ensures Valid() && sessions == old(sessions) && Frame(old(Backings()))
      ensures LinesFit(Views(), maxLine) && ShedEach(was, Views(), drops')
      ensures used - Bytes(Views()) == old(used - Bytes(Views()))
      ensures if ok then Lines(Views()) < old(Lines(Views())) else Bytes(Views()) <= |sessions| * maxLine
      ensures Round(old(Views()), Views(), drops, drops')
    {
      hide LinesFit, Bytes, Lines, ShedEach, ShedOldest, NoneLargerThan, Cost, Valid, Views, Frame, Backings;
      ghost var v := Views();
      ok := ShedFrom(s);
      ShedOne(was, v, drops, s, maxLine);
      drops' := if ok then drops[s := drops[s] + 1] else drops;
      if !ok {
        BytesBound(v, Cost(v[s].buf), maxLine);
      }
    }
  }

  // --- All sessions at once ---

  /** A round of reclaim: nothing happens, or a session with the most bytes, and more than
      one line, sheds its oldest. */
  ghost predicate Round(v: map<Session, State>, t: map<Session, State>, drops: map<Session, nat>, now: map<Session,
    nat>) {
    || (t == v && now == drops)
    || exists s :: s in v && s in drops && OldestShed(v, t, s) && now == drops[s := drops[s] + 1]
  }

  ghost predicate OldestShed(v: map<Session, State>, t: map<Session, State>, s: Session)
    requires s in v
  {
    t == v[s := ShedOldest(v[s])] && |v[s].buf| > 1 && NoneLargerThan(v, Cost(v[s].buf))
  }

  /** No more was shed than it took: without the last line that went, the total was over
      the budget, and that line went from a session with the most bytes then, which keeps
      at least one. `slack` is what the total has beside the bytes buffered. */
  ghost predicate Tight(was: map<Session, State>, now: map<Session, State>, drops: map<Session, nat>, slack: int,
    max: nat) {
    || (drops.Keys == was.Keys && forall s :: s in was ==> drops[s] == 0)
    || exists s :: s in was && s in now && s in drops && LastToGo(was, now, drops, s, slack, max)
  }

  ghost predicate LastToGo(
    was: map<Session, State>, now: map<Session, State>, drops: map<Session, nat>, s: Session, slack: int, max: nat)
    requires s in was && s in now && s in drops
  {
    drops[s] > 0
    && var v := now[s := DropN(was[s], drops[s] - 1)];
    now[s] == DropOldest(v[s]) && |v[s].buf| > 1 && Bytes(v) + slack > max && NoneLargerThan(v, Cost(v[s].buf))
  }

  lemma TightAtFirst(v: map<Session, State>, drops: map<Session, nat>, slack: int, max: nat)
    requires drops.Keys == v.Keys && forall s :: s in v ==> drops[s] == 0
    ensures Tight(v, v, drops, slack, max)
  {}

  lemma TightStill(was: map<Session, State>, v: map<Session, State>, t: map<Session, State>, drops: map<Session, nat>,
                   now: map<Session, nat>, slack: int, max: nat)
    requires Tight(was, v, drops, slack, max) && ShedEach(was, v, drops) && Round(v, t, drops, now)
    requires Bytes(v) + slack > max
    ensures Tight(was, t, now, slack, max)
  {
    hide Bytes, NoneLargerThan, Cost, OldestShed, LastToGo, ShedEach, DropN;
    if !(t == v && now == drops) {
      var s :| s in v && s in drops && OldestShed(v, t, s) && now == drops[s := drops[s] + 1];
      ShedSoFar(was, v, drops, s);
      LastRound(was, v, t, now, s, slack, max);
    }
  }

  lemma ShedSoFar(was: map<Session, State>, v: map<Session, State>, drops: map<Session, nat>, s: Session)
    requires ShedEach(was, v, drops) && s in v
    ensures s in was && s in drops && v[s] == DropN(was[s], drops[s])
  {
    hide DropN;
  }

  lemma LastRound(was: map<Session, State>, v: map<Session, State>, t: map<Session, State>, now: map<Session, nat>,
                  s: Session, slack: int, max: nat)
    requires s in was && s in v && s in now && now[s] > 0 && v[s] == DropN(was[s], now[s] - 1)
    requires OldestShed(v, t, s) && Bytes(v) + slack > max
    ensures s in t && LastToGo(was, t, now, s, slack, max)
  {
    hide Bytes, NoneLargerThan, Cost, DropN;
    assert t[s := v[s]] == v;
  }

  ghost predicate NoneLargerThan(v: map<Session, State>, bound: nat) {
    forall s :: s in v ==> Cost(v[s].buf) <= bound
  }

  ghost predicate LinesFit(v: map<Session, State>, maxLine: nat) {
    forall s :: s in v ==> LinesCostAtMost(v[s].buf, maxLine)
  }

  /** now is was, with drops[s] oldest lines shed from each session s. */
  ghost predicate ShedEach(was: map<Session, State>, now: map<Session, State>, drops: map<Session, nat>) {
    && now.Keys == was.Keys && drops.Keys == was.Keys
    && forall s :: s in was ==> now[s] == DropN(was[s], drops[s])
  }

  ghost function Sizes(v: map<Session, State>): map<Session, nat> { map s | s in v :: Cost(v[s].buf) }

  ghost function Counts(v: map<Session, State>): map<Session, nat> { map s | s in v :: |v[s].buf| }

  ghost function Bytes(v: map<Session, State>): nat { Sum(Sizes(v)) }

  ghost function Lines(v: map<Session, State>): nat { Sum(Counts(v)) }

  ghost function NoDrops(v: map<Session, State>): (drops: map<Session, nat>)
    ensures ShedEach(v, v, drops) && drops.Keys == v.Keys && forall s :: s in v ==> drops[s] == 0
  {
    map s | s in v :: 0
  }

  lemma BytesBound(v: map<Session, State>, bound: nat, maxLine: nat)
    requires NoneLargerThan(v, bound) && bound <= maxLine
    ensures Bytes(v) <= |v.Keys| * maxLine
  {
    assert Sizes(v).Keys == v.Keys;
    SumBound(Sizes(v), maxLine);
  }

  lemma SumsUpdate(v: map<Session, State>, s: Session, x: State)
    requires s in v
    ensures Bytes(v[s := x]) == Bytes(v) - Cost(v[s].buf) + Cost(x.buf)
    ensures Lines(v[s := x]) == Lines(v) - |v[s].buf| + |x.buf|
  {
    hide Cost;
    var t := v[s := x];
    SumUpdate(Sizes(v), s, Cost(x.buf));
    SumUpdate(Counts(v), s, |x.buf|);
    assert Sizes(t) == Sizes(v)[s := Cost(x.buf)];
    assert Counts(t) == Counts(v)[s := |x.buf|];
  }

  lemma BytesAdd(v: map<Session, State>, s: Session, x: State)
    requires s !in v && x.buf == []
    ensures Bytes(v[s := x]) == Bytes(v)
  {
    var t := v[s := x];
    SumWithout(Sizes(t), s);
    assert Sizes(t) - {s} == Sizes(v);
  }

  lemma NothingCosts()
    ensures Cost([]) == 0
  {}

  lemma BytesWithout(v: map<Session, State>, s: Session)
    requires s in v
    ensures Bytes(v - {s}) == Bytes(v) - Cost(v[s].buf)
  {
    hide Cost;
    SumWithout(Sizes(v), s);
    assert Sizes(v) - {s} == Sizes(v - {s});
  }

  lemma ShedEachMore(was: map<Session, State>, v: map<Session, State>, drops: map<Session, nat>, s: Session)
    requires ShedEach(was, v, drops) && s in v && |v[s].buf| > 1
    ensures ShedEach(was, v[s := ShedOldest(v[s])], drops[s := drops[s] + 1])
  {}

  lemma ShedOldestBuf(s: State)
    ensures |s.buf| <= 1 ==> ShedOldest(s) == s
    ensures |s.buf| > 1 ==> ShedOldest(s).buf == s.buf[1..]
  {}

  lemma LinesFitAt(v: map<Session, State>, s: Session, maxLine: nat)
    requires LinesFit(v, maxLine) && s in v
    ensures LinesCostAtMost(v[s].buf, maxLine)
  {
    hide LinesCostAtMost;
  }

  lemma LinesFitUpdate(v: map<Session, State>, s: Session, x: State, maxLine: nat)
    requires LinesFit(v, maxLine) && LinesCostAtMost(x.buf, maxLine)
    ensures LinesFit(v[s := x], maxLine)
  {
    hide LinesCostAtMost;
  }

  /** What one round of reclaim does to the whole. */
  lemma ShedOne(was: map<Session, State>, v: map<Session, State>, drops: map<Session, nat>, s: Session, maxLine: nat)
    requires ShedEach(was, v, drops) && LinesFit(v, maxLine) && s in v
    ensures s in drops
    ensures var t := v[s := ShedOldest(v[s])];
            && LinesFit(t, maxLine)
            && Bytes(t) - Cost(t[s].buf) == Bytes(v) - Cost(v[s].buf)
            && (|v[s].buf| <= 1 ==> t == v && Cost(v[s].buf) <= maxLine)
            && (|v[s].buf| > 1 ==> Lines(t) < Lines(v) && ShedEach(was, t, drops[s := drops[s] + 1]))
  {
    assert s in drops;
    hide Cost, Sum, LinesCostAtMost, ShedEach, Bytes, Lines, LinesFit, ShedOldest;
    LinesFitAt(v, s, maxLine);
    SumsUpdate(v, s, ShedOldest(v[s]));
    TailCostAtMost(v[s].buf, maxLine);
    ShedOldestBuf(v[s]);
    if |v[s].buf| <= 1 {
      LoneLine(v[s].buf, maxLine);
      assert v[s := ShedOldest(v[s])] == v;
    } else {
      LinesFitUpdate(v, s, ShedOldest(v[s]), maxLine);
      ShedEachMore(was, v, drops, s);
    }
  }

  predicate LinesCostAtMost(lines: seq<BufferedLine>, bound: nat) {
    forall i :: 0 <= i < |lines| ==> LineCost(lines[i].text) <= bound
  }

  lemma LoneLine(lines: seq<BufferedLine>, bound: nat)
    requires LinesCostAtMost(lines, bound) && |lines| <= 1
    ensures Cost(lines) <= bound
  {
    assert lines != [] ==> lines[1..] == [];
  }

  lemma TailCostAtMost(lines: seq<BufferedLine>, bound: nat)
    requires LinesCostAtMost(lines, bound)
    ensures lines != [] ==> LinesCostAtMost(lines[1..], bound)
  {}

  /** The line is one that ingest buffers. */
  predicate Buffers(s: State, raw: string) { Classify(raw).Relayed? && s.conn.Open? }

  lemma IngestFits(v: map<Session, State>, s: Session, raw: string, at: int, cap: nat, maxLine: nat)
    requires LinesFit(v, maxLine) && s in v && LineCost(raw) <= maxLine
    ensures LinesFit(v[s := SessionSpec.Ingest(v[s], raw, at, cap)], maxLine)
  {
    hide LinesCostAtMost, Classify, Track, ShedOver;
    var now := SessionSpec.Ingest(v[s], raw, at, cap);
    match Classify(raw)
    case Relayed(l) =>
      if v[s].conn.Open? {
        PushCostAtMost(v[s].buf, BufferedLine(v[s].last + 1, at, raw), maxLine);
        ShedCostAtMost(Append(v[s], l, raw, at), cap, maxLine);
      }
    case _ =>
  }

  lemma PushCostAtMost(lines: seq<BufferedLine>, l: BufferedLine, bound: nat)
    requires LinesCostAtMost(lines, bound) && LineCost(l.text) <= bound
    ensures LinesCostAtMost(lines + [l], bound)
  {}

  lemma {:induction false} ShedCostAtMost(s: State, cap: nat, bound: nat)
    requires LinesCostAtMost(s.buf, bound)
    ensures LinesCostAtMost(ShedOver(s, cap).buf, bound)
    decreases |s.buf|
  {
    if Cost(s.buf) > cap && |s.buf| > 1 {
      ShedCostAtMost(DropOldest(s), cap, bound);
    }
  }

  /** n oldest lines shed, one after the other. */
  function DropN(s: State, n: nat): State {
    if n == 0 then s else DropOldest(DropN(s, n - 1))
  }
}
