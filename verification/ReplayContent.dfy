/** What a re-attaching app is told: the recorded registration burst, our nick and
    our channels, measured against the whole history of lines. */
module ReplayContent {
  import opened GoStrings
  import opened IrcLine
  import opened Buffer
  import opened SessionSpec
  import opened SessionRun
  import opened SessionTheorems
  import opened SessionLaws
  import opened SessionHistory

  // --- The burst, by history ---

  function CmdOf(text: string): string {
    match Parse(text) case None => "" case Some(l) => l.cmd
  }

  /** The burst-command lines of a history, in order. */
  function BurstOf(log: seq<BufferedLine>): seq<string> {
    if log == [] then []
    else
      var text := log[|log| - 1].text;
      BurstOf(log[..|log| - 1]) + (if CmdOf(text) in BURST_COMMANDS then [text] else [])
  }

  function Bytes(lines: seq<string>): nat {
    if lines == [] then 0 else Bytes(lines[..|lines| - 1]) + |lines[|lines| - 1]|
  }

  /** Where the first 001 of a burst is, or -1. */
  function FirstWelcome(lines: seq<string>): int {
    if lines == [] then -1
    else
      var i := FirstWelcome(lines[..|lines| - 1]);
      if i < 0 && CmdOf(lines[|lines| - 1]) == "001" then |lines| - 1 else i
  }

  predicate OverCap(log: seq<BufferedLine>) { Bytes(BurstOf(log)) > MAX_BURST_BYTES }

  /** The n-th line ends the recording: end of MOTD, or one line too many. */
  predicate Ends(log: seq<BufferedLine>, n: nat)
    requires 1 <= n <= |log|
  {
    EndOfBurst(CmdOf(log[n - 1].text)) || OverCap(log[..n])
  }

  /** What t recorded of log. */
  ghost predicate Recorded(t: Tracked, log: seq<BufferedLine>) {
    var c := t.burstCovered;
    && c <= |log|
    && t.burstBytes == Bytes(t.burst) <= MAX_BURST_BYTES
    && t.welcomeIdx == FirstWelcome(t.burst)
    && (t.burstOpen ==> c == |log|)
    && (log != [] ==> c >= 1 && (t.burstOpen <==> !Ends(log, c)))
    && (forall n :: 1 <= n < c ==> !Ends(log, n))
    && t.burst == if OverCap(log[..c]) then BurstOf(log[..c - 1]) else BurstOf(log[..c])
  }

  ghost predicate BurstInv(r: Run) {
    && |r.log| == r.s.last
    && (r.s.conn.Dialing? ==> r.log == [] && !r.s.trk.burstOpen)
    && Recorded(r.s.trk, r.log)
  }

  lemma CapNeedsALine(log: seq<BufferedLine>)
    ensures OverCap(log) ==> log != []
  {}

  lemma BurstOfPush(log: seq<BufferedLine>, l: BufferedLine)
    ensures BurstOf(log + [l]) == BurstOf(log) + (if CmdOf(l.text) in BURST_COMMANDS then [l.text] else [])
  {
    assert (log + [l])[..|log|] == log;
  }

  lemma BytesPush(lines: seq<string>, line: string)
    ensures Bytes(lines + [line]) == Bytes(lines) + |line|
    ensures FirstWelcome(lines + [line])
         == if FirstWelcome(lines) < 0 && CmdOf(line) == "001" then |lines| else FirstWelcome(lines)
  {
    assert (lines + [line])[..|lines|] == lines;
  }

  lemma EndsStable(log: seq<BufferedLine>, l: BufferedLine, n: nat)
    requires 1 <= n <= |log|
    ensures Ends(log + [l], n) == Ends(log, n)
  {
    assert (log + [l])[..n] == log[..n];
  }

  /** TrackBurst, in terms of the burst it extends. */
  lemma TrackBurstOpen(t: Tracked, l: Line, raw: string, last: nat)
    requires t.burstOpen
    ensures var u := TrackBurst(t, l, raw, last);
            var fits := t.burstBytes + |raw| <= MAX_BURST_BYTES;
            && u.burstCovered == last
            && u.burstOpen == (!EndOfBurst(l.cmd) && (l.cmd in BURST_COMMANDS ==> fits))
            && u.burst == (if l.cmd in BURST_COMMANDS && fits then t.burst + [raw] else t.burst)
            && u.burstBytes == (if l.cmd in BURST_COMMANDS && fits then t.burstBytes + |raw| else t.burstBytes)
            && u.welcomeIdx == (if l.cmd in BURST_COMMANDS && fits && l.cmd == "001" && t.welcomeIdx < 0
                                then |t.burst| else t.welcomeIdx)
  {}

  lemma TrackSelfKeepsBurst(t: Tracked, l: Line, attached: bool)
    ensures var u := TrackSelf(t, l, attached);
            && u.burst == t.burst && u.burstBytes == t.burstBytes && u.burstOpen == t.burstOpen
            && u.burstCovered == t.burstCovered && u.welcomeIdx == t.welcomeIdx
  {}

  /** Everything about the log that a new line leaves alone. */
  lemma OldEndsStay(log: seq<BufferedLine>, l: BufferedLine)
    ensures forall n :: 1 <= n <= |log| ==> Ends(log + [l], n) == Ends(log, n)
  {
    hide Ends;
    forall n | 1 <= n <= |log|
      ensures Ends(log + [l], n) == Ends(log, n)
    {
      EndsStable(log, l, n);
    }
  }

  /** While the recording is open, it holds the burst of the whole log. */
  lemma OpenBurst(t: Tracked, log: seq<BufferedLine>, line: BufferedLine)
    requires Recorded(t, log) && t.burstOpen
    ensures t.burst == BurstOf(log) && t.burstCovered == |log|
    ensures forall n :: 1 <= n <= |log| ==> !Ends(log + [line], n)
  {
    hide EndOfBurst, Bytes, BurstOf, FirstWelcome, OverCap;
    assert log[..|log|] == log;
    NothingIsUnderCap();
    OldEndsStay(log, line);
  }

  lemma NothingIsUnderCap()
    ensures !OverCap([])
  {}

  lemma LastEnds(log: seq<BufferedLine>, line: BufferedLine, l: Line)
    requires Parse(line.text) == Some(l)
    ensures var after, b := log + [line], BurstOf(log) + (if l.cmd in BURST_COMMANDS then [line.text] else []);
            && after[..|after|] == after && after[..|after| - 1] == log
            && BurstOf(after) == b
            && OverCap(after) == (Bytes(b) > MAX_BURST_BYTES)
            && Ends(after, |after|) == (EndOfBurst(l.cmd) || Bytes(b) > MAX_BURST_BYTES)
  {
    var after := log + [line];
    BurstOfPush(log, line);
    assert after[..|after|] == after && after[..|after| - 1] == log;
    assert CmdOf(line.text) == l.cmd;
    hide Parse, EndOfBurst, CmdOf, Bytes, BurstOf;
  }

  /** Recorded, for a log whose last line was tracked while the recording was open. */
  lemma RecordedThrough(u: Tracked, log: seq<BufferedLine>, after: seq<BufferedLine>)
    requires after != [] && after[..|after|] == after && after[..|after| - 1] == log
    requires u.burstCovered == |after| && (u.burstOpen <==> !Ends(after, |after|))
    requires forall n :: 1 <= n < |after| ==> !Ends(after, n)
    requires u.burst == if OverCap(after) then BurstOf(log) else BurstOf(after)
    requires u.burstBytes == Bytes(u.burst) <= MAX_BURST_BYTES && u.welcomeIdx == FirstWelcome(u.burst)
    ensures Recorded(u, after)
  {
    hide Ends, OverCap, BurstOf, Bytes, FirstWelcome;
  }

  lemma OpenParts(t: Tracked, log: seq<BufferedLine>)
    requires Recorded(t, log)
    ensures t.burstBytes == Bytes(t.burst) <= MAX_BURST_BYTES && t.welcomeIdx == FirstWelcome(t.burst)
  {
    hide Ends, OverCap, BurstOf, Bytes, FirstWelcome;
  }

  lemma TrackOpenBurst(t: Tracked, log: seq<BufferedLine>, line: BufferedLine, l: Line)
    requires Recorded(t, log) && t.burstOpen && Parse(line.text) == Some(l)
    ensures Recorded(TrackBurst(t, l, line.text, |log| + 1), log + [line])
  {
    hide *;
    var u, after := TrackBurst(t, l, line.text, |log| + 1), log + [line];
    CmdOfIs(line.text, l);
    OpenParts(t, log);
    OpenBurst(t, log, line);
    LastEnds(log, line, l);
    TrackBurstOpen(t, l, line.text, |log| + 1);
    BytesPush(t.burst, line.text);
    assert t.burst + [] == t.burst;
    RecordedThrough(u, log, after);
  }

  lemma CmdOfIs(raw: string, l: Line)
    requires Parse(raw) == Some(l)
    ensures CmdOf(raw) == l.cmd
  {
    hide Parse;
  }

  lemma TrackClosedBurst(t: Tracked, log: seq<BufferedLine>, line: BufferedLine, l: Line)
    requires Recorded(t, log) && !t.burstOpen && log != []
    ensures Recorded(TrackBurst(t, l, line.text, |log| + 1), log + [line])
  {
    var u := TrackBurst(t, l, line.text, |log| + 1);
    ClosedTrack(t, l, line.text, |log| + 1);
    hide TrackBurst, Recorded;
    RecordedLonger(t, u, log, line);
  }

  lemma ClosedTrack(t: Tracked, l: Line, raw: string, last: nat)
    requires !t.burstOpen
    ensures var u := TrackBurst(t, l, raw, last); u == t.(capLog := u.capLog, capLogBytes := u.capLogBytes)
  {
    hide ToUpper;
  }

  lemma RecordedLonger(t: Tracked, u: Tracked, log: seq<BufferedLine>, line: BufferedLine)
    requires Recorded(t, log) && !t.burstOpen && log != [] && u == t.(capLog := u.capLog, capLogBytes := u.capLogBytes)
    ensures Recorded(u, log + [line])
  {
    hide Bytes, BurstOf, FirstWelcome, Ends, OverCap;
    var c := t.burstCovered;
    OldEndsStay(log, line);
    assert (log + [line])[..c] == log[..c];
    assert (log + [line])[..c - 1] == log[..c - 1];
  }

  lemma TrackRecords(t: Tracked, log: seq<BufferedLine>, line: BufferedLine, l: Line, attached: bool)
    requires Recorded(t, log) && Parse(line.text) == Some(l) && (t.burstOpen || log != [])
    ensures Recorded(Track(t, l, line.text, |log| + 1, attached), log + [line])
  {
    hide TrackBurst, TrackSelf, Parse, Recorded;
    if t.burstOpen {
      TrackOpenBurst(t, log, line, l);
    } else {
      TrackClosedBurst(t, log, line, l);
    }
    var u := TrackBurst(t, l, line.text, |log| + 1);
    TrackSelfKeepsBurst(u, l, attached);
    RecordedSame(u, TrackSelf(u, l, attached), log + [line]);
  }

  lemma RecordedSame(t: Tracked, u: Tracked, log: seq<BufferedLine>)
    requires Recorded(t, log) && u.burst == t.burst && u.burstBytes == t.burstBytes && u.burstOpen == t.burstOpen
    requires u.burstCovered == t.burstCovered && u.welcomeIdx == t.welcomeIdx
    ensures Recorded(u, log)
  {
    hide Bytes, BurstOf, FirstWelcome, Ends, OverCap;
  }

  // --- Ourselves, by history ---

  /** Our nick and the folded names of the channels we are in. */
  datatype Self = Self(nick: string, folded: set<string>)

  function FoldSet(names: seq<string>): set<string> {
    set i | 0 <= i < |names| :: Fold(names[i])
  }

  /** Channel names as a JOIN lists them: "" and "0" name none. */
  function Joinable(names: seq<string>): set<string> {
    set i | 0 <= i < |names| && names[i] != "" && names[i] != "0" :: Fold(names[i])
  }

  /** The line is from us: its source has our nick, whatever the case. */
  predicate IsOurs(nick: string, l: Line) { nick != "" && l.nick != "" && Fold(nick) == Fold(l.nick) }

  function SelfStep(v: Self, l: Line): Self {
    match l.cmd
    case "001" => if l.Param(0) != "" then v.(nick := l.Param(0)) else v
    case "NICK" => if IsOurs(v.nick, l) && l.Param(0) != "" then v.(nick := l.Param(0)) else v
    case "JOIN" =>
      if IsOurs(v.nick, l) then v.(folded := v.folded + Joinable(Split(l.Param(0), ','))) else v
    case "PART" =>
      if IsOurs(v.nick, l) then v.(folded := v.folded - FoldSet(Split(l.Param(0), ','))) else v
    case "KICK" =>
      if v.nick != "" && Fold(l.Param(1)) == Fold(v.nick) then v.(folded := v.folded - {Fold(l.Param(0))}) else v
    case _ => v
  }

  function SelfOf(log: seq<BufferedLine>): Self {
    if log == [] then Self("", {})
    else
      var v := SelfOf(log[..|log| - 1]);
      match Parse(log[|log| - 1].text)
      case None => v
      case Some(l) => SelfStep(v, l)
  }

  predicate FoldDistinct(names: seq<string>) {
    forall i, j :: 0 <= i < j < |names| ==> Fold(names[i]) != Fold(names[j])
  }

  ghost predicate Known(t: Tracked, log: seq<BufferedLine>) {
    FoldDistinct(t.channels) && SelfOf(log) == Self(t.nick, FoldSet(t.channels))
  }

  lemma AddChannelSet(names: seq<string>, ch: string)
    requires FoldDistinct(names)
    ensures FoldDistinct(AddChannel(names, ch))
    ensures FoldSet(AddChannel(names, ch)) == FoldSet(names) + Joinable([ch])
  {
    var after := AddChannel(names, ch);
    assert Joinable([ch]) == if ch == "" || ch == "0" then {} else {Fold([ch][0])};
    if after != names {
      assert FoldSet(after) == FoldSet(names) + {Fold(ch)} by {
        assert forall i :: 0 <= i < |names| ==> after[i] == names[i];
        assert after[|names|] == ch;
      }
    }
  }

  lemma {:induction false} AddChannelsSet(names: seq<string>, chs: seq<string>)
    requires FoldDistinct(names)
    ensures FoldDistinct(AddChannels(names, chs))
    ensures FoldSet(AddChannels(names, chs)) == FoldSet(names) + Joinable(chs)
    decreases |chs|
  {
    if chs != [] {
      AddChannelSet(names, chs[0]);
      AddChannelsSet(AddChannel(names, chs[0]), chs[1..]);
      assert Joinable(chs) == Joinable([chs[0]]) + Joinable(chs[1..]) by {
        JoinableCons(chs);
      }
    }
  }

  lemma JoinableCons(chs: seq<string>)
    requires chs != []
    ensures Joinable(chs) == Joinable([chs[0]]) + Joinable(chs[1..])
    ensures FoldSet(chs) == {Fold(chs[0])} + FoldSet(chs[1..])
  {
    assert [chs[0]][0] == chs[0];
    assert forall i :: 1 <= i < |chs| ==> chs[i] == chs[1..][i - 1];
    assert forall i :: 0 <= i < |chs[1..]| ==> chs[1..][i] == chs[i + 1];
    forall f | f in Joinable([chs[0]]) + Joinable(chs[1..])
      ensures f in Joinable(chs)
    {
      if f in Joinable(chs[1..]) {
        var i :| 0 <= i < |chs[1..]| && chs[1..][i] != "" && chs[1..][i] != "0" && f == Fold(chs[1..][i]);
        assert chs[i + 1] == chs[1..][i];
      }
    }
    forall f | f in FoldSet(chs[1..])
      ensures f in FoldSet(chs)
    {
      var i :| 0 <= i < |chs[1..]| && f == Fold(chs[1..][i]);
      assert chs[i + 1] == chs[1..][i];
    }
  }

  lemma {:induction false} RemoveChannelSet(names: seq<string>, ch: string)
    requires FoldDistinct(names)
    ensures FoldDistinct(RemoveChannel(names, ch))
    ensures FoldSet(RemoveChannel(names, ch)) == FoldSet(names) - {Fold(ch)}
  {
    if names != [] {
      var rest := RemoveChannel(names[1..], ch);
      assert FoldDistinct(names[1..]);
      RemoveChannelSet(names[1..], ch);
      JoinableCons(names);
      assert Fold(names[0]) !in FoldSet(names[1..]);
      if Fold(names[0]) == Fold(ch) {
        assert RemoveChannel(names, ch) == rest;
      } else {
        var all := [names[0]] + rest;
        JoinableCons(all);
        assert all[1..] == rest;
        forall j | 1 <= j < |all|
          ensures Fold(all[0]) != Fold(all[j])
        {
          assert all[j] == rest[j - 1];
          assert Fold(rest[j - 1]) in FoldSet(rest);
        }
      }
    }
  }

  lemma {:induction false} RemoveChannelsSet(names: seq<string>, chs: seq<string>)
    requires FoldDistinct(names)
    ensures FoldDistinct(RemoveChannels(names, chs))
    ensures FoldSet(RemoveChannels(names, chs)) == FoldSet(names) - FoldSet(chs)
    decreases |chs|
  {
    if chs != [] {
      RemoveChannelSet(names, chs[0]);
      RemoveChannelsSet(RemoveChannel(names, chs[0]), chs[1..]);
      JoinableCons(chs);
    }
  }

  lemma TrackBurstKeepsSelf(t: Tracked, l: Line, raw: string, last: nat)
    ensures var u := TrackBurst(t, l, raw, last);
            u.nick == t.nick && u.channels == t.channels && u.registered == t.registered && u.unattended == t.unattended
  {}

  lemma TrackSelfFollows(t: Tracked, l: Line, attached: bool)
    requires FoldDistinct(t.channels)
    ensures var u := TrackSelf(t, l, attached);
            && FoldDistinct(u.channels)
            && SelfStep(Self(t.nick, FoldSet(t.channels)), l) == Self(u.nick, FoldSet(u.channels))
  {
    hide Fold, Split, FoldDistinct, FoldSet, Joinable, AddChannels, RemoveChannels, RemoveChannel;
    AddChannelsSet(t.channels, Split(l.Param(0), ','));
    RemoveChannelsSet(t.channels, Split(l.Param(0), ','));
    RemoveChannelSet(t.channels, l.Param(0));
  }

  lemma SelfOfPush(log: seq<BufferedLine>, line: BufferedLine, l: Line)
    requires Parse(line.text) == Some(l)
    ensures SelfOf(log + [line]) == SelfStep(SelfOf(log), l)
  {
    hide SelfStep, Parse;
    assert (log + [line])[..|log|] == log;
  }

  lemma TrackKnows(t: Tracked, log: seq<BufferedLine>, line: BufferedLine, l: Line, attached: bool)
    requires Known(t, log) && Parse(line.text) == Some(l)
    ensures Known(Track(t, l, line.text, |log| + 1, attached), log + [line])
  {
    var u := TrackBurst(t, l, line.text, |log| + 1);
    TrackBurstKeepsSelf(t, l, line.text, |log| + 1);
    TrackSelfFollows(u, l, attached);
    SelfOfPush(log, line, l);
    hide TrackBurst, TrackSelf, SelfStep, SelfOf, Parse, FoldSet, FoldDistinct;
  }

  // --- Whole runs ---

  ghost predicate ContentInv(r: Run) {
    && BurstInv(r) && Known(r.s.trk, r.log)
    && (r.s.conn.Open? ==> r.s.trk.burstOpen || r.log != [])
  }

  lemma {:induction false} ShedRunKeepsContent(r: Run)
    ensures ShedRun(r).s.trk == r.s.trk && ShedRun(r).log == r.log
    ensures ShedRun(r).s.conn == r.s.conn && ShedRun(r).s.last == r.s.last
    decreases |r.s.buf|
  {
    if Cost(r.s.buf) > r.cap && |r.s.buf| > 1 {
      ShedRunKeepsContent(DropOne(r));
    }
  }

  lemma SameContent(r: Run, t: Run)
    requires ContentInv(r) && t.log == r.log && t.s.last == r.s.last
    requires t.s.trk == r.s.trk.(unattended := t.s.trk.unattended)
    requires t.s.conn == r.s.conn || t.s.conn.Closed?
    ensures ContentInv(t)
  {
    hide Ends, OverCap, BurstOf, SelfOf, FoldSet, FoldDistinct, Bytes, FirstWelcome;
  }

  lemma StepKeepsContent(r: Run, step: Step)
    requires ContentInv(r) && Enabled(r, step)
    ensures ContentInv(Next(r, step))
  {
    hide ContentInv, Next, Enabled;
    match step
    case Dial => DialKeepsContent(r);
    case Receive(raw, at) => ReceiveKeepsContent(r, raw, at);
    case _ =>
      OthersKeepTrack(r, step);
      SameContent(r, Next(r, step));
  }

  lemma DialKeepsContent(r: Run)
    requires ContentInv(r)
    ensures ContentInv(Next(r, Dial))
  {
    hide SelfOf, FoldSet, FoldDistinct, Bytes, FirstWelcome, Ends, OverCap, BurstOf;
  }

  lemma OthersKeepTrack(r: Run, step: Step)
    requires Enabled(r, step) && !step.Dial? && !step.Receive?
    ensures var t := Next(r, step);
            && t.log == r.log && t.s.last == r.s.last
            && t.s.trk == r.s.trk.(unattended := t.s.trk.unattended)
            && (t.s.conn == r.s.conn || t.s.conn.Closed?)
  {
    hide ReplayBurst, PullFrames, Above, SentAfter, ClosesNow, Reusable, Recent;
  }

  lemma ReceiveKeepsContent(r: Run, raw: string, at: int)
    requires ContentInv(r) && Enabled(r, Receive(raw, at))
    ensures ContentInv(Next(r, Receive(raw, at)))
  {
    ReceiveIs(r, raw, at);
    hide Recorded, Known, Track, Parse, Classify, Next, Enabled, ShedRun, Appended, ContentInv;
    var c := Classify(raw);
    if c.Relayed? && r.s.conn.Open? {
      var a := Appended(r, c.line, raw, at);
      RelayedParses(raw);
      AppendKeepsContent(r, c.line, raw, at);
      ShedRunKeepsContent(a);
      SameContent(a, ShedRun(a));
    }
  }

  lemma ReceiveIs(r: Run, raw: string, at: int)
    requires Enabled(r, Receive(raw, at))
    ensures var c := Classify(raw);
            Next(r, Receive(raw, at)) ==
              if c.Relayed? && r.s.conn.Open? then ShedRun(Appended(r, c.line, raw, at)) else r
  {
    hide Classify, ShedRun, Appended;
  }

  lemma RelayedParses(raw: string)
    ensures Classify(raw).Relayed? ==> Parse(raw) == Some(Classify(raw).line)
  {
    hide Parse, TrimBlanks, ToUpper;
  }

  lemma AppendKeepsContent(r: Run, l: Line, raw: string, at: int)
    requires ContentInv(r) && r.s.conn.Open? && Parse(raw) == Some(l)
    ensures ContentInv(Appended(r, l, raw, at))
  {
    hide *;
    var line := BufferedLine(r.s.last + 1, at, raw);
    var a := Appended(r, l, raw, at);
    ContentParts(r);
    AppendedIs(r, l, raw, at);
    TrackContent(r.s.trk, r.log, line, l, r.s.last + 1, r.s.link.Some?, a.s.trk, a.log);
    ContentFrom(a);
  }

  lemma TrackContent(t: Tracked, log: seq<BufferedLine>, line: BufferedLine, l: Line, n: nat, attached: bool,
                     u: Tracked, longer: seq<BufferedLine>)
    requires Recorded(t, log) && Known(t, log) && Parse(line.text) == Some(l) && (t.burstOpen || log != [])
    requires n == |log| + 1 && u == Track(t, l, line.text, n, attached) && longer == log + [line]
    ensures Recorded(u, longer) && Known(u, longer)
  {
    hide *;
    TrackRecords(t, log, line, l, attached);
    TrackKnows(t, log, line, l, attached);
  }

  lemma ContentParts(r: Run)
    requires ContentInv(r)
    ensures |r.log| == r.s.last && Recorded(r.s.trk, r.log) && Known(r.s.trk, r.log)
    ensures r.s.conn.Open? ==> r.s.trk.burstOpen || r.log != []
  {
    hide Recorded, Known;
  }

  lemma AppendedIs(r: Run, l: Line, raw: string, at: int)
    ensures var a := Appended(r, l, raw, at);
            && a.log == r.log + [BufferedLine(r.s.last + 1, at, raw)] && a.s.last == r.s.last + 1
              && a.s.conn == r.s.conn
            && a.s.trk == Track(r.s.trk, l, raw, r.s.last + 1, r.s.link.Some?)
  {
    hide Track;
  }

  lemma ContentFrom(a: Run)
    requires |a.log| == a.s.last > 0 && a.s.conn.Open? && Recorded(a.s.trk, a.log) && Known(a.s.trk, a.log)
    ensures ContentInv(a)
  {
    hide Recorded, Known;
  }

  lemma {:induction false} RunKeepsContent(r: Run, steps: seq<Step>)
    requires ContentInv(r) && Possible(r, steps)
    ensures ContentInv(Execute(r, steps))
    decreases |steps|
  {
    if steps != [] {
      StepKeepsContent(r, steps[0]);
      RunKeepsContent(Next(r, steps[0]), steps[1..]);
    }
  }

  /** The lines up to burstCovered are those through the first one that ends the
      recording, or all of them while none has. Within the 64 KiB cap the burst is
      exactly their burst commands; past it, the line that tripped the cap, and only
      that one, is covered but not recorded. welcomeIdx is the burst's first 001. */
  lemma BurstIsTheFilter(cap: nat, link: Link, handle: string, steps: seq<Step>)
    requires Possible(Init(cap, link, handle), steps)
    ensures var r := Outcome(cap, link, handle, steps);
            var t, c := r.s.trk, r.s.trk.burstCovered;
            && c <= |r.log|
            && (r.log != [] ==> c >= 1 && (c == |r.log| || Ends(r.log, c)) && (t.burstOpen <==> !Ends(r.log, c)))
            && (forall n :: 1 <= n < c ==> !Ends(r.log, n))
            && t.burst == (if OverCap(r.log[..c]) then BurstOf(r.log[..c - 1]) else BurstOf(r.log[..c]))
            && Bytes(t.burst) <= MAX_BURST_BYTES
            && t.welcomeIdx == FirstWelcome(t.burst)
  {
    hide *;
    InitContent(cap, link, handle);
    RunKeepsContent(Init(cap, link, handle), steps);
    OutcomeIs(cap, link, handle, steps);
    RecordedOf(Outcome(cap, link, handle, steps));
  }

  lemma InitContent(cap: nat, link: Link, handle: string)
    ensures ContentInv(Init(cap, link, handle))
  {
    var r := Init(cap, link, handle);
    assert r.log[..0] == [] && r.log == [];
  }

  lemma OutcomeIs(cap: nat, link: Link, handle: string, steps: seq<Step>)
    requires Possible(Init(cap, link, handle), steps)
    ensures Outcome(cap, link, handle, steps) == Execute(Init(cap, link, handle), steps)
  {}

  lemma RecordedOf(r: Run)
    requires ContentInv(r)
    ensures var t, c := r.s.trk, r.s.trk.burstCovered;
            && c <= |r.log|
            && (r.log != [] ==> c >= 1 && (c == |r.log| || Ends(r.log, c)) && (t.burstOpen <==> !Ends(r.log, c)))
            && (forall n :: 1 <= n < c ==> !Ends(r.log, n))
            && t.burst == (if OverCap(r.log[..c]) then BurstOf(r.log[..c - 1]) else BurstOf(r.log[..c]))
            && Bytes(t.burst) <= MAX_BURST_BYTES
            && t.welcomeIdx == FirstWelcome(t.burst)
  {
    hide Ends, OverCap, BurstOf, Known, Bytes, FirstWelcome;
    CapNeedsALine(r.log[..r.s.trk.burstCovered]);
  }

  /** The nick and the channels are those our own 001, NICK, JOIN, PART and KICK
      lines make of them, and no channel is held under two spellings. */
  lemma ChannelsAreOurHistory(cap: nat, link: Link, handle: string, steps: seq<Step>)
    requires Possible(Init(cap, link, handle), steps)
    ensures var r := Outcome(cap, link, handle, steps);
            && FoldDistinct(r.s.trk.channels)
            && FoldSet(r.s.trk.channels) == SelfOf(r.log).folded
            && r.s.trk.nick == SelfOf(r.log).nick
  {
    hide *;
    InitContent(cap, link, handle);
    RunKeepsContent(Init(cap, link, handle), steps);
    OutcomeIs(cap, link, handle, steps);
    KnownOf(Outcome(cap, link, handle, steps));
  }

  lemma KnownOf(r: Run)
    requires ContentInv(r)
    ensures FoldDistinct(r.s.trk.channels) && FoldSet(r.s.trk.channels) == SelfOf(r.log).folded
    ensures r.s.trk.nick == SelfOf(r.log).nick
  {
    hide BurstInv, FoldDistinct, FoldSet, SelfOf;
  }

  lemma {:induction false} FirstWelcomeIs(lines: seq<string>)
    ensures var i := FirstWelcome(lines);
            && -1 <= i < |lines|
            && (i >= 0 ==> CmdOf(lines[i]) == "001")
            && (forall j :: 0 <= j < (if i >= 0 then i else |lines|) ==> CmdOf(lines[j]) != "001")
  {
    hide CmdOf;
    if lines != [] {
      var init := lines[..|lines| - 1];
      FirstWelcomeIs(init);
      assert forall j :: 0 <= j < |init| ==> init[j] == lines[j];
    }
  }

  // --- Capability changes, by history ---

  predicate CapChange(text: string) {
    match Parse(text)
    case None => false
    case Some(l) => l.cmd == "CAP" && ToUpper(l.Param(1)) in {"ACK", "DEL"}
  }

  /** The capability changes behind line c, each that still fits in 16 KiB. */
  function CapsOf(log: seq<BufferedLine>, c: nat): seq<string> {
    if |log| <= c then []
    else
      var before, text := CapsOf(log[..|log| - 1], c), log[|log| - 1].text;
      before + (if CapChange(text) && Bytes(before) + |text| <= 0x4000 then [text] else [])
  }

  ghost predicate CapsKnown(t: Tracked, log: seq<BufferedLine>) {
    t.capLog == CapsOf(log, t.burstCovered) && t.capLogBytes == Bytes(t.capLog)
  }

  lemma CapsOfPush(log: seq<BufferedLine>, line: BufferedLine, c: nat)
    ensures var now := if CapChange(line.text)
      && Bytes(CapsOf(log, c)) + |line.text| <= 0x4000 then [line.text] else [];
      |log| >= c ==> CapsOf(log + [line], c) == CapsOf(log, c) + now
    ensures |log| < c ==> CapsOf(log + [line], c) == []
  {
    hide CapChange, Bytes;
    assert (log + [line])[..|log|] == log;
  }

  lemma TrackSelfKeepsCaps(t: Tracked, l: Line, attached: bool)
    ensures var u := TrackSelf(t, l, attached);
      u.capLog == t.capLog && u.capLogBytes == t.capLogBytes && u.burstCovered == t.burstCovered
  {
    hide FromSelf, AddChannels, RemoveChannels, RemoveChannel, Fold, Split;
  }

  lemma TrackBurstCaps(t: Tracked, l: Line, raw: string, last: nat)
    ensures var u := TrackBurst(t, l, raw, last);
      && (t.burstOpen ==> u.capLog == t.capLog && u.capLogBytes == t.capLogBytes && u.burstCovered == last)
      && (!t.burstOpen ==>
            && u.burstCovered == t.burstCovered
            && var takes := l.cmd == "CAP" && ToUpper(l.Param(1)) in {"ACK", "DEL"} && t.capLogBytes + |raw| <= 0x4000;
            && u.capLog == (if takes then t.capLog + [raw] else t.capLog)
            && u.capLogBytes == (if takes then t.capLogBytes + |raw| else t.capLogBytes))
  {
    hide ToUpper;
  }

  lemma TrackCaps(t: Tracked, log: seq<BufferedLine>, line: BufferedLine, l: Line, attached: bool)
    requires CapsKnown(t, log) && Parse(line.text) == Some(l)
    requires if t.burstOpen then t.burstCovered == |log| else t.burstCovered <= |log|
    ensures CapsKnown(Track(t, l, line.text, |log| + 1, attached), log + [line])
  {
    hide TrackBurst, TrackSelf, Parse, CapsOf;
    var u := TrackBurst(t, l, line.text, |log| + 1);
    TrackBurstCaps(t, l, line.text, |log| + 1);
    TrackSelfKeepsCaps(u, l, attached);
    CapsOfPush(log, line, t.burstCovered);
    NoCaps(log, t.burstCovered);
    NoCaps(log + [line], |log| + 1);
    BytesPush(t.capLog, line.text);
    hide CapChange, ToUpper, Bytes, FirstWelcome;
    assert CapChange(line.text) <==> l.cmd == "CAP" && ToUpper(l.Param(1)) in {"ACK", "DEL"}
      by { ChangeIs(line.text, l); }
    assert t.capLog + [] == t.capLog;
  }

  lemma NoCaps(log: seq<BufferedLine>, c: nat)
    ensures |log| <= c ==> CapsOf(log, c) == []
  {}

  lemma ChangeIs(text: string, l: Line)
    requires Parse(text) == Some(l)
    ensures CapChange(text) <==> l.cmd == "CAP" && ToUpper(l.Param(1)) in {"ACK", "DEL"}
  {
    hide Parse, ToUpper;
  }

  lemma CoveredParts(r: Run)
    requires ContentInv(r)
    ensures r.s.trk.burstCovered <= |r.log| == r.s.last
    ensures r.s.trk.burstOpen ==> r.s.trk.burstCovered == |r.log|
  {
    hide Ends, OverCap, BurstOf, Known, Bytes, FirstWelcome;
  }

  lemma StepKeepsCaps(r: Run, step: Step)
    requires ContentInv(r) && CapsKnown(r.s.trk, r.log) && Enabled(r, step)
    ensures CapsKnown(Next(r, step).s.trk, Next(r, step).log)
  {
    CoveredParts(r);
    hide ContentInv, CapsOf;
    match step
    case Dial =>
    case Receive(raw, at) =>
      ReceiveIs(r, raw, at);
      RelayedParses(raw);
      hide Next, Parse, Classify, Track, ShedRun, Appended, CapsKnown;
      var c := Classify(raw);
      if c.Relayed? && r.s.conn.Open? {
        var a := Appended(r, c.line, raw, at);
        AppendedIs(r, c.line, raw, at);
        TrackCaps(r.s.trk, r.log, BufferedLine(r.s.last + 1, at, raw), c.line, r.s.link.Some?);
        ShedRunKeepsContent(a);
      }
    case _ => OthersKeepTrack(r, step); hide Next, Enabled;
  }

  // --- The welcome, by history ---

  /** The step brings a 001 to the app. */
  predicate Welcomes(c: ConnState, step: Step) {
    step.Receive? && c == Open && ForTheApp(step.raw) && CmdOf(step.raw) == "001"
  }

  /** The first 001 came while no link held the session, and no claim came since. */
  predicate AloneSince(c: ConnState, holder: Option<Link>, steps: seq<Step>)
    decreases |steps|
  {
    steps != [] &&
    if Welcomes(c, steps[0]) then holder == None && ClaimsIn(steps[1..]) == []
    else AloneSince(ConnNext(c, steps[0]), HolderNext(holder, steps[0]), steps[1..])
  }

  /** Some step of the run brings a 001. */
  predicate Welcomed(c: ConnState, steps: seq<Step>)
    decreases |steps|
  {
    steps != [] && (Welcomes(c, steps[0]) || Welcomed(ConnNext(c, steps[0]), steps[1..]))
  }

  lemma TrackWelcome(t: Tracked, l: Line, raw: string, last: nat, attached: bool)
    ensures var u := Track(t, l, raw, last, attached);
      && u.registered == (t.registered || l.cmd == "001")
      && u.unattended == if !t.registered && l.cmd == "001" then !attached else t.unattended
  {
    TrackBurstKeepsSelf(t, l, raw, last);
    hide TrackBurst, FromSelf, AddChannels, RemoveChannels, RemoveChannel, Fold, Split;
  }

  lemma WelcomeNext(r: Run, step: Step)
    requires Enabled(r, step)
    ensures var t := Next(r, step);
      && t.s.trk.registered == (r.s.trk.registered || Welcomes(r.s.conn, step))
      && t.s.trk.unattended ==
           (if step.Claim? then false
            else if !r.s.trk.registered && Welcomes(r.s.conn, step) then r.s.link == None else r.s.trk.unattended)
  {
    match step
    case Receive(raw, at) => WelcomeReceived(r, raw, at);
    case _ => hide ReplayBurst, Above, Recent, SentAfter, ClosesNow, Batch, Reusable, CmdOf, ForTheApp;
  }

  lemma WelcomeReceived(r: Run, raw: string, at: int)
    requires Enabled(r, Receive(raw, at))
    ensures var t, now := Next(r, Receive(raw, at)).s.trk, Welcomes(r.s.conn, Receive(raw, at));
      && t.registered == (r.s.trk.registered || now)
      && t.unattended == if !r.s.trk.registered && now then r.s.link == None else r.s.trk.unattended
  {
    ReceiveIs(r, raw, at);
    RelayedParses(raw);
    TakesIff(raw);
    hide Next, Parse, Classify, Track, ShedRun, Appended, ForTheApp;
    var c := Classify(raw);
    if c.Relayed? && r.s.conn.Open? {
      AppendedIs(r, c.line, raw, at);
      TrackWelcome(r.s.trk, c.line, raw, r.s.last + 1, r.s.link.Some?);
      ShedRunKeepsContent(Appended(r, c.line, raw, at));
    }
  }

  lemma {:induction false} AttendedIsHistory(r: Run, steps: seq<Step>)
    requires Possible(r, steps) && |r.log| == r.s.last
    requires !r.s.trk.registered ==> !r.s.trk.unattended
    ensures Execute(r, steps).s.trk.registered == (r.s.trk.registered || Welcomed(r.s.conn, steps))
    ensures var t := Execute(r, steps).s.trk;
      t.unattended == if r.s.trk.registered then r.s.trk.unattended && ClaimsIn(steps) == []
                      else AloneSince(r.s.conn, r.s.link, steps)
    decreases |steps|
  {
    hide Next, Enabled, Welcomes, ConnNext, HolderNext, Stamped, Came;
    if steps != [] {
      WelcomeNext(r, steps[0]);
      SocketNext(r, steps[0]);
      ClaimsNext(r, steps[0]);
      ClaimIsReusable(r, steps[0]);
      AttendedIsHistory(Next(r, steps[0]), steps[1..]);
    }
  }

  /** A session that is claimed again has registered, and a claim brings no line. */
  lemma ClaimIsReusable(r: Run, step: Step)
    requires Enabled(r, step)
    ensures step.Claim? ==> r.s.trk.registered && !Welcomes(r.s.conn, step)
  {}

  lemma {:induction false} RunKeepsCaps(r: Run, steps: seq<Step>)
    requires ContentInv(r) && CapsKnown(r.s.trk, r.log) && Possible(r, steps)
    ensures CapsKnown(Execute(r, steps).s.trk, Execute(r, steps).log)
    decreases |steps|
  {
    hide ContentInv, CapsKnown, Next, Enabled;
    if steps != [] {
      StepKeepsContent(r, steps[0]);
      StepKeepsCaps(r, steps[0]);
      RunKeepsCaps(Next(r, steps[0]), steps[1..]);
    }
  }

  /** The capability changes kept are those behind the burst; whether the session
      registered with nobody there is what its history says. */
  lemma CapsAndAttendance(cap: nat, link: Link, handle: string, steps: seq<Step>)
    requires Possible(Init(cap, link, handle), steps)
    ensures var r := Outcome(cap, link, handle, steps);
      && r.s.trk.capLog == CapsOf(r.log, r.s.trk.burstCovered)
      && r.s.trk.registered == Welcomed(Dialing, steps)
      && r.s.trk.unattended == AloneSince(Dialing, Some(link), steps)
  {
    hide Possible, Execute, CapsOf, AloneSince, Welcomed;
    InitContent(cap, link, handle);
    OutcomeIs(cap, link, handle, steps);
    assert CapsKnown(Init(cap, link, handle).s.trk, Init(cap, link, handle).log) by { NoCaps([], 0); }
    RunKeepsCaps(Init(cap, link, handle), steps);
    AttendedIsHistory(Init(cap, link, handle), steps);
  }

  /** What a claim announces: the burst line for line, its first 001 re-addressed to
      the nick we have now, then the capability changes since; our nick and channels
      by history; whether we registered with nobody there; and as backlog exactly the
      lines it will be handed, those behind what was acked or is replayed. */
  lemma ClaimAnnouncesTheSocket(cap: nat, link: Link, handle: string, steps: seq<Step>, l: Link, h: string)
    requires Possible(Init(cap, link, handle), steps)
    requires Enabled(Outcome(cap, link, handle, steps), Claim(l, h))
    ensures var r := Outcome(cap, link, handle, steps);
            var t, w := Next(r, Claim(l, h)), FirstWelcome(r.s.trk.burst);
            && 0 <= w < |r.s.trk.burst|
            && |t.s.ctrl| == 1 && t.s.ctrl[0].Attached?
            && var f := t.s.ctrl[0];
            && |f.replay| == |r.s.trk.burst| + |r.s.trk.capLog|
            && (forall i :: 0 <= i < |r.s.trk.burst| && i != w ==> f.replay[i] == r.s.trk.burst[i])
            && f.replay[w] == (if f.nick == "" then r.s.trk.burst[w] else RewriteTarget(r.s.trk.burst[w], f.nick))
            && f.replay[|r.s.trk.burst|..] == r.s.trk.capLog
            && f.nick == SelfOf(r.log).nick && FoldSet(f.channels) == SelfOf(r.log).folded
            && r.s.trk.capLog == CapsOf(r.log, r.s.trk.burstCovered)
            && f.unattended == AloneSince(Dialing, Some(link), steps)
            && f.backlog == |Above(t.s.buf, t.s.sent)| && f.lost == r.s.lost
            && h in t.start && t.start[h] == t.s.sent == Max(r.s.acked, r.s.trk.burstCovered)
            && t.s.buf == r.s.buf && t.s.last == r.s.last && t.s.acked == r.s.acked && t.s.lost == 0
  {
    var r := Outcome(cap, link, handle, steps);
    CapsAndAttendance(cap, link, handle, steps);
    hide CapsOf, AloneSince;
    BurstIsTheFilter(cap, link, handle, steps);
    ChannelsAreOurHistory(cap, link, handle, steps);
    FirstWelcomeIs(r.s.trk.burst);
    hide FirstWelcome, SelfOf, FoldSet, RewriteTarget, BurstOf, Ends, OverCap, Outcome;
  }
}
