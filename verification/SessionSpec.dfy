/** internal/engine/session.go as functions on values: what each operation of a
    held IRC socket does to its state. The class in Session.dfy implements them,
    SessionRun.dfy proves what they keep over whole runs. */
module SessionSpec {
  import opened GoStrings
  import opened IrcLine
  import opened Buffer

  /** One stugan process's connection to the engine, by number. */
  type Link = nat

  datatype ConnState = Dialing | Open | Closed

  /** The frames the engine writes to a link about one session. */
  datatype Frame =
    | Opened(handle: string)
    | Attached(handle: string, replay: seq<string>, nick: string, channels: seq<string>,
               unattended: bool, backlog: nat, lost: nat)
    | LineFrame(handle: string, id: nat, at: int, text: string)
    | ClosedFrame(handle: string, error: string)

  const MAX_LINE_BYTES: nat := 0x4000
  const MAX_BURST_BYTES: nat := 0x1_0000
  const MAX_CAP_LOG_BYTES: nat := 0x4000
  const RECENT_HANDLES: nat := 8
  const PROBE_TOKEN := "stugan-engine-probe"

  /** The little IRC state a replay is built from. */
  datatype Tracked = Tracked(
    registered: bool, unattended: bool,
    burst: seq<string>, burstBytes: nat, burstOpen: bool, burstCovered: nat, welcomeIdx: int,
    nick: string, channels: seq<string>, capLog: seq<string>, capLogBytes: nat)

  const NOTHING_TRACKED := Tracked(false, false, [], 0, false, 0, -1, "", [], [], 0)

  datatype State = State(
    conn: ConnState, closeErr: string, link: Option<Link>, handle: string, handles: seq<string>,
    buf: seq<BufferedLine>, last: nat, acked: nat, sent: nat, everSent: nat, lost: nat,
    ctrl: seq<Frame>, finished: bool, trk: Tracked)

  function Max(a: int, b: int): int { if a < b then b else a }

  function New(link: Link, handle: string): State {
    State(Dialing, "", Some(link), handle, [handle], [], 0, 0, 0, 0, 0, [], false, NOTHING_TRACKED)
  }

  // --- Inbound lines ---

  datatype Inbound = Dropped | Answered(reply: string) | Relayed(line: Line)

  /** What becomes of one line off the socket. */
  function Classify(raw: string): Inbound {
    match Parse(raw)
    case None => Dropped
    case Some(l) =>
      if |TrimBlanks(raw)| < 2 then Dropped
      else if l.cmd == "PING" then Answered("PONG :" + l.Last())
      else if l.cmd == "PONG" && l.Last() == PROBE_TOKEN then Dropped
      else Relayed(l)
  }

  /** track's first half: the burst recorded for replay, then the CAP changes. */
  function TrackBurst(t: Tracked, l: Line, raw: string, last: nat): Tracked {
    if t.burstOpen then
      var u := t.(burstCovered := last);
      var v :=
        if l.cmd !in BURST_COMMANDS then u
        else if u.burstBytes + |raw| > MAX_BURST_BYTES then u.(burstOpen := false)
        else u.(burst := u.burst + [raw], burstBytes := u.burstBytes + |raw|,
                welcomeIdx := if l.cmd == "001" && u.welcomeIdx < 0 then |u.burst| else u.welcomeIdx);
      if EndOfBurst(l.cmd) then v.(burstOpen := false) else v
    else if l.cmd == "CAP" && (ToUpper(l.Param(1)) == "ACK" || ToUpper(l.Param(1)) == "DEL")
         && t.capLogBytes + |raw| <= MAX_CAP_LOG_BYTES then
      t.(capLog := t.capLog + [raw], capLogBytes := t.capLogBytes + |raw|)
    else t
  }

  predicate FromSelf(nick: string, l: Line) {
    nick != "" && l.nick != "" && Fold(l.nick) == Fold(nick)
  }

  predicate HasFold(channels: seq<string>, f: string) {
    exists i :: 0 <= i < |channels| && Fold(channels[i]) == f
  }

  function AddChannel(channels: seq<string>, ch: string): seq<string> {
    if ch == "" || ch == "0" || HasFold(channels, Fold(ch)) then channels else channels + [ch]
  }

  function RemoveChannel(channels: seq<string>, ch: string): seq<string> {
    if channels == [] then []
    else (if Fold(channels[0]) == Fold(ch) then [] else [channels[0]]) + RemoveChannel(channels[1..], ch)
  }

  function AddChannels(channels: seq<string>, names: seq<string>): seq<string>
    decreases |names|
  {
    if names == [] then channels else AddChannels(AddChannel(channels, names[0]), names[1..])
  }

  function RemoveChannels(channels: seq<string>, names: seq<string>): seq<string>
    decreases |names|
  {
    if names == [] then channels else RemoveChannels(RemoveChannel(channels, names[0]), names[1..])
  }

  /** track's second half: registration, our nick, our channels. */
  function TrackSelf(t: Tracked, l: Line, attached: bool): Tracked {
    if l.cmd == "001" then
      var u := if t.registered then t else t.(registered := true, unattended := !attached);
      if l.Param(0) != "" then u.(nick := l.Param(0)) else u
    else if l.cmd == "NICK" then
      if FromSelf(t.nick, l) && l.Param(0) != "" then t.(nick := l.Param(0)) else t
    else if l.cmd == "JOIN" then
      if FromSelf(t.nick, l) then t.(channels := AddChannels(t.channels, Split(l.Param(0), ','))) else t
    else if l.cmd == "PART" then
      if FromSelf(t.nick, l) then t.(channels := RemoveChannels(t.channels, Split(l.Param(0), ','))) else t
    else if l.cmd == "KICK" then
      if t.nick != "" && Fold(l.Param(1)) == Fold(t.nick)
      then t.(channels := RemoveChannel(t.channels, l.Param(0))) else t
    else t
  }

  function Track(t: Tracked, l: Line, raw: string, last: nat, attached: bool): Tracked {
    TrackSelf(TrackBurst(t, l, raw, last), l, attached)
  }

  // --- Shedding ---

  /** dropOldestLocked. */
  function DropOldest(s: State): State {
    if s.buf == [] then s
    else s.(buf := s.buf[1..], lost := if s.buf[0].id > s.everSent then s.lost + 1 else s.lost)
  }

  /** ingest's loop: oldest lines go until the backlog fits, but never the last. */
  function ShedOver(s: State, cap: nat): State
    decreases |s.buf|
  {
    if Cost(s.buf) > cap && |s.buf| > 1 then ShedOver(DropOldest(s), cap) else s
  }

  /** shedOldest, the global budget's hook. */
  function ShedOldest(s: State): State {
    if |s.buf| <= 1 then s else DropOldest(s)
  }

  function Append(s: State, l: Line, raw: string, at: int): State {
    s.(last := s.last + 1,
       buf := s.buf + [BufferedLine(s.last + 1, at, raw)],
       trk := Track(s.trk, l, raw, s.last + 1, s.link.Some?))
  }

  function Ingest(s: State, raw: string, at: int, cap: nat): State {
    match Classify(raw)
    case Relayed(l) => if s.conn.Open? then ShedOver(Append(s, l, raw, at), cap) else s
    case _ => s
  }

  // --- Claims ---

  predicate Reusable(s: State) {
    s.conn.Open? && s.trk.registered && s.trk.welcomeIdx >= 0
  }

  /** The recorded burst, its 001 addressed to the nick we have now. */
  function ReplayBurst(t: Tracked): seq<string> {
    if 0 <= t.welcomeIdx < |t.burst| && t.nick != ""
    then t.burst[t.welcomeIdx := RewriteTarget(t.burst[t.welcomeIdx], t.nick)]
    else t.burst
  }

  function Recent(handles: seq<string>): seq<string> {
    if |handles| > RECENT_HANDLES then handles[|handles| - RECENT_HANDLES..] else handles
  }

  /** attachLocked. */
  function Attach(s: State, link: Link, handle: string): State {
    var sent := Max(s.acked, s.trk.burstCovered);
    s.(link := Some(link), handle := handle, handles := Recent(s.handles + [handle]), sent := sent,
       ctrl := [Attached(handle, ReplayBurst(s.trk) + s.trk.capLog, s.trk.nick, s.trk.channels,
                         s.trk.unattended, |Above(s.buf, sent)|, s.lost)],
       lost := 0, trk := s.trk.(unattended := false))
  }

  /** detachLocked. */
  function Detach(s: State, link: Link): State {
    if s.link == Some(link) then s.(link := None, ctrl := []) else s
  }

  function LineFrames(handle: string, lines: seq<BufferedLine>): (fs: seq<Frame>)
    ensures |fs| == |lines|
    ensures forall i :: 0 <= i < |lines| ==> fs[i] == LineFrame(handle, lines[i].id, lines[i].at, lines[i].text)
  {
    seq(|lines|, i requires 0 <= i < |lines| => LineFrame(handle, lines[i].id, lines[i].at, lines[i].text))
  }

  /** The lines one pull hands out. */
  function Batch(s: State, limit: nat): seq<BufferedLine> {
    var all := Above(s.buf, s.sent);
    if s.conn.Dialing? then [] else all[..if |all| < limit then |all| else limit]
  }

  function SentAfter(s: State, limit: nat): nat {
    var b := Batch(s, limit);
    if b == [] then s.sent else b[|b| - 1].id
  }

  predicate ClosesNow(s: State, limit: nat) {
    s.conn.Closed? && !s.finished && Above(s.buf, SentAfter(s, limit)) == []
  }

  /** What pull returns to the link that holds the session. */
  function PullFrames(s: State, limit: nat): seq<Frame> {
    s.ctrl + LineFrames(s.handle, Batch(s, limit))
      + (if ClosesNow(s, limit) then [ClosedFrame(s.handle, s.closeErr)] else [])
  }

  /** pull, for the link that holds the session. */
  function Pull(s: State, limit: nat): State {
    var sent := SentAfter(s, limit);
    s.(ctrl := [], sent := sent,
       everSent := if s.conn.Dialing? then s.everSent else Max(s.everSent, sent),
       finished := s.finished || ClosesNow(s, limit))
  }

  /** ack: ignored unless it names a recent claim and moves forward. */
  predicate AckCounts(s: State, handle: string, n: nat) {
    handle in s.handles && s.acked < n <= s.last
  }

  function Ack(s: State, handle: string, n: nat): State {
    if AckCounts(s, handle, n) then s.(buf := Above(s.buf, n), acked := n) else s
  }

  // --- The socket's life ---

  /** dial, when it connected. */
  function DialOk(s: State): State {
    if s.conn.Dialing?
    then s.(conn := Open, trk := s.trk.(burstOpen := true), ctrl := s.ctrl + [Opened(s.handle)])
    else s
  }

  /** dial, when it failed; shutdown does the same to an open socket. */
  function Shutdown(s: State, reason: string): State {
    if s.conn.Closed? then s else s.(conn := Closed, closeErr := reason)
  }

  /** handleClose's part under the session lock. */
  predicate CloseAllowed(s: State, handle: string, link: Link) {
    s.handle == handle && (s.link == None || s.link == Some(link))
  }

  function RequestClose(s: State, link: Link): State {
    Detach(s, link).(finished := true)
  }
}
