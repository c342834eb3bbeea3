/** internal/engine/session.go: lines off a socket that hands over its bytes in slices
    of its own choosing. */
module LineReading {
  import opened GoStrings

  /** What one ReadSlice('\n') returns: bytes that end at their one newline, a full
      buffer without one, or what was there when the read failed. */
  datatype Slice =
    | Terminated(bytes: string)
    | Full(bytes: string)
    | Cut(bytes: string, timeout: bool)

  predicate Genuine(s: Slice) {
    match s
    case Terminated(b) => b != "" && b[|b| - 1] == '\n' && '\n' !in b[..|b| - 1]
    case _ => '\n' !in s.bytes
  }

  ghost predicate AllGenuine(slices: seq<Slice>) { forall s :: s in slices ==> Genuine(s) }

  function Bytes(slices: seq<Slice>): string {
    if slices == [] then "" else slices[0].bytes + Bytes(slices[1..])
  }

  /** What a stream of bytes holds: its lines up to the first that is too long, and
      whether there is none such. A line counts with its newline, an unfinished one as
      far as it goes. */
  datatype Framing = Framing(lines: seq<string>, fits: bool)

  function Frame(stream: string, limit: nat): Framing
    decreases |stream|
  {
    var i := IndexByte(stream, '\n');
    if i < 0 then Framing([], |stream| <= limit + 2)
    else if i + 1 > limit + 2 then Framing([], false)
    else
      var more := Frame(stream[i + 1..], limit);
      Framing([TrimRight(stream[..i + 1], "\r\n")] + more.lines, more.fits)
  }

  // --- next, as a function ---

  datatype Outcome = Line(line: string) | TooLong | ReadError(timeout: bool) | Starved

  datatype Reader = Reader(partial: string, rest: seq<Slice>)

  /** lineReader.next: the reader afterwards. */
  function Advance(r: Reader, limit: nat): (next: Reader)
    ensures r.rest != [] ==> |next.rest| < |r.rest|
    decreases |r.rest|
  {
    if r.rest == [] then r
    else
      var s, tail := r.rest[0], r.rest[1..];
      if |r.partial| + |s.bytes| > limit + 2 then Reader("", tail)
      else match s
        case Terminated(_) => Reader("", tail)
        case Full(b) => Advance(Reader(r.partial + b, tail), limit)
        case Cut(b, _) => Reader(r.partial + b, tail)
  }

  /** lineReader.next: what it returns. Starved stands for a read that is not over. */
  function Result(r: Reader, limit: nat): Outcome
    decreases |r.rest|
  {
    if r.rest == [] then Starved
    else
      var s, tail := r.rest[0], r.rest[1..];
      if |r.partial| + |s.bytes| > limit + 2 then TooLong
      else match s
        case Terminated(b) => Line(TrimRight(r.partial + b, "\r\n"))
        case Full(b) => Result(Reader(r.partial + b, tail), limit)
        case Cut(_, timeout) => ReadError(timeout)
  }

  /** readLoop's lines: next again and again, as far as the slices reach; a read error
      is passed over. */
  function Drive(r: Reader, limit: nat): Framing
    decreases |r.rest|
  {
    if r.rest == [] then Framing([], true)
    else
      var s, tail := r.rest[0], r.rest[1..];
      if |r.partial| + |s.bytes| > limit + 2 then Framing([], false)
      else if s.Terminated? then
        var more := Drive(Reader("", tail), limit);
        Framing([TrimRight(r.partial + s.bytes, "\r\n")] + more.lines, more.fits)
      else Drive(Reader(r.partial + s.bytes, tail), limit)
  }

  // --- Fragmentation makes no difference ---

  lemma FrameTerminated(head: string, tail: string, limit: nat)
    requires head != "" && head[|head| - 1] == '\n' && '\n' !in head[..|head| - 1]
    ensures Frame(head + tail, limit) ==
      if |head| > limit + 2 then Framing([], false)
      else Framing([TrimRight(head, "\r\n")] + Frame(tail, limit).lines, Frame(tail, limit).fits)
  {
    hide TrimRight;
    var n := |head| - 1;
    var s := head + tail;
    assert head == head[..n] + ['\n'];
    IndexByteAt(head[..n], '\n', tail);
    assert s == head[..n] + ['\n'] + tail;
    assert s[..n + 1] == head && s[n + 1..] == tail;
  }

  lemma FrameLong(head: string, tail: string, limit: nat)
    requires '\n' !in head && |head| > limit + 2
    ensures Frame(head + tail, limit) == Framing([], false)
  {
    var s := head + tail;
    assert forall j :: 0 <= j < |head| ==> s[j] == head[j];
  }

  lemma {:induction false} DriveIsFrame(r: Reader, limit: nat)
    requires '\n' !in r.partial && |r.partial| <= limit + 2 && AllGenuine(r.rest)
    ensures Drive(r, limit) == Frame(r.partial + Bytes(r.rest), limit)
    decreases |r.rest|
  {
    hide TrimRight;
    if r.rest == [] {
      assert r.partial + Bytes(r.rest) == r.partial;
    } else {
      var s, tail := r.rest[0], r.rest[1..];
      assert Genuine(s);
      var head := r.partial + s.bytes;
      assert r.partial + Bytes(r.rest) == head + Bytes(tail);
      if s.Terminated? {
        assert head[..|head| - 1] == r.partial + s.bytes[..|s.bytes| - 1];
        FrameTerminated(head, Bytes(tail), limit);
        if |head| <= limit + 2 {
          DriveIsFrame(Reader("", tail), limit);
          assert "" + Bytes(tail) == Bytes(tail);
        }
      } else if |head| > limit + 2 {
        FrameLong(head, Bytes(tail), limit);
      } else {
        DriveIsFrame(Reader(head, tail), limit);
      }
    }
  }

  /** However a stream is cut up, by full buffers or by reads that time out in the
      middle of a line, its lines come out the same. */
  lemma FragmentationDoesNotMatter(a: seq<Slice>, b: seq<Slice>, limit: nat)
    requires AllGenuine(a) && AllGenuine(b) && Bytes(a) == Bytes(b)
    ensures Drive(Reader("", a), limit) == Drive(Reader("", b), limit) == Frame(Bytes(a), limit)
  {
    DriveIsFrame(Reader("", a), limit);
    DriveIsFrame(Reader("", b), limit);
    assert "" + Bytes(a) == Bytes(a);
  }

  // --- What the lines are ---

  ghost predicate Matches(f: Framing, parts: seq<string>, limit: nat)
    requires |parts| >= 1
  {
    && (f.fits <==> AllFit(parts, limit))
    && (f.fits ==> |f.lines| == |parts| - 1)
    && |f.lines| <= |parts| - 1
    && (forall i :: 0 <= i < |f.lines| ==> LineOf(f.lines[i], parts[i], limit))
  }

  predicate LineOf(line: string, part: string, limit: nat) {
    line == TrimRight(part, "\r") && |line| <= limit + 1
  }

  lemma MatchesCons(line: string, head: string, more: seq<string>, f: Framing, limit: nat)
    requires |more| >= 1 && Matches(f, more, limit) && LineOf(line, head, limit)
    requires AllFit([head] + more, limit) <==> AllFit(more, limit)
    ensures Matches(Framing([line] + f.lines, f.fits), [head] + more, limit)
  {
    hide TrimRight, LineOf, AllFit;
    var g, parts := Framing([line] + f.lines, f.fits), [head] + more;
    forall i | 0 <= i < |g.lines|
      ensures LineOf(g.lines[i], parts[i], limit)
    {
      if i > 0 {
        assert LineOf(f.lines[i - 1], more[i - 1], limit);
      }
    }
  }

  lemma MatchesStep(head: string, more: seq<string>, f: Framing, limit: nat)
    requires |more| >= 1 && Matches(f, more, limit)
    ensures |head| + 1 <= limit + 2 ==>
      Matches(Framing([TrimRight(head, "\r")] + f.lines, f.fits), [head] + more, limit)
    ensures |head| + 1 > limit + 2 ==> Matches(Framing([], false), [head] + more, limit)
  {
    hide Matches, TrimRight, AllFit;
    FirstFits(head, more, limit);
    if |head| + 1 <= limit + 2 {
      MatchesCons(TrimRight(head, "\r"), head, more, f, limit);
    } else {
      NothingMatches([head] + more, limit);
    }
  }

  lemma NothingMatches(parts: seq<string>, limit: nat)
    requires |parts| >= 1 && !AllFit(parts, limit)
    ensures Matches(Framing([], false), parts, limit)
  {}

  /** Nothing is lost or merged: while no line is too long, the lines are what the
      newlines of the stream end, each without trailing carriage returns; and none is
      ever longer than the limit and one. */
  lemma FrameIsSplit(stream: string, limit: nat)
    ensures var f, parts := Frame(stream, limit), Split(stream, '\n');
            && (f.fits <==> AllFit(parts, limit))
            && (f.fits ==> |f.lines| == |parts| - 1)
            && |f.lines| <= |parts| - 1
            && (forall i :: 0 <= i < |f.lines| ==> f.lines[i] == TrimRight(parts[i], "\r") && |f.lines[i]| <= limit + 1)
  {
    FrameMatches(stream, limit);
    hide AllFit, TrimRight, Frame, Split;
    assert forall i :: 0 <= i < |Frame(stream, limit).lines| ==>
      LineOf(Frame(stream, limit).lines[i], Split(stream, '\n')[i], limit);
  }

  lemma {:induction false} FrameMatches(stream: string, limit: nat)
    ensures Matches(Frame(stream, limit), Split(stream, '\n'), limit)
    decreases |stream|
  {
    hide *;
    var i := IndexByte(stream, '\n');
    if i < 0 {
      NoLineIs(stream, limit);
      NoLineMatches(stream, limit);
    } else {
      var head, tail := stream[..i], stream[i + 1..];
      FirstLineIs(stream, limit, i);
      FrameMatches(tail, limit);
      MatchesStep(head, Split(tail, '\n'), Frame(tail, limit), limit);
    }
  }

  lemma NoLineIs(stream: string, limit: nat)
    requires IndexByte(stream, '\n') < 0
    ensures Frame(stream, limit) == Framing([], |stream| <= limit + 2) && Split(stream, '\n') == [stream]
  {}

  lemma FirstLineIs(stream: string, limit: nat, i: nat)
    requires i == IndexByte(stream, '\n')
    ensures var head, more := stream[..i], Frame(stream[i + 1..], limit);
      && Split(stream, '\n') == [head] + Split(stream[i + 1..], '\n')
      && Frame(stream, limit)
           == if i + 1 > limit + 2 then Framing([], false)
              else Framing([TrimRight(head, "\r")] + more.lines, more.fits)
  {
    hide TrimRight;
    var head := stream[..i];
    NoNewlineBefore(stream, i);
    TrimTerminated(head);
    assert stream[..i + 1] == head + ['\n'];
  }

  lemma NoLineMatches(stream: string, limit: nat)
    ensures Matches(Framing([], |stream| <= limit + 2), [stream], limit)
  {}

  /** No line is longer than the reader takes, the unfinished last one included. */
  predicate AllFit(parts: seq<string>, limit: nat)
    requires |parts| >= 1
  {
    (forall i :: 0 <= i < |parts| - 1 ==> |parts[i]| + 1 <= limit + 2) && |parts[|parts| - 1]| <= limit + 2
  }

  lemma FirstFits(head: string, more: seq<string>, limit: nat)
    requires |more| >= 1
    ensures AllFit([head] + more, limit) <==> |head| + 1 <= limit + 2 && AllFit(more, limit)
  {
    var parts := [head] + more;
    assert forall i :: 0 <= i < |more| ==> more[i] == parts[i + 1];
    assert forall i :: 1 <= i < |parts| ==> parts[i] == more[i - 1];
    assert parts[0] == head;
  }

  lemma NoNewlineBefore(stream: string, i: nat)
    requires i == IndexByte(stream, '\n')
    ensures '\n' !in stream[..i]
  {
    IndexByteFirst(stream, '\n');
  }

  lemma {:induction false} TrimTerminated(line: string)
    requires '\n' !in line
    ensures TrimRight(line + ['\n'], "\r\n") == TrimRight(line, "\r")
  {
    var k := |TrimRight(line, "\r")|;
    var s := line + ['\n'];
    assert s[..k] == line[..k];
    TrimRightUnique(s, k, "\r\n");
  }

  lemma {:induction false} NextDrives(r: Reader, limit: nat)
    ensures var d, later := Drive(r, limit), Drive(Advance(r, limit), limit);
      match Result(r, limit)
      case Line(line) => d == Framing([line] + later.lines, later.fits)
      case TooLong => d == Framing([], false)
      case ReadError(_) => d == later
      case Starved => d == Framing([], true) && Advance(r, limit).rest == []
    ensures !Result(r, limit).Starved? ==> r.rest != []
    decreases |r.rest|
  {
    hide TrimRight;
    if r.rest != [] && r.rest[0].Full? && |r.partial| + |r.rest[0].bytes| <= limit + 2 {
      NextDrives(Reader(r.partial + r.rest[0].bytes, r.rest[1..]), limit);
    }
  }

  // --- readLoop, as a function ---

  /** Why a socket was given up; Pending stands for a loop that is still reading. */
  datatype End = PingTimeout | ReadFailed | Overlong | Pending

  datatype Looped = Looped(lines: seq<string>, probes: nat, end: End, left: Reader)

  function Onto(lines: seq<string>, probes: nat, more: Looped): Looped {
    more.(lines := lines + more.lines, probes := probes + more.probes)
  }

  /** readLoop: a first read that times out is answered with a probe, a second one in a
      row, any other read error and a line too long end the socket. */
  function Loop(r: Reader, limit: nat, probed: bool): Looped
    decreases |r.rest|
  {
    var now := Advance(r, limit);
    match Result(r, limit)
    case Line(line) => (NextDrives(r, limit); Onto([line], 0, Loop(now, limit, false)))
    case ReadError(timeout) =>
      if timeout && !probed then (NextDrives(r, limit); Onto([], 1, Loop(now, limit, true)))
      else Looped([], 0, if timeout then PingTimeout else ReadFailed, now)
    case TooLong => Looped([], 0, Overlong, now)
    case Starved => Looped([], 0, Pending, now)
  }

  lemma OntoOnto(a: seq<string>, m: nat, b: seq<string>, n: nat, more: Looped)
    ensures Onto(a, m, Onto(b, n, more)) == Onto(a + b, m + n, more)
  {
    assert a + (b + more.lines) == a + b + more.lines;
  }

  lemma LoopStep(r: Reader, limit: nat, probed: bool, lines: seq<string>, probes: nat)
    ensures var l, now := Onto(lines, probes, Loop(r, limit, probed)), Advance(r, limit);
      match Result(r, limit)
      case Line(line) => l == Onto(lines + [line], probes, Loop(now, limit, false))
      case ReadError(timeout) =>
        if timeout && !probed then l == Onto(lines, probes + 1, Loop(now, limit, true))
        else l == Looped(lines, probes, if timeout then PingTimeout else ReadFailed, now)
      case TooLong => l == Looped(lines, probes, Overlong, now)
      case Starved => l == Looped(lines, probes, Pending, now)
  {
    hide Advance, Result;
    var now := Advance(r, limit);
    match Result(r, limit)
    case Line(line) => OntoOnto(lines, probes, [line], 0, Loop(now, limit, false));
    case ReadError(timeout) =>
      OntoOnto(lines, probes, [], 1, Loop(now, limit, true));
      assert lines + [] == lines;
    case _ => assert lines + [] == lines;
  }

  /** The lines of the loop are those of the stream, up to where it stops. */
  lemma {:induction false} LoopDrives(r: Reader, limit: nat, probed: bool)
    ensures var l, d := Loop(r, limit, probed), Drive(r, limit);
      && (l.end.Overlong? ==> d == Framing(l.lines, false))
      && (l.end.Pending? ==> d == Framing(l.lines, true))
      && (!l.end.Overlong? ==> d.lines == l.lines + Drive(l.left, limit).lines && d.fits == Drive(l.left, limit).fits)
    decreases |r.rest|
  {
    hide Drive, Advance, Result;
    NextDrives(r, limit);
    match Result(r, limit)
    case Line(line) =>
      LoopDrives(Advance(r, limit), limit, false);
      var l := Loop(Advance(r, limit), limit, false);
      assert [line] + (l.lines + Drive(l.left, limit).lines) == [line] + l.lines + Drive(l.left, limit).lines;
    case ReadError(timeout) =>
      if timeout && !probed {
        LoopDrives(Advance(r, limit), limit, true);
      }
    case _ => EmptyDrives(Advance(r, limit), limit);
  }

  lemma EmptyDrives(r: Reader, limit: nat)
    ensures r.rest == [] ==> Drive(r, limit) == Framing([], true)
  {}

  // --- When it gives a socket up ---

  /** What next returns, again and again, until there is nothing more to read. */
  ghost function Outcomes(r: Reader, limit: nat): (os: seq<Outcome>)
    ensures os != []
    decreases |r.rest|
  {
    var o := Result(r, limit);
    if o.Starved? then [o] else (NextDrives(r, limit); [o] + Outcomes(Advance(r, limit), limit))
  }

  /** An outcome no line follows, whatever came before it. */
  predicate Fatal(o: Outcome) {
    o.TooLong? || o.Starved? || o == ReadError(false)
  }

  /** The k-th outcome ends the loop: it is fatal, or times out right after another.
      `probed` stands for a timeout before the first. */
  predicate Ends(os: seq<Outcome>, k: nat, probed: bool)
    requires k < |os|
  {
    Fatal(os[k]) || (os[k] == ReadError(true) && if k == 0 then probed else os[k - 1] == ReadError(true))
  }

  predicate StopsAt(os: seq<Outcome>, k: nat, probed: bool) {
    k < |os| && Ends(os, k, probed) && forall j :: 0 <= j < k ==> !Ends(os, j, probed)
  }

  function LinesOf(os: seq<Outcome>): seq<string> {
    if os == [] then [] else (if os[0].Line? then [os[0].line] else []) + LinesOf(os[1..])
  }

  function Timeouts(os: seq<Outcome>): nat {
    if os == [] then 0 else (if os[0] == ReadError(true) then 1 else 0) + Timeouts(os[1..])
  }

  function EndBy(o: Outcome): End {
    match o
    case ReadError(timeout) => if timeout then PingTimeout else ReadFailed
    case TooLong => Overlong
    case _ => Pending
  }

  ghost predicate Stopped(l: Looped, os: seq<Outcome>, k: nat, probed: bool) {
    && StopsAt(os, k, probed)
    && l.lines == LinesOf(os[..k]) && l.probes == Timeouts(os[..k]) && l.end == EndBy(os[k])
  }

  lemma StoppedCons(o: Outcome, more: seq<Outcome>, l: Looped, k: nat, probed: bool)
    requires !Ends([o] + more, 0, probed)
    requires Stopped(l, more, k, o == ReadError(true))
    ensures Stopped(Onto(if o.Line? then [o.line] else [], if o == ReadError(true) then 1 else 0, l), [o] + more,
      k + 1, probed)
  {
    hide Fatal;
    var os := [o] + more;
    assert os[..k + 1][1..] == more[..k];
    forall j | 0 <= j < k + 1
      ensures !Ends(os, j, probed)
    {
      if j > 0 {
        assert !Ends(more, j - 1, o == ReadError(true));
      }
    }
  }

  /** The loop stops at the first outcome that is fatal or the second timeout in a row.
      It hands on the lines before, and has sent a probe for every timeout before. */
  lemma {:induction false} LoopStops(r: Reader, limit: nat, probed: bool)
    ensures exists k: nat :: Stopped(Loop(r, limit, probed), Outcomes(r, limit), k, probed)
    decreases |r.rest|
  {
    hide Advance, Result, Stopped;
    NextDrives(r, limit);
    var o, os, l := Result(r, limit), Outcomes(r, limit), Loop(r, limit, probed);
    if Ends(os, 0, probed) {
      assert Stopped(l, os, 0, probed) by { StopsAtOnce(l, os, probed); }
    } else {
      var now := Advance(r, limit);
      LoopStops(now, limit, o == ReadError(true));
      var k: nat :| Stopped(Loop(now, limit, o == ReadError(true)), Outcomes(now, limit), k, o == ReadError(true));
      StoppedCons(o, Outcomes(now, limit), Loop(now, limit, o == ReadError(true)), k, probed);
    }
  }

  lemma StopsAtOnce(l: Looped, os: seq<Outcome>, probed: bool)
    requires os != [] && Ends(os, 0, probed) && l.lines == [] && l.probes == 0 && l.end == EndBy(os[0])
    ensures Stopped(l, os, 0, probed)
  {}

  /** A ping timeout it is if and only if two reads time out with no line between them,
      before anything fatal. */
  lemma PingTimeoutIff(r: Reader, limit: nat)
    ensures var os := Outcomes(r, limit);
      Loop(r, limit, false).end.PingTimeout? <==>
        exists i, k :: 0 <= i < k < |os| && os[i] == os[k] == ReadError(true)
          && (forall j :: i < j < k ==> !os[j].Line?) && (forall j :: 0 <= j < k ==> !Fatal(os[j]))
  {
    hide *;
    LoopStops(r, limit, false);
    var n: nat :| Stopped(Loop(r, limit, false), Outcomes(r, limit), n, false);
    StoppedAt(Loop(r, limit, false), Outcomes(r, limit), n);
    LastOfTwo(Outcomes(r, limit), n);
    TwoTimeoutsEnd(Outcomes(r, limit), n);
  }

  lemma StoppedAt(l: Looped, os: seq<Outcome>, n: nat)
    requires Stopped(l, os, n, false)
    ensures StopsAt(os, n, false) && n < |os|
    ensures l.end.PingTimeout? <==> os[n] == ReadError(true)
  {
    hide LinesOf, Timeouts;
  }

  lemma NotBefore(os: seq<Outcome>, n: nat, j: nat)
    requires StopsAt(os, n, false) && j < n
    ensures j < |os| && !Ends(os, j, false) && !Fatal(os[j])
  {
    hide Fatal;
  }

  /** A loop that a timeout stops has read another right before it, and nothing fatal. */
  lemma LastOfTwo(os: seq<Outcome>, n: nat)
    requires StopsAt(os, n, false) && n < |os|
    ensures os[n] == ReadError(true) ==>
      exists i, k ::
        0 <= i < k < |os| && os[i] == os[k] == ReadError(true)
        && (forall j :: i < j < k ==> !os[j].Line?) && (forall j :: 0 <= j < k ==> !Fatal(os[j]))
  {
    if os[n] == ReadError(true) {
      assert os[n - 1] == ReadError(true);
      hide Fatal, Ends, StopsAt;
      forall j | 0 <= j < n
        ensures !Fatal(os[j])
      {
        NotBefore(os, n, j);
      }
    }
  }

  /** Two timeouts with no line between them and nothing fatal before stop it, at the
      second or earlier, by a timeout. */
  lemma TwoTimeoutsEnd(os: seq<Outcome>, n: nat)
    requires StopsAt(os, n, false) && n < |os|
    ensures
      (exists i, k ::
        0 <= i < k < |os| && os[i] == os[k] == ReadError(true)
        && (forall j :: i < j < k ==> !os[j].Line?) && (forall j :: 0 <= j < k ==> !Fatal(os[j])))
      ==> os[n] == ReadError(true)
  {
    if i, k :|
      0 <= i < k < |os| && os[i] == os[k] == ReadError(true)
      && (forall j :: i < j < k ==> !os[j].Line?) && (forall j :: 0 <= j < k ==> !Fatal(os[j]))
    {
      assert os[i + 1] == ReadError(true) by {
        if i + 1 < k {
          assert !os[i + 1].Line? && !Fatal(os[i + 1]);
        }
      }
      assert Ends(os, i + 1, false);
      assert n <= i + 1;
      if n < k {
        assert !Fatal(os[n]);
      }
    }
  }

  // --- The class ---

  class LineReader {
    var partial: string
    var rest: seq<Slice>

    constructor (input: seq<Slice>)
      ensures View() == Reader("", input)
    {
      partial, rest := "", input;
    }

    function View(): Reader
      reads this
    {
      Reader(partial, rest)
    }

    /** next. It never keeps more than limit + 2 bytes. */
    method Next(limit: nat) returns (o: Outcome)
      requires |partial| <= limit + 2
      modifies this
      ensures o == Result(old(View()), limit) && View() == Advance(old(View()), limit)
      ensures |partial| <= limit + 2
      ensures old(rest) != [] ==> |rest| < |old(rest)|
      ensures o.Starved? ==> rest == []
    {
      ghost var start := View();
      while rest != []
        invariant |partial| <= limit + 2 && |rest| <= |old(rest)|
        invariant Result(View(), limit) == Result(start, limit) && Advance(View(), limit) == Advance(start, limit)
        decreases |rest|
      {
        var s := rest[0];
        rest := rest[1..];
        if |partial| + |s.bytes| > limit + 2 {
          partial := "";
          return TooLong;
        }
        match s {
          case Terminated(b) =>
            var line := TrimRight(partial + b, "\r\n");
            partial := "";
            return Line(line);
          case Full(b) =>
            partial := partial + b;
          case Cut(b, timeout) =>
            partial := partial + b;
            return ReadError(timeout);
        }
      }
      return Starved;
    }

    /** readLoop. `ingested` is what it hands on, `probes` how often it sent one. */
    method ReadLoop(limit: nat) returns (ingested: seq<string>, probes: nat, end: End)
      requires |partial| <= limit + 2
      modifies this
      ensures Looped(ingested, probes, end, View()) == Loop(old(View()), limit, false)
      ensures var d := Drive(old(View()), limit);
        && (end.Overlong? ==> d == Framing(ingested, false))
        && (end.Pending? ==> d == Framing(ingested, true))
        && (!end.Overlong? ==> d.lines == ingested + Drive(View(), limit).lines && d.fits == Drive(View(), limit).fits)
    {
      hide Loop, Drive, Advance, Result;
      ghost var all := Loop(View(), limit, false);
      LoopDrives(View(), limit, false);
      var probed := false;
      ingested, probes := [], 0;
      assert [] + all.lines == all.lines;
      while true
        invariant |partial| <= limit + 2
        invariant all == Onto(ingested, probes, Loop(View(), limit, probed))
        decreases |rest|
      {
        NextDrives(View(), limit);
        LoopStep(View(), limit, probed, ingested, probes);
        var o := Next(limit);
        match o {
          case Line(line) =>
            probed := false;
            ingested := ingested + [line];
          case ReadError(timeout) =>
            if timeout && !probed {
              probed, probes := true, probes + 1;
            } else {
              end := if timeout then PingTimeout else ReadFailed;
              return;
            }
          case TooLong =>
            end := Overlong;
            return;
          case Starved =>
            end := Pending;
            return;
        }
      }
    }
  }
}
