/** The write side of internal/enginelink/session.go on values: what the client
    writes is cut into lines, and swallowed until it has answered the restore
    marker. */
module RestoreWriter {
  import opened GoStrings
  import opened IrcLine

  /** Where `rest` has its last " :", or -1. */
  function LastTrailing(rest: string): (i: int)
    ensures -1 <= i <= |rest| - 2 || (i == -1 && |rest| < 2)
    ensures i >= 0 ==> rest[i] == ' ' && rest[i + 1] == ':'
  {
    if |rest| < 2 then -1
    else if rest[|rest| - 2] == ' ' && rest[|rest| - 1] == ':' then |rest| - 2
    else LastTrailing(rest[..|rest| - 1])
  }

  function TrimColon(s: string): string { if s != "" && s[0] == ':' then s[1..] else s }

  function PongToken(rest: string): string {
    var i := LastTrailing(rest);
    if i >= 0 then rest[i + 2..]
    else
      var r := TrimColon(rest);
      r[LastIndexByte(r, ' ') + 1..]
  }

  /** isPong. */
  predicate IsPong(line: string, token: string) {
    ToUpper(Before(line, ' ')) == "PONG" && PongToken(After(line, ' ')) == token
  }

  /** The writing side of a session: the unfinished line, whether writes are still
      swallowed, whether a callback waits for the end of that, the lines relayed and
      how often the callback ran. */
  datatype Writer = Writer(partial: string, restoring: bool, armed: bool, sent: seq<string>, runs: nat)

  function TakeLine(w: Writer, line: string, marker: string): Writer {
    if line == "" then w
    else if !w.restoring then w.(sent := w.sent + [line])
    else if IsPong(line, marker)
    then w.(restoring := false, armed := false, runs := if w.armed then w.runs + 1 else w.runs)
    else w
  }

  function FirstLine(s: string): string
    requires '\n' in s
  {
    TrimRight(s[..IndexByte(s, '\n')], "\r")
  }

  function RestOf(s: string): (r: string)
    requires '\n' in s
    ensures |r| < |s|
  {
    s[IndexByte(s, '\n') + 1..]
  }

  /** Takes every complete line off the unfinished one. */
  function Feed(w: Writer, marker: string): Writer
    decreases |w.partial|
  {
    if '\n' !in w.partial then w
    else Feed(TakeLine(w.(partial := RestOf(w.partial)), FirstLine(w.partial), marker), marker)
  }

  /** Write, when the link takes all of it. */
  function WriteTo(w: Writer, p: string, marker: string): Writer {
    Feed(w.(partial := w.partial + p), marker)
  }

  function WriteAll(w: Writer, cuts: seq<string>, marker: string): Writer
    decreases |cuts|
  {
    if cuts == [] then w else WriteAll(WriteTo(w, cuts[0], marker), cuts[1..], marker)
  }

  /** OnRestored. */
  function Arm(w: Writer): Writer {
    if w.restoring then w.(armed := true) else w.(runs := w.runs + 1)
  }

  /** The lines a stream is made of: what its newlines end, without trailing carriage
      returns, the empty ones left out. */
  function Kept(parts: seq<string>): seq<string> {
    if parts == [] then []
    else (if TrimRight(parts[0], "\r") == "" then [] else [TrimRight(parts[0], "\r")]) + Kept(parts[1..])
  }

  function Lines(stream: string): seq<string> {
    var parts := Split(stream, '\n');
    Kept(parts[..|parts| - 1])
  }

  function Unfinished(stream: string): string {
    var parts := Split(stream, '\n');
    parts[|parts| - 1]
  }

  /** What follows the first answer to the marker. */
  function AfterMarker(lines: seq<string>, marker: string): seq<string> {
    if lines == [] then []
    else if IsPong(lines[0], marker) then lines[1..]
    else AfterMarker(lines[1..], marker)
  }

  predicate HasMarker(lines: seq<string>, marker: string) {
    exists i :: 0 <= i < |lines| && IsPong(lines[i], marker)
  }

  function Concat(cuts: seq<string>): string {
    if cuts == [] then "" else cuts[0] + Concat(cuts[1..])
  }

  // --- Where the cuts fall makes no difference ---

  lemma {:induction false} IndexByteOfPrefix(s: string, t: string, c: char)
    requires c in s
    ensures IndexByte(s + t, c) == IndexByte(s, c)
  {
    if s[0] != c {
      IndexByteOfPrefix(s[1..], t, c);
      assert (s + t)[1..] == s[1..] + t;
    }
  }

  lemma AppendStep(s: string, q: string)
    requires '\n' in s
    ensures '\n' in s + q && FirstLine(s + q) == FirstLine(s) && RestOf(s + q) == RestOf(s) + q
  {
    hide TrimRight;
    var i := IndexByte(s, '\n');
    IndexByteOfPrefix(s, q, '\n');
    assert (s + q)[..i] == s[..i];
    assert (s + q)[i + 1..] == s[i + 1..] + q;
  }

  lemma {:induction false} FeedMore(w: Writer, q: string, marker: string)
    ensures WriteTo(Feed(w, marker), q, marker) == WriteTo(w, q, marker)
    decreases |w.partial|
  {
    if '\n' in w.partial {
      hide TakeLine, FirstLine, RestOf;
      var rest, line := RestOf(w.partial), FirstLine(w.partial);
      TakeLineParts(w, rest, rest + q, line, marker);
      FeedMore(TakeLine(w.(partial := rest), line, marker), q, marker);
      AppendStep(w.partial, q);
    }
  }

  lemma TakeLineParts(w: Writer, a: string, b: string, line: string, marker: string)
    ensures TakeLine(w.(partial := a), line, marker).partial == a
    ensures TakeLine(w.(partial := b), line, marker) == TakeLine(w.(partial := a), line, marker).(partial := b)
  {}

  lemma {:induction false} CutsDoNotMatter(w: Writer, cuts: seq<string>, marker: string)
    ensures WriteAll(Feed(w, marker), cuts, marker) == WriteTo(w, Concat(cuts), marker)
    decreases |cuts|
  {
    hide Feed;
    if cuts == [] {
      assert w.partial + "" == w.partial;
    } else {
      var u := w.(partial := w.partial + cuts[0]);
      FeedMore(w, cuts[0], marker);
      CutsDoNotMatter(u, cuts[1..], marker);
      assert w.partial + cuts[0] + Concat(cuts[1..]) == w.partial + Concat(cuts);
    }
  }

  // --- What gets through ---

  lemma LinesOf(s: string)
    ensures '\n' !in s ==> Lines(s) == [] && Unfinished(s) == s
    ensures '\n' in s ==>
      && Unfinished(s) == Unfinished(RestOf(s))
      && Lines(s) == (if FirstLine(s) == "" then [] else [FirstLine(s)]) + Lines(RestOf(s))
  {
    var parts := Split(s, '\n');
    if '\n' !in s {
      assert parts[..0] == [];
    } else {
      var more := Split(RestOf(s), '\n');
      hide Split, TrimRight;
      var init := parts[..|parts| - 1];
      assert init[1..] == more[..|more| - 1];
    }
  }

  /** A line is what one newline ends, without the carriage returns before that, and only
      when something is left of it; what no newline ends stays unfinished. */
  lemma LineIsCut(line: string, crs: string, s: string)
    requires '\n' !in line && (line == "" || line[|line| - 1] != '\r') && forall c :: c in crs ==> c == '\r'
    ensures Lines(line + crs + ['\n'] + s) == (if line == "" then [] else [line]) + Lines(s)
    ensures Unfinished(line + crs + ['\n'] + s) == Unfinished(s)
    ensures '\n' !in s ==> Lines(s) == [] && Unfinished(s) == s
  {
    LinesOf(line + crs + ['\n'] + s);
    LinesOf(s);
    CutLine(line, crs, s);
    hide Lines, Unfinished, FirstLine, RestOf;
  }

  lemma CutLine(line: string, crs: string, s: string)
    requires '\n' !in line && (line == "" || line[|line| - 1] != '\r') && forall c :: c in crs ==> c == '\r'
    ensures var whole := line + crs + ['\n'] + s; '\n' in whole && FirstLine(whole) == line && RestOf(whole) == s
  {
    hide TrimRight, IndexByte;
    var cut := line + crs;
    var whole := cut + ['\n'] + s;
    IndexByteAt(cut, '\n', s);
    CarriageReturns(line, crs);
    assert whole[|cut|] == '\n';
    assert whole[..|cut|] == cut && whole[|cut| + 1..] == s;
  }

  lemma CarriageReturns(line: string, crs: string)
    requires (line == "" || line[|line| - 1] != '\r') && forall c :: c in crs ==> c == '\r'
    ensures TrimRight(line + crs, "\r") == line
  {
    hide TrimRight;
    var cut := line + crs;
    forall i | |line| <= i < |cut|
      ensures cut[i] in "\r"
    {
      assert cut[i] == crs[i - |line|] && crs[i - |line|] in crs;
      assert "\r"[0] == '\r';
    }
    assert line != "" ==> cut[|line| - 1] == line[|line| - 1];
    TrimRightUnique(cut, |line|, "\r");
    assert cut[..|line|] == line;
  }

  lemma {:induction false} FeedRelays(w: Writer, marker: string)
    ensures var t, lines := Feed(w, marker), Lines(w.partial);
            && t.partial == Unfinished(w.partial)
            && t.sent == w.sent + (if w.restoring then AfterMarker(lines, marker) else lines)
            && t.restoring == (w.restoring && !HasMarker(lines, marker))
            && t.runs == w.runs + (if w.restoring && HasMarker(lines, marker) && w.armed then 1 else 0)
    decreases |w.partial|
  {
    LinesOf(w.partial);
    hide Lines, Unfinished, FirstLine, RestOf, IsPong, HasMarker, AfterMarker, TakeLine;
    if '\n' in w.partial {
      var rest, line := RestOf(w.partial), FirstLine(w.partial);
      var u := TakeLine(w.(partial := rest), line, marker);
      LinesStep(w, rest, line, Lines(rest), marker);
      FeedRelays(u, marker);
    } else {
      NoLines(marker);
    }
  }

  lemma NoLines(marker: string)
    ensures AfterMarker([], marker) == [] && !HasMarker([], marker)
  {}

  lemma LinesStep(w: Writer, rest: string, line: string, more: seq<string>, marker: string)
    ensures var lines := (if line == "" then [] else [line]) + more;
            var u := TakeLine(w.(partial := rest), line, marker);
            && u.partial == rest
            && u.sent + (if u.restoring then AfterMarker(more, marker) else more)
                 == w.sent + (if w.restoring then AfterMarker(lines, marker) else lines)
            && (u.restoring && !HasMarker(more, marker)) == (w.restoring && !HasMarker(lines, marker))
            && u.runs + (if u.restoring && HasMarker(more, marker) && u.armed then 1 else 0)
                 == w.runs + (if w.restoring && HasMarker(lines, marker) && w.armed then 1 else 0)
  {
    hide IsPong;
    var lines := (if line == "" then [] else [line]) + more;
    if line == "" {
      assert lines == more;
    } else {
      MarkerStep(line, more, marker);
      hide AfterMarker, HasMarker;
      assert w.sent + [line] + more == w.sent + lines;
    }
  }

  lemma MarkerStep(line: string, more: seq<string>, marker: string)
    ensures AfterMarker([line] + more, marker) == if IsPong(line, marker) then more else AfterMarker(more, marker)
    ensures HasMarker([line] + more, marker) <==> IsPong(line, marker) || HasMarker(more, marker)
  {
    hide IsPong;
    var lines := [line] + more;
    assert lines[1..] == more && lines[0] == line;
    assert forall i :: 0 <= i < |more| ==> more[i] == lines[i + 1];
    assert forall i :: 1 <= i < |lines| ==> lines[i] == more[i - 1];
  }

  predicate AnswersFirst(lines: seq<string>, marker: string, i: int) {
    0 <= i < |lines| && IsPong(lines[i], marker) && forall j :: 0 <= j < i ==> !IsPong(lines[j], marker)
  }

  /** What AfterMarker keeps: all behind the first answer, nothing without one. */
  lemma {:induction false} AfterMarkerIs(lines: seq<string>, marker: string, i: nat)
    requires AnswersFirst(lines, marker, i)
    ensures AfterMarker(lines, marker) == lines[i + 1..]
  {
    hide IsPong;
    if i > 0 {
      AnswersLater(lines, marker, i);
      hide AnswersFirst;
      AfterMarkerIs(lines[1..], marker, i - 1);
      assert lines[1..][i..] == lines[i + 1..];
    }
  }

  lemma AnswersLater(lines: seq<string>, marker: string, i: nat)
    requires AnswersFirst(lines, marker, i) && i > 0
    ensures !IsPong(lines[0], marker) && AnswersFirst(lines[1..], marker, i - 1)
  {
    hide IsPong;
    assert forall j :: 0 <= j < |lines| - 1 ==> lines[1..][j] == lines[j + 1];
  }

  lemma {:induction false} NoMarkerNothing(lines: seq<string>, marker: string)
    requires !HasMarker(lines, marker)
    ensures AfterMarker(lines, marker) == []
  {
    hide IsPong;
    if lines != [] {
      assert forall i :: 0 <= i < |lines| - 1 ==> lines[1..][i] == lines[i + 1];
      NoMarkerNothing(lines[1..], marker);
    }
  }

  /** A session's writer once it opened: on a re-attach the client's lines are
      swallowed, and relaySession's callback waits. */
  function Begin(attached: bool): Writer {
    Arm(Writer("", attached, false, [], 0))
  }

  /** Whatever the client writes, cut however it likes: on a fresh session every
      non-empty line is relayed; on a re-attached one exactly those behind the first
      answer to the marker, and none before it; and the callback has run once just
      when the restore is over. */
  lemma ClientLinesGetThrough(attached: bool, cuts: seq<string>, marker: string)
    ensures var t, lines := WriteAll(Begin(attached), cuts, marker), Lines(Concat(cuts));
            && t.partial == Unfinished(Concat(cuts))
            && t.restoring == (attached && !HasMarker(lines, marker))
            && t.runs == (if t.restoring then 0 else 1)
            && (!attached ==> t.sent == lines)
            && (t.restoring ==> t.sent == [])
            && (attached ==> forall i :: AnswersFirst(lines, marker, i) ==> t.sent == lines[i + 1..])
  {
    hide IsPong, Split, FirstLine, RestOf;
    var w, s := Begin(attached), Concat(cuts);
    var lines := Lines(s);
    assert Feed(w, marker) == w;
    CutsDoNotMatter(w, cuts, marker);
    assert w.partial + s == s;
    FeedRelays(w.(partial := s), marker);
    hide Lines, Feed, WriteAll;
    if attached && !HasMarker(lines, marker) {
      NoMarkerNothing(lines, marker);
    }
    forall i | AnswersFirst(lines, marker, i)
      ensures AfterMarker(lines, marker) == lines[i + 1..]
    {
      AfterMarkerIs(lines, marker, i);
    }
  }

  /** The callback may also be registered late: it still runs exactly once. */
  lemma LateCallbackRunsOnce(attached: bool, before: seq<string>, after: seq<string>, marker: string)
    ensures var w := Writer("", attached, false, [], 0);
            var t := WriteAll(Arm(WriteAll(w, before, marker)), after, marker);
            t.runs == if t.restoring then 0 else 1
  {
    hide Lines, HasMarker, AfterMarker, Unfinished, FirstLine, RestOf, TakeLine;
    var w := Writer("", attached, false, [], 0);
    assert Feed(w, marker) == w;
    CutsDoNotMatter(w, before, marker);
    FeedRelays(w.(partial := w.partial + Concat(before)), marker);
    var u := WriteAll(w, before, marker);
    NoLineLeft(w.(partial := w.partial + Concat(before)), marker);
    var v := Arm(u);
    assert Feed(v, marker) == v;
    CutsDoNotMatter(v, after, marker);
    FeedRelays(v.(partial := v.partial + Concat(after)), marker);
  }

  lemma {:induction false} NoLineLeft(w: Writer, marker: string)
    ensures '\n' !in Feed(w, marker).partial
    decreases |w.partial|
  {
    if '\n' in w.partial {
      hide TakeLine, FirstLine, RestOf;
      TakeLineParts(w, RestOf(w.partial), "", FirstLine(w.partial), marker);
      NoLineLeft(TakeLine(w.(partial := RestOf(w.partial)), FirstLine(w.partial), marker), marker);
    }
  }

  // --- Which lines answer the marker ---

  lemma {:induction false} NoTrailing(rest: string)
    requires ' ' !in rest
    ensures LastTrailing(rest) == -1 && LastIndexByte(rest, ' ') == -1
  {
    if rest != "" {
      NoTrailing(rest[..|rest| - 1]);
    }
  }

  /** For a PONG of one parameter, written with or without a colon, isPong is what
      it says: the answer to this token and no other. */
  lemma OneParamPong(cmd: string, x: string, colon: bool, token: string)
    requires ' ' !in cmd && ' ' !in x && (!colon ==> x == "" || x[0] != ':')
    ensures var line := cmd + [' '] + ((if colon then ":" else "") + x);
            IsPong(line, token) <==> ToUpper(cmd) == "PONG" && x == token
  {
    var rest := (if colon then ":" else "") + x;
    CutAt(cmd, ' ', rest);
    NoTrailing(rest);
    NoTrailing(x);
    assert TrimColon(rest) == x;
  }

  lemma ToUpperPong()
    ensures ToUpper("PONG") == "PONG"
  {
    assert ToUpper("PONG")[0] == 'P' && ToUpper("PONG")[1] == 'O' && ToUpper("PONG")[2] == 'N'
      && ToUpper("PONG")[3] == 'G';
  }

  lemma {:induction false} ColonFirst(words: string)
    ensures LastTrailing(":" + words) == if LastTrailing(words) < 0 then -1 else LastTrailing(words) + 1
  {
    if words != "" {
      var init := words[..|words| - 1];
      ColonFirst(init);
      assert (":" + words)[..|words|] == ":" + init;
    }
  }

  lemma {:induction false} TrailingBehind(head: string, t: string)
    ensures LastTrailing(head + [' ', ':'] + t) == |head| + (if LastTrailing(t) < 0 then 0 else LastTrailing(t) + 2)
  {
    var s := head + [' ', ':'] + t;
    if t != "" {
      var init := t[..|t| - 1];
      TrailingBehind(head, init);
      assert s[..|s| - 1] == head + [' ', ':'] + init;
      if |t| >= 2 {
        assert s[|s| - 2] == t[|t| - 2];
      } else {
        assert s[|s| - 2] == ':';
      }
    }
  }

  lemma {:induction false} NoTrailingAfter(head: string, token: string)
    requires ' ' !in token && (token != "" ==> token[0] != ':')
    requires LastTrailing(head) == -1
    ensures LastTrailing(head + [' '] + token) == -1
  {
    var s := head + [' '] + token;
    if token == "" {
      assert s[..|s| - 1] == head;
    } else {
      var init := token[..|token| - 1];
      NoTrailingAfter(head, init);
      assert s[..|s| - 1] == head + [' '] + init;
      if |token| == 1 {
        assert s[|s| - 1] == token[0];
      } else {
        assert s[|s| - 2] == token[|token| - 2];
      }
    }
  }

  /** The middle parameters of a line, one space between two. */
  function Middles(ps: seq<string>): string
    requires ps != []
  {
    if |ps| == 1 then ps[0] else Middles(ps[..|ps| - 1]) + [' '] + ps[|ps| - 1]
  }

  predicate AllMiddle(ps: seq<string>) { forall p :: p in ps ==> Middle(p) }

  lemma {:induction false} MiddlesEnd(ps: seq<string>)
    requires ps != [] && AllMiddle(ps)
    ensures var w := Middles(ps);
            LastTrailing(w) == -1 && w != "" && w[0] != ':' && w[LastIndexByte(w, ' ') + 1..] == ps[|ps| - 1]
  {
    var last := ps[|ps| - 1];
    assert last in ps;
    if |ps| == 1 {
      NoTrailing(last);
    } else {
      var init := ps[..|ps| - 1];
      MiddlesEnd(init);
      NoTrailingAfter(Middles(init), last);
      LastIndexByteAt(Middles(init), ' ', last);
    }
  }

  lemma MiddlesStep(ps: seq<string>, rest: string)
    requires |ps| > 1
    ensures var init, last := ps[..|ps| - 1], ps[|ps| - 1];
            && ps == init + [last] && Middles(ps) == Middles(init) + [' '] + last
            && Middles(ps) + [' '] + rest == Middles(init) + [' '] + (last + [' '] + rest)
  {}

  lemma OneMiddle(p: string, rest: string)
    requires Middle(p)
    ensures Params(p) == [p] && Params(p + [' '] + rest) == [p] + Params(rest)
  {
    ParamsMiddle(p, rest);
    assert p + " " + rest == p + [' '] + rest;
  }

  lemma {:induction false} MiddlesParse(ps: seq<string>, rest: string)
    requires ps != [] && AllMiddle(ps)
    ensures Params(Middles(ps)) == ps && Params(Middles(ps) + [' '] + rest) == ps + Params(rest)
  {
    hide Params, Middle;
    var last := ps[|ps| - 1];
    assert last in ps;
    OneMiddle(last, rest);
    if |ps| == 1 {
      assert ps == [last];
    } else {
      var init := ps[..|ps| - 1];
      MiddlesParse(init, last);
      MiddlesParse(init, last + [' '] + rest);
      MiddlesStep(ps, rest);
      hide Middles;
      assert init + ([last] + Params(rest)) == ps + Params(rest);
    }
  }

  /** What follows the command of a line. */
  function Written(ps: seq<string>, trailing: Option<string>): string
    requires ps != [] || trailing.Some?
  {
    match trailing
    case None => Middles(ps)
    case Some(t) => if ps == [] then ":" + t else Middles(ps) + [' ', ':'] + t
  }

  function FinalParam(ps: seq<string>, trailing: Option<string>): string
    requires ps != [] || trailing.Some?
  {
    match trailing case None => ps[|ps| - 1] case Some(t) => t
  }

  /** isPong is said to look at the final parameter. It does unless that is a trailing
      one that, as the first parameter, has a space, or, behind others, a " :" in it. */
  predicate Plain(ps: seq<string>, trailing: Option<string>) {
    match trailing
    case None => true
    case Some(t) => if ps == [] then ' ' !in t else LastTrailing(t) < 0
  }

  lemma WrittenParses(ps: seq<string>, trailing: Option<string>)
    requires AllMiddle(ps) && (ps != [] || trailing.Some?)
    ensures Params(Written(ps, trailing)) == ps + (match trailing case None => [] case Some(t) => [t])
  {
    match trailing
    case None =>
      MiddlesParse(ps, "");
      assert ps + [] == ps;
    case Some(t) =>
      assert Params(":" + t) == [t] by {
        assert (":" + t)[1..] == t;
      }
      if ps != [] {
        MiddlesParse(ps, ":" + t);
        assert Middles(ps) + [' ', ':'] + t == Middles(ps) + [' '] + (":" + t);
      } else {
        assert ps + [t] == [t];
      }
  }

  lemma TokenOfFirst(t: string)
    ensures PongToken(":" + t) == t <==> ' ' !in t
  {
    ColonFirst(t);
    LastSpace(t);
    var i := LastTrailing(t);
    assert (":" + t)[1..] == t;
    if i >= 0 {
      assert |(":" + t)[i + 3..]| < |t|;
    } else if ' ' in t {
      assert |t[LastIndexByte(t, ' ') + 1..]| < |t|;
    }
  }

  lemma {:induction false} LastSpace(t: string)
    ensures LastIndexByte(t, ' ') >= 0 <==> ' ' in t
    ensures LastTrailing(t) >= 0 ==> ' ' in t
  {
    if t != "" {
      LastSpace(t[..|t| - 1]);
    }
  }

  /** For every PONG, whatever its parameters: the token is compared with the final
      parameter if and only if that is plain. */
  lemma PongLooksAtTheFinalParamIff(ps: seq<string>, trailing: Option<string>, token: string)
    requires AllMiddle(ps) && (ps != [] || trailing.Some?)
    ensures var rest := Written(ps, trailing);
            && Params(rest) == ps + (match trailing case None => [] case Some(t) => [t])
            && (PongToken(rest) == FinalParam(ps, trailing) <==> Plain(ps, trailing))
            && (Plain(ps, trailing) ==> (IsPong("PONG" + [' '] + rest, token) <==> token == FinalParam(ps, trailing)))
  {
    WrittenParses(ps, trailing);
    var rest := Written(ps, trailing);
    ToUpperPong();
    CutAt("PONG", ' ', rest);
    hide ToUpper, Params;
    match trailing
    case None =>
      MiddlesEnd(ps);
    case Some(t) =>
      if ps == [] {
        TokenOfFirst(t);
      } else {
        TrailingBehind(Middles(ps), t);
        var i, w := LastTrailing(t), Middles(ps);
        assert rest[|w| + 2..] == t;
        if i >= 0 {
          assert |rest[|w| + i + 4..]| < |t|;
        }
      }
  }
}

/** internal/enginelink/session.go and the acks of link.go: one claimed IRC
    connection as the client's socket, its fields changed in place. */
module RelaySession {
  import opened GoStrings
  import opened SessionSpec
  import opened Relay
  import opened RestoreWriter

  class Session {
    const handle: string
    const marker: string
    var wpartial: string
    var restoring: bool
    var armed: bool
    var closed: bool
    var failed: bool
    var rbuf: seq<Entry>
    var delivered: nat
    var probed: nat
    var ackPending: nat
    var ackSent: nat
    /** History: the lines put on the link, how often the callback ran, everything
        that was ever queued for the client, the acks put on the link. */
    var relayed: seq<string>
    var callbackRuns: nat
    ghost var queued: seq<Entry>
    var acks: seq<nat>

    constructor (handle: string, marker: string)
      ensures this.handle == handle && this.marker == marker
      ensures Out() == Writer("", false, false, [], 0) && !closed && !failed
      ensures Valid() && In() == Inbox([], 0, 0, false, 0, 0, 0, 0)
      ensures ackPending == 0 && ackSent == 0 && acks == []
    {
      this.handle := handle;
      this.marker := marker;
      wpartial, restoring, armed, closed, failed := "", false, false, false, false;
      rbuf, delivered, probed, ackPending, ackSent := [], 0, 0, 0, 0;
      relayed, callbackRuns, queued, acks := [], 0, [], [];
    }

    function Out(): Writer
      reads this
    {
      Writer(wpartial, restoring, armed, relayed, callbackRuns)
    }

    ghost predicate Valid()
      reads this
    {
      |rbuf| <= |queued| && rbuf == queued[|queued| - |rbuf|..]
    }

    /** The client's side of this claim, as Relay has it, but for what its handlers
        have done. */
    ghost function In(): Inbox
      requires Valid()
      reads this
    {
      Inbox(queued, |queued| - |rbuf|, 0, false, delivered, probed, 0, 0)
    }

    /** opened, for the frame of an attach: writes are swallowed from here on. */
    method Attached()
      modifies this`restoring
      ensures restoring
    {
      restoring := true;
    }

    method OnRestored()
      modifies this`armed, this`callbackRuns
      ensures Out() == Arm(old(Out()))
    {
      if !restoring {
        callbackRuns := callbackRuns + 1;
        return;
      }
      armed := true;
    }

    /** Write's loop: takes the complete lines off wpartial; the lines to relay, and
        whether the restore ended with a callback waiting. */
    method TakeLines() returns (out: seq<string>, fired: bool)
      modifies this`wpartial, this`restoring, this`armed
      ensures Writer(wpartial, restoring, armed, relayed + out, callbackRuns + Count(fired)) == Feed(old(Out()), marker)
    {
      hide FirstLine, RestOf, IsPong;
      out, fired := [], false;
      assert relayed + out == relayed;
      while '\n' in wpartial
        invariant Feed(Writer(wpartial, restoring, armed, relayed + out, callbackRuns + Count(fired)), marker)
               == Feed(old(Out()), marker)
        invariant restoring ==> !fired
        decreases |wpartial|
      {
        var line := FirstLine(wpartial);
        wpartial := RestOf(wpartial);
        assert relayed + out + [line] == relayed + (out + [line]);
        if line == "" {
          continue;
        }
        if restoring {
          if IsPong(line, marker) {
            restoring := false;
            fired, armed := armed, false;
          }
          continue;
        }
        out := out + [line];
      }
    }

    /** Write. The link takes `room` more frames. */
    method Write(p: string, room: nat) returns (ok: bool)
      modifies this`wpartial, this`restoring, this`armed, this`relayed, this`callbackRuns
      ensures old(closed || failed) ==> !ok && Out() == old(Out())
      ensures ok ==> Out() == WriteTo(old(Out()), p, marker)
      ensures !ok && !old(closed || failed) ==>
        var t := WriteTo(old(Out()), p, marker);
        && relayed < t.sent && |relayed| == |old(relayed)| + room
        && callbackRuns == old(callbackRuns) && restoring == t.restoring && wpartial == t.partial
    {
      hide Feed;
      if closed || failed {
        return false;
      }
      wpartial := wpartial + p;
      ghost var w := Out();
      assert w == old(Out()).(partial := old(Out()).partial + p);
      var out, fired := TakeLines();
      ghost var t := Feed(w, marker);
      assert t == WriteTo(old(Out()), p, marker);
      assert t == Writer(wpartial, restoring, armed, relayed + out, callbackRuns + Count(fired));
      for i := 0 to |out|
        invariant relayed == old(relayed) + out[..i] && i <= room
        modifies this`relayed
      {
        if i == room {
          return false;
        }
        relayed := relayed + [out[i]];
      }
      assert out[..|out|] == out;
      if fired {
        callbackRuns := callbackRuns + 1;
      }
      return true;
    }

    /** deliver; `overflows` says whether more is then waiting than a client may leave
        unread. One that does is failed and its claim let go of; what waits stays. */
    method Deliver(id: nat, overflows: bool)
      requires Valid()
      modifies this`rbuf, this`delivered, this`queued, this`closed, this`failed
      ensures Valid()
      ensures In() == if old(closed) || old(failed) then old(In()) else Delivered(old(In()), id)
      ensures !old(closed) && !old(failed) ==>
        rbuf == old(rbuf) + [LineEntry(id)] && delivered == Max(old(delivered), id)
      ensures old(closed) || old(failed) ==> rbuf == old(rbuf) && delivered == old(delivered)
      ensures var ends := overflows && !old(closed) && !old(failed);
              closed == (old(closed) || ends) && failed == (old(failed) || ends)
    {
      if closed || failed {
        return;
      }
      rbuf := rbuf + [LineEntry(id)];
      queued := queued + [LineEntry(id)];
      delivered := Max(delivered, id);
      if overflows {
        failed := true;
        closed := true;
      }
    }

    /** Read, up to where it would wait: up to n entries, [] when there is none. */
    method Read(n: nat) returns (got: seq<Entry>)
      requires Valid()
      modifies this`rbuf, this`probed, this`queued
      ensures Valid() && In() == ReadUpTo(old(In()), closed, n)
      ensures old(rbuf) + (if probed != old(probed) then [Probe(delivered)] else []) == got + rbuf
      ensures probed == if old(rbuf == [] && !closed) then Max(old(probed), delivered) else old(probed)
      ensures |got| <= n && (|got| == n || rbuf == [])
    {
      if rbuf == [] && delivered > probed && !closed {
        probed := delivered;
        rbuf := [Probe(probed)];
        queued := queued + rbuf;
      }
      var k := if n < |rbuf| then n else |rbuf|;
      got := rbuf[..k];
      rbuf := rbuf[k..];
    }
  }

  function Count(b: bool): nat { if b then 1 else 0 }

  /** One link connection: the sessions with an ack to send, and whether it is up. */
  class Conn {
    var ackSet: set<Session>

    constructor ()
      ensures ackSet == {}
    {
      ackSet := {};
    }

    /** Session.Ack and queueAck: the watermark to be sent only ever rises. */
    method Ack(s: Session, n: nat)
      modifies this, s`ackPending
      ensures s.ackPending == Max(old(s.ackPending), n)
      ensures ackSet == if n > old(s.ackPending) then old(ackSet) + {s} else old(ackSet)
    {
      if n <= s.ackPending {
        return;
      }
      s.ackPending := n;
      ackSet := ackSet + {s};
    }

    /** flushAcks. The link takes `room` more frames. Each session it gets to sends its
        pending watermark if that is new; when the link goes, the rest is dropped. */
    method FlushAcks(room: nat) returns (ok: bool)
      modifies this, ackSet`ackSent, ackSet`acks
      ensures ackSet == {}
      ensures forall s :: s in old(ackSet) ==>
        (s.ackSent == old(s.ackSent) && s.acks == old(s.acks))
        || (s.ackSent == s.ackPending > old(s.ackSent) && s.acks == old(s.acks) + [s.ackPending])
      ensures ok ==> forall s :: s in old(ackSet) ==> s.ackSent == Max(old(s.ackSent), s.ackPending)
    {
      var todo := ackSet;
      var left := room;
      ackSet := {};
      while todo != {}
        invariant ackSet == {} && todo <= old(ackSet)
        invariant forall s :: s in todo ==> s.ackSent == old(s.ackSent) && s.acks == old(s.acks)
        invariant forall s :: s in old(ackSet) && s !in todo ==>
          s.ackSent == Max(old(s.ackSent), s.ackPending)
          && s.acks == old(s.acks) + (if s.ackPending > old(s.ackSent) then [s.ackPending] else [])
        decreases |todo|
      {
        var s :| s in todo;
        todo := todo - {s};
        if s.ackPending <= s.ackSent {
          continue;
        }
        if left == 0 {
          return false;
        }
        left := left - 1;
        s.acks := s.acks + [s.ackPending];
        s.ackSent := s.ackPending;
      }
      return true;
    }
  }
}
