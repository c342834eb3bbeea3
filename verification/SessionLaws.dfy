/** What the operations of a held socket come to, said without them: which lines are
    taken and which answered, what is shed, what a link is handed, what an ack does. */
module SessionLaws {
  import opened GoStrings
  import opened IrcLine
  import opened Buffer
  import opened SessionSpec

  // --- What comes in ---

  /** A line for the app: it parses, has something in it, and is neither a PING nor the
      answer to the engine's own probe. */
  predicate ForTheApp(raw: string) {
    Parse(raw).Some? && |TrimBlanks(raw)| >= 2
    && var l := Parse(raw).value;
    l.cmd != "PING" && !(l.cmd == "PONG" && l.Last() == "stugan-engine-probe")
  }

  predicate IsPing(raw: string) { Parse(raw).Some? && |TrimBlanks(raw)| >= 2 && Parse(raw).value.cmd == "PING" }

  /** The backlog with a new line, of which the k oldest were shed: none but to get under
      the cap, and no more than it took. */
  predicate ShedTo(all: seq<BufferedLine>, k: nat, cap: nat) {
    && k < |all|
    && (Cost(all[k..]) <= cap || k == |all| - 1)
    && (k > 0 ==> Cost(all[k - 1..]) > cap)
  }

  /** A line that came in for the app: numbered, kept behind the others, and lines shed
      from the front as far as the cap asks, those no link had counted as lost. */
  ghost predicate TakenIn(s: State, t: State, raw: string, at: int, cap: nat, k: nat) {
    var all := s.buf + [BufferedLine(s.last + 1, at, raw)];
    && ShedTo(all, k, cap) && t.buf == all[k..]
    && t == s.(last := s.last + 1, buf := t.buf, lost := s.lost + |Above(all[..k], s.everSent)|, trk := t.trk)
  }

  /** On an open socket a line for the app is taken in; any other line, and any line of
      a socket that is not open, changes nothing. */
  lemma IngestIff(s: State, raw: string, at: int, cap: nat)
    ensures s.conn.Open? && ForTheApp(raw) ==> exists k :: TakenIn(s, Ingest(s, raw, at, cap), raw, at, cap, k)
    ensures !(s.conn.Open? && ForTheApp(raw)) ==> Ingest(s, raw, at, cap) == s
  {
    TakesIff(raw);
    hide Parse, TrimBlanks, ForTheApp;
    match Classify(raw)
    case Relayed(l) =>
      if s.conn.Open? {
        var a := Append(s, l, raw, at);
        var k := ShedsTo(a, cap);
        hide *;
        AppendOnly(s, l, raw, at);
        assert TakenIn(s, Ingest(s, raw, at, cap), raw, at, cap, k)
          by { IngestIs(s, raw, at, cap); TookIn(s, a, ShedOver(a, cap), raw, at, cap, k); }
      }
    case _ =>
  }

  lemma IngestIs(s: State, raw: string, at: int, cap: nat)
    ensures s.conn.Open? && Classify(raw).Relayed? ==>
      Ingest(s, raw, at, cap) == ShedOver(Append(s, Classify(raw).line, raw, at), cap)
  {
    hide Classify, Append, ShedOver;
  }

  lemma AppendOnly(s: State, l: Line, raw: string, at: int)
    ensures var a := Append(s, l, raw, at);
      a == s.(last := s.last + 1, buf := s.buf + [BufferedLine(s.last + 1, at, raw)], trk := a.trk)
  {
    hide Track;
  }

  lemma TookIn(s: State, a: State, t: State, raw: string, at: int, cap: nat, k: nat)
    requires a == s.(last := s.last + 1, buf := s.buf + [BufferedLine(s.last + 1, at, raw)], trk := a.trk)
    requires ShedTo(a.buf, k, cap)
    requires t == a.(buf := a.buf[k..], lost := a.lost + |Above(a.buf[..k], a.everSent)|)
    ensures TakenIn(s, t, raw, at, cap, k)
  {
    hide Above, ShedTo;
  }

  lemma TakesIff(raw: string)
    ensures Classify(raw).Relayed? <==> ForTheApp(raw)
    ensures Classify(raw).Answered? <==> IsPing(raw)
  {
    hide Parse, TrimBlanks;
  }

  /** How far the shedding loop goes. */
  lemma {:induction false} ShedsTo(a: State, cap: nat) returns (k: nat)
    requires a.buf != []
    ensures ShedTo(a.buf, k, cap)
    ensures ShedOver(a, cap) == a.(buf := a.buf[k..], lost := a.lost + |Above(a.buf[..k], a.everSent)|)
    decreases |a.buf|
  {
    if Cost(a.buf) > cap && |a.buf| > 1 {
      hide Cost;
      var b := DropOldest(a);
      var j := ShedsTo(b, cap);
      k := j + 1;
      assert a.buf[1..][j..] == a.buf[k..];
      assert j > 0 ==> a.buf[1..][j - 1..] == a.buf[k - 1..];
      assert a.buf[0..] == a.buf;
      assert a.buf[..k][1..] == a.buf[1..][..j] && a.buf[..k][0] == a.buf[0];
      assert |Above(a.buf[..k], a.everSent)| ==
        (if a.buf[0].id > a.everSent then 1 else 0) + |Above(b.buf[..j], a.everSent)|;
    } else {
      k := 0;
      assert a.buf[0..] == a.buf && a.buf[..0] == [];
    }
  }

  /** A PING is answered, and nothing else is: with a PONG that carries its last
      parameter. */
  lemma PingIsAnswered(raw: string)
    ensures Classify(raw).Answered? <==> IsPing(raw)
    ensures IsPing(raw) ==> Parse(Classify(raw).reply) == Some(Line("", "PONG", [Parse(raw).value.Last()]))
  {
    TakesIff(raw);
    if IsPing(raw) {
      var x := Parse(raw).value.Last();
      assert Classify(raw).reply == "PONG :" + x by { hide Parse, TrimBlanks; }
      hide Classify, Parse;
      PongParses(x);
    }
  }

  lemma PongParses(x: string)
    ensures Parse("PONG :" + x) == Some(Line("", "PONG", [x]))
  {
    assert Header("", "", "PONG") && ToUpper("PONG") == "PONG";
    LineParses("", "", "PONG", [], Some(x));
    assert Spaced("") + (Spaced("") + ("PONG" + " " + ArgText([], Some(x)))) == "PONG :" + x;
    assert ParamsFrom([], Some(x)) == [x];
    assert HeaderNick("") == "";
  }
}
