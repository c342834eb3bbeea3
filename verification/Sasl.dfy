/** Base64 with padding (RFC 4648, section 4). One char stands for one byte. */
module Base64 {
  import opened GoStrings

  predicate Bytes(s: string) { forall i :: 0 <= i < |s| ==> s[i] as int < 256 }

  function Symbol(n: nat): char
    requires n < 64
  {
    if n < 26 then ('A' as int + n) as char
    else if n < 52 then ('a' as int + n - 26) as char
    else if n < 62 then ('0' as int + n - 52) as char
    else if n == 62 then '+' else '/'
  }

  function Value(c: char): (r: Option<nat>)
    ensures r.Some? ==> r.value < 64
  {
    if 'A' <= c <= 'Z' then Some(c as int - 'A' as int)
    else if 'a' <= c <= 'z' then Some(c as int - 'a' as int + 26)
    else if '0' <= c <= '9' then Some(c as int - '0' as int + 52)
    else if c == '+' then Some(62) else if c == '/' then Some(63) else None
  }

  function At(s: string, i: nat): (b: nat)
    requires Bytes(s) && i < |s|
    ensures b < 256 && b as char == s[i]
  {
    s[i] as int
  }

  /** The four characters for one, two or three bytes. */
  function Quad(s: string): (q: string)
    requires 1 <= |s| <= 3 && Bytes(s)
    ensures |q| == 4
  {
    var a := At(s, 0);
    if |s| == 1 then [Symbol(a / 4), Symbol(a % 4 * 16), '=', '=']
    else
      var b := At(s, 1);
      if |s| == 2 then [Symbol(a / 4), Symbol(a % 4 * 16 + b / 16), Symbol(b % 16 * 4), '=']
      else
        var c := At(s, 2);
        [Symbol(a / 4), Symbol(a % 4 * 16 + b / 16), Symbol(b % 16 * 4 + c / 64), Symbol(c % 64)]
  }

  lemma BytesParts(s: string, n: nat)
    requires Bytes(s) && n <= |s|
    ensures Bytes(s[..n]) && Bytes(s[n..])
  {}

  function Encode(s: string): string
    requires Bytes(s)
  {
    if s == "" then ""
    else if |s| <= 3 then Quad(s)
    else
      BytesParts(s, 3);
      Quad(s[..3]) + Encode(s[3..])
  }

  lemma {:induction false} EncodeLength(s: string)
    requires Bytes(s)
    ensures |Encode(s)| == (|s| + 2) / 3 * 4
  {
    hide Quad;
    if |s| > 3 {
      BytesParts(s, 3);
      EncodeLength(s[3..]);
    }
  }

  /** The bytes of four characters; fewer than three only with padding. */
  function Unquad(q: string): Option<string>
    requires |q| == 4
  {
    var v0, v1 := Value(q[0]), Value(q[1]);
    if v0.None? || v1.None? then None
    else
      var a := (v0.value * 4 + v1.value / 16) as char;
      if q[2] == '=' then (if q[3] == '=' then Some([a]) else None)
      else
        var v2 := Value(q[2]);
        if v2.None? then None
        else
          var b := (v1.value % 16 * 16 + v2.value / 4) as char;
          if q[3] == '=' then Some([a, b])
          else
            var v3 := Value(q[3]);
            if v3.None? then None else Some([a, b, (v2.value % 4 * 64 + v3.value) as char])
  }

  function Decode(t: string): Option<string> {
    if t == "" then Some("")
    else if |t| < 4 then None
    else
      match Unquad(t[..4])
      case None => None
      case Some(head) =>
        if |t| == 4 then Some(head)
        else if |head| < 3 then None
        else
          match Decode(t[4..])
          case None => None
          case Some(tail) => Some(head + tail)
  }

  lemma SymbolValue(n: nat)
    requires n < 64
    ensures Value(Symbol(n)) == Some(n) && Symbol(n) != '='
  {}

  /** Splitting three bytes over four sextets and back. */
  lemma Sextets(a: nat, b: nat, c: nat)
    requires a < 256 && b < 256 && c < 256
    ensures a / 4 * 4 + (a % 4 * 16 + b / 16) / 16 == a && a / 4 * 4 + a % 4 * 16 / 16 == a
    ensures (a % 4 * 16 + b / 16) % 16 * 16 + (b % 16 * 4 + c / 64) / 4 == b
    ensures (a % 4 * 16 + b / 16) % 16 * 16 + b % 16 * 4 / 4 == b
    ensures (b % 16 * 4 + c / 64) % 4 * 64 + c % 64 == c
  {}

  lemma UnquadOf(v0: nat, v1: nat, v2: nat, v3: nat)
    requires v0 < 64 && v1 < 64 && v2 < 64 && v3 < 64
    ensures var a, b, c := (v0 * 4 + v1 / 16) as char, (v1 % 16 * 16 + v2 / 4) as char, (v2 % 4 * 64 + v3) as char;
      && Unquad([Symbol(v0), Symbol(v1), '=', '=']) == Some([a])
      && Unquad([Symbol(v0), Symbol(v1), Symbol(v2), '=']) == Some([a, b])
      && Unquad([Symbol(v0), Symbol(v1), Symbol(v2), Symbol(v3)]) == Some([a, b, c])
  {
    SymbolValue(v0);
    SymbolValue(v1);
    SymbolValue(v2);
    SymbolValue(v3);
    hide Symbol, Value;
  }

  lemma QuadRoundTrip(s: string)
    requires 1 <= |s| <= 3 && Bytes(s)
    ensures Unquad(Quad(s)) == Some(s)
  {
    hide Symbol, Unquad;
    var a := At(s, 0);
    if |s| == 1 {
      Sextets(a, 0, 0);
      UnquadOf(a / 4, a % 4 * 16, 0, 0);
      assert s == [a as char];
    } else if |s| == 2 {
      var b := At(s, 1);
      Sextets(a, b, 0);
      UnquadOf(a / 4, a % 4 * 16 + b / 16, b % 16 * 4, 0);
      assert s == [a as char, b as char];
    } else {
      var b, c := At(s, 1), At(s, 2);
      Sextets(a, b, c);
      UnquadOf(a / 4, a % 4 * 16 + b / 16, b % 16 * 4 + c / 64, c % 64);
      assert s == [a as char, b as char, c as char];
    }
  }

  lemma {:induction false} RoundTrip(s: string)
    requires Bytes(s)
    ensures Decode(Encode(s)) == Some(s)
  {
    if s != "" {
      var t := Encode(s);
      hide Quad, Unquad;
      if |s| <= 3 {
        QuadRoundTrip(s);
        assert t[..4] == t;
      } else {
        BytesParts(s, 3);
        QuadRoundTrip(s[..3]);
        RoundTrip(s[3..]);
        assert t[..4] == Quad(s[..3]) && t[4..] == Encode(s[3..]);
        assert s == s[..3] + s[3..];
      }
    }
  }
}

/** SASL PLAIN (RFC 4616, section 2) between stugan's own client, internal/irc/sasl.go,
    and its own server, internal/ircserver/session.go. One char stands for one byte. */
module Sasl {
  import opened GoStrings
  import opened Base64
  import opened Bouncer

  const CHUNK: nat := 400
  const MAX_RESPONSE: nat := 8192

  // --- The client ---

  function Message(user: string, pass: string): string { "\0" + user + ("\0" + pass) }

  function Chunks(payload: string): (cs: seq<string>)
    ensures cs != []
  {
    if |payload| <= CHUNK then [payload] else [payload[..CHUNK]] + Chunks(payload[CHUNK..])
  }

  /** sendChunked: what it sends itself, and the chunk it leaves to girc. */
  method SendChunked(payload: string) returns (sent: seq<string>, last: string)
    ensures sent + [last] == Chunks(payload)
  {
    sent, last := [], payload;
    while |last| > CHUNK
      invariant sent + Chunks(last) == Chunks(payload)
      decreases |last|
    {
      assert sent + ([last[..CHUNK]] + Chunks(last[CHUNK..])) == sent + [last[..CHUNK]] + Chunks(last[CHUNK..]);
      sent := sent + [last[..CHUNK]];
      last := last[CHUNK..];
    }
  }

  /** Every AUTHENTICATE parameter of one response: the chunks, and a "+" from girc
      behind a last one that is full. */
  function Lines(payload: string): seq<string> {
    var cs := Chunks(payload);
    if |cs[|cs| - 1]| == CHUNK then cs + ["+"] else cs
  }

  // --- The server ---

  /** The server's side: the mechanism under way, what it collected, every response it
      took as complete, and how often it answered 904. */
  datatype Server = Server(cap: bool, mech: string, buf: string, finished: seq<string>, refused: nat)

  function Finish(s: Server, payload: string): Server {
    s.(mech := "", buf := "", finished := s.finished + [payload])
  }

  /** handleSasl. */
  function Handle(s: Server, arg: string): Server {
    if !s.cap then s.(refused := s.refused + 1)
    else if s.mech == "" then
      if ToUpper(arg) == "PLAIN" then s.(mech := "PLAIN", buf := "") else s.(refused := s.refused + 1)
    else if arg == "*" then s.(mech := "", buf := "")
    else if arg == "+" then Finish(s, s.buf)
    else if |s.buf| + |arg| > MAX_RESPONSE then s.(mech := "", buf := "", refused := s.refused + 1)
    else if |arg| == CHUNK then s.(buf := s.buf + arg)
    else Finish(s, s.buf + arg)
  }

  function HandleAll(s: Server, args: seq<string>): Server
    decreases |args|
  {
    if args == [] then s else HandleAll(Handle(s, args[0]), args[1..])
  }

  /** finishSaslPlain up to the login: who wants in, with which password. */
  function Credentials(payload: string): Option<(Login, string)> {
    match Decode(payload)
    case None => None
    case Some(decoded) =>
      var parts := Split(decoded, '\0');
      if |parts| != 3 then None
      else
        var login := UnmarshalLogin(if parts[1] == "" then parts[0] else parts[1]);
        if login.username == "" || parts[2] == "" then None else Some((login, parts[2]))
  }

  /** handleSasl on the session's own fields. */
  class Session {
    var cap: bool
    var saslMech: string
    var saslBuf: string
    var finished: seq<string>
    var refused: nat

    constructor (cap: bool)
      ensures View() == Server(cap, "", "", [], 0)
    {
      this.cap, saslMech, saslBuf, finished, refused := cap, "", "", [], 0;
    }

    function View(): Server
      reads this
    {
      Server(cap, saslMech, saslBuf, finished, refused)
    }

    method HandleSasl(arg: string)
      modifies this
      ensures View() == Handle(old(View()), arg)
    {
      if !cap {
        refused := refused + 1;
        return;
      }
      if saslMech == "" {
        var mech := ToUpper(arg);
        if mech != "PLAIN" {
          refused := refused + 1;
          return;
        }
        saslMech, saslBuf := mech, "";
        return;
      }
      if arg == "*" {
        saslMech, saslBuf := "", "";
        return;
      }
      if arg != "+" {
        saslBuf := saslBuf + arg;
        if |saslBuf| > MAX_RESPONSE {
          saslBuf, saslMech := "", "";
          refused := refused + 1;
          return;
        }
        if |arg| == 400 {
          return;
        }
      }
      var payload := saslBuf;
      saslBuf, saslMech := "", "";
      finished := finished + [payload];
    }
  }

  // --- Chunks and reassembly ---

  /** Nothing of a refused response looks like the start of another: its chunks have
      lengths that are multiples of four. */
  predicate Unlike(args: seq<string>) { forall a :: a in args ==> |a| % 4 == 0 || a == "+" }

  lemma {:induction false} DeafToTheRest(s: Server, args: seq<string>)
    requires s.cap && s.mech == "" && Unlike(args)
    ensures HandleAll(s, args).finished == s.finished && HandleAll(s, args).mech == ""
    decreases |args|
  {
    if args != [] {
      assert args[0] in args;
      assert |ToUpper(args[0])| != |"PLAIN"|;
      DeafToTheRest(Handle(s, args[0]), args[1..]);
    }
  }

  lemma {:induction false} ChunksAreUnlike(payload: string)
    requires |payload| % 4 == 0
    ensures Unlike(Chunks(payload))
  {
    if |payload| > CHUNK {
      ChunksAreUnlike(payload[CHUNK..]);
    }
  }

  lemma LinesShort(payload: string)
    requires 0 < |payload| < CHUNK
    ensures Lines(payload) == [payload]
  {}

  lemma LinesFull(payload: string)
    requires |payload| == CHUNK
    ensures Lines(payload) == [payload, "+"]
  {}

  lemma LinesLong(payload: string)
    requires |payload| > CHUNK
    ensures Lines(payload) == [payload[..CHUNK]] + Lines(payload[CHUNK..])
  {
    var cs, more := Chunks(payload), Chunks(payload[CHUNK..]);
    assert cs[|cs| - 1] == more[|more| - 1];
  }

  lemma HandleFirst(s: Server, a: string, rest: seq<string>)
    ensures HandleAll(s, [a] + rest) == HandleAll(Handle(s, a), rest)
  {
    hide Handle;
    assert ([a] + rest)[1..] == rest;
  }

  /** With some chunks already collected, the rest completes the response if it is not
      too long, and otherwise none. */
  lemma {:induction false} Reassembles(s: Server, rest: string)
    requires s.cap && s.mech == "PLAIN" && rest != "" && |rest| % 4 == 0
    ensures var t := HandleAll(s, Lines(rest));
            t.mech == "" &&
            t.finished == s.finished + (if |s.buf| + |rest| <= MAX_RESPONSE then [s.buf + rest] else [])
    decreases |rest|
  {
    if |rest| < CHUNK {
      LinesShort(rest);
      HandleFirst(s, rest, []);
      assert [rest] + [] == [rest];
    } else if |rest| == CHUNK {
      LinesFull(rest);
      HandleFirst(s, rest, ["+"]);
      assert [rest] + ["+"] == [rest, "+"];
      HandleFirst(Handle(s, rest), "+", []);
      assert ["+"] + [] == ["+"];
      assert ToUpper("+") != "PLAIN" by { assert |ToUpper("+")| == 1; }
    } else {
      var head, tail := rest[..CHUNK], rest[CHUNK..];
      var u := Handle(s, head);
      LinesLong(rest);
      hide Lines;
      HandleFirst(s, head, Lines(tail));
      assert |head| == CHUNK;
      if |s.buf| + CHUNK > MAX_RESPONSE {
        LinesAreUnlike(tail);
        DeafToTheRest(u, Lines(tail));
      } else {
        Reassembles(u, tail);
        assert s.buf + head + tail == s.buf + rest;
      }
    }
  }

  lemma LinesAreUnlike(payload: string)
    requires |payload| % 4 == 0
    ensures Unlike(Lines(payload))
  {
    ChunksAreUnlike(payload);
  }

  /** A whole exchange: AUTHENTICATE PLAIN, then one response. */
  function Exchange(s: Server, payload: string): Server {
    HandleAll(s, ["PLAIN"] + Lines(payload))
  }

  lemma ExchangeIs(s: Server, payload: string)
    requires s.cap && s.mech == "" && payload != "" && |payload| % 4 == 0
    ensures var t := Exchange(s, payload);
            t.mech == "" && t.finished == s.finished + (if |payload| <= MAX_RESPONSE then [payload] else [])
  {
    HandleFirst(s, "PLAIN", Lines(payload));
    assert ToUpper("PLAIN") == "PLAIN" by {
      assert ToUpper("PLAIN")[0] == 'P' && ToUpper("PLAIN")[1] == 'L' && ToUpper("PLAIN")[2] == 'A'
          && ToUpper("PLAIN")[3] == 'I' && ToUpper("PLAIN")[4] == 'N';
    }
    var u := Handle(s, "PLAIN");
    Reassembles(u, payload);
    assert u.buf + payload == payload;
  }

  lemma MessageSplits(user: string, pass: string)
    requires '\0' !in user && '\0' !in pass
    ensures Split(Message(user, pass), '\0') == ["", user, pass]
  {
    SplitAt("", '\0', user + ['\0'] + pass);
    SplitAt(user, '\0', pass);
    LastSplit(pass);
    MessageText(user, pass);
    hide Split;
    assert [""] + ([user] + [pass]) == ["", user, pass];
  }

  lemma LastSplit(pass: string)
    requires '\0' !in pass
    ensures Split(pass, '\0') == [pass]
  {}

  lemma MessageText(user: string, pass: string)
    ensures Message(user, pass) == "" + ['\0'] + (user + ['\0'] + pass)
  {}

  /** Whatever user and password, and however many chunks the response takes: if its
      base64 fits, the server completes exactly one response, and reads that very user
      and password off it (nobody, if either is empty); if not, it completes none. */
  lemma PlainLogsIn(s: Server, user: string, pass: string)
    requires s.cap && s.mech == ""
    requires Bytes(user) && Bytes(pass) && '\0' !in user && '\0' !in pass
    ensures Bytes(Message(user, pass))
    ensures var payload := Encode(Message(user, pass));
            var t := Exchange(s, payload);
            && t.mech == ""
            && Credentials(payload) ==
                 (if UnmarshalLogin(user).username == ""
                   || pass == "" then None else Some((UnmarshalLogin(user), pass)))
            && t.finished == s.finished + (if |payload| <= MAX_RESPONSE then [payload] else [])
  {
    hide *;
    MessageIs(user, pass);
    var m := Message(user, pass);
    var payload := Encode(m);
    RoundTrip(m);
    EncodeLength(m);
    MessageSplits(user, pass);
    LoginIs(payload, m, user, pass);
    ExchangeIs(s, payload);
  }

  lemma MessageIs(user: string, pass: string)
    requires Bytes(user) && Bytes(pass)
    ensures Bytes(Message(user, pass)) && |Message(user, pass)| >= 2
  {}

  lemma LoginIs(payload: string, decoded: string, user: string, pass: string)
    requires Decode(payload) == Some(decoded) && Split(decoded, '\0') == ["", user, pass]
    ensures Credentials(payload) ==
      if UnmarshalLogin(user).username == "" || pass == "" then None else Some((UnmarshalLogin(user), pass))
  {
    hide Decode, Split, UnmarshalLogin;
  }

  /** How long the response is, from the lengths of the two. */
  lemma ResponseLength(user: string, pass: string)
    requires Bytes(user) && Bytes(pass)
    ensures Bytes(Message(user, pass)) && |Encode(Message(user, pass))| == (|user| + |pass| + 4) / 3 * 4
  {
    MessageIs(user, pass);
    EncodeLength(Message(user, pass));
    hide Encode;
  }

  // --- One message at a time ---

  /** The mechanism's name, in any case. */
  predicate NamesPlain(arg: string) {
    |arg| == 5 && forall i :: 0 <= i < 5 ==> arg[i] == "PLAIN"[i] || arg[i] == "plain"[i]
  }

  lemma NamesPlainIff(arg: string)
    ensures ToUpper(arg) == "PLAIN" <==> NamesPlain(arg)
  {
    if ToUpper(arg) == "PLAIN" {
      forall i | 0 <= i < 5
        ensures arg[i] == "PLAIN"[i] || arg[i] == "plain"[i]
      {
        assert ToUpper(arg)[i] == "PLAIN"[i];
      }
    }
    if NamesPlain(arg) {
      forall i | 0 <= i < 5
        ensures ToUpper(arg)[i] == "PLAIN"[i]
      {
        assert arg[i] == "PLAIN"[i] || arg[i] == "plain"[i];
      }
      assert ToUpper(arg) == "PLAIN";
    }
  }

  /** A response that got too long. */
  predicate TooLong(s: Server, arg: string) { arg != "*" && arg != "+" && |s.buf| + |arg| > 8192 }

  /** What a message is answered by: with a refusal if the capability is not there, if it
      names no mechanism there is, or if the response got too long; it completes a response
      if one is under way and this is its last part, short of 400 bytes or a lone "+"; it
      is one part more if it has 400; "*" gives the exchange up. */
  lemma MessageIsHandled(s: Server, arg: string)
    ensures var t := Handle(s, arg);
      var refused := !s.cap || (s.mech == "" && !NamesPlain(arg)) || (s.mech != "" && TooLong(s, arg));
      var completes := !refused && s.mech != "" && (arg == "+" || (arg != "*" && |arg| != 400));
      var continues := !refused && s.mech != "" && arg != "+" && |arg| == 400;
      && t.cap == s.cap
      && t.refused == (if refused then s.refused + 1 else s.refused)
      && t.finished == (if completes then s.finished + [if arg == "+" then s.buf else s.buf + arg] else s.finished)
      && (!s.cap ==> t.mech == s.mech && t.buf == s.buf)
      && (s.cap && s.mech == "" ==> t.mech == if refused then "" else "PLAIN")
      && (s.cap && s.mech == "" && !refused ==> t.buf == "")
      && (s.cap && s.mech != "" ==>
            t.mech == (if continues then s.mech else "") && t.buf == if continues then s.buf + arg else "")
  {
    NamesPlainIff(arg);
    hide ToUpper, NamesPlain;
  }

  /** Without the capability nothing is ever completed: every message is refused. */
  lemma {:induction false} NothingWithoutTheCapability(s: Server, args: seq<string>)
    requires !s.cap
    ensures HandleAll(s, args).finished == s.finished && HandleAll(s, args).refused == s.refused + |args|
    decreases |args|
  {
    if args != [] {
      NothingWithoutTheCapability(Handle(s, args[0]), args[1..]);
    }
  }

  /** Who a decoded response logs in: the second of its three parts, or the first if that
      is empty, with the third for a password; nobody, if there are not just three, if
      there is no name, or no password. */
  lemma WhoLogsIn(a: string, b: string, p: string)
    requires '\0' !in a && '\0' !in b && '\0' !in p && Bytes(a + ['\0'] + (b + ['\0'] + p))
    ensures var login := UnmarshalLogin(if b == "" then a else b);
      Credentials(Encode(a + ['\0'] + (b + ['\0'] + p))) ==
        if login.username == "" || p == "" then None else Some((login, p))
  {
    var m := a + ['\0'] + (b + ['\0'] + p);
    RoundTrip(m);
    SplitAt(a, '\0', b + ['\0'] + p);
    SplitAt(b, '\0', p);
    LastSplit(p);
    hide Encode, Decode, Split, UnmarshalLogin;
    assert [a] + ([b] + [p]) == [a, b, p];
  }

  lemma NotThreeParts(m: string)
    requires Bytes(m) && |Split(m, '\0')| != 3
    ensures Credentials(Encode(m)) == None
  {
    RoundTrip(m);
    hide Encode, Decode, Split, UnmarshalLogin;
  }
}
