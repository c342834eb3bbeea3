/** Bouncer networks, both ends: the attribute rows internal/ircserver/session.go
    writes and internal/core/bouncer.go reads, and the logins bouncer.go builds and
    internal/ircserver/parse.go takes apart. One char stands for one rune. */
module Bouncer {
  import opened GoStrings

  // --- Escaping ---

  function EscapeChar(c: char): string {
    if c == ';' then "\\:"
    else if c == ' ' then "\\s"
    else if c == '\\' then "\\\\"
    else if c == '\r' then "\\r"
    else if c == '\n' then "\\n"
    else [c]
  }

  /** EscapeTagValue, and bouncerEscaper's Replace as well. */
  function Escape(v: string): string {
    if v == "" then "" else EscapeChar(v[0]) + Escape(v[1..])
  }

  /** What an escaped character stands for; None when it is no escape. */
  function Escaped(c: char): Option<char> {
    if c == ':' then Some(';')
    else if c == 's' then Some(' ')
    else if c == '\\' then Some('\\')
    else if c == 'r' then Some('\r')
    else if c == 'n' then Some('\n')
    else None
  }

  /** UnescapeTagValue: a backslash before anything else is dropped. */
  function Unescape(v: string): string {
    if v == "" then ""
    else if v[0] != '\\' then [v[0]] + Unescape(v[1..])
    else if |v| == 1 then ""
    else [Escaped(v[1]).GetOr(v[1])] + Unescape(v[2..])
  }

  /** bouncerUnescaper's Replace: a backslash before anything else stays. */
  function Replaced(v: string): string {
    if v == "" then ""
    else if v[0] == '\\' && |v| > 1 && Escaped(v[1]).Some? then [Escaped(v[1]).value] + Replaced(v[2..])
    else [v[0]] + Replaced(v[1..])
  }

  method EscapeTagValue(v: string) returns (s: string)
    ensures s == Escape(v)
  {
    s := "";
    for i := 0 to |v|
      invariant s + Escape(v[i..]) == Escape(v)
    {
      assert s + (EscapeChar(v[i]) + Escape(v[i..][1..])) == s + EscapeChar(v[i]) + Escape(v[i..][1..]);
      assert v[i..][1..] == v[i + 1..];
      s := s + EscapeChar(v[i]);
    }
    assert v[|v|..] == "";
  }

  lemma UnescapeNext(v: string, i: nat)
    requires i < |v|
    ensures v[i] != '\\' ==> Unescape(v[i..]) == [v[i]] + Unescape(v[i + 1..])
    ensures v[i] == '\\' && i + 1 < |v| ==>
      Unescape(v[i..]) == [Escaped(v[i + 1]).GetOr(v[i + 1])] + Unescape(v[i + 2..])
    ensures v[i] == '\\' && i + 1 == |v| ==> Unescape(v[i..]) == ""
  {
    assert v[i..][1..] == v[i + 1..];
    assert i + 1 < |v| ==> v[i..][2..] == v[i + 2..] && v[i..][1] == v[i + 1];
  }

  method UnescapeTagValue(v: string) returns (s: string)
    ensures s == Unescape(v)
  {
    s := "";
    var escaped := false;
    assert v[0..] == v;
    for i := 0 to |v|
      invariant escaped ==> i > 0 && v[i - 1] == '\\'
      invariant s + Unescape(v[if escaped then i - 1 else i..]) == Unescape(v)
    {
      hide Unescape, Escaped;
      var r := v[i];
      if escaped {
        UnescapeNext(v, i - 1);
        var c := Escaped(r).GetOr(r);
        Regroup(s, c, Unescape(v[i + 1..]));
        s := s + [c];
        escaped := false;
      } else if r == '\\' {
        escaped := true;
      } else {
        UnescapeNext(v, i);
        Regroup(s, r, Unescape(v[i + 1..]));
        s := s + [r];
      }
    }
    if escaped {
      UnescapeNext(v, |v| - 1);
    }
  }

  lemma Regroup(s: string, c: char, t: string)
    ensures s + ([c] + t) == s + [c] + t
  {}

  lemma EscapeStep(c: char, rest: string)
    ensures Unescape(EscapeChar(c) + rest) == [c] + Unescape(rest)
    ensures Replaced(EscapeChar(c) + rest) == [c] + Replaced(rest)
  {
    var s := EscapeChar(c) + rest;
    assert s[|EscapeChar(c)|..] == rest;
    assert |EscapeChar(c)| == 2 ==> s[1] == EscapeChar(c)[1];
  }

  lemma {:induction false} EscapeRoundTrip(v: string)
    ensures Unescape(Escape(v)) == v && Replaced(Escape(v)) == v
  {
    if v != "" {
      EscapeRoundTrip(v[1..]);
      EscapeStep(v[0], Escape(v[1..]));
      hide EscapeChar, Unescape, Replaced;
      assert v == [v[0]] + v[1..];
    }
  }

  lemma {:induction false} EscapeHides(v: string)
    ensures ';' !in Escape(v) && ' ' !in Escape(v) && '\r' !in Escape(v) && '\n' !in Escape(v)
  {
    if v != "" {
      EscapeHides(v[1..]);
    }
  }

  // --- Attribute rows ---

  datatype BouncerNetwork = BouncerNetwork(
    id: string, name: string, host: string, port: int, tls: bool, nick: string, state: string, error: string)

  datatype State = Registered | Connecting | Other

  /** What a row is written from; the port is whatever the address has for one. */
  datatype Row = Row(name: string, state: State, host: string, port: string, tls: bool, nick: string)

  function StateName(s: State): string {
    match s
    case Registered => "connected"
    case Connecting => "connecting"
    case Other => "disconnected"
  }

  /** The attributes of a row, each with its value as written. */
  function Written(r: Row): seq<(string, string)> {
    [("name", Escape(r.name)), ("state", StateName(r.state)), ("host", Escape(r.host)),
     ("port", r.port), ("tls", if r.tls then "1" else "0"), ("nickname", Escape(r.nick))]
  }

  function Pair(kv: (string, string)): string { kv.0 + ['='] + kv.1 }

  function Pairs(kvs: seq<(string, string)>): seq<string> {
    if kvs == [] then [] else [Pair(kvs[0])] + Pairs(kvs[1..])
  }

  /** The attribute string of sendNetworkList. */
  function Attrs(r: Row): string { Join(Pairs(Written(r)), ";") }

  /** strconv.Atoi but for its range; a value it cannot read counts as 0. */
  function Atoi(s: string): int {
    var neg := s != "" && s[0] == '-';
    var digits := if s != "" && (s[0] == '+' || s[0] == '-') then s[1..] else s;
    match ParseUint(digits)
    case None => 0
    case Some(n) => (if neg then -1 else 1) * n
  }

  function SetAttr(b: BouncerNetwork, key: string, v: string): BouncerNetwork {
    if key == "name" then b.(name := v)
    else if key == "host" then b.(host := v)
    else if key == "port" then b.(port := Atoi(v))
    else if key == "tls" then b.(tls := v == "1")
    else if key == "nickname" then b.(nick := v)
    else if key == "state" then b.(state := v)
    else if key == "error" then b.(error := v)
    else b
  }

  function SetAll(b: BouncerNetwork, pairs: seq<string>): BouncerNetwork
    decreases |pairs|
  {
    if pairs == [] then b
    else SetAll(SetAttr(b, Before(pairs[0], '='), Replaced(After(pairs[0], '='))), pairs[1..])
  }

  function KeysOf(pairs: seq<string>): seq<string> {
    seq(|pairs|, i requires 0 <= i < |pairs| => Before(pairs[i], '='))
  }

  const NOTHING := BouncerNetwork("", "", "", 0, false, "", "", "")

  /** ParseBouncerAttrs. */
  method ParseBouncerAttrs(id: string, attrs: string) returns (b: BouncerNetwork, keys: seq<string>)
    ensures b == SetAll(NOTHING.(id := id), Split(attrs, ';')) && keys == KeysOf(Split(attrs, ';'))
  {
    hide *;
    var pairs := Split(attrs, ';');
    b, keys := NOTHING.(id := id), [];
    NoPairs(b, pairs);
    for i := 0 to |pairs|
      invariant keys == KeysOf(pairs[..i])
      invariant SetAll(b, pairs[i..]) == SetAll(NOTHING.(id := id), pairs)
    {
      NextPair(b, pairs, i);
      var k, v := Before(pairs[i], '='), After(pairs[i], '=');
      keys := keys + [k];
      b := SetAttr(b, k, Replaced(v));
    }
    NoPairs(b, pairs);
  }

  lemma NoPairs(b: BouncerNetwork, pairs: seq<string>)
    ensures KeysOf(pairs[..0]) == [] && pairs[0..] == pairs && pairs[..|pairs|] == pairs
    ensures SetAll(b, pairs[|pairs|..]) == b
  {}

  lemma NextPair(b: BouncerNetwork, pairs: seq<string>, i: nat)
    requires i < |pairs|
    ensures KeysOf(pairs[..i + 1]) == KeysOf(pairs[..i]) + [Before(pairs[i], '=')]
    ensures SetAll(b, pairs[i..])
      == SetAll(SetAttr(b, Before(pairs[i], '='), Replaced(After(pairs[i], '='))), pairs[i + 1..])
  {
    hide SetAttr, Replaced, Before, After;
    assert pairs[i..][1..] == pairs[i + 1..];
  }

  function Take(was: BouncerNetwork, patch: BouncerNetwork, key: string): BouncerNetwork {
    if key == "name" then was.(name := patch.name)
    else if key == "host" then was.(host := patch.host)
    else if key == "port" then was.(port := patch.port)
    else if key == "tls" then was.(tls := patch.tls)
    else if key == "nickname" then was.(nick := patch.nick)
    else if key == "state" then was.(state := patch.state)
    else if key == "error" then was.(error := patch.error)
    else was
  }

  function TakeAll(was: BouncerNetwork, patch: BouncerNetwork, keys: seq<string>): BouncerNetwork
    decreases |keys|
  {
    if keys == [] then was else TakeAll(Take(was, patch, keys[0]), patch, keys[1..])
  }

  predicate Merged(b: BouncerNetwork, was: BouncerNetwork, patch: BouncerNetwork, keys: seq<string>) {
    && b.id == was.id
    && b.name == (if "name" in keys then patch.name else was.name)
    && b.host == (if "host" in keys then patch.host else was.host)
    && b.port == (if "port" in keys then patch.port else was.port)
    && b.tls == (if "tls" in keys then patch.tls else was.tls)
    && b.nick == (if "nickname" in keys then patch.nick else was.nick)
    && b.state == (if "state" in keys then patch.state else was.state)
    && b.error == (if "error" in keys then patch.error else was.error)
  }

  lemma OneMore(keys: seq<string>, k: string, x: string)
    ensures x in keys + [k] <==> x in keys || x == k
  {}

  lemma MergedStep(b: BouncerNetwork, was: BouncerNetwork, patch: BouncerNetwork, keys: seq<string>, k: string)
    requires Merged(b, was, patch, keys)
    ensures Merged(Take(b, patch, k), was, patch, keys + [k])
  {
    OneMore(keys, k, "name");
    OneMore(keys, k, "host");
    OneMore(keys, k, "port");
    OneMore(keys, k, "tls");
    OneMore(keys, k, "nickname");
    OneMore(keys, k, "state");
    OneMore(keys, k, "error");
    TakeIs(b, patch, k);
    hide Take;
  }

  lemma TakeIs(b: BouncerNetwork, patch: BouncerNetwork, k: string)
    ensures var t := Take(b, patch, k);
      && t.id == b.id
      && t.name == (if k == "name" then patch.name else b.name)
      && t.host == (if k == "host" then patch.host else b.host)
      && t.port == (if k == "port" then patch.port else b.port)
      && t.tls == (if k == "tls" then patch.tls else b.tls)
      && t.nick == (if k == "nickname" then patch.nick else b.nick)
      && t.state == (if k == "state" then patch.state else b.state)
      && t.error == (if k == "error" then patch.error else b.error)
  {}

  /** A merge takes the named attributes from the patch and no other; the id stays. */
  method MergeBouncerAttrs(was: BouncerNetwork, patch: BouncerNetwork, keys: seq<string>) returns (b: BouncerNetwork)
    ensures Merged(b, was, patch, keys) && b == TakeAll(was, patch, keys)
  {
    b := was;
    assert Merged(b, was, patch, []);
    hide Merged, Take;
    for i := 0 to |keys|
      invariant Merged(b, was, patch, keys[..i])
      invariant TakeAll(b, patch, keys[i..]) == TakeAll(was, patch, keys)
    {
      assert keys[i..][1..] == keys[i + 1..];
      assert keys[..i + 1] == keys[..i] + [keys[i]];
      MergedStep(b, was, patch, keys[..i], keys[i]);
      b := Take(b, patch, keys[i]);
    }
    assert keys[..|keys|] == keys;
  }

  lemma PairCuts(kv: (string, string))
    requires '=' !in kv.0
    ensures Before(Pair(kv), '=') == kv.0 && After(Pair(kv), '=') == kv.1
  {
    CutAt(kv.0, '=', kv.1);
  }

  lemma {:induction false} NoBackslash(v: string)
    requires '\\' !in v
    ensures Replaced(v) == v
  {
    if v != "" {
      NoBackslash(v[1..]);
    }
  }

  /** The port the client ends up with. */
  function PortRead(port: string): int { Atoi(Replaced(port)) }

  /** A port in decimal, zeros in front of it or not, is read as the number it is; it
      brings no separator. */
  lemma DecimalPort(port: string)
    requires ParseUint(port).Some?
    ensures PortRead(port) == ParseUint(port).value && ';' !in port
  {
    OnlyDigits(port);
    NoBackslash(port);
    assert Digit(port[0]);
    hide ParseUint, Replaced;
  }

  lemma {:induction false} OnlyDigits(s: string)
    requires ParseUint(s).Some?
    ensures s != "" && forall i :: 0 <= i < |s| ==> Digit(s[i])
  {
    if |s| > 1 {
      var init := s[..|s| - 1];
      OnlyDigits(init);
      assert forall i :: 0 <= i < |s| - 1 ==> s[i] == init[i];
    }
  }

  /** The port of a service's name is read as 0. */
  lemma NamedPort(port: string)
    requires port != "" && !Digit(port[|port| - 1]) && '\\' !in port
    ensures PortRead(port) == 0
  {
    NoBackslash(port);
    var digits := if port[0] == '+' || port[0] == '-' then port[1..] else port;
    assert digits != "" ==> digits[|digits| - 1] == port[|port| - 1];
  }

  lemma PlainValues(r: Row)
    ensures '\\' !in StateName(r.state) && ';' !in StateName(r.state)
    ensures var t := if r.tls then "1" else "0"; '\\' !in t && ';' !in t
  {}

  predicate Clean(kvs: seq<(string, string)>) {
    forall kv :: kv in kvs ==> '=' !in kv.0 && ';' !in kv.0 && ';' !in kv.1
  }

  lemma WrittenIsClean(r: Row)
    requires ';' !in r.port
    ensures Clean(Written(r))
  {
    EscapeHides(r.name);
    EscapeHides(r.host);
    EscapeHides(r.nick);
    PlainValues(r);
    hide Escape, StateName;
  }

  lemma {:induction false} PairsSplit(kvs: seq<(string, string)>)
    requires Clean(kvs) && kvs != []
    ensures Split(Join(Pairs(kvs), [';']), ';') == Pairs(kvs)
  {
    PairsHaveNoSeparator(kvs);
    SplitJoin(Pairs(kvs), ';');
  }

  lemma {:induction false} PairsHaveNoSeparator(kvs: seq<(string, string)>)
    requires Clean(kvs)
    ensures forall p :: p in Pairs(kvs) ==> ';' !in p
  {
    if kvs != [] {
      PairsHaveNoSeparator(kvs[1..]);
      assert kvs[0] in kvs;
    }
  }

  function Keys(kvs: seq<(string, string)>): seq<string> {
    if kvs == [] then [] else [kvs[0].0] + Keys(kvs[1..])
  }

  lemma {:induction false} KeysCut(kvs: seq<(string, string)>)
    requires Clean(kvs)
    ensures KeysOf(Pairs(kvs)) == Keys(kvs)
  {
    if kvs != [] {
      assert kvs[0] in kvs;
      PairCuts(kvs[0]);
      KeysCut(kvs[1..]);
      hide Pair, Before;
      var ps := Pairs(kvs);
      assert KeysOf(ps) == [Before(ps[0], '=')] + KeysOf(ps[1..]);
    }
  }

  function SetMeant(b: BouncerNetwork, kvs: seq<(string, string)>): BouncerNetwork
    decreases |kvs|
  {
    if kvs == [] then b else SetMeant(SetAttr(b, kvs[0].0, Replaced(kvs[0].1)), kvs[1..])
  }

  lemma {:induction false} SetAllMeans(b: BouncerNetwork, kvs: seq<(string, string)>)
    requires Clean(kvs)
    ensures SetAll(b, Pairs(kvs)) == SetMeant(b, kvs)
    decreases |kvs|
  {
    if kvs != [] {
      assert kvs[0] in kvs;
      PairCuts(kvs[0]);
      hide Pair, Before, After, Replaced, SetAttr;
      SetAllMeans(SetAttr(b, kvs[0].0, Replaced(kvs[0].1)), kvs[1..]);
    }
  }

  lemma SetFrom(b: BouncerNetwork, kvs: seq<(string, string)>, k: nat)
    requires k < |kvs|
    ensures SetMeant(b, kvs[k..]) == SetMeant(SetAttr(b, kvs[k].0, Replaced(kvs[k].1)), kvs[k + 1..])
  {
    hide SetAttr, Replaced;
    assert kvs[k..][1..] == kvs[k + 1..];
  }

  lemma WrittenAt(r: Row)
    ensures var w := Written(r);
      && |w| == 6 && w[0] == ("name", Escape(r.name)) && w[1] == ("state", StateName(r.state))
      && w[2] == ("host", Escape(r.host)) && w[3] == ("port", r.port)
      && w[4] == ("tls", if r.tls then "1" else "0") && w[5] == ("nickname", Escape(r.nick))
  {
    hide Escape, StateName;
  }

  lemma ValuesRead(r: Row)
    ensures Replaced(Escape(r.name)) == r.name && Replaced(StateName(r.state)) == StateName(r.state)
    ensures Replaced(Escape(r.host)) == r.host
    ensures (Replaced(if r.tls then "1" else "0") == "1") == r.tls && Replaced(Escape(r.nick)) == r.nick
  {
    EscapeRoundTrip(r.name);
    EscapeRoundTrip(r.host);
    EscapeRoundTrip(r.nick);
    PlainValues(r);
    NoBackslash(StateName(r.state));
    NoBackslash(if r.tls then "1" else "0");
    hide Escape, StateName, Replaced;
  }

  lemma WholeAndNothing(b: BouncerNetwork, kvs: seq<(string, string)>)
    ensures kvs[0..] == kvs && SetMeant(b, kvs[|kvs|..]) == b
  {}

  lemma SetRow(b: BouncerNetwork, r: Row)
    ensures SetMeant(b, Written(r)) ==
      b.(name := r.name, state := StateName(r.state), host := r.host, port := PortRead(r.port), tls := r.tls,
         nick := r.nick)
  {
    hide Written, SetMeant, SetAttr, Escape, StateName, Replaced, Atoi;
    var w := Written(r);
    WrittenAt(r);
    ValuesRead(r);
    var b1 := b.(name := r.name);
    AttrNames(b, r.name);
    SetFrom(b, w, 0);
    var b2 := b1.(state := StateName(r.state));
    AttrNames(b1, StateName(r.state));
    SetFrom(b1, w, 1);
    var b3 := b2.(host := r.host);
    AttrNames(b2, r.host);
    SetFrom(b2, w, 2);
    var b4 := b3.(port := PortRead(r.port));
    AttrNames(b3, Replaced(r.port));
    SetFrom(b3, w, 3);
    var b5 := b4.(tls := r.tls);
    AttrNames(b4, Replaced(if r.tls then "1" else "0"));
    SetFrom(b4, w, 4);
    var b6 := b5.(nick := r.nick);
    AttrNames(b5, r.nick);
    SetFrom(b5, w, 5);
    WholeAndNothing(b, w);
    WholeAndNothing(b6, w);
  }

  lemma AttrNames(b: BouncerNetwork, v: string)
    ensures SetAttr(b, "name", v) == b.(name := v)
    ensures SetAttr(b, "state", v) == b.(state := v)
    ensures SetAttr(b, "host", v) == b.(host := v)
    ensures SetAttr(b, "port", v) == b.(port := Atoi(v))
    ensures SetAttr(b, "tls", v) == b.(tls := v == "1")
    ensures SetAttr(b, "nickname", v) == b.(nick := v)
  {
    hide Atoi;
  }

  const SIX := ["name", "state", "host", "port", "tls", "nickname"]

  lemma SixKeys(r: Row)
    ensures Keys(Written(r)) == SIX
  {
    hide Escape, StateName;
    var ks := Written(r);
    assert Keys(ks[1..]) == [ks[1].0] + Keys(ks[2..]) && Keys(ks[2..]) == [ks[2].0] + Keys(ks[3..]);
    assert Keys(ks[3..]) == [ks[3].0] + Keys(ks[4..]) && Keys(ks[4..]) == [ks[4].0] + Keys(ks[5..]);
    assert Keys(ks[5..]) == [ks[5].0] + Keys(ks[6..]) && ks[6..] == [];
  }

  /** What the server writes of a network, the client reads back exactly, whatever its
      name, host and nick are made of, the port as Atoi reads it; merged over what it
      knew, it changes those six attributes and nothing else. So it is for every port
      without a semicolon, which alone is written as it is: with one, and only then, the
      client sees other attributes than the six. */
  lemma RowRoundTrip(id: string, r: Row, was: BouncerNetwork)
    ensures var pairs := Split(Attrs(r), ';');
      && (KeysOf(pairs) == SIX <==> ';' !in r.port)
      && StateName(r.state) == (match r.state case Registered => "connected" case Connecting => "connecting"
                                case Other => "disconnected")
      && (';' !in r.port ==>
            var b := SetAll(NOTHING.(id := id), pairs);
            && b == BouncerNetwork(id, r.name, r.host, PortRead(r.port), r.tls, r.nick, StateName(r.state), "")
            && TakeAll(was, b, KeysOf(pairs))
                 == was.(name := r.name, state := StateName(r.state), host := r.host, port := PortRead(r.port),
                         tls := r.tls, nick := r.nick))
  {
    assert StateName(r.state) == (match r.state case Registered => "connected" case Connecting => "connecting"
                                  case Other => "disconnected");
    if ';' in r.port {
      MoreThanSix(r);
      hide *;
      assert |KeysOf(Split(Attrs(r), ';'))| > |SIX| by { KeysForPairs(Split(Attrs(r), ';')); }
    } else {
      hide *;
      SixReadBack(id, r, was);
    }
  }

  lemma KeysForPairs(pairs: seq<string>)
    ensures |KeysOf(pairs)| == |pairs| && |SIX| == 6
  {}

  lemma SixReadBack(id: string, r: Row, was: BouncerNetwork)
    requires ';' !in r.port
    ensures var pairs := Split(Attrs(r), ';');
      var b := SetAll(NOTHING.(id := id), pairs);
      && KeysOf(pairs) == SIX
      && b == BouncerNetwork(id, r.name, r.host, PortRead(r.port), r.tls, r.nick, StateName(r.state), "")
      && TakeAll(was, b, KeysOf(pairs))
           == was.(name := r.name, state := StateName(r.state), host := r.host, port := PortRead(r.port), tls := r.tls,
                   nick := r.nick)
  {
    var kvs := Written(r);
    WrittenIsClean(r);
    SixKeys(r);
    assert kvs != [];
    hide Written, Keys, PortRead;
    PairsSplit(kvs);
    KeysCut(kvs);
    SetAllMeans(NOTHING.(id := id), kvs);
    SetRow(NOTHING.(id := id), r);
    hide Pairs, SetAll, SetMeant, KeysOf, Split, Join, StateName, TakeAll;
    TakeSix(was, BouncerNetwork(id, r.name, r.host, PortRead(r.port), r.tls, r.nick, StateName(r.state), ""));
  }

  lemma {:induction false} SplitCounts(s: string, c: char)
    ensures |Split(s, c)| == multiset(s)[c] + 1
    decreases |s|
  {
    var i := IndexByte(s, c);
    SplitIs(s, c);
    if i >= 0 {
      hide *;
      SplitCounts(s[i + 1..], c);
      CutIs(s, i, c);
      CountAround(s, s[..i], c, s[i + 1..]);
    }
  }

  lemma SplitIs(s: string, c: char)
    ensures var i := IndexByte(s, c);
      |Split(s, c)| == if i < 0 then 1 else 1 + |Split(s[i + 1..], c)|
  {
    hide IndexByte;
  }

  lemma CutIs(s: string, i: nat, c: char)
    requires i == IndexByte(s, c)
    ensures s == s[..i] + [c] + s[i + 1..] && c !in s[..i]
  {
    IndexByteFirst(s, c);
    hide IndexByte;
  }

  lemma CountAround(s: string, pre: string, c: char, post: string)
    requires s == pre + [c] + post && c !in pre
    ensures multiset(s)[c] == 1 + multiset(post)[c]
  {
    assert multiset(s) == multiset(pre) + multiset{c} + multiset(post);
  }

  lemma {:induction false} JoinCounts(parts: seq<string>, c: char, k: nat)
    requires k < |parts|
    ensures multiset(Join(parts, [c]))[c] >= |parts| - 1 + multiset(parts[k])[c]
    decreases |parts|
  {
    if |parts| > 1 {
      var rest := Join(parts[1..], [c]);
      JoinCounts(parts[1..], c, if k == 0 then 0 else k - 1);
      assert multiset(parts[0] + [c] + rest) == multiset(parts[0]) + multiset{c} + multiset(rest);
    }
  }

  lemma MoreThanSix(r: Row)
    requires ';' in r.port
    ensures |Split(Attrs(r), ';')| > 6
  {
    var ps := Pairs(Written(r));
    SixPairs(r);
    hide Pairs, Written, Split, Join, Attrs;
    AttrsIs(r);
    SplitCounts(Attrs(r), ';');
    JoinCounts(ps, ';', 3);
    assert multiset("port=" + r.port) == multiset("port=") + multiset(r.port);
  }

  lemma AttrsIs(r: Row)
    ensures Attrs(r) == Join(Pairs(Written(r)), [';'])
  {}

  lemma SixPairs(r: Row)
    ensures |Pairs(Written(r))| == 6 && Pairs(Written(r))[3] == "port=" + r.port
  {
    hide Escape, StateName;
    var w := Written(r);
    assert Pairs(w) == [Pair(w[0])] + Pairs(w[1..]) && Pairs(w[1..]) == [Pair(w[1])] + Pairs(w[2..]);
    assert Pairs(w[2..]) == [Pair(w[2])] + Pairs(w[3..]) && Pairs(w[3..]) == [Pair(w[3])] + Pairs(w[4..]);
    assert Pairs(w[4..]) == [Pair(w[4])] + Pairs(w[5..]) && Pairs(w[5..]) == [Pair(w[5])] + Pairs(w[6..]);
    assert w[6..] == [];
  }

  lemma TakeSix(was: BouncerNetwork, b: BouncerNetwork)
    ensures TakeAll(was, b, SIX)
      == was.(name := b.name, state := b.state, host := b.host, port := b.port, tls := b.tls, nick := b.nick)
  {
    var ks := SIX;
    assert ks[1..] == ["state", "host", "port", "tls", "nickname"];
    assert ks[1..][1..] == ["host", "port", "tls", "nickname"];
    assert ks[1..][1..][1..] == ["port", "tls", "nickname"];
    assert ks[1..][1..][1..][1..] == ["tls", "nickname"];
    assert ks[1..][1..][1..][1..][1..] == ["nickname"];
    assert ks[1..][1..][1..][1..][1..][1..] == [];
  }

  // --- Logins ---

  datatype Login = Login(username: string, network: string, client: string)

  predicate Separator(c: char) { c == '/' || c == '@' }

  /** strings.IndexAny(s, "/@"). */
  function FirstSeparator(s: string): (i: int)
    ensures -1 <= i < |s|
    ensures i >= 0 ==> Separator(s[i])
    ensures forall j :: 0 <= j < (if i >= 0 then i else |s|) ==> !Separator(s[j])
  {
    if s == "" then -1
    else if Separator(s[0]) then 0
    else
      var j := FirstSeparator(s[1..]);
      if j < 0 then -1 else j + 1
  }

  function LastSeparator(s: string): int {
    var a, b := LastIndexByte(s, '/'), LastIndexByte(s, '@');
    if b > a then b else a
  }

  /** UnmarshalLogin, on a login without surrounding blanks. */
  function Unmarshal(raw: string): Login {
    var i, j := FirstSeparator(raw), LastSeparator(raw);
    if i < 0 || j < i then Login(raw, "", "")
    else
      var tail := Login(raw[..i], if raw[j] == '@' then "" else raw[j + 1..],
        if raw[j] == '@' then raw[j + 1..] else "");
      if i == j then tail
      else if raw[i] == '@' then tail.(client := raw[i + 1..j])
      else tail.(network := raw[i + 1..j])
  }

  function UnmarshalLogin(raw: string): Login { Unmarshal(TrimBlanks(raw)) }

  /** What BouncerOpen keeps of the control login: the user before any separator, and
      the client that follows the first '@'. */
  function UserOf(login: string): string { Before(Before(login, '@'), '/') }

  function ClientOf(login: string): string { if '@' in login then [ '@' ] + After(login, '@') else "" }

  /** The login of a connection bound to network `name`. */
  function BoundLogin(login: string, name: string): string {
    UserOf(login) + ['/'] + name + ClientOf(login)
  }

  predicate Free(s: string) { '/' !in s && '@' !in s }

  lemma UserIsFree(login: string)
    ensures Free(UserOf(login))
  {
    var a := Before(login, '@');
    if '@' in login {
      IndexByteFirst(login, '@');
    }
    if '/' in a {
      IndexByteFirst(a, '/');
      assert forall c :: c in UserOf(login) ==> c in a;
    }
  }

  lemma FirstSeparatorAt(user: string, c: char, rest: string)
    requires Free(user) && Separator(c)
    ensures FirstSeparator(user + [c] + rest) == |user|
  {
    var s := user + [c] + rest;
    assert s[|user|] == c;
    assert forall j :: 0 <= j < |user| ==> s[j] == user[j] && user[j] in user;
  }

  lemma {:induction false} LastIndexByteLater(s: string, t: string, c: char)
    ensures LastIndexByte(s + t, c) == if LastIndexByte(t, c) >= 0 then |s| + LastIndexByte(t, c)
      else LastIndexByte(s, c)
  {
    if t == "" {
      assert s + t == s;
    } else {
      assert (s + t)[..|s| + |t| - 1] == s + t[..|t| - 1];
      LastIndexByteLater(s, t[..|t| - 1], c);
    }
  }

  lemma {:induction false} LastIndexByteNone(s: string, c: char)
    ensures LastIndexByte(s, c) < 0 <==> c !in s
  {
    if s != "" {
      LastIndexByteNone(s[..|s| - 1], c);
    }
  }

  /** The last separator of the bound login: the one before the name, unless there is a
      client; then its '@', unless the client has a separator itself. */
  lemma LastSeparatorOf(user: string, name: string, client: string)
    requires Free(user) && Free(name)
    ensures LastSeparator(user + ['/'] + name) == |user|
    ensures var s := user + ['/'] + name + (['@'] + client);
            var at := |user| + 1 + |name|;
            LastSeparator(s) >= at && (LastSeparator(s) == at <==> Free(client)) && LastSeparator(s) < |s|
  {
    var s := user + ['/'] + name;
    LastIndexByteAt(user, '/', name);
    LastIndexByteNone(name, '@');
    LastIndexByteNone(user, '@');
    LastIndexByteLater(user + ['/'], name, '@');
    LastIndexByteLater(user, ['/'], '@');
    var t := ['@'] + client;
    LastIndexByteNone(client, '@');
    LastIndexByteNone(client, '/');
    LastIndexByteLater(['@'], client, '@');
    LastIndexByteLater(['@'], client, '/');
    LastIndexByteLater(s, t, '@');
    LastIndexByteLater(s, t, '/');
    hide LastIndexByte;
    OneChar();
  }

  lemma OneChar()
    ensures LastIndexByte(['/'], '@') == -1 && LastIndexByte(['@'], '/') == -1 && LastIndexByte(['@'], '@') == 0
  {}

  /** BouncerOpen's login parses back to the user, the new network and the client just
      when the client part has no separator of its own: so for the forms u, u/n, u@c
      and u/n@c, and not for u@c/n, which UnmarshalLogin takes as well. */
  lemma BoundLoginParsesIff(login: string, name: string)
    requires name != "" && Free(name) && TrimBlanks(BoundLogin(login, name)) == BoundLogin(login, name)
    ensures var client := After(login, '@');
            (UnmarshalLogin(BoundLogin(login, name)) == Login(UserOf(login), name, client) <==> Free(client))
            && (UnmarshalLogin(BoundLogin(login, name)).network == name <==> Free(client))
  {
    var user, client := UserOf(login), After(login, '@');
    var raw := BoundLogin(login, name);
    UserIsFree(login);
    BoundParts(login, name);
    hide *;
    UnmarshalIs(raw);
    if '@' in login {
      WithClient(user, name, client);
    } else {
      WithoutClient(user, name);
    }
  }

  lemma UnmarshalIs(raw: string)
    requires TrimBlanks(raw) == raw
    ensures UnmarshalLogin(raw) == Unmarshal(raw)
  {
    hide TrimBlanks, Unmarshal;
  }

  lemma BoundParts(login: string, name: string)
    requires name != ""
    ensures var user, client := UserOf(login), After(login, '@');
      && ('@' in login ==> BoundLogin(login, name) == user + ['/'] + name + (['@'] + client))
      && ('@' !in login ==> BoundLogin(login, name) == user + ['/'] + name && client == "" && Free(client))
  {
    hide UserOf;
  }

  lemma WithoutClient(user: string, name: string)
    requires name != "" && Free(user) && Free(name)
    ensures Unmarshal(user + ['/'] + name) == Login(user, name, "")
  {
    var raw := user + ['/'] + name;
    FirstSeparatorAt(user, '/', name);
    LastSeparatorOf(user, name, "");
    hide LastSeparator, FirstSeparator, Free;
    assert raw[..|user|] == user && raw[|user| + 1..] == name;
  }

  lemma ClientParts(user: string, name: string, client: string)
    ensures var s := user + ['/'] + name + (['@'] + client); var at := |user| + 1 + |name|;
            && |s| == at + 1 + |client| && s == user + ['/'] + (name + ['@'] + client)
            && s[..|user|] == user && s[|user|] == '/' && s[|user| + 1..at] == name && s[at] == '@'
              && s[at + 1..] == client
  {}

  lemma WithClient(user: string, name: string, client: string)
    requires name != "" && Free(user) && Free(name)
    ensures var raw := user + ['/'] + name + (['@'] + client);
            if Free(client) then Unmarshal(raw) == Login(user, name, client) else Unmarshal(raw).network != name
  {
    var raw := user + ['/'] + name + (['@'] + client);
    var at := |user| + 1 + |name|;
    ClientParts(user, name, client);
    FirstSeparatorAt(user, '/', name + ['@'] + client);
    LastSeparatorOf(user, name, client);
    hide LastSeparator, FirstSeparator, Free;
    var j := LastSeparator(raw);
    if j != at {
      assert |raw[|user| + 1..j]| > |name|;
    }
  }

  /** The four forms. */
  lemma FourForms(u: string, n: string, c: string)
    requires Free(u) && Free(n) && Free(c)
    ensures UserOf(u) == u && After(u, '@') == ""
    ensures UserOf(u + ['/'] + n) == u && After(u + ['/'] + n, '@') == ""
    ensures UserOf(u + ['@'] + c) == u && After(u + ['@'] + c, '@') == c
    ensures UserOf(u + ['/'] + n + ['@'] + c) == u && After(u + ['/'] + n + ['@'] + c, '@') == c
  {
    CutAt(u, '/', n);
    CutAt(u, '@', c);
    CutAt(u + ['/'] + n, '@', c);
  }

  lemma Around(u: string, mid: string, n: string)
    ensures var s := u + ['/'] + mid + ['/'] + n; var k := |u| + 1 + |mid|;
            && |s| == k + 1 + |n| && s[|u|] == '/' && s[k] == '/' && s == u + ['/'] + (mid + ['/'] + n)
            && s[..|u|] == u && s[|u| + 1..k] == mid && s[k + 1..] == n
  {}

  /** And the fifth does go wrong: the network it ends up with is the new name with the
      client behind it. */
  lemma FifthFormFails(u: string, c: string, n: string, name: string)
    requires Free(u) && Free(c) && Free(n) && Free(name) && name != ""
    ensures var mid := name + ['@'] + c;
            BoundLogin(u + ['@'] + (c + ['/'] + n), name) == u + ['/'] + mid + ['/'] + n
            && Unmarshal(u + ['/'] + mid + ['/'] + n) == Login(u, mid, "")
  {
    hide BoundLogin, UserOf, ClientOf;
    FifthLogin(u, c, n, name);
    TwoSlashes(u, name + ['@'] + c, n);
  }

  lemma TwoSlashes(u: string, mid: string, n: string)
    requires Free(u) && Free(n)
    ensures Unmarshal(u + ['/'] + mid + ['/'] + n) == Login(u, mid, "")
  {
    hide LastSeparator, FirstSeparator, Free;
    FirstSeparatorAt(u, '/', mid + ['/'] + n);
    Around(u, mid, n);
    LastSlash(u, mid, n);
  }

  lemma FifthLogin(u: string, c: string, n: string, name: string)
    requires Free(u)
    ensures BoundLogin(u + ['@'] + (c + ['/'] + n), name) == u + ['/'] + (name + ['@'] + c) + ['/'] + n
  {
    var login, client := u + ['@'] + (c + ['/'] + n), c + ['/'] + n;
    CutAt(u, '@', client);
    assert '@' in login by { assert login[|u|] == '@'; }
    hide Before, After, IndexByte;
    assert Before(u, '/') == u by { WholeBefore(u); }
    Regrouped(u, name, c, n);
  }

  lemma WholeBefore(u: string)
    requires '/' !in u
    ensures Before(u, '/') == u
  {}

  lemma Regrouped(u: string, name: string, c: string, n: string)
    ensures u + ['/'] + name + (['@'] + (c + ['/'] + n)) == u + ['/'] + (name + ['@'] + c) + ['/'] + n
  {}

  lemma LastSlash(u: string, mid: string, n: string)
    requires Free(n)
    ensures LastSeparator(u + ['/'] + mid + ['/'] + n) == |u| + 1 + |mid|
  {
    var pre := u + ['/'] + mid;
    LastIndexByteAt(pre, '/', n);
    LastIndexByteNone(n, '@');
    LastIndexByteLater(pre + ['/'], n, '@');
    LastIndexByteLater(pre, ['/'], '@');
    OneChar();
    hide LastIndexByte;
  }

  // --- Any attributes ---

  /** The last value given for a key, if there is one. */
  function LastValue(kvs: seq<(string, string)>, key: string): Option<string> {
    if kvs == [] then None
    else
      var kv := kvs[|kvs| - 1];
      if kv.0 == key then Some(kv.1) else LastValue(kvs[..|kvs| - 1], key)
  }

  /** What a value says once it is unescaped, or what was known without one. */
  function Told(v: Option<string>, was: string): string { match v case None => was case Some(x) => Replaced(x) }

  lemma {:induction false} LastValueCons(kvs: seq<(string, string)>, key: string)
    requires kvs != []
    ensures LastValue(kvs, key) == match LastValue(kvs[1..], key)
      case None => (if kvs[0].0 == key then Some(kvs[0].1) else None)
      case Some(v) => Some(v)
  {
    if |kvs| > 1 {
      var init := kvs[..|kvs| - 1];
      LastValueCons(init, key);
      assert kvs[1..][..|kvs| - 2] == init[1..];
    } else {
      assert kvs[1..] == [] && kvs[..0] == [];
    }
  }

  predicate Meant(b: BouncerNetwork, was: BouncerNetwork, kvs: seq<(string, string)>) {
    && b.id == was.id
    && b.name == Told(LastValue(kvs, "name"), was.name)
    && b.host == Told(LastValue(kvs, "host"), was.host)
    && b.port == (match LastValue(kvs, "port") case None => was.port case Some(v) => Atoi(Replaced(v)))
    && b.tls == (match LastValue(kvs, "tls") case None => was.tls case Some(v) => Replaced(v) == "1")
    && b.nick == Told(LastValue(kvs, "nickname"), was.nick)
    && b.state == Told(LastValue(kvs, "state"), was.state)
    && b.error == Told(LastValue(kvs, "error"), was.error)
  }

  lemma {:induction false} SetMeantIs(was: BouncerNetwork, kvs: seq<(string, string)>)
    ensures Meant(SetMeant(was, kvs), was, kvs)
    decreases |kvs|
  {
    if kvs != [] {
      var v := Replaced(kvs[0].1);
      var now := SetAttr(was, kvs[0].0, v);
      SetMeantIs(now, kvs[1..]);
      SetAttrIs(was, kvs[0].0, v);
      LastValueCons(kvs, "name");
      LastValueCons(kvs, "host");
      LastValueCons(kvs, "port");
      LastValueCons(kvs, "tls");
      LastValueCons(kvs, "nickname");
      LastValueCons(kvs, "state");
      LastValueCons(kvs, "error");
      hide LastValue, SetAttr, SetMeant, Replaced, Atoi;
      assert SetMeant(was, kvs) == SetMeant(now, kvs[1..]) by { SetMeantStep(was, kvs); }
    }
  }

  lemma SetMeantStep(was: BouncerNetwork, kvs: seq<(string, string)>)
    requires kvs != []
    ensures SetMeant(was, kvs) == SetMeant(SetAttr(was, kvs[0].0, Replaced(kvs[0].1)), kvs[1..])
  {
    hide SetAttr, Replaced;
  }

  lemma SetAttrIs(b: BouncerNetwork, k: string, v: string)
    ensures var t := SetAttr(b, k, v);
      && t.id == b.id
      && t.name == (if k == "name" then v else b.name)
      && t.host == (if k == "host" then v else b.host)
      && t.port == (if k == "port" then Atoi(v) else b.port)
      && t.tls == (if k == "tls" then v == "1" else b.tls)
      && t.nick == (if k == "nickname" then v else b.nick)
      && t.state == (if k == "state" then v else b.state)
      && t.error == (if k == "error" then v else b.error)
  {
    hide Atoi;
  }

  /** A list of attributes reads as the last value of each key it has, unescaped; keys that
      are not known are passed over, but listed like the others. */
  lemma AttributesAreRead(id: string, kvs: seq<(string, string)>)
    requires kvs != [] && Clean(kvs)
    ensures var pairs := Split(Join(Pairs(kvs), [';']), ';');
      && Meant(SetAll(NOTHING.(id := id), pairs), NOTHING.(id := id), kvs)
      && KeysOf(pairs) == Keys(kvs)
  {
    hide Meant, SetMeant, SetAll, KeysOf, Split, Join, Pairs, Keys, Clean;
    PairsSplit(kvs);
    KeysCut(kvs);
    SetAllMeans(NOTHING.(id := id), kvs);
    SetMeantIs(NOTHING.(id := id), kvs);
  }

  /** How any value is unescaped, on either side: the five escapes stand for what they
      stand for; the server drops the backslash of any other, the client keeps it, and so
      with one at the end. */
  lemma EscapesStandFor(c: char, d: char, rest: string)
    requires c != '\\'
    ensures Unescape([c] + rest) == [c] + Unescape(rest) && Replaced([c] + rest) == [c] + Replaced(rest)
    ensures var means := if d == ':' then ";" else if d == 's' then " " else if d == '\\' then "\\"
                         else if d == 'r' then "\r" else if d == 'n' then "\n" else "";
      if means != "" then
        Unescape(['\\', d] + rest) == means + Unescape(rest) && Replaced(['\\', d] + rest) == means + Replaced(rest)
      else
        Unescape(['\\', d] + rest) == [d] + Unescape(rest) && Replaced(['\\', d] + rest) == "\\" + Replaced([d] + rest)
    ensures Unescape("\\") == "" && Replaced("\\") == "\\" && Unescape("") == "" && Replaced("") == ""
  {
    assert ([c] + rest)[1..] == rest;
    assert (['\\', d] + rest)[2..] == rest && (['\\', d] + rest)[1..] == [d] + rest;
    assert "\\"[1..] == "";
  }

  // --- Any login ---

  lemma LastSeparatorAt(head: string, c: char, tail: string)
    requires Separator(c) && Free(tail)
    ensures LastSeparator(head + [c] + tail) == |head|
  {
    var other := if c == '/' then '@' else '/';
    LastIndexByteAt(head, c, tail);
    LastIndexByteNone(tail, other);
    LastIndexByteLater(head + [c], tail, other);
    LastIndexByteLater(head, [c], other);
    OneChar();
    assert [c] == ['/'] || [c] == ['@'];
    LastIndexByteBelow(head, other);
    hide LastIndexByte;
  }

  lemma LastIndexByteBelow(s: string, c: char)
    ensures LastIndexByte(s, c) < |s|
  {}

  /** The login forms: a user alone, with a network, with a client, or with both in either
      order. */
  lemma LoginForms(u: string, n: string, c: string)
    requires Free(u) && Free(n) && Free(c)
    ensures Unmarshal(u) == Login(u, "", "")
    ensures Unmarshal(u + ['/'] + n) == Login(u, n, "")
    ensures Unmarshal(u + ['@'] + c) == Login(u, "", c)
    ensures Unmarshal(u + ['/'] + n + (['@'] + c)) == Login(u, n, c)
    ensures Unmarshal(u + ['@'] + c + (['/'] + n)) == Login(u, n, c)
  {
    NoSeparator(u);
    OneSeparator(u, '/', n);
    OneSeparator(u, '@', c);
    TwoSeparators(u, '/', n, '@', c);
    TwoSeparators(u, '@', c, '/', n);
    hide Unmarshal;
  }

  lemma NoSeparator(u: string)
    requires Free(u)
    ensures Unmarshal(u) == Login(u, "", "")
  {
    assert forall k :: 0 <= k < |u| ==> u[k] in u && !Separator(u[k]);
  }

  lemma OneSeparator(u: string, s: char, x: string)
    requires Free(u) && Free(x) && Separator(s)
    ensures Unmarshal(u + [s] + x) == if s == '/' then Login(u, x, "") else Login(u, "", x)
  {
    var raw := u + [s] + x;
    FirstSeparatorAt(u, s, x);
    LastSeparatorAt(u, s, x);
    hide FirstSeparator, LastSeparator, Free;
    assert raw[..|u|] == u && raw[|u| + 1..] == x && raw[|u|] == s;
  }

  lemma TwoSeparators(u: string, s: char, x: string, t: char, y: string)
    requires Free(u) && Free(x) && Free(y) && Separator(s) && Separator(t) && s != t
    ensures Unmarshal(u + [s] + x + ([t] + y)) == if s == '/' then Login(u, x, y) else Login(u, y, x)
  {
    var raw := u + [s] + x + ([t] + y);
    var at := |u| + 1 + |x|;
    assert raw == u + [s] + (x + [t] + y) && raw == (u + [s] + x) + [t] + y;
    FirstSeparatorAt(u, s, x + [t] + y);
    LastSeparatorAt(u + [s] + x, t, y);
    hide FirstSeparator, LastSeparator, Free;
    assert raw[..|u|] == u && raw[|u|] == s && raw[|u| + 1..at] == x && raw[at] == t && raw[at + 1..] == y;
  }
}
