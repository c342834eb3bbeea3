/** A bouncer's network row as a whole line: sendNetworkList in
    internal/ircserver/session.go, through parse.go's printer and parser, to bouncer.go. */
module BouncerRow {
  import opened GoStrings
  import opened Bouncer
  import opened Wire

  function RowLine(tag: string, prefix: string, id: string, r: Row): string {
    Format(tag, prefix, "BOUNCER", ["NETWORK", id, Attrs(r)])
  }

  /** No white space but what is escaped. */
  predicate Tame(s: string) { forall c :: c in s ==> IsSpace(c) ==> c in " \r\n" }

  predicate NoSpaces(s: string) { forall c :: c in s ==> !IsSpace(c) }

  /** The row can be a last parameter: its nick does not end in NUL, and it is one word,
      or has a space, which only a port can bring in. */
  predicate Fits(r: Row) {
    && (r.nick == "" || r.nick[|r.nick| - 1] != '\0')
    && (' ' in r.port || (Tame(r.name) && Tame(r.host) && NoSpaces(r.port) && Tame(r.nick)))
  }

  // --- The attributes as a last parameter ---

  lemma {:induction false} EscapedSpaces(v: string)
    ensures NoSpaces(Escape(v)) <==> Tame(v)
    ensures ' ' !in Escape(v)
  {
    hide IsSpace, EscapeChar, NoSpaces, Tame;
    if v == "" {
      NothingIsTame();
    } else {
      EscapedSpaces(v[1..]);
      CharSpaces(v[0]);
      JoinedSpaces(EscapeChar(v[0]), Escape(v[1..]));
      TameCons(v);
    }
  }

  lemma NothingIsTame()
    ensures Escape("") == "" && NoSpaces("") && Tame("")
  {}

  lemma JoinedSpaces(a: string, b: string)
    ensures NoSpaces(a + b) <==> NoSpaces(a) && NoSpaces(b)
    ensures ' ' in a + b <==> ' ' in a || ' ' in b
  {
    hide IsSpace;
    assert forall c :: c in a + b <==> c in a || c in b;
  }

  lemma TameCons(v: string)
    requires v != ""
    ensures Tame(v) <==> (IsSpace(v[0]) ==> v[0] in " \r\n") && Tame(v[1..])
  {
    hide IsSpace;
    assert v == [v[0]] + v[1..];
    assert forall c :: c in v <==> c == v[0] || c in v[1..];
  }

  lemma CharSpaces(c: char)
    ensures NoSpaces(EscapeChar(c)) <==> (IsSpace(c) ==> c in " \r\n")
    ensures ' ' !in EscapeChar(c)
  {}

  lemma {:induction false} EscapedEnd(v: string)
    requires v != ""
    ensures Escape(v) != "" && (Escape(v)[|Escape(v)| - 1] in LINE_END <==> v[|v| - 1] == '\0')
  {
    EscapedFirst(v[0]);
    hide EscapeChar;
    if |v| == 1 {
      assert Escape(v[1..]) == "";
    } else {
      EscapedEnd(v[1..]);
      assert Escape(v)[|Escape(v)| - 1] == Escape(v[1..])[|Escape(v[1..])| - 1];
    }
  }

  lemma EscapedFirst(c: char)
    ensures EscapeChar(c) != "" && (EscapeChar(c)[|EscapeChar(c)| - 1] in LINE_END <==> c == '\0')
  {}

  function LastOf(s: string): char
    requires s != ""
  {
    s[|s| - 1]
  }

  lemma PairSpaces(kv: (string, string))
    requires NoSpaces(kv.0) && kv.0 != ""
    ensures NoSpaces(Pair(kv)) <==> NoSpaces(kv.1)
    ensures ' ' in Pair(kv) <==> ' ' in kv.1
    ensures Pair(kv) != "" && Pair(kv)[0] == kv.0[0]
    ensures LastOf(Pair(kv)) == if kv.1 == "" then '=' else LastOf(kv.1)
  {
    assert !IsSpace('=') && IsSpace(' ');
    hide IsSpace;
    assert forall c :: c in Pair(kv) <==> c in kv.0 || c == '=' || c in kv.1;
  }

  lemma ThenSpaces(a: string, rest: string)
    requires a != "" && rest != ""
    ensures var all := a + [';'] + rest;
      && (NoSpaces(all) <==> NoSpaces(a) && NoSpaces(rest))
      && (' ' in all <==> ' ' in a || ' ' in rest)
      && all[0] == a[0] && LastOf(all) == LastOf(rest)
  {
    var all := a + [';'] + rest;
    assert !IsSpace(';');
    hide IsSpace;
    assert forall c :: c in all <==> c in a || c == ';' || c in rest;
  }

  predicate Plain(kvs: seq<(string, string)>) { forall kv :: kv in kvs ==> NoSpaces(kv.1) }

  predicate Spaced(kvs: seq<(string, string)>) { exists kv :: kv in kvs && ' ' in kv.1 }

  predicate Named(kvs: seq<(string, string)>) { forall kv :: kv in kvs ==> kv.0 != "" && NoSpaces(kv.0) }

  /** Attributes have the white space of their values, start as the first key does and
      end as the last value does. */
  lemma {:induction false} ListSpaces(kvs: seq<(string, string)>)
    requires kvs != [] && Named(kvs)
    ensures var all := Join(Pairs(kvs), [';']);
      && (NoSpaces(all) <==> Plain(kvs)) && (' ' in all <==> Spaced(kvs))
      && all != "" && kvs[0].0 != "" && all[0] == kvs[0].0[0]
      && LastOf(all) == var v := kvs[|kvs| - 1].1; if v == "" then '=' else LastOf(v)
  {
    hide NoSpaces, LastOf, Pair, Plain, Spaced, Named, Join, Pairs;
    ListCons(kvs);
    PairSpaces(kvs[0]);
    if |kvs| > 1 {
      ListSpaces(kvs[1..]);
      ThenSpaces(Pair(kvs[0]), Join(Pairs(kvs[1..]), [';']));
    }
  }

  lemma ListCons(kvs: seq<(string, string)>)
    requires kvs != [] && Named(kvs)
    ensures kvs[0].0 != "" && NoSpaces(kvs[0].0) && Named(kvs[1..])
    ensures Plain(kvs) <==> NoSpaces(kvs[0].1) && Plain(kvs[1..])
    ensures Spaced(kvs) <==> ' ' in kvs[0].1 || Spaced(kvs[1..])
    ensures |kvs| == 1 ==> Plain(kvs[1..]) && !Spaced(kvs[1..]) && Join(Pairs(kvs), [';']) == Pair(kvs[0])
    ensures |kvs| > 1 ==> Join(Pairs(kvs), [';']) == Pair(kvs[0]) + [';'] + Join(Pairs(kvs[1..]), [';'])
  {
    hide NoSpaces, Pair;
    assert kvs == [kvs[0]] + kvs[1..];
    assert forall kv :: kv in kvs <==> kv == kvs[0] || kv in kvs[1..];
    assert Pairs(kvs)[1..] == Pairs(kvs[1..]);
    assert |kvs| > 1 ==> |Pairs(kvs[1..])| > 0;
  }

  lemma KeysAreWords(r: Row)
    ensures Named(Written(r))
    ensures NoSpaces(StateName(r.state)) && NoSpaces(if r.tls then "1" else "0")
  {
    hide Escape, NoSpaces, IsSpace;
    LowerCase("name");
    LowerCase("state");
    LowerCase("host");
    LowerCase("port");
    LowerCase("tls");
    LowerCase("nickname");
    LowerCase(StateName(r.state));
    LowerCase(if r.tls then "1" else "0");
  }

  lemma LowerCase(w: string)
    requires forall c :: c in w ==> 'a' <= c <= 'z' || Digit(c)
    ensures NoSpaces(w)
  {}

  lemma ValuesOf(r: Row)
    ensures Plain(Written(r)) <==>
      NoSpaces(Escape(r.name)) && NoSpaces(Escape(r.host)) && NoSpaces(r.port) && NoSpaces(Escape(r.nick))
    ensures Spaced(Written(r)) <==> ' ' in r.port
  {
    hide Escape, StateName, IsSpace, Written, Tame, NoSpaces;
    KeysAreWords(r);
    EscapedSpaces(r.name);
    EscapedSpaces(r.host);
    EscapedSpaces(r.nick);
    WrittenAt(r);
    FlagIsPlain(r);
    var w := Written(r);
    assert forall kv :: kv in w <==> kv == w[0] || kv == w[1] || kv == w[2] || kv == w[3] || kv == w[4] || kv == w[5];
  }

  lemma FlagIsPlain(r: Row)
    ensures ' ' !in StateName(r.state) && ' ' !in (if r.tls then "1" else "0")
  {}

  lemma FinalIffFits(r: Row)
    ensures Final(Attrs(r)) <==> Fits(r)
  {
    hide Escape, StateName, Tame, Written, Pairs, Join, IsSpace, NoSpaces, Final, Plain, Spaced, Named;
    KeysAreWords(r);
    WrittenAt(r);
    ListSpaces(Written(r));
    ValuesOf(r);
    EscapedSpaces(r.name);
    EscapedSpaces(r.host);
    EscapedSpaces(r.nick);
    if r.nick != "" {
      EscapedEnd(r.nick);
    } else {
      assert Escape(r.nick) == "" by { EscapedNothing(); }
    }
    FinalIs(Attrs(r));
  }

  lemma EscapedNothing()
    ensures Escape("") == ""
  {}

  lemma FinalIs(s: string)
    requires s != "" && s[0] == 'n'
    ensures Final(s) <==> LastOf(s) !in LINE_END && (' ' in s || NoSpaces(s))
  {
    hide IsSpace;
  }

  // --- The row ---

  /** The printed row parses back to the network's id and its attributes if and only if
      the row fits; it then reads as RowRoundTrip says. */
  lemma RowLineReadsBackIff(tag: string, prefix: string, id: string, r: Row)
    requires ' ' !in tag && ' ' !in prefix && Middle(id)
    ensures var m := Parsed(RowLine(tag, prefix, id, r));
      && m.Some? && m.value.command == "BOUNCER"
      && (m.value.params == ["NETWORK", id, Attrs(r)] <==> Fits(r))
  {
    hide Parsed, Format, Attrs, Middle, Final, Fits;
    PlainWords();
    FinalIffFits(r);
    RoundTripIff(tag, prefix, "BOUNCER", ["NETWORK", id], Attrs(r));
    assert ["NETWORK", id] + [Attrs(r)] == ["NETWORK", id, Attrs(r)];
  }

  lemma PlainWords()
    ensures Command("BOUNCER") && Middle("NETWORK")
  {
    assert ToUpper("BOUNCER") == "BOUNCER";
    Letters("BOUNCER");
    Letters("NETWORK");
    hide IsSpace;
  }

  lemma Letters(w: string)
    requires w != "" && forall c :: c in w ==> 'A' <= c <= 'Z'
    ensures Solid(w)
  {}
}
