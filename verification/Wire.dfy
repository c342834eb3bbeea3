/** internal/ircserver/parse.go: the bouncer server's line printer and parser. One char
    stands for one rune. */
module Wire {
  import opened GoStrings

  const LINE_END := "\r\n\0"
  const MAX_CLIENT_TAG_BYTES: nat := 4094

  datatype Message = Message(rawTags: string, command: string, params: seq<string>)

  /** unicode.IsSpace. */
  predicate IsSpace(c: char) {
    c in " \t\n\r\U{b}\U{c}\U{85}\U{A0}\U{1680}\U{2028}\U{2029}\U{202F}\U{205F}\U{3000}"
      || '\U{2000}' <= c <= '\U{200A}'
  }

  predicate Solid(w: string) { w != "" && forall c :: c in w ==> !IsSpace(c) }

  /** How far the first word of s goes. */
  function WordEnd(s: string): (n: nat)
    ensures n <= |s|
    ensures forall i :: 0 <= i < n ==> !IsSpace(s[i])
    ensures n < |s| ==> IsSpace(s[n])
  {
    if s == "" || IsSpace(s[0]) then 0 else 1 + WordEnd(s[1..])
  }

  /** strings.Fields. */
  function Fields(s: string): seq<string>
    decreases |s|
  {
    if s == "" then []
    else if IsSpace(s[0]) then Fields(s[1..])
    else [s[..WordEnd(s)]] + Fields(s[WordEnd(s)..])
  }

  /** strings.Index(s, " :"). */
  function TrailingAt(s: string): (i: int)
    ensures -1 <= i
    ensures i >= 0 ==> i + 2 <= |s| && s[i] == ' ' && s[i + 1] == ':'
  {
    if |s| < 2 then -1
    else if s[0] == ' ' && s[1] == ':' then 0
    else
      var j := TrailingAt(s[1..]);
      if j < 0 then -1 else j + 1
  }

  // --- Printing ---

  function Words(ws: seq<string>): string { Join(ws, " ") }

  /** How the last parameter is written: behind a colon when it is empty or has a
      space, and as it is when it brings a colon of its own. */
  function LastWritten(last: string): string {
    if last != "" && last[0] == ':' then last
    else if last == "" || ' ' in last then ":" + last
    else last
  }

  function Body(command: string, params: seq<string>): string {
    if params == [] then command
    else Words([command] + params[..|params| - 1]) + [' '] + LastWritten(params[|params| - 1])
  }

  function Head(tags: string, prefix: string): string {
    (if tags == "" then "" else "@" + tags + [' ']) + (if prefix == "" then "" else ":" + prefix + [' '])
  }

  function Format(tags: string, prefix: string, command: string, params: seq<string>): string {
    Head(tags, prefix) + Body(command, params)
  }

  method FormatLine(tags: string, prefix: string, command: string, params: seq<string>) returns (sb: string)
    ensures sb == Format(tags, prefix, command, params)
  {
    hide Words;
    var head := FormatHead(tags, prefix);
    sb := head + command;
    if |params| == 0 {
      return;
    }
    var n := |params| - 1;
    sb := FormatMiddles(head, command, params[..n]);
    ghost var words := Words([command] + params[..n]);
    var last := FormatLast(params[n]);
    sb := sb + " ";
    Regroup(head, words, " ", last);
    sb := sb + last;
  }

  method FormatHead(tags: string, prefix: string) returns (sb: string)
    ensures sb == Head(tags, prefix)
  {
    sb := "";
    if tags != "" {
      sb := sb + "@" + tags + " ";
    }
    if prefix != "" {
      sb := sb + ":" + prefix + " ";
    }
  }

  /** The parameters but the last, each behind a space. */
  method FormatMiddles(head: string, command: string, middles: seq<string>) returns (sb: string)
    ensures sb == head + Words([command] + middles)
  {
    hide Words;
    sb := head + command;
    WordsOfOne(command);
    assert [command] + middles[..0] == [command];
    for i := 0 to |middles|
      invariant sb == head + Words([command] + middles[..i])
    {
      WordsPush([command] + middles[..i], middles[i]);
      assert [command] + middles[..i] + [middles[i]] == [command] + middles[..i + 1];
      Regroup(head, Words([command] + middles[..i]), " ", middles[i]);
      sb := sb + " " + middles[i];
    }
    assert middles[..|middles|] == middles;
  }

  method FormatLast(last: string) returns (sb: string)
    ensures sb == LastWritten(last)
  {
    sb := "";
    if !(last != "" && last[0] == ':') && (last == "" || ' ' in last) {
      sb := sb + ":";
    }
    sb := sb + last;
  }

  lemma Regroup(a: string, b: string, c: string, d: string)
    ensures a + b + c + d == a + (b + c + d)
  {}

  lemma {:induction false} WordsPush(ws: seq<string>, w: string)
    requires ws != []
    ensures Words(ws + [w]) == Words(ws) + " " + w
  {
    if |ws| == 1 {
      var both := ws + [w];
      assert both[1..] == [w];
      WordsOfOne(w);
      assert Words(both) == ws[0] + " " + Words(both[1..]);
    } else {
      WordsPush(ws[1..], w);
      assert (ws + [w])[1..] == ws[1..] + [w];
    }
  }

  // --- Parsing ---

  /** A tag a client may send: its key has a '+' and more. */
  predicate ClientTag(t: string) { HasPrefix(Before(t, '='), "+") && |Before(t, '=')| > 1 }

  function KeptTags(tags: seq<string>): seq<string> {
    if tags == [] then []
    else
      var t := tags[|tags| - 1];
      KeptTags(tags[..|tags| - 1]) + (if ClientTag(t) then [t] else [])
  }

  function RawTags(section: string): string {
    var joined := Join(KeptTags(Split(section, ';')), ";");
    if |joined| <= MAX_CLIENT_TAG_BYTES then joined else ""
  }

  /** Command and parameters of a line without tags or prefix. */
  function ParseBody(rawTags: string, line: string): Option<Message> {
    if line == "" then None
    else
      var i := TrailingAt(line);
      var parts := Fields(if i < 0 then line else line[..i]);
      if parts == [] then None
      else Some(Message(rawTags, ToUpper(parts[0]), parts[1..] + (if i < 0 then [] else [line[i + 2..]])))
  }

  function ParsePrefixed(rawTags: string, line: string): Option<Message> {
    if line != "" && line[0] == ':' then
      if ' ' !in line then None else ParseBody(rawTags, TrimLeftSpaces(After(line, ' ')))
    else ParseBody(rawTags, line)
  }

  function ParseTrimmed(line: string): Option<Message> {
    if line != "" && line[0] == '@' then
      if ' ' !in line then None
      else ParsePrefixed(RawTags(line[1..IndexByte(line, ' ')]), TrimLeftSpaces(After(line, ' ')))
    else ParsePrefixed("", line)
  }

  function Parsed(raw: string): Option<Message> { ParseTrimmed(TrimRight(raw, LINE_END)) }

  method ParseLine(raw: string) returns (m: Option<Message>)
    ensures m == Parsed(raw)
  {
    hide TrimRight, TrimLeftSpaces, Fields, RawTags, TrailingAt, IndexByte;
    var line := TrimRight(raw, LINE_END);
    if line == "" {
      return None;
    }
    var rawTags := "";
    if line[0] == '@' {
      var sp := IndexByte(line, ' ');
      if sp == -1 {
        return None;
      }
      rawTags := CollectTags(line[1..sp]);
      line := TrimLeftSpaces(line[sp + 1..]);
    }
    m := ParseRest(rawTags, line);
  }

  /** The half of ParseLine behind the tags. */
  method ParseRest(rawTags: string, from: string) returns (m: Option<Message>)
    ensures m == ParsePrefixed(rawTags, from)
  {
    hide TrimLeftSpaces, Fields, TrailingAt, IndexByte;
    var line := from;
    if line != "" && line[0] == ':' {
      var sp := IndexByte(line, ' ');
      if sp == -1 {
        return None;
      }
      line := TrimLeftSpaces(line[sp + 1..]);
    }
    if line == "" {
      return None;
    }
    var ti := TrailingAt(line);
    var head, trailing := line, [];
    if ti != -1 {
      trailing := [line[ti + 2..]];
      head := line[..ti];
    }
    var parts := Fields(head);
    if parts == [] {
      return None;
    }
    return Some(Message(rawTags, ToUpper(parts[0]), parts[1..] + trailing));
  }

  lemma KeptNext(tags: seq<string>, i: nat)
    requires i < |tags|
    ensures KeptTags(tags[..i + 1]) == KeptTags(tags[..i]) + (if ClientTag(tags[i]) then [tags[i]] else [])
  {
    hide ClientTag;
    assert tags[..i + 1][..i] == tags[..i];
  }

  lemma RawTagsIs(section: string, kept: seq<string>)
    requires kept == KeptTags(Split(section, ';'))
    ensures RawTags(section) == if |Join(kept, ";")| <= MAX_CLIENT_TAG_BYTES then Join(kept, ";") else ""
    ensures kept == [] ==> RawTags(section) == ""
    ensures !ClientTag("")
  {}

  method CollectTags(section: string) returns (rawTags: string)
    ensures rawTags == RawTags(section)
  {
    var tags := Split(section, ';');
    var kept: seq<string> := [];
    assert KeptTags(tags[..0]) == [];
    hide *;
    for i := 0 to |tags|
      invariant kept == KeptTags(tags[..i])
    {
      var t := tags[i];
      KeptNext(tags, i);
      if ClientTag(t) {
        kept := kept + [t];
      }
    }
    assert tags[..|tags|] == tags;
    RawTagsIs(section, kept);
    var joined := Join(kept, ";");
    rawTags := if |kept| > 0 && |joined| <= MAX_CLIENT_TAG_BYTES then joined else "";
  }

  // --- Words ---

  lemma WordEndIs(w: string, rest: string)
    requires (forall c :: c in w ==> !IsSpace(c)) && (rest == "" || IsSpace(rest[0]))
    ensures WordEnd(w + rest) == |w|
  {
    var s := w + rest;
    hide IsSpace;
    assert forall j :: 0 <= j < |w| ==> s[j] == w[j];
    assert rest != "" ==> s[|w|] == rest[0];
  }

  lemma OneWord(w: string, rest: string)
    requires Solid(w) && (rest == "" || IsSpace(rest[0]))
    ensures Fields(w + rest) == [w] + Fields(rest)
  {
    WordEndIs(w, rest);
    hide IsSpace;
    var s := w + rest;
    assert s[0] == w[0];
    assert s[..|w|] == w && s[|w|..] == rest;
  }

  lemma {:induction false} FieldsOfWords(ws: seq<string>, rest: string)
    requires ws != [] && forall w :: w in ws ==> Solid(w)
    ensures Fields(Words(ws) + [' '] + rest) == ws + Fields(rest)
    ensures Fields(Words(ws)) == ws
  {
    hide Solid, IsSpace, Fields, Words;
    var w := ws[0];
    assert ws == [w] + ws[1..];
    FieldsOfNothing();
    if |ws| == 1 {
      assert ws == [w];
      FirstField(w, rest);
      OneWord(w, "");
      assert w + "" == w;
      WordsOfOne(w);
    } else {
      var more := Words(ws[1..]);
      FieldsOfWords(ws[1..], rest);
      FirstField(w, more);
      FirstField(w, more + [' '] + rest);
      WordsSplit(ws, rest);
      assert [w] + (ws[1..] + Fields(rest)) == ws + Fields(rest);
    }
  }

  lemma WordsOfOne(w: string)
    ensures Words([w]) == w
  {}

  lemma WordsSplit(ws: seq<string>, rest: string)
    requires |ws| > 1
    ensures Words(ws) == ws[0] + [' '] + Words(ws[1..])
    ensures Words(ws) + [' '] + rest == ws[0] + [' '] + (Words(ws[1..]) + [' '] + rest)
  {}

  lemma FirstField(w: string, rest: string)
    requires Solid(w)
    ensures Fields(w + [' '] + rest) == [w] + Fields(rest)
  {
    hide Solid, Fields;
    SpaceIsSpace(rest);
    OneWord(w, [' '] + rest);
    assert w + [' '] + rest == w + ([' '] + rest);
  }

  lemma FieldsOfNothing()
    ensures Fields("") == []
  {}

  lemma SpaceIsSpace(rest: string)
    ensures IsSpace(([' '] + rest)[0]) && Fields([' '] + rest) == Fields(rest)
  {
    assert ([' '] + rest)[1..] == rest;
  }

  lemma {:induction false} FieldsAreSolid(s: string)
    ensures forall w :: w in Fields(s) ==> Solid(w) && |w| <= |s|
    decreases |s|
  {
    if s != "" {
      if IsSpace(s[0]) {
        FieldsAreSolid(s[1..]);
      } else {
        FieldsAreSolid(s[WordEnd(s)..]);
      }
    }
  }

  // --- Where the trailing parameter starts ---

  /** A word that starts no trailing parameter. */
  predicate Inner(w: string) { ' ' !in w && (w == "" || w[0] != ':') }

  lemma {:induction false} NoTrailingInWord(w: string)
    requires ' ' !in w
    ensures TrailingAt(w) == -1
  {
    if |w| >= 2 {
      NoTrailingInWord(w[1..]);
    }
  }

  lemma {:induction false} TrailingBehind(w: string, rest: string)
    requires ' ' !in w
    ensures TrailingAt(w + [' '] + rest) ==
      if rest != "" && rest[0] == ':' then |w|
      else if TrailingAt(rest) < 0 then -1 else |w| + 1 + TrailingAt(rest)
  {
    var s := w + [' '] + rest;
    if w == "" {
      assert s[1..] == rest;
    } else {
      TrailingBehind(w[1..], rest);
      assert s[1..] == w[1..] + [' '] + rest;
      assert s[0] == w[0];
    }
  }

  lemma {:induction false} TrailingBehindWords(ws: seq<string>, rest: string)
    requires ws != [] && forall w :: w in ws ==> Inner(w) && w != ""
    ensures TrailingAt(Words(ws)) == -1
    ensures TrailingAt(Words(ws) + [' '] + rest) ==
      if rest != "" && rest[0] == ':' then |Words(ws)|
      else if TrailingAt(rest) < 0 then -1 else |Words(ws)| + 1 + TrailingAt(rest)
  {
    var w := ws[0];
    assert w in ws;
    if |ws| == 1 {
      NoTrailingInWord(w);
      TrailingBehind(w, rest);
    } else {
      var more := Words(ws[1..]);
      TrailingBehindWords(ws[1..], rest);
      assert ws[1] in ws;
      WordsStart(ws[1..]);
      TrailingBehind(w, more);
      TrailingBehind(w, more + [' '] + rest);
      assert Words(ws) == w + [' '] + more;
      assert Words(ws) + [' '] + rest == w + [' '] + (more + [' '] + rest);
    }
  }

  lemma WordsStart(ws: seq<string>)
    requires ws != [] && ws[0] != ""
    ensures Words(ws) != "" && Words(ws)[0] == ws[0][0]
  {}

  // --- The round trip ---

  predicate Command(c: string) {
    Solid(c) && '\0' !in c && c[0] != '@' && c[0] != ':' && ToUpper(c) == c
  }

  predicate Middle(p: string) { Solid(p) && p[0] != ':' }

  /** A last parameter the printer and the parser agree on. */
  predicate Final(last: string) {
    last == "" ||
    (last[0] != ':' && last[|last| - 1] !in LINE_END && (' ' in last || Solid(last)))
  }

  lemma {:induction false} TrimRightBehind(pre: string, s: string, cutset: string)
    requires s == "" ==> pre == "" || pre[|pre| - 1] !in cutset
    requires TrimRight(s, cutset) != "" || pre == "" || pre[|pre| - 1] !in cutset
    ensures TrimRight(pre + s, cutset) == pre + TrimRight(s, cutset)
  {
    var t := TrimRight(s, cutset);
    var k := |pre| + |t|;
    var all := pre + s;
    assert t == s[..|t|];
    forall i | k <= i < |all|
      ensures all[i] in cutset
    {
      assert all[i] == s[i - |pre|];
    }
    if t != "" {
      assert all[k - 1] == t[|t| - 1];
    } else if pre != "" {
      assert all[k - 1] == pre[|pre| - 1];
    }
    TrimRightUnique(all, k, cutset);
    assert all[..k] == pre + t;
  }

  lemma SolidIsInner(w: string)
    requires Solid(w) && w[0] != ':'
    ensures Inner(w)
  {
    assert IsSpace(' ');
  }

  /** What the parser makes of words and one more, written w. */
  lemma BodyParses(command: string, middles: seq<string>, w: string)
    requires Command(command) && forall p :: p in middles ==> Middle(p)
    requires (w != "" && w[0] == ':') || Inner(w)
    ensures var line := Words([command] + middles) + [' '] + w;
            ParseBody("", line) == Some(Message("", command,
              middles + (if w != "" && w[0] == ':' then [w[1..]] else Fields(w))))
  {
    var ws := [command] + middles;
    var line := Words(ws) + [' '] + w;
    forall x | x in ws
      ensures Solid(x) && Inner(x) && x != ""
    {
      if x != command {
        assert x in middles;
      }
      SolidIsInner(x);
    }
    TrailingBehindWords(ws, w);
    FieldsOfWords(ws, w);
    if w == "" || w[0] != ':' {
      NoTrailingInWord(w);
    }
    hide Words, Fields, TrailingAt, Solid, Inner, Middle, IsSpace;
    assert ws[0] == command && ws[1..] == middles;
    BodyCases(line, ws, w);
  }

  lemma BodyCases(line: string, ws: seq<string>, w: string)
    requires ws != [] && line == Words(ws) + [' '] + w && ToUpper(ws[0]) == ws[0]
    requires Fields(Words(ws)) == ws && Fields(line) == ws + Fields(w)
    requires TrailingAt(line) == if w != "" && w[0] == ':' then |Words(ws)| else -1
    ensures ParseBody("", line) == Some(Message("", ws[0],
      ws[1..] + (if w != "" && w[0] == ':' then [w[1..]] else Fields(w))))
  {
    hide Words, Fields, TrailingAt;
    if w != "" && w[0] == ':' {
      var i := |Words(ws)|;
      assert line[..i] == Words(ws) && line[i + 2..] == w[1..];
    } else {
      assert (ws + Fields(w))[1..] + [] == ws[1..] + Fields(w);
    }
  }

  /** The last parameter as it arrives: its written form without line ends. */
  lemma WrittenTrims(command: string, middles: seq<string>, last: string)
    requires Command(command)
    ensures var pre := Words([command] + middles) + [' '];
            TrimRight(pre + LastWritten(last), LINE_END) == pre + TrimRight(LastWritten(last), LINE_END)
  {
    var pre := Words([command] + middles) + [' '];
    assert ' ' !in LINE_END;
    hide TrimRight, Words, LastWritten;
    TrimRightBehind(pre, LastWritten(last), LINE_END);
  }

  lemma LastTrims(last: string)
    ensures var w := TrimRight(LastWritten(last), LINE_END);
            if LastWritten(last) != "" && LastWritten(last)[0] == ':' then
              w != "" && w[0] == ':' && w[1..] == TrimRight(LastWritten(last)[1..], LINE_END)
            else w == TrimRight(last, LINE_END) && Inner(w) && last != "" && ' ' !in last && last[0] != ':'
  {
    var lw := LastWritten(last);
    if lw != "" && lw[0] == ':' {
      assert ':' !in LINE_END;
      assert lw == ":" + lw[1..];
      TrimRightBehind(":", lw[1..], LINE_END);
    } else {
      var w := TrimRight(last, LINE_END);
      assert w == last[..|w|];
    }
  }

  lemma TrimmedIsWhole(s: string)
    ensures TrimRight(s, LINE_END) == s <==> s == "" || s[|s| - 1] !in LINE_END
  {}

  lemma SingleField(last: string, w: string)
    requires last != "" && ' ' !in last && w == TrimRight(last, LINE_END)
    ensures Fields(w) == [last] <==> w == last && Solid(last)
  {
    if Fields(w) == [last] {
      FieldsAreSolid(w);
      assert last in Fields(w);
      assert |last| <= |w|;
      assert w == last[..|w|];
    }
    if w == last && Solid(last) {
      OneWord(last, "");
      assert last + "" == last && Fields("") == [];
    }
  }

  /** Whether what arrives as the last parameter is what was sent. */
  lemma FinalIff(last: string)
    ensures var w := TrimRight(LastWritten(last), LINE_END);
            (if w != "" && w[0] == ':' then [w[1..]] else Fields(w)) == [last] <==> Final(last)
  {
    var lw := LastWritten(last);
    var w := TrimRight(lw, LINE_END);
    LastTrims(last);
    hide IsSpace, Fields;
    if lw != "" && lw[0] == ':' {
      TrimmedIsWhole(last);
      hide TrimRight;
      if last != "" && last[0] == ':' {
        assert |TrimRight(last[1..], LINE_END)| < |last|;
      } else {
        assert lw[1..] == last;
      }
    } else {
      SingleField(last, w);
      TrimmedIsWhole(last);
      hide TrimRight;
    }
  }

  lemma BodyStart(command: string, middles: seq<string>, rest: string)
    requires Command(command)
    ensures var line := Words([command] + middles) + [' '] + rest;
            line != "" && line[0] == command[0] && line[0] != ' ' && line[0] !in LINE_END
  {
    WordsStart([command] + middles);
    assert command[0] in command;
    assert IsSpace(' ') && IsSpace('\r') && IsSpace('\n');
  }

  /** Tags and prefix are read past: command and parameters are those of the body. */
  function PrefixPart(prefix: string): string { if prefix == "" then "" else ":" + prefix + [' '] }

  lemma PrefixIsReadPast(rawTags: string, prefix: string, body: string)
    requires ' ' !in prefix && body != "" && body[0] != ' ' && body[0] != ':'
    ensures ParsePrefixed(rawTags, PrefixPart(prefix) + body) == ParseBody(rawTags, body)
  {
    hide ParseBody;
    if prefix == "" {
      assert "" + body == body;
    } else {
      var line := ":" + prefix + [' '] + body;
      CutAt(":" + prefix, ' ', body);
      IndexByteAt(":" + prefix, ' ', body);
      TrimLeftNoSpace(body);
    }
  }

  lemma HeadParts(tags: string, prefix: string, body: string)
    ensures Head(tags, prefix) + body ==
      if tags == "" then PrefixPart(prefix) + body else "@" + tags + [' '] + (PrefixPart(prefix) + body)
  {}

  lemma TagsAreReadPast(tags: string, rest: string)
    requires ' ' !in tags && tags != "" && rest != "" && rest[0] != ' '
    ensures ParseTrimmed("@" + tags + [' '] + rest) == ParsePrefixed(RawTags(tags), rest)
  {
    hide ParsePrefixed;
    var line := "@" + tags + [' '] + rest;
    CutAt("@" + tags, ' ', rest);
    IndexByteAt("@" + tags, ' ', rest);
    TrimLeftNoSpace(rest);
    hide RawTags;
    assert line[1..IndexByte(line, ' ')] == tags;
  }

  /** Tags and prefix are read past: command and parameters are those of the body. */
  lemma HeadIsReadPast(tags: string, prefix: string, body: string)
    requires ' ' !in tags && ' ' !in prefix
    requires body != "" && body[0] != ' ' && body[0] != '@' && body[0] != ':'
    ensures var m := ParseTrimmed(Head(tags, prefix) + body);
            var b := ParseBody("", body);
            && (m.Some? <==> b.Some?)
            && (m.Some? ==> m.value == b.value.(rawTags := RawTags(tags)))
  {
    var rest := PrefixPart(prefix) + body;
    HeadParts(tags, prefix, body);
    assert rest[0] != ' ' && rest[0] != '@';
    if tags == "" {
      NoRawTags();
      assert ParseTrimmed(rest) == ParsePrefixed("", rest);
    } else {
      TagsAreReadPast(tags, rest);
    }
    hide ParsePrefixed, ParseTrimmed, Head, PrefixPart, RawTags;
    PrefixIsReadPast(RawTags(tags), prefix, body);
    BodyTagsOnly(RawTags(tags), body);
  }

  lemma BodyTagsOnly(t: string, body: string)
    ensures var m, b := ParseBody(t, body), ParseBody("", body);
            && (m.Some? <==> b.Some?)
            && (m.Some? ==> m.value == b.value.(rawTags := t))
  {
    hide Fields, TrailingAt;
  }

  lemma NoRawTags()
    ensures RawTags("") == ""
  {}

  lemma KeptOf(t: string)
    ensures KeptTags([]) == [] && KeptTags([t]) == if |t| >= 2 && t[0] == '+' && t[1] != '=' then [t] else []
  {
    assert [t][..0] == [];
    var k := Before(t, '=');
    assert ClientTag(t) <==> |k| > 1 && k[0] == '+';
    assert |t| >= 2 && t[0] == '+' ==> (IndexByte(t, '=') == 1 <==> t[1] == '=');
  }

  lemma {:induction false} KeptConcat(a: seq<string>, b: seq<string>)
    ensures KeptTags(a + b) == KeptTags(a) + KeptTags(b)
  {
    hide ClientTag;
    if b == [] {
      assert a + b == a;
    } else {
      var n := |b| - 1;
      KeptConcat(a, b[..n]);
      assert (a + b)[..|a| + n] == a + b[..n];
    }
  }

  /** Of a client's tags those are kept, in their order, whose key is a '+' and more. */
  lemma ClientTagsInOrder(a: seq<string>, t: string, b: seq<string>)
    ensures KeptTags(a + [t] + b) ==
      KeptTags(a) + (if |t| >= 2 && t[0] == '+' && t[1] != '=' then [t] else []) + KeptTags(b)
  {
    KeptOf(t);
    KeptConcat(a, [t]);
    KeptConcat(a + [t], b);
    hide KeptTags;
  }

  /** They reach the message unless they are too long together: then none does. */
  lemma ClientTagsArrive(tags: seq<string>)
    requires tags != [] && forall t :: t in tags ==> ';' !in t
    ensures var kept := Join(KeptTags(tags), ";"); RawTags(Join(tags, ";")) == if |kept| <= 4094 then kept else ""
  {
    SplitJoin(tags, ';');
    hide Join, Split, KeptTags;
  }

  /** A line without a command, or whose tags or prefix never end, is none. */
  lemma NoMessage(raw: string, mark: char, cut: string)
    requires (mark == '@' || mark == ':') && ' ' !in cut
    ensures Parsed("") == None && Parsed([mark] + cut) == None
    ensures (forall c :: c in raw ==> c in LINE_END) ==> Parsed(raw) == None
  {
    var line := [mark] + cut;
    assert ' ' !in TrimRight(line, LINE_END);
    if forall c :: c in raw ==> c in LINE_END {
      TrimRightUnique(raw, 0, LINE_END);
    }
    assert TrimRight(line, LINE_END) == "" || TrimRight(line, LINE_END)[0] == mark;
    hide TrimRight, Fields, TrailingAt, RawTags;
  }

  /** The parser takes back exactly what the printer wrote, whatever tags and prefix
      stand before it, if and only if the last parameter does not start with a colon,
      does not end in CR, LF or NUL, and has a space if it has any white space. */
  lemma RoundTripIff(tags: string, prefix: string, command: string, middles: seq<string>, last: string)
    requires ' ' !in tags && ' ' !in prefix
    requires Command(command) && forall p :: p in middles ==> Middle(p)
    ensures var m := Parsed(Format(tags, prefix, command, middles + [last]));
            && m.Some? && m.value.command == command && m.value.rawTags == RawTags(tags)
            && (m.value.params == middles + [last] <==> Final(last))
  {
    hide *;
    var w := TrimRight(LastWritten(last), LINE_END);
    var pre := Words([command] + middles) + [' '];
    WrittenTrims(command, middles, last);
    BodyStart(command, middles, w);
    FormatParts(tags, prefix, command, middles, last, w);
    HeadIsReadPast(tags, prefix, pre + w);
    LastTrimsTo(last);
    BodyParses(command, middles, w);
    FinalIff(last);
    var got := if w != "" && w[0] == ':' then [w[1..]] else Fields(w);
    assert middles + got == middles + [last] <==> got == [last] by {
      if middles + got == middles + [last] {
        assert (middles + got)[|middles|..] == got;
      }
    }
  }

  lemma LastTrimsTo(last: string)
    ensures var w := TrimRight(LastWritten(last), LINE_END); (w != "" && w[0] == ':') || Inner(w)
  {
    LastTrims(last);
  }

  lemma FormatParts(tags: string, prefix: string, command: string, middles: seq<string>, last: string, w: string)
    requires Command(command) && w == TrimRight(LastWritten(last), LINE_END)
    ensures var pre := Words([command] + middles) + [' '];
            var line := Format(tags, prefix, command, middles + [last]);
            Parsed(line) == ParseTrimmed(Head(tags, prefix) + (pre + w))
            && (pre + w)[0] != '@' && (pre + w)[0] != ':'
  {
    var pre := Words([command] + middles) + [' '];
    var params := middles + [last];
    WrittenTrims(command, middles, last);
    BodyStart(command, middles, w);
    assert params[..|params| - 1] == middles;
    hide Words, LastWritten, TrimRight, ParseTrimmed, Head, IsSpace, Solid;
    assert Body(command, params) == pre + LastWritten(last);
    TrimRightBehind(Head(tags, prefix), pre + LastWritten(last), LINE_END);
  }

  /** A message without parameters comes back as it is. */
  lemma BareRoundTrip(tags: string, prefix: string, command: string)
    requires ' ' !in tags && ' ' !in prefix && Command(command)
    ensures var m := Parsed(Format(tags, prefix, command, []));
            m == Some(Message(RawTags(tags), command, []))
  {
    BareCommand(command);
    hide ParseBody, TrimRight, Head, ParseTrimmed, RawTags, IsSpace;
    TrimRightBehind(Head(tags, prefix), command, LINE_END);
    HeadIsReadPast(tags, prefix, command);
  }

  lemma BareCommand(command: string)
    requires Command(command)
    ensures TrimRight(command, LINE_END) == command && command[0] != ' '
    ensures ParseBody("", command) == Some(Message("", command, []))
  {
    assert IsSpace(' ') && IsSpace('\r') && IsSpace('\n');
    assert command[0] in command && command[|command| - 1] in command;
    assert TrimRight(command, LINE_END) == command;
    OneWord(command, "");
    NoTrailingInWord(command);
    assert command + "" == command;
    hide IsSpace, TrimRight, Fields, TrailingAt;
    assert Fields("") == [] by { FieldsOfNothing(); }
    assert [command][1..] + [] == [];
  }
}
