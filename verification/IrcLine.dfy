/** internal/engine/ircline.go: the minimal IRC parse the engine relays with. A
    line is the sequence of its bytes, one char each. */
module IrcLine {
  import opened GoStrings

  datatype Line = Line(nick: string, cmd: string, params: seq<string>) {
    function Param(i: nat): string {
      if i < |params| then params[i] else ""
    }

    function Last(): string {
      if params == [] then "" else params[|params| - 1]
    }
  }

  /** A parameter that is written without a leading colon. */
  predicate Middle(p: string) {
    p != "" && p[0] != ':' && ' ' !in p
  }

  /** The parameters of what follows the command. */
  function Params(rest: string): seq<string>
    decreases |rest|
  {
    var r := TrimLeftSpaces(rest);
    if r == "" then []
    else if r[0] == ':' then [r[1..]]
    else [Before(r, ' ')] + Params(After(r, ' '))
  }

  /** The nick of a source: what precedes the first '!' or '@'. */
  function SourceNick(src: string): string {
    if src == "" || src[0] == '!' || src[0] == '@' then ""
    else [src[0]] + SourceNick(src[1..])
  }

  /** A leading section that opens with `mark` and ends at the first space: its
      text without the mark, and the rest. None when it is empty or open. */
  function Section(s: string): Option<(string, string)> {
    var i := IndexByte(s, ' ');
    if i < 2 then None else Some((s[1..i], TrimLeftSpaces(s[i + 1..])))
  }

  function ParseCommand(nick: string, s: string): Option<Line> {
    if s == "" then None
    else Some(Line(nick, ToUpper(Before(s, ' ')), Params(After(s, ' '))))
  }

  function ParseSource(s: string): Option<Line> {
    if s != "" && s[0] == ':' then
      match Section(s)
      case None => None
      case Some((src, rest)) => ParseCommand(SourceNick(src), rest)
    else ParseCommand("", s)
  }

  function Parse(raw: string): Option<Line> {
    if raw != "" && raw[0] == '@' then
      match Section(raw)
      case None => None
      case Some((_, rest)) => ParseSource(rest)
    else ParseSource(raw)
  }

  /** parseLine, with the loop that eats parameters off the rest. */
  method ParseLine(raw: string) returns (r: Option<Line>)
    ensures r == Parse(raw)
  {
    var s := raw;
    if s != "" && s[0] == '@' {
      match Section(s)
      case None => return None;
      case Some((_, rest)) => s := rest;
    }
    var nick := "";
    if s != "" && s[0] == ':' {
      match Section(s)
      case None => return None;
      case Some((src, rest)) => nick, s := SourceNick(src), rest;
    }
    if s == "" {
      return None;
    }
    var params := ParseParams(After(s, ' '));
    return Some(Line(nick, ToUpper(Before(s, ' ')), params));
  }

  method ParseParams(args: string) returns (params: seq<string>)
    ensures params == Params(args)
  {
    var rest := args;
    params := [];
    while rest != ""
      invariant params + Params(rest) == Params(args)
      decreases |rest|
    {
      ghost var was := rest;
      rest := TrimLeftSpaces(rest);
      if rest == "" {
        break;
      }
      if rest[0] == ':' {
        params := params + [rest[1..]];
        rest := "";
        break;
      }
      assert params + Params(was) == params + [Before(rest, ' ')] + Params(After(rest, ' '));
      params := params + [Before(rest, ' ')];
      rest := After(rest, ' ');
    }
  }

  // --- RFC 1459 case folding ---

  function FoldChar(c: char): char {
    if 'A' <= c <= 'Z' then ((c as int) + 32) as char
    else if c == '[' then '{'
    else if c == ']' then '}'
    else if c == '\\' then '|'
    else if c == '~' then '^'
    else c
  }

  function Fold(s: string): (r: string)
    ensures |r| == |s|
  {
    seq(|s|, i requires 0 <= i < |s| => FoldChar(s[i]))
  }

  /** fold's loop over its copy of the bytes. */
  method FoldInPlace(b: array<char>)
    modifies b
    ensures b[..] == Fold(old(b[..]))
  {
    for i := 0 to b.Length
      invariant forall k :: 0 <= k < i ==> b[k] == FoldChar(old(b[k]))
      invariant forall k :: i <= k < b.Length ==> b[k] == old(b[k])
    {
      b[i] := FoldChar(b[i]);
    }
  }

  /** A folded name is in lower case for good, so comparing folded names is an
      equivalence that no re-folding can refine. */
  lemma FoldIdempotent(s: string)
    ensures Fold(Fold(s)) == Fold(s)
  {
    forall i | 0 <= i < |s|
      ensures Fold(Fold(s))[i] == Fold(s)[i]
    {
      assert Fold(Fold(s))[i] == FoldChar(FoldChar(s[i]));
    }
  }

  // --- Registration burst ---

  const BURST_COMMANDS := {
    "CAP", "AUTHENTICATE", "001", "002", "003", "004", "005", "042",
    "900", "901", "903", "907", "908"
  }

  predicate EndOfBurst(cmd: string) { cmd == "376" || cmd == "422" }

  /** The tag or source section rewriteTarget copies: it and its space, "" when
      there is none, None when it never ends. */
  function Leading(s: string, mark: char): (r: Option<string>)
    ensures r.Some? ==> |r.value| <= |s|
  {
    if s != "" && s[0] == mark then
      var i := IndexByte(s, ' ');
      if i < 0 then None else Some(s[..i + 1])
    else Some("")
  }

  /** rewriteTarget behind the header: None when there is no first middle
      parameter to replace. */
  function Retarget(t: string, nick: string): Option<string> {
    var rest := After(t, ' ');
    if rest == "" || rest[0] == ':' then None
    else Some(Body(Before(t, ' '), nick + NonEmptyTail(After(rest, ' '))))
  }

  function NonEmptyTail(rest: string): string {
    if rest == "" then "" else " " + rest
  }

  function Body(cmd: string, args: string): string { cmd + " " + args }

  /** rewriteTarget: raw with its first parameter replaced by nick. */
  function RewriteTarget(raw: string, nick: string): string {
    match Leading(raw, '@')
    case None => raw
    case Some(tags) =>
      match Leading(raw[|tags|..], ':')
      case None => raw
      case Some(src) =>
        match Retarget(raw[|tags|..][|src|..], nick)
        case None => raw
        case Some(t) => tags + (src + t)
  }

  function Spaced(s: string): string { if s == "" then "" else s + " " }

  /** A line whose parts up to its first parameter are set apart by exactly one
      space, and whose first parameter is a middle one. `rest` is free. */
  datatype Addressed = Addressed(tags: string, src: string, cmd: string, target: string, rest: Option<string>) {
    predicate Valid() {
      Header(tags, src, cmd) && Middle(target)
    }

    function Args(): string {
      match rest case None => target case Some(r) => target + " " + r
    }

    /** What follows the first parameter. */
    function After(): string {
      if rest.None? then "" else rest.value
    }

    function Text(): string {
      Spaced(tags) + (Spaced(src) + Body(cmd, Args()))
    }
  }

  predicate Header(tags: string, src: string, cmd: string) {
    && (tags == "" || (|tags| >= 2 && tags[0] == '@' && ' ' !in tags))
    && (src == "" || (|src| >= 2 && src[0] == ':' && ' ' !in src))
    && Middle(cmd) && cmd[0] != '@'
  }

  function HeaderNick(src: string): string {
    if src == "" then "" else SourceNick(src[1..])
  }

  /** Reading past one section, for the parser and for rewriteTarget. */
  lemma SkipSection(part: string, mark: char, post: string)
    requires part == "" || (|part| >= 2 && part[0] == mark && ' ' !in part)
    requires post != "" && post[0] != ' '
    requires part == "" ==> post[0] != mark
    ensures var s := Spaced(part) + post;
            && Leading(s, mark) == Some(Spaced(part))
            && s[|Spaced(part)|..] == post
            && (if part == "" then s == post
                else s[0] == mark && Section(s) == Some((part[1..], post)))
  {
    var s := Spaced(part) + post;
    if part == "" {
      assert s == post;
    } else {
      assert s == part + [' '] + post;
      IndexByteAt(part, ' ', post);
      assert s[1..|part|] == part[1..];
      assert s[|part| + 1..] == post;
      assert s[..|part| + 1] == Spaced(part);
      TrimLeftNoSpace(post);
    }
  }

  lemma SkipHeader(tags: string, src: string, cmd: string, args: string)
    requires Header(tags, src, cmd)
    ensures var t := Body(cmd, args);
            var s := Spaced(src) + t;
            && t != "" && t[0] == cmd[0]
            && s != "" && s[0] != ' ' && (tags == "" ==> s[0] != '@')
  {
    assert src != "" ==> (Spaced(src) + Body(cmd, args))[0] == src[0];
    assert src == "" ==> Spaced(src) + Body(cmd, args) == Body(cmd, args);
  }

  /** How a line with any header parses, whatever follows its command. */
  lemma ParseHeader(tags: string, src: string, cmd: string, args: string)
    requires Header(tags, src, cmd)
    ensures Parse(Spaced(tags) + (Spaced(src) + Body(cmd, args)))
         == Some(Line(HeaderNick(src), ToUpper(cmd), Params(args)))
  {
    SkipHeader(tags, src, cmd, args);
    var t := Body(cmd, args);
    CutAt(cmd, ' ', args);
    SkipSection(src, ':', t);
    SkipSection(tags, '@', Spaced(src) + t);
  }

  lemma RewriteTargetText(l: Addressed, nick: string)
    requires l.Valid()
    ensures RewriteTarget(l.Text(), nick)
         == Spaced(l.tags) + (Spaced(l.src) + Body(l.cmd, nick + NonEmptyTail(l.After())))
  {
    SkipHeader(l.tags, l.src, l.cmd, l.Args());
    var t := Body(l.cmd, l.Args());
    RetargetBody(l, nick);
    hide Body, Spaced, Leading, Retarget, Middle, Section, NonEmptyTail;
    SkipSection(l.src, ':', t);
    SkipSection(l.tags, '@', Spaced(l.src) + t);
  }

  lemma RetargetBody(l: Addressed, nick: string)
    requires l.Valid()
    ensures Retarget(Body(l.cmd, l.Args()), nick) == Some(Body(l.cmd, nick + NonEmptyTail(l.After())))
  {
    CutAt(l.cmd, ' ', l.Args());
    if l.rest.Some? {
      CutAt(l.target, ' ', l.rest.value);
    }
  }

  lemma ParamsMiddle(p: string, post: string)
    requires Middle(p)
    ensures Params(p) == [p]
    ensures Params(p + " " + post) == [p] + Params(post)
  {
    TrimLeftNoSpace(p);
    TrimLeftNoSpace(p + " " + post);
    CutAt(p, ' ', post);
  }

  /** A parsed parameter with a space in it is the trailing one. */
  lemma FirstParamShape(s: string)
    requires Params(s) != [] && ' ' in Params(s)[0]
    ensures var r := TrimLeftSpaces(s); r != "" && r[0] == ':' && Params(s) == [r[1..]]
  {
    var r := TrimLeftSpaces(s);
    if ' ' in r {
      IndexByteFirst(r, ' ');
    }
    assert ' ' !in Before(r, ' ');
  }

  lemma NoParamsIsBlank(s: string)
    requires Params(s) == []
    ensures forall i :: 0 <= i < |s| ==> s[i] == ' '
  {
    if s != "" && s[0] == ' ' {
      NoParamsIsBlank(s[1..]);
      assert forall i :: 1 <= i < |s| ==> s[i] == s[1..][i - 1];
    }
  }

  /** Only a middle nick survives being written first and parsed back. */
  lemma NotMiddle(nick: string, tail: string, after: string)
    requires !Middle(nick)
    requires tail == (if after == "" then "" else " " + after)
    ensures Params(nick + tail) != [nick] + Params(after)
  {
    var s := nick + tail;
    if nick == "" {
      assert Params(s) == Params(after) by {
        if after != "" {
          assert s[1..] == after;
        }
      }
      assert |Params(s)| < |[nick] + Params(after)|;
    } else if nick[0] == ':' {
      TrimLeftNoSpace(s);
      assert Params(s) == [s[1..]];
      assert ([nick] + Params(after))[0] == nick;
      assert |s[1..]| != |nick|;
    } else if Params(s) == [nick] + Params(after) {
      assert Params(s)[0] == nick;
      FirstParamShape(s);
      NoParamsIsBlank(after);
      var r := TrimLeftSpaces(s);
      var k := |s| - |r|;
      TrimLeftIsSuffix(s);
      assert s[k] == r[0];
      assert s[k + 1..] == r[1..];
      CountColons(nick, tail, k);
    }
  }

  /** A nick is not what is left of it, behind its first colon, with blanks added. */
  lemma CountColons(nick: string, tail: string, k: nat)
    requires forall i :: 0 <= i < |tail| ==> tail[i] == ' '
    requires k < |nick + tail| && (nick + tail)[k] == ':'
    ensures (nick + tail)[k + 1..] != nick
  {
    var s := nick + tail;
    assert k < |nick|;
    assert multiset(tail)[':'] == 0 by {
      assert ':' !in tail;
    }
    assert s == s[..k] + [s[k]] + s[k + 1..];
    assert multiset(s)[':'] >= 1 + multiset(s[k + 1..])[':'];
    assert multiset(s)[':'] == multiset(nick)[':'];
  }

  lemma ParamsOfArgs(l: Addressed)
    requires l.Valid()
    ensures Params(l.Args()) == [l.target] + Params(l.After())
  {
    ParamsMiddle(l.target, l.After());
  }

  lemma ParamsOfRetargeted(nick: string, after: string)
    ensures Params(nick + NonEmptyTail(after)) == [nick] + Params(after) <==> Middle(nick)
  {
    if Middle(nick) {
      ParamsMiddle(nick, after);
      assert nick + "" == nick;
      assert nick + " " + after == nick + (" " + after);
    } else {
      NotMiddle(nick, NonEmptyTail(after), after);
    }
  }

  lemma ParseText(l: Addressed) returns (was: Line)
    requires l.Valid()
    ensures Parse(l.Text()) == Some(was) && was.params == [l.target] + Params(l.After())
    ensures was.nick == HeaderNick(l.src) && was.cmd == ToUpper(l.cmd)
  {
    ParseHeader(l.tags, l.src, l.cmd, l.Args());
    ParamsOfArgs(l);
    was := Parse(l.Text()).value;
  }

  lemma ParseRewritten(l: Addressed, nick: string) returns (now: Line)
    requires l.Valid()
    ensures Parse(RewriteTarget(l.Text(), nick)) == Some(now)
    ensures now.params == Params(nick + NonEmptyTail(l.After()))
    ensures now.nick == HeaderNick(l.src) && now.cmd == ToUpper(l.cmd)
  {
    RewriteTargetText(l, nick);
    ParseHeader(l.tags, l.src, l.cmd, nick + NonEmptyTail(l.After()));
    now := Parse(RewriteTarget(l.Text(), nick)).value;
  }

  /** What rewriteTarget is for: the line it returns parses like the original but
      for its first parameter, which is the nick. That holds exactly when the nick
      is one a middle parameter can carry. */
  lemma RewriteTargetReplacesOnlyTheTarget(l: Addressed, nick: string)
    requires l.Valid()
    ensures Parse(l.Text()).Some? && |Parse(l.Text()).value.params| >= 1
    ensures var was := Parse(l.Text()).value;
            Parse(RewriteTarget(l.Text(), nick)) == Some(was.(params := was.params[0 := nick]))
            <==> Middle(nick)
  {
    var was := ParseText(l);
    var now := ParseRewritten(l, nick);
    ParamsOfRetargeted(nick, l.After());
    assert was.params[0 := nick] == [nick] + Params(l.After());
  }

  /** A line with no first parameter that ends at a space is left as it is. */
  lemma RewriteTargetLeaves(tags: string, src: string, cmd: string, args: string, nick: string)
    requires Header(tags, src, cmd) && (args == "" || args[0] == ':')
    ensures var raw := Spaced(tags) + (Spaced(src) + Body(cmd, args)); RewriteTarget(raw, nick) == raw
  {
    SkipHeader(tags, src, cmd, args);
    var t := Body(cmd, args);
    NothingToReplace(cmd, args, nick);
    SkipSection(src, ':', t);
    SkipSection(tags, '@', Spaced(src) + t);
    hide Body, Spaced, Leading, Retarget, Middle, Section;
  }

  lemma NothingToReplace(cmd: string, args: string, nick: string)
    requires Middle(cmd) && (args == "" || args[0] == ':')
    ensures Retarget(Body(cmd, args), nick) == None
  {
    CutAt(cmd, ' ', args);
  }

  // --- What a line says ---

  /** The arguments of a line: middle parameters behind one space each, and a last one
      behind " :" that may hold anything. */
  function ArgText(middles: seq<string>, trailing: Option<string>): string {
    if middles == [] then (match trailing case None => "" case Some(t) => ":" + t)
    else if |middles| == 1 && trailing.None? then middles[0]
    else middles[0] + " " + ArgText(middles[1..], trailing)
  }

  function ParamsFrom(middles: seq<string>, trailing: Option<string>): seq<string> {
    middles + (match trailing case None => [] case Some(t) => [t])
  }

  lemma {:induction false} ArgsParse(middles: seq<string>, trailing: Option<string>)
    requires forall p :: p in middles ==> Middle(p)
    ensures Params(ArgText(middles, trailing)) == ParamsFrom(middles, trailing)
  {
    hide Params, Middle;
    if middles == [] {
      TrailingParses(trailing);
    } else {
      var rest := ArgText(middles[1..], trailing);
      assert middles[0] in middles;
      ParamsMiddle(middles[0], rest);
      if |middles| == 1 && trailing.None? {
        assert middles + [] == [middles[0]];
      } else {
        ArgsParse(middles[1..], trailing);
        hide ArgText;
        assert [middles[0]] + ParamsFrom(middles[1..], trailing) == ParamsFrom(middles, trailing);
      }
    }
  }

  lemma TrailingParses(trailing: Option<string>)
    ensures Params(ArgText([], trailing)) == ParamsFrom([], trailing)
  {
    match trailing
    case None => assert Params("") == [];
    case Some(t) =>
      var s := ":" + t;
      TrimLeftNoSpace(s);
      assert s[1..] == t;
  }

  /** A line with or without tags, from whom it may be, parses to its source's nick, its
      command in capitals and its parameters, in order, the last one whole. */
  lemma LineParses(tags: string, src: string, cmd: string, middles: seq<string>, trailing: Option<string>)
    requires Header(tags, src, cmd) && forall p :: p in middles ==> Middle(p)
    ensures Parse(Spaced(tags) + (Spaced(src) + (cmd + " " + ArgText(middles, trailing))))
         == Some(Line(HeaderNick(src), ToUpper(cmd), ParamsFrom(middles, trailing)))
  {
    ArgsParse(middles, trailing);
    ParseHeader(tags, src, cmd, ArgText(middles, trailing));
  }

  /** The nick of a source is what stands before its user or host. */
  lemma {:induction false} NickOfSource(nick: string, rest: string)
    requires '!' !in nick && '@' !in nick && (rest == "" || rest[0] == '!' || rest[0] == '@')
    ensures SourceNick(nick + rest) == nick
  {
    var s := nick + rest;
    if nick == "" {
      assert s == rest;
    } else {
      NickOfSource(nick[1..], rest);
      assert s[1..] == nick[1..] + rest;
    }
  }

  /** What cannot be parsed: nothing, tags or a source that are empty or never end, and
      tags or a source with nothing behind. */
  lemma NotALine(part: string, mark: char, blanks: string)
    requires mark == '@' || mark == ':'
    requires ' ' !in part && forall i :: 0 <= i < |blanks| ==> blanks[i] == ' '
    ensures Parse("") == None
    ensures Parse([mark] + part) == None
    ensures Parse([mark] + part + [' '] + blanks) == None
    ensures Parse([mark, ' '] + part) == None
  {
    var s := [mark] + part + [' '] + blanks;
    IndexByteAt([mark] + part, ' ', blanks);
    assert s[|part| + 2..] == blanks;
    OnlySpaces(blanks);
    IndexByteAt([mark], ' ', part);
    assert [mark] + [' '] + part == [mark, ' '] + part;
  }

  lemma {:induction false} OnlySpaces(blanks: string)
    requires forall i :: 0 <= i < |blanks| ==> blanks[i] == ' '
    ensures TrimLeftSpaces(blanks) == ""
  {
    if blanks != "" {
      OnlySpaces(blanks[1..]);
    }
  }

  /** Two characters that differ in case only, by RFC 1459. */
  predicate CasePair(upper: char, lower: char) {
    || ('A' <= upper <= 'Z' && lower as int == upper as int + 32)
    || (upper == '[' && lower == '{') || (upper == ']' && lower == '}')
    || (upper == '\\' && lower == '|') || (upper == '~' && lower == '^')
  }

  /** Names fold to the same if and only if they differ in case only. */
  lemma FoldsTogetherIff(a: string, b: string)
    ensures Fold(a) == Fold(b) <==>
      |a| == |b| && forall i :: 0 <= i < |a| ==> a[i] == b[i] || CasePair(a[i], b[i]) || CasePair(b[i], a[i])
  {
    if |a| == |b| {
      forall i | 0 <= i < |a|
        ensures Fold(a)[i] == Fold(b)[i] <==> a[i] == b[i] || CasePair(a[i], b[i]) || CasePair(b[i], a[i])
      {
        CharsFoldIff(a[i], b[i]);
      }
      if Fold(a) == Fold(b) {
        assert forall i :: 0 <= i < |a| ==> Fold(a)[i] == Fold(b)[i];
      }
    }
  }

  lemma CharsFoldIff(a: char, b: char)
    ensures FoldChar(a) == FoldChar(b) <==> a == b || CasePair(a, b) || CasePair(b, a)
  {}
}
