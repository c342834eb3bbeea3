/** internal/enginelink/tags.go: the tags the relay puts on a line it hands the client,
    and what internal/irc/relay.go reads back. One char stands for one byte. */
module Tags {
  import opened GoStrings
  import opened IrcLine
  import opened SessionSpec

  const TAG_PREFIX := "stugan/"
  const TAG_SEQ := "stugan/seq"
  const TAG_REPLAY := "stugan/replay"

  function KeyOf(tag: string): string { Before(tag, '=') }

  predicate Ours(tag: string) { HasPrefix(KeyOf(tag), TAG_PREFIX) }

  /** A tag section that never ends. */
  predicate Unterminated(line: string) { line != "" && line[0] == '@' && ' ' !in line }

  /** The tags a line came with. */
  function TagsOf(line: string): seq<string> {
    if line != "" && line[0] == '@' && ' ' in line then Split(line[1..IndexByte(line, ' ')], ';') else []
  }

  /** The rest of a line with tags: what follows its first space. */
  function Behind(line: string): string { After(line, ' ') }

  function RestOf(line: string): string {
    if line != "" && line[0] == '@' && ' ' in line then TrimLeftSpaces(Behind(line)) else line
  }

  /** Incoming tags without the empty ones and any under stugan's own prefix. */
  function Kept(tags: seq<string>): seq<string> {
    if tags == [] then []
    else
      var t := tags[|tags| - 1];
      Kept(tags[..|tags| - 1]) + (if t == "" || Ours(t) then [] else [t])
  }

  predicate HasTime(tags: seq<string>) { exists i :: 0 <= i < |tags| && KeyOf(tags[i]) == "time" }

  /** stugan's tags; `stamp` is the formatted arrival time, if there is one. */
  function Added(id: nat, stamp: Option<string>, replay: bool, kept: seq<string>): seq<string> {
    (if id > 0 then [TAG_SEQ + "=" + Itoa(id)] else [])
    + (if replay then [TAG_REPLAY] else [])
    + (if stamp.Some? && !HasTime(kept) then ["time=" + stamp.value] else [])
  }

  function Tagged(line: string, id: nat, stamp: Option<string>, replay: bool): string {
    if Unterminated(line) then line
    else
      var kept := Kept(TagsOf(line));
      var tags := Added(id, stamp, replay, kept) + kept;
      if tags == [] then RestOf(line) else "@" + Join(tags, ";") + " " + RestOf(line)
  }

  method TagLine(line: string, id: nat, stamp: Option<string>, replay: bool) returns (r: string)
    ensures r == Tagged(line, id, stamp, replay)
  {
    hide KeyOf, HasTime, Kept, Split, Join, Itoa, Added, TrimLeftSpaces;
    var tags: seq<string>, rest, hasTime := [], line, false;
    assert Kept([]) == [] && !HasTime([]) by { NoTags(); }
    if line != "" && line[0] == '@' {
      var i := IndexByte(line, ' ');
      if i < 0 {
        return line;
      }
      tags, hasTime := KeepIncoming(Split(line[1..i], ';'));
      rest := TrimLeftSpaces(line[i + 1..]);
    }
    var ours := OurTags(id, stamp, replay, hasTime, tags);
    tags := ours + tags;
    if tags == [] {
      return rest;
    }
    return "@" + Join(tags, ";") + " " + rest;
  }

  lemma NoTags()
    ensures Kept([]) == [] && !HasTime([])
  {}

  /** TagLine's loop over the tags a line came with. */
  method KeepIncoming(incoming: seq<string>) returns (tags: seq<string>, hasTime: bool)
    ensures tags == Kept(incoming) && hasTime == HasTime(tags)
  {
    hide KeyOf, HasTime;
    tags, hasTime := [], false;
    NoTags();
    for k := 0 to |incoming|
      invariant tags == Kept(incoming[..k]) && hasTime == HasTime(tags)
    {
      assert incoming[..k + 1][..k] == incoming[..k];
      var t := incoming[k];
      var key := KeyOf(t);
      if t == "" || HasPrefix(key, TAG_PREFIX) {
        continue;
      }
      TimeLater(tags, t);
      if key == "time" {
        hasTime := true;
      }
      tags := tags + [t];
    }
    assert incoming[..|incoming|] == incoming;
  }

  method OurTags(id: nat, stamp: Option<string>, replay: bool, hasTime: bool, ghost kept: seq<string>)
    returns (ours: seq<string>)
    requires hasTime == HasTime(kept)
    ensures ours == Added(id, stamp, replay, kept)
  {
    hide HasTime, Itoa;
    ours := [];
    if id > 0 {
      ours := ours + [TAG_SEQ + "=" + Itoa(id)];
    }
    if replay {
      ours := ours + [TAG_REPLAY];
    }
    if !hasTime && stamp.Some? {
      ours := ours + ["time=" + stamp.value];
    }
  }

  lemma TimeLater(tags: seq<string>, t: string)
    ensures HasTime(tags + [t]) <==> HasTime(tags) || KeyOf(t) == "time"
  {
    hide KeyOf;
    var all := tags + [t];
    assert all[|tags|] == t;
    assert forall i :: 0 <= i < |tags| ==> all[i] == tags[i];
  }

  // --- What comes out ---

  predicate Plain(tag: string) { ' ' !in tag && ';' !in tag }

  lemma {:induction false} SplitParts(s: string, c: char)
    ensures forall p :: p in Split(s, c) ==> c !in p && (forall x :: x in p ==> x in s)
    decreases |s|
  {
    var i := IndexByte(s, c);
    if i >= 0 {
      IndexByteFirst(s, c);
      SplitParts(s[i + 1..], c);
    }
  }

  lemma TagsArePlain(line: string)
    ensures forall t :: t in TagsOf(line) ==> Plain(t)
  {
    if line != "" && line[0] == '@' && ' ' in line {
      var i := IndexByte(line, ' ');
      IndexByteFirst(line, ' ');
      var section := line[1..i];
      assert section == line[..i][1..];
      assert ' ' !in section;
      SplitParts(section, ';');
    }
  }

  lemma {:induction false} KeptIs(tags: seq<string>)
    ensures forall t :: t in Kept(tags) <==> t in tags && t != "" && !Ours(t)
  {
    hide Ours;
    if tags != [] {
      KeptIs(tags[..|tags| - 1]);
      assert tags == tags[..|tags| - 1] + [tags[|tags| - 1]];
    }
  }

  lemma AddedIsPlain(id: nat, stamp: Option<string>, replay: bool, kept: seq<string>)
    requires stamp.Some? ==> Plain(stamp.value)
    ensures forall t :: t in Added(id, stamp, replay, kept) ==> Plain(t)
  {
    hide HasTime;
  }

  lemma {:induction false} JoinHasNoSpace(parts: seq<string>)
    requires forall p :: p in parts ==> ' ' !in p
    ensures ' ' !in Join(parts, ";")
  {
    if |parts| > 1 {
      JoinHasNoSpace(parts[1..]);
    }
  }

  /** A line written as tags and a rest reads back as those tags and that rest. */
  lemma WrittenReadsBack(tags: seq<string>, rest: string)
    requires tags != [] && forall t :: t in tags ==> Plain(t)
    ensures var r := "@" + Join(tags, ";") + " " + rest;
            !Unterminated(r) && TagsOf(r) == tags && Behind(r) == rest
  {
    var head := "@" + Join(tags, ";");
    var r := head + " " + rest;
    JoinHasNoSpace(tags);
    SplitJoin(tags, ';');
    CutAt(head, ' ', rest);
    IndexByteAt(head, ' ', rest);
    assert r == head + [' '] + rest;
    hide Join, Split;
    assert r[1..|head|] == Join(tags, ";");
    assert r[|head|] == ' ';
  }

  /** With a number or as a replay, any line but one whose tag section never ends comes
      out with stugan's tags first, then every tag it came with, in order, but the empty
      ones and those under stugan's prefix, and then its rest. */
  lemma TaggedReadsBack(line: string, id: nat, stamp: Option<string>, replay: bool)
    requires !Unterminated(line) && (id > 0 || replay) && (stamp.Some? ==> Plain(stamp.value))
    ensures var r, kept := Tagged(line, id, stamp, replay), Kept(TagsOf(line));
            && TagsOf(r) == Added(id, stamp, replay, kept) + kept
            && Behind(r) == RestOf(line)
  {
    var kept := Kept(TagsOf(line));
    TagsArePlain(line);
    KeptIs(TagsOf(line));
    AddedIsPlain(id, stamp, replay, kept);
    assert Added(id, stamp, replay, kept) != [];
    hide Added, Plain;
    WrittenReadsBack(Added(id, stamp, replay, kept) + kept, RestOf(line));
  }

  lemma KeyIs(key: string, value: string)
    requires '=' !in key
    ensures KeyOf(key + "=" + value) == key && After(key + "=" + value, '=') == value
  {
    CutAt(key, '=', value);
    assert key + "=" + value == key + ['='] + value;
  }

  lemma BareKey(t: string)
    requires '=' !in t
    ensures KeyOf(t) == t
  {}

  lemma PrefixFacts()
    ensures HasPrefix(TAG_SEQ, TAG_PREFIX) && HasPrefix(TAG_REPLAY, TAG_PREFIX) && !HasPrefix("time", TAG_PREFIX)
    ensures TAG_SEQ != TAG_REPLAY && '=' !in TAG_SEQ && '=' !in TAG_REPLAY && '=' !in "time"
  {
    assert TAG_SEQ[7] == 's' && TAG_REPLAY[7] == 'r' && "time"[0] == 't';
  }

  lemma KeysOfOurs(id: nat, stamp: string)
    ensures KeyOf(TAG_SEQ + "=" + Itoa(id)) == TAG_SEQ && KeyOf(TAG_REPLAY) == TAG_REPLAY
    ensures After(TAG_SEQ + "=" + Itoa(id), '=') == Itoa(id)
    ensures KeyOf("time=" + stamp) == "time"
    ensures HasPrefix(TAG_SEQ, TAG_PREFIX) && HasPrefix(TAG_REPLAY, TAG_PREFIX) && !HasPrefix("time", TAG_PREFIX)
    ensures TAG_SEQ != TAG_REPLAY
  {
    hide KeyOf, After, Itoa, HasPrefix;
    PrefixFacts();
    KeyIs(TAG_SEQ, Itoa(id));
    KeyIs("time", stamp);
    BareKey(TAG_REPLAY);
    assert "time" + "=" + stamp == "time=" + stamp;
  }

  /** The numbers a reader may take from the tags of a line, relayTag for one key. */
  ghost predicate Reads(line: string, key: string, n: nat) {
    exists t :: t in TagsOf(line) && KeyOf(t) == key && ParseUint(After(t, '=')) == Some(n)
  }

  lemma AddedAre(id: nat, stamp: Option<string>, replay: bool, kept: seq<string>, t: string)
    ensures t in Added(id, stamp, replay, kept) <==>
      || (id > 0 && t == TAG_SEQ + "=" + Itoa(id))
      || (replay && t == TAG_REPLAY)
      || (stamp.Some? && !HasTime(kept) && t == "time=" + stamp.value)
  {
    hide HasTime, Itoa;
  }

  lemma TagIn(line: string, id: nat, stamp: Option<string>, replay: bool, t: string)
    requires !Unterminated(line) && (id > 0 || replay) && (stamp.Some? ==> Plain(stamp.value))
    ensures t in TagsOf(Tagged(line, id, stamp, replay)) <==>
      || (id > 0 && t == TAG_SEQ + "=" + Itoa(id))
      || (replay && t == TAG_REPLAY)
      || (stamp.Some? && !HasTime(Kept(TagsOf(line))) && t == "time=" + stamp.value)
      || (t in TagsOf(line) && t != "" && !Ours(t))
  {
    var kept := Kept(TagsOf(line));
    TaggedReadsBack(line, id, stamp, replay);
    KeptIs(TagsOf(line));
    AddedAre(id, stamp, replay, kept, t);
    hide Tagged, Kept, HasTime, Itoa, TagsOf, Added, Ours;
  }

  lemma UnderPrefix(t: string)
    ensures Ours(t) <==> "stugan/" <= t
    ensures "stugan/" <= t ==> t[0] != 't'
  {
    var k := KeyOf(t);
    if '=' in t {
      IndexByteFirst(t, '=');
    }
    assert k <= t;
    if "stugan/" <= t {
      assert forall i :: 0 <= i < 7 ==> t[i] == "stugan/"[i] && t[i] != '=';
      var i := IndexByte(t, '=');
      assert i < 0 || i >= 7;
      assert k[..7] == t[..7];
    }
  }

  /** Of the tags a line came with those stay, in their order, that are not empty and not
      under stugan's prefix. */
  lemma KeptInOrder(a: seq<string>, t: string, b: seq<string>)
    ensures Kept(a + [t] + b) == Kept(a) + (if t == "" || "stugan/" <= t then [] else [t]) + Kept(b)
    ensures Kept([]) == []
  {
    UnderPrefix(t);
    KeptLast(a, t);
    KeptConcat(a + [t], b);
    KeptNone();
    hide Kept, Ours;
  }

  lemma KeptNone()
    ensures Kept([]) == []
  {}

  lemma {:induction false} KeptConcat(a: seq<string>, b: seq<string>)
    ensures Kept(a + b) == Kept(a) + Kept(b)
  {
    hide Kept, Ours;
    if b == [] {
      KeptNone();
      assert a + b == a;
    } else {
      var n := |b| - 1;
      KeptConcat(a, b[..n]);
      KeptLast(a + b[..n], b[n]);
      KeptLast(b[..n], b[n]);
      assert b == b[..n] + [b[n]] && a + b == a + b[..n] + [b[n]];
    }
  }

  lemma KeptLast(a: seq<string>, t: string)
    ensures Kept(a + [t]) == Kept(a) + if t == "" || Ours(t) then [] else [t]
  {
    hide Ours;
    assert (a + [t])[..|a|] == a;
  }

  /** A line whose tag section never ends is passed on as it is, and so is one without
      tags that gets none. */
  lemma LeftAsItIs(line: string, id: nat, stamp: Option<string>, replay: bool)
    ensures line != "" && line[0] == '@' && ' ' !in line ==> Tagged(line, id, stamp, replay) == line
    ensures (line == "" || line[0] != '@') ==> Tagged(line, 0, None, false) == line
  {}

  /** No server can forge stugan's tags: whatever a line comes with, the only tags under
      stugan's prefix are the ones added here, and the number read back from the seq
      tag is the engine's and no other. */
  lemma NoForgedTags(line: string, id: nat, stamp: Option<string>, replay: bool)
    requires !Unterminated(line) && (id > 0 || replay) && (stamp.Some? ==> Plain(stamp.value))
    ensures var r := Tagged(line, id, stamp, replay);
            && (forall t :: t in TagsOf(r) && "stugan/" <= t ==>
                  (id > 0 && t == "stugan/seq=" + Itoa(id)) || (replay && t == "stugan/replay"))
            && (forall n :: Reads(r, TAG_SEQ, n) <==> n == id && id > 0)
            && (TAG_REPLAY in TagsOf(r) <==> replay)
  {
    var tags := TagsOf(Tagged(line, id, stamp, replay));
    hide *;
    forall t | t in tags && "stugan/" <= t
      ensures (id > 0 && t == "stugan/seq=" + Itoa(id)) || (replay && t == "stugan/replay")
    {
      UnderPrefix(t);
      OursIn(line, id, stamp, replay, t);
    }
    SeqReads(line, id, stamp, replay);
    SeqIsNoReplay(id);
    OursIn(line, id, stamp, replay, "stugan/replay");
  }

  lemma SeqIsNoReplay(id: nat)
    ensures "stugan/seq=" + Itoa(id) != "stugan/replay" && TAG_REPLAY == "stugan/replay" && Ours("stugan/replay")
  {
    assert ("stugan/seq=" + Itoa(id))[7] == 's' && "stugan/replay"[7] == 'r';
    UnderPrefix("stugan/replay");
  }

  /** Of the tags under stugan's prefix, those added are there and no other. */
  lemma OursIn(line: string, id: nat, stamp: Option<string>, replay: bool, t: string)
    requires !Unterminated(line) && (id > 0 || replay) && (stamp.Some? ==> Plain(stamp.value))
    requires Ours(t)
    ensures t in TagsOf(Tagged(line, id, stamp, replay)) <==>
      (id > 0 && t == "stugan/seq=" + Itoa(id)) || (replay && t == "stugan/replay")
  {
    TagIn(line, id, stamp, replay, t);
    if stamp.Some? {
      KeysOfOurs(id, stamp.value);
    }
    assert TAG_SEQ + "=" + Itoa(id) == "stugan/seq=" + Itoa(id);
    hide Tagged, Kept, HasTime, Itoa, KeyOf, TagsOf, Plain, Unterminated, HasPrefix;
  }

  lemma SeqReads(line: string, id: nat, stamp: Option<string>, replay: bool)
    requires !Unterminated(line) && (id > 0 || replay) && (stamp.Some? ==> Plain(stamp.value))
    ensures forall n :: Reads(Tagged(line, id, stamp, replay), TAG_SEQ, n) <==> n == id && id > 0
  {
    hide *;
    forall n: nat
      ensures Reads(Tagged(line, id, stamp, replay), TAG_SEQ, n) <==> n == id && id > 0
    {
      SeqReadsIff(line, id, stamp, replay, n);
    }
  }

  lemma SeqReadsIff(line: string, id: nat, stamp: Option<string>, replay: bool, n: nat)
    requires !Unterminated(line) && (id > 0 || replay) && (stamp.Some? ==> Plain(stamp.value))
    ensures Reads(Tagged(line, id, stamp, replay), TAG_SEQ, n) <==> n == id && id > 0
  {
    hide Tagged, Itoa, KeyOf, ParseUint, TagsOf, Plain, Unterminated, After, Ours;
    var tags := TagsOf(Tagged(line, id, stamp, replay));
    SeqTagIs(id);
    OursIn(line, id, stamp, replay, "stugan/seq=" + Itoa(id));
    if Reads(Tagged(line, id, stamp, replay), TAG_SEQ, n) {
      var t :| t in tags && KeyOf(t) == TAG_SEQ && ParseUint(After(t, '=')) == Some(n);
      SeqIsOurs(t);
      OursIn(line, id, stamp, replay, t);
    }
  }

  lemma SeqIsOurs(t: string)
    requires KeyOf(t) == TAG_SEQ
    ensures Ours(t) && t != "stugan/replay"
  {
    PrefixFacts();
    BareKey(TAG_REPLAY);
  }

  lemma SeqTagIs(id: nat)
    ensures var t := "stugan/seq=" + Itoa(id); Ours(t) && KeyOf(t) == TAG_SEQ && ParseUint(After(t, '=')) == Some(id)
  {
    KeysOfOurs(id, "");
    ItoaParses(id);
    hide KeyOf, Itoa, ParseUint, After, HasPrefix;
    assert TAG_SEQ + "=" + Itoa(id) == "stugan/seq=" + Itoa(id);
  }

  /** A line that had a time tag keeps it; one that had none gets the arrival time. */
  lemma TimeIsKept(line: string, id: nat, stamp: string, replay: bool)
    requires !Unterminated(line) && (id > 0 || replay) && Plain(stamp)
    ensures var r, kept := Tagged(line, id, Some(stamp), replay), Kept(TagsOf(line));
            HasTime(TagsOf(r)) && ("time=" + stamp in TagsOf(r) || HasTime(kept))
    ensures var r := Tagged(line, id, Some(stamp), replay);
            forall t :: t in TagsOf(r) && KeyOf(t) == "time" ==>
              if HasTime(TagsOf(line)) then t in TagsOf(line) else t == "time=" + stamp
  {
    TimesAre(line, id, stamp, replay);
    hide *;
    var r, kept := Tagged(line, id, Some(stamp), replay), Kept(TagsOf(line));
    StampPlain(stamp);
    TaggedReadsBack(line, id, Some(stamp), replay);
    TimeIn(Added(id, Some(stamp), replay, kept), kept);
    StampAdded(id, stamp, replay, kept);
  }

  lemma TimesAre(line: string, id: nat, stamp: string, replay: bool)
    requires !Unterminated(line) && (id > 0 || replay) && Plain(stamp)
    ensures var r := Tagged(line, id, Some(stamp), replay);
            forall t :: t in TagsOf(r) && KeyOf(t) == "time" ==>
              if HasTime(TagsOf(line)) then t in TagsOf(line) else t == "time=" + stamp
  {
    var r := Tagged(line, id, Some(stamp), replay);
    KeysOfOurs(id, stamp);
    TimeStays(TagsOf(line));
    hide Tagged, Kept, HasTime, Itoa, KeyOf, TagsOf, Plain, Unterminated, Ours;
    forall t | t in TagsOf(r) && KeyOf(t) == "time"
      ensures if HasTime(TagsOf(line)) then t in TagsOf(line) else t == "time=" + stamp
    {
      TagIn(line, id, Some(stamp), replay, t);
      if t in TagsOf(line) {
        TimeAmong(TagsOf(line), t);
      }
    }
  }

  lemma TimeAmong(tags: seq<string>, t: string)
    requires t in tags && KeyOf(t) == "time"
    ensures HasTime(tags)
  {
    var i :| 0 <= i < |tags| && tags[i] == t;
  }

  /** A time tag is not stugan's to drop. */
  lemma TimeStays(tags: seq<string>)
    ensures HasTime(Kept(tags)) <==> HasTime(tags)
  {
    KeptIs(tags);
    PrefixFacts();
    hide Kept, KeyOf;
    if HasTime(tags) {
      var i :| 0 <= i < |tags| && KeyOf(tags[i]) == "time";
      NotEmpty(tags[i]);
      assert tags[i] in Kept(tags);
      TimeAmong(Kept(tags), tags[i]);
    }
    if HasTime(Kept(tags)) {
      var i :| 0 <= i < |Kept(tags)| && KeyOf(Kept(tags)[i]) == "time";
      assert Kept(tags)[i] in Kept(tags);
      TimeAmong(tags, Kept(tags)[i]);
    }
  }

  lemma NotEmpty(t: string)
    requires KeyOf(t) == "time"
    ensures t != ""
  {}

  lemma StampPlain(stamp: string)
    requires Plain(stamp)
    ensures Some(stamp).Some? ==> Plain(Some(stamp).value)
  {}

  lemma TimeIn(added: seq<string>, kept: seq<string>)
    ensures HasTime(added) || HasTime(kept) ==> HasTime(added + kept)
    ensures forall t :: t in added ==> t in added + kept
  {
    hide KeyOf;
    var all := added + kept;
    if i :| 0 <= i < |kept| && KeyOf(kept[i]) == "time" {
      assert all[|added| + i] == kept[i];
    }
    if i :| 0 <= i < |added| && KeyOf(added[i]) == "time" {
      assert all[i] == added[i];
    }
  }

  lemma StampAdded(id: nat, stamp: string, replay: bool, kept: seq<string>)
    ensures var added := Added(id, Some(stamp), replay, kept);
            !HasTime(kept) ==> HasTime(added) && "time=" + stamp in added
  {
    KeysOfOurs(id, stamp);
    hide KeyOf, Itoa;
    if !HasTime(kept) {
      var added := Added(id, Some(stamp), replay, kept);
      assert added[|added| - 1] == "time=" + stamp;
    }
  }

  // --- With the engine's parser ---

  lemma OpenSectionFails(raw: string)
    ensures Unterminated(raw) ==> Parse(raw) == None
  {
    assert ' ' !in raw ==> IndexByte(raw, ' ') < 0;
  }

  /** Every line the engine relays can be tagged: its parser takes no open section. */
  lemma RelayedIsTagged(raw: string, id: nat, stamp: Option<string>)
    requires Classify(raw).Relayed? && id > 0 && (stamp.Some? ==> Plain(stamp.value))
    ensures forall n :: Reads(Tagged(raw, id, stamp, false), TAG_SEQ, n) <==> n == id
  {
    assert Parse(raw).Some?;
    OpenSectionFails(raw);
    hide Classify, Parse, Unterminated;
    NoForgedTags(raw, id, stamp, false);
  }

  lemma {:induction false} TrimLeftTwice(s: string)
    ensures TrimLeftSpaces(TrimLeftSpaces(s)) == TrimLeftSpaces(s)
  {
    TrimLeftNoSpace(TrimLeftSpaces(s));
  }

  /** And tagging changes nothing of the message: source, command and parameters of the
      tagged line are those of the line the socket gave, if and only if that does not
      start with a space. */
  lemma TaggingKeepsTheMessageIff(line: string, id: nat, stamp: Option<string>, replay: bool)
    requires Parse(line).Some? && (id > 0 || replay) && (stamp.Some? ==> Plain(stamp.value))
    ensures line != "" && (Parse(Tagged(line, id, stamp, replay)) == Parse(line) <==> line[0] != ' ')
  {
    var kept := Kept(TagsOf(line));
    var tags, rest := Added(id, stamp, replay, kept) + kept, RestOf(line);
    SourceOf(line);
    TagsArePlain(line);
    KeptIs(TagsOf(line));
    AddedIsPlain(id, stamp, replay, kept);
    FirstTag(id, stamp, replay, kept);
    assert Tagged(line, id, stamp, replay) == "@" + Join(tags, ";") + " " + rest;
    RestTrimmed(line);
    hide Added, Kept, TagsOf, RestOf, Plain, ParseSource, Tagged, Unterminated, TrimLeftSpaces, Parse;
    PlainNoSpace(tags);
    TaggedParses(tags, rest);
    CommandNotEmpty(TrimLeftSpaces(rest));
  }

  lemma RestTrimmed(line: string)
    ensures var r := TrimLeftSpaces(RestOf(line));
            && (r == "" || r[0] != ' ') && (line == "" || line[0] != ' ' ==> r == RestOf(line))
  {
    TrimLeftTwice(Behind(line));
    if line == "" || line[0] != ' ' {
      TrimLeftNoSpace(line);
    }
  }

  /** A line that starts with no space has no empty command. */
  lemma CommandNotEmpty(s: string)
    requires s == "" || s[0] != ' '
    ensures ParseSource(s).Some? ==> ParseSource(s).value.cmd != ""
  {
    hide Params;
  }

  lemma BlankCommand(line: string)
    requires line != "" && line[0] == ' '
    ensures Parse(line).Some? && Parse(line).value.cmd == ""
  {
    hide Params;
    assert IndexByte(line, ' ') == 0;
  }

  lemma PlainNoSpace(tags: seq<string>)
    requires forall t :: t in tags ==> Plain(t)
    ensures forall t :: t in tags ==> ' ' !in t
  {}

  lemma FirstTag(id: nat, stamp: Option<string>, replay: bool, kept: seq<string>)
    requires id > 0 || replay
    ensures Added(id, stamp, replay, kept) != [] && Added(id, stamp, replay, kept)[0] != ""
  {}

  lemma SourceOf(line: string)
    requires Parse(line).Some?
    ensures line != "" && !Unterminated(line) && ParseSource(RestOf(line)) == Parse(line)
    ensures line[0] == ' ' ==> Parse(line).value.cmd == ""
  {
    if line == "" || line[0] == ' ' {
      if line != "" {
        BlankCommand(line);
      }
    } else if line[0] == '@' {
      assert IndexByte(line, ' ') >= 2;
    }
  }

  lemma TaggedParses(tags: seq<string>, rest: string)
    requires tags != [] && tags[0] != "" && forall t :: t in tags ==> ' ' !in t
    ensures Parse("@" + Join(tags, ";") + " " + rest) == ParseSource(TrimLeftSpaces(rest))
  {
    var head := "@" + Join(tags, ";");
    JoinHasNoSpace(tags);
    JoinNotEmpty(tags);
    IndexByteAt(head, ' ', rest);
    hide Join, ParseSource, TrimLeftSpaces;
    var r := head + " " + rest;
    assert r == head + [' '] + rest;
    assert r[|head| + 1..] == rest;
  }

  lemma JoinNotEmpty(tags: seq<string>)
    requires tags != [] && tags[0] != ""
    ensures Join(tags, ";") != ""
  {}
}
