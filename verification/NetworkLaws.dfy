/** What an event makes of any one member of any one buffer, and of the buffers' order. */
module NetworkLaws {
  import opened GoStrings
  import opened IrcLine
  import opened Modes
  import opened NetworkSpec

  /** Who stands under a nick in a buffer, both in any case. */
  function Who(chans: seq<Chan>, buffer: string, nick: string): Option<Member> {
    var ms := MembersOf(chans, buffer);
    if Fold(nick) in ms then Some(ms[Fold(nick)]) else None
  }

  /** The last entry of a NAMES reply for a nick, or what stood there before. */
  function LastListed(was: Option<Member>, names: seq<Member>, nick: string): Option<Member> {
    if names == [] then was
    else
      var m := names[|names| - 1];
      if Fold(m.nick) == Fold(nick) then Some(m) else LastListed(was, names[..|names| - 1], nick)
  }

  /** The changes of a MODE line that are for a nick, in order. */
  function For(changes: seq<MemberMode>, nick: string): seq<MemberMode> {
    if changes == [] then []
    else (if Fold(changes[0].nick) == Fold(nick) then [changes[0]] else []) + For(changes[1..], nick)
  }

  /** Who stands there after an event. */
  function WhoAfter(n: Net, e: Event, buffer: string, nick: string): Option<Member> {
    var was := Who(n.chans, buffer, nick);
    match e
    case Message(_) => was
    case Names(b, names) => if EqualIRC(b, buffer) then LastListed(was, names, nick) else was
    case Join(who, b, account) =>
      if EqualIRC(b, buffer) && EqualIRC(who, nick) then Some(Member(who, account, false, "")) else was
    case Part(who, b) =>
      if EqualIRC(b, buffer) && (EqualIRC(who, nick) || EqualIRC(who, n.nick)) then None else was
    case Kick(who, b) =>
      if EqualIRC(b, buffer) && (EqualIRC(who, nick) || EqualIRC(who, n.nick)) then None else was
    case Mode(b, changes) =>
      if EqualIRC(b, buffer) && was.Some?
      then Some(was.value.(modes := ChangedBy(was.value.modes, For(changes, nick)))) else was
    case Quit(who) => if EqualIRC(who, nick) then None else was
    case Nick(who, now) =>
      var moved := Who(n.chans, buffer, who);
      if EqualIRC(now, nick) && moved.Some? then Some(moved.value.(nick := now))
      else if EqualIRC(who, nick) then None else was
    case Away(who, away) => if EqualIRC(who, nick) && was.Some? then Some(was.value.(away := away)) else was
    case Disconnect => None
  }

  // --- Buffers ---

  lemma FoundAt(chans: seq<Chan>, name: string, i: nat)
    requires NoTwins(chans) && i < |chans| && EqualIRC(chans[i].name, name)
    ensures Find(chans, name) == i
  {
    hide Fold;
  }

  lemma MembersEnsured(chans: seq<Chan>, b: string, buffer: string)
    ensures MembersOf(Ensured(chans, b), buffer) == MembersOf(chans, buffer)
  {
    hide Fold;
    var r := Ensured(chans, b);
    if r != chans {
      assert r == chans + [Chan(b, map[])];
      var i, j := Find(chans, buffer), Find(r, buffer);
      assert forall k :: 0 <= k < |chans| ==> r[k] == chans[k];
      if i >= 0 {
        assert j == i;
      }
    }
  }

  lemma MembersReplaced(chans: seq<Chan>, b: string, ms: map<string, Member>, buffer: string)
    ensures MembersOf(WithMembers(chans, b, ms), buffer) ==
      if EqualIRC(b, buffer) && Find(chans, b) >= 0 then ms else MembersOf(chans, buffer)
  {
    hide Fold;
    var r := WithMembers(chans, b, ms);
    var i, j := Find(chans, buffer), Find(r, buffer);
    assert |r| == |chans| && forall k :: 0 <= k < |r| ==> r[k].name == chans[k].name;
    assert i == j;
    if EqualIRC(b, buffer) {
      assert Find(chans, b) == i;
    }
  }

  lemma CutOutIs(chans: seq<Chan>, i: nat)
    requires NoTwins(chans) && i < |chans|
    ensures var r := CutOutAt(chans, i);
      && |r| == |chans| - 1 && NoTwins(r)
      && (forall k :: 0 <= k < |r| ==> r[k] == chans[if k < i then k else k + 1])
      && (forall k :: 0 <= k < |r| ==> !EqualIRC(r[k].name, chans[i].name))
  {
    hide Fold;
    var r := CutOutAt(chans, i);
    assert forall k :: 0 <= k < |r| ==> r[k] == chans[if k < i then k else k + 1];
  }

  lemma MembersRemoved(chans: seq<Chan>, b: string, buffer: string)
    requires NoTwins(chans)
    ensures MembersOf(Removed(chans, b), buffer) == if EqualIRC(b, buffer) then map[] else MembersOf(chans, buffer)
  {
    var i := Find(chans, b);
    if i < 0 {
      SameBuffer(chans, b, buffer);
      hide Fold, Find;
    } else {
      CutOutIs(chans, i);
      hide CutOutAt, NoTwins;
      NotThere(CutOutAt(chans, i), b, buffer, chans[i].name);
      if !EqualIRC(b, buffer) {
        StillThere(chans, i, b, buffer);
      }
    }
  }

  lemma NotThere(r: seq<Chan>, b: string, buffer: string, name: string)
    requires EqualIRC(name, b) && forall k :: 0 <= k < |r| ==> !EqualIRC(r[k].name, name)
    ensures EqualIRC(b, buffer) ==> MembersOf(r, buffer) == map[]
  {
    hide Fold;
    var j := Find(r, buffer);
    assert EqualIRC(b, buffer) && j >= 0 ==> EqualIRC(r[j].name, name);
  }

  lemma StillThere(chans: seq<Chan>, i: nat, b: string, buffer: string)
    requires NoTwins(chans) && i < |chans| && EqualIRC(chans[i].name, b) && !EqualIRC(b, buffer)
    ensures MembersOf(CutOutAt(chans, i), buffer) == MembersOf(chans, buffer)
  {
    hide Fold;
    CutOutIs(chans, i);
    hide CutOutAt;
    var r := CutOutAt(chans, i);
    var j, m := Find(r, buffer), Find(chans, buffer);
    if m >= 0 {
      var k := if m < i then m else m - 1;
      assert r[k] == chans[m];
      FoundAt(r, buffer, k);
    } else {
      assert forall k :: 0 <= k < |r| ==> !EqualIRC(r[k].name, buffer);
    }
  }

  lemma MembersEverywhere(chans: seq<Chan>, e: Event, buffer: string)
    ensures MembersOf(Everywhere(chans, e), buffer) == OnMembers(MembersOf(chans, buffer), e)
  {
    hide Fold;
    var r := Everywhere(chans, e);
    assert |r| == |chans| && forall k :: 0 <= k < |r| ==> r[k].name == chans[k].name;
    assert Find(r, buffer) == Find(chans, buffer);
  }

  // --- Members ---

  function At(ms: map<string, Member>, nick: string): Option<Member> {
    if Fold(nick) in ms then Some(ms[Fold(nick)]) else None
  }

  lemma {:induction false} ListedIs(ms: map<string, Member>, names: seq<Member>, nick: string)
    ensures At(Listed(ms, names), nick) == LastListed(At(ms, nick), names, nick)
    decreases |names|
  {
    hide Fold;
    if names != [] {
      ListedIs(ms[Fold(names[0].nick) := names[0]], names[1..], nick);
      LastListedCons(At(ms, nick), names, nick);
    }
  }

  lemma {:induction false} LastListedCons(was: Option<Member>, names: seq<Member>, nick: string)
    requires names != []
    ensures LastListed(was, names, nick) ==
      LastListed(if Fold(names[0].nick) == Fold(nick) then Some(names[0]) else was, names[1..], nick)
    decreases |names|
  {
    hide Fold;
    if |names| > 1 {
      var init := names[..|names| - 1];
      LastListedCons(was, init, nick);
      assert names[1..][..|names| - 2] == init[1..];
    } else {
      assert names[1..] == [] && names[..0] == [];
    }
  }

  lemma {:induction false} ModedIs(ms: map<string, Member>, changes: seq<MemberMode>, nick: string)
    ensures At(Moded(ms, changes), nick) ==
      match At(ms, nick)
      case None => None
      case Some(m) => Some(m.(modes := ChangedBy(m.modes, For(changes, nick))))
    decreases |changes|
  {
    hide Fold, Changed;
    if changes != [] {
      var c, k := changes[0], Fold(changes[0].nick);
      var now := if k in ms then ms[k := ms[k].(modes := Changed(ms[k].modes, c))] else ms;
      ModedIs(now, changes[1..], nick);
      var mine := For(changes[1..], nick);
      assert ([c] + mine)[0] == c && ([c] + mine)[1..] == mine;
      assert [] + mine == mine;
    }
  }

  lemma RenamedIs(ms: map<string, Member>, who: string, now: string, nick: string)
    ensures At(Renamed(ms, who, now), nick) ==
      if EqualIRC(now, nick) && At(ms, who).Some? then Some(At(ms, who).value.(nick := now))
      else if EqualIRC(who, nick) then None else At(ms, nick)
  {
    hide Fold;
  }

  /** Every event does to each member of each buffer what it says, and to no other: who
      joins stands there afresh, who parts, quits or is kicked is gone, and so is everybody
      where we were; a NAMES reply has the last word on whom it lists; a MODE line changes
      the prefixes of those it names by the changes meant for them; a new nick takes the
      member along; away is noted everywhere. */
  lemma MembersFollow(n: Net, e: Event, buffer: string, nick: string)
    requires NetOk(n)
    ensures Who(Next(n, e).chans, buffer, nick) == WhoAfter(n, e, buffer, nick)
  {
    hide Fold, MembersOf, WithMembers, Ensured, Removed, Everywhere, Listed, Moded, Renamed, ChangedBy, Find, For,
      LastListed;
    var ms := MembersOf(n.chans, buffer);
    match e
    case Message(b) => MembersEnsured(n.chans, b, buffer);
    case Names(b, names) =>
      var cs := Ensured(n.chans, b);
      MembersEnsured(n.chans, b, buffer);
      MembersEnsured(n.chans, b, b);
      SameBuffer(n.chans, b, buffer);
      MembersReplaced(cs, b, Listed(MembersOf(cs, b), names), buffer);
      ListedIs(ms, names, nick);
    case Join(who, b, account) =>
      var cs := Ensured(n.chans, b);
      MembersEnsured(n.chans, b, buffer);
      MembersEnsured(n.chans, b, b);
      SameBuffer(n.chans, b, buffer);
      MembersReplaced(cs, b, MembersOf(cs, b)[Fold(who) := Member(who, account, false, "")], buffer);
    case Part(who, b) =>
      MembersRemoved(n.chans, b, buffer);
      SameBuffer(n.chans, b, buffer);
      MembersReplaced(n.chans, b, MembersOf(n.chans, b) - {Fold(who)}, buffer);
    case Kick(who, b) =>
      SameBuffer(n.chans, b, buffer);
      MembersReplaced(n.chans, b, MembersOf(n.chans, b) - {Fold(who)}, buffer);
      MembersReplaced(n.chans, b, map[], buffer);
    case Mode(b, changes) =>
      SameBuffer(n.chans, b, buffer);
      MembersReplaced(n.chans, b, Moded(MembersOf(n.chans, b), changes), buffer);
      ModedIs(ms, changes, nick);
    case Nick(who, now) =>
      MembersEverywhere(n.chans, e, buffer);
      RenamedIs(ms, who, now, nick);
    case _ => MembersEverywhere(n.chans, e, buffer);
  }

  lemma SameBuffer(chans: seq<Chan>, b: string, buffer: string)
    ensures EqualIRC(b, buffer) ==> MembersOf(chans, b) == MembersOf(chans, buffer)
    ensures Find(chans, b) < 0 ==> MembersOf(chans, b) == map[]
  {
    hide Fold;
    if EqualIRC(b, buffer) {
      assert Find(chans, b) == Find(chans, buffer);
    }
  }

  // --- The order of the buffers ---

  function NamesOf(chans: seq<Chan>): seq<string> { seq(|chans|, i requires 0 <= i < |chans| => chans[i].name) }

  /** A buffer that is new comes last, under the name it was first seen by; one we part
      from goes; the others stay as they stand. */
  lemma OrderFollows(n: Net, e: Event)
    requires NetOk(n)
    ensures var i := if e.Part? || e.Join? || e.Names? || e.Message? then Find(n.chans, e.buffer) else -1;
      NamesOf(Next(n, e).chans) ==
        if (e.Message? || e.Names? || e.Join?) && i < 0 then NamesOf(n.chans) + [e.buffer]
        else if e.Part? && i >= 0 && EqualIRC(e.nick, n.nick) then NamesOf(n.chans)[..i] + NamesOf(n.chans)[i + 1..]
        else NamesOf(n.chans)
  {
    hide Fold, Listed, Moded, OnMembers, MembersOf, Ensured, Removed, WithMembers, Everywhere, Find, NamesOf;
    match e
    case Message(b) => NamesEnsured(n.chans, b);
    case Names(b, names) =>
      var cs := Ensured(n.chans, b);
      NamesEnsured(n.chans, b);
      NamesReplaced(cs, b, Listed(MembersOf(cs, b), names));
    case Join(who, b, account) =>
      var cs := Ensured(n.chans, b);
      NamesEnsured(n.chans, b);
      NamesReplaced(cs, b, MembersOf(cs, b)[Fold(who) := Member(who, account, false, "")]);
    case Part(who, b) =>
      NamesRemoved(n.chans, b);
      NamesReplaced(n.chans, b, MembersOf(n.chans, b) - {Fold(who)});
    case Kick(who, b) =>
      NamesReplaced(n.chans, b, MembersOf(n.chans, b) - {Fold(who)});
      NamesReplaced(n.chans, b, map[]);
    case Mode(b, changes) => NamesReplaced(n.chans, b, Moded(MembersOf(n.chans, b), changes));
    case _ => NamesEverywhere(n.chans, e);
  }

  lemma NamesEnsured(chans: seq<Chan>, b: string)
    ensures NamesOf(Ensured(chans, b)) == if Find(chans, b) < 0 then NamesOf(chans) + [b] else NamesOf(chans)
  {
    hide Find;
  }

  lemma NamesReplaced(chans: seq<Chan>, b: string, ms: map<string, Member>)
    ensures NamesOf(WithMembers(chans, b, ms)) == NamesOf(chans)
  {
    hide Find;
  }

  lemma NamesRemoved(chans: seq<Chan>, b: string)
    ensures var i := Find(chans, b);
      NamesOf(Removed(chans, b)) == if i < 0 then NamesOf(chans) else NamesOf(chans)[..i] + NamesOf(chans)[i + 1..]
  {
    hide Find;
  }

  lemma NamesEverywhere(chans: seq<Chan>, e: Event)
    ensures NamesOf(Everywhere(chans, e)) == NamesOf(chans)
  {
    hide OnMembers;
  }
}
