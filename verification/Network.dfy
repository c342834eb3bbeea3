/** One network's buffers and members: internal/core/types.go and the membership cases
    of applyLocked in internal/core/engine.go. One char stands for one rune; FoldIRC
    folds runes as IrcLine.Fold does bytes. */
module NetworkSpec {
  import opened GoStrings
  import opened IrcLine
  import opened Modes

  datatype Member = Member(nick: string, account: string, away: bool, modes: string)

  datatype Chan = Chan(name: string, members: map<string, Member>)

  /** Our nick, and the buffers in order. */
  datatype Net = Net(nick: string, chans: seq<Chan>)

  predicate EqualIRC(a: string, b: string) { Fold(a) == Fold(b) }

  /** The first buffer of that name, by looking at every one of them. */
  function Find(chans: seq<Chan>, name: string): (i: int)
    ensures -1 <= i < |chans|
    ensures i >= 0 ==> EqualIRC(chans[i].name, name)
    ensures forall j :: 0 <= j < (if i < 0 then |chans| else i) ==> !EqualIRC(chans[j].name, name)
  {
    if chans == [] then -1
    else if EqualIRC(chans[0].name, name) then 0
    else
      var i := Find(chans[1..], name);
      if i < 0 then -1 else i + 1
  }

  function Ensured(chans: seq<Chan>, name: string): (r: seq<Chan>)
    ensures Find(r, name) >= 0
  {
    if Find(chans, name) >= 0 then chans
    else
      assert (chans + [Chan(name, map[])])[|chans|].name == name;
      chans + [Chan(name, map[])]
  }

  function CutOutAt(chans: seq<Chan>, i: nat): seq<Chan>
    requires i < |chans|
  {
    chans[..i] + chans[i + 1..]
  }

  function Removed(chans: seq<Chan>, name: string): seq<Chan> {
    var i := Find(chans, name);
    if i < 0 then chans else CutOutAt(chans, i)
  }

  /** The members of one buffer replaced. */
  function WithMembers(chans: seq<Chan>, name: string, members: map<string, Member>): seq<Chan> {
    var i := Find(chans, name);
    if i < 0 then chans else chans[i := chans[i].(members := members)]
  }

  function MembersOf(chans: seq<Chan>, name: string): map<string, Member> {
    var i := Find(chans, name);
    if i < 0 then map[] else chans[i].members
  }

  datatype Event =
    | Message(buffer: string)
    | Names(buffer: string, members: seq<Member>)
    | Join(nick: string, buffer: string, account: string)
    | Part(nick: string, buffer: string)
    | Kick(nick: string, buffer: string)
    | Mode(buffer: string, changes: seq<MemberMode>)
    | Quit(nick: string)
    | Nick(nick: string, newNick: string)
    | Away(nick: string, away: bool)
    | Disconnect

  // --- What an event does to one buffer's members ---

  function Listed(members: map<string, Member>, names: seq<Member>): map<string, Member>
    decreases |names|
  {
    if names == [] then members else Listed(members[Fold(names[0].nick) := names[0]], names[1..])
  }

  function Moded(members: map<string, Member>, changes: seq<MemberMode>): map<string, Member>
    decreases |changes|
  {
    if changes == [] then members
    else
      var c, k := changes[0], Fold(changes[0].nick);
      var now := if k in members then members[k := members[k].(modes := Changed(members[k].modes, c))] else members;
      Moded(now, changes[1..])
  }

  function Renamed(members: map<string, Member>, nick: string, newNick: string): map<string, Member> {
    if Fold(nick) in members
    then (members - {Fold(nick)})[Fold(newNick) := members[Fold(nick)].(nick := newNick)]
    else members
  }

  /** Events that go over every buffer. */
  function OnMembers(members: map<string, Member>, e: Event): map<string, Member> {
    match e
    case Quit(nick) => members - {Fold(nick)}
    case Nick(nick, newNick) => Renamed(members, nick, newNick)
    case Away(nick, away) =>
      if Fold(nick) in members then members[Fold(nick) := members[Fold(nick)].(away := away)] else members
    case Disconnect => map[]
    case _ => members
  }

  function Everywhere(chans: seq<Chan>, e: Event): (r: seq<Chan>)
    ensures |r| == |chans|
    ensures forall i :: 0 <= i < |r| ==> r[i] == chans[i].(members := OnMembers(chans[i].members, e))
  {
    seq(|chans|, i requires 0 <= i < |chans| => chans[i].(members := OnMembers(chans[i].members, e)))
  }

  /** applyLocked's membership cases. */
  function Next(n: Net, e: Event): Net {
    match e
    case Message(buffer) => n.(chans := Ensured(n.chans, buffer))
    case Names(buffer, names) =>
      var cs := Ensured(n.chans, buffer);
      n.(chans := WithMembers(cs, buffer, Listed(MembersOf(cs, buffer), names)))
    case Join(nick, buffer, account) =>
      var cs := Ensured(n.chans, buffer);
      n.(chans := WithMembers(cs, buffer, MembersOf(cs, buffer)[Fold(nick) := Member(nick, account, false, "")]))
    case Part(nick, buffer) =>
      if EqualIRC(nick, n.nick) then n.(chans := Removed(n.chans, buffer))
      else n.(chans := WithMembers(n.chans, buffer, MembersOf(n.chans, buffer) - {Fold(nick)}))
    case Kick(nick, buffer) =>
      var left := if EqualIRC(nick, n.nick) then map[] else MembersOf(n.chans, buffer) - {Fold(nick)};
      n.(chans := WithMembers(n.chans, buffer, left))
    case Mode(buffer, changes) =>
      n.(chans := WithMembers(n.chans, buffer, Moded(MembersOf(n.chans, buffer), changes)))
    case Nick(nick, newNick) =>
      Net(if EqualIRC(n.nick, nick) then newNick else n.nick, Everywhere(n.chans, e))
    case _ => n.(chans := Everywhere(n.chans, e))
  }

  function NextAll(n: Net, events: seq<Event>): Net
    decreases |events|
  {
    if events == [] then n else NextAll(Next(n, events[0]), events[1..])
  }

  // --- What every event keeps ---

  predicate NoTwins(chans: seq<Chan>) {
    forall i, j :: 0 <= i < j < |chans| ==> !EqualIRC(chans[i].name, chans[j].name)
  }

  /** Every member stands under the folded form of the nick it has now. */
  predicate KeysOk(members: map<string, Member>) {
    forall k :: k in members ==> k == Fold(members[k].nick)
  }

  predicate NetOk(n: Net) {
    NoTwins(n.chans) && forall i :: 0 <= i < |n.chans| ==> KeysOk(n.chans[i].members)
  }

  lemma {:induction false} ListedKeepsKeys(members: map<string, Member>, names: seq<Member>)
    requires KeysOk(members)
    ensures KeysOk(Listed(members, names))
    decreases |names|
  {
    hide Fold;
    if names != [] {
      ListedKeepsKeys(members[Fold(names[0].nick) := names[0]], names[1..]);
    }
  }

  lemma {:induction false} ModedKeepsKeys(members: map<string, Member>, changes: seq<MemberMode>)
    requires KeysOk(members)
    ensures KeysOk(Moded(members, changes)) && Moded(members, changes).Keys == members.Keys
    decreases |changes|
  {
    if changes != [] {
      hide Changed, Fold;
      var c, k := changes[0], Fold(changes[0].nick);
      var now := if k in members then members[k := members[k].(modes := Changed(members[k].modes, c))] else members;
      ModedKeepsKeys(now, changes[1..]);
    }
  }

  lemma OnMembersKeepsKeys(members: map<string, Member>, e: Event)
    requires KeysOk(members)
    ensures KeysOk(OnMembers(members, e))
  {
    hide Fold;
  }

  lemma EnsuredKeeps(n: Net, name: string)
    requires NetOk(n)
    ensures NetOk(n.(chans := Ensured(n.chans, name)))
  {
    hide Fold;
  }

  lemma MembersAreOk(n: Net, name: string)
    requires NetOk(n)
    ensures KeysOk(MembersOf(n.chans, name))
  {
    hide Fold;
  }

  lemma WithMembersKeeps(n: Net, name: string, members: map<string, Member>)
    requires NetOk(n) && KeysOk(members)
    ensures NetOk(n.(chans := WithMembers(n.chans, name, members)))
  {
    hide Fold, KeysOk;
  }

  lemma RemovedKeeps(n: Net, name: string)
    requires NetOk(n)
    ensures NetOk(n.(chans := Removed(n.chans, name)))
    ensures Find(Removed(n.chans, name), name) < 0
  {
    hide Fold, KeysOk;
    var i := Find(n.chans, name);
    if i >= 0 {
      var r := Removed(n.chans, name);
      assert forall j :: 0 <= j < |r| ==> r[j] == n.chans[if j < i then j else j + 1];
      forall j | 0 <= j < |r|
        ensures !EqualIRC(r[j].name, name)
      {
        assert j >= i ==> !EqualIRC(n.chans[i].name, n.chans[j + 1].name);
      }
    }
  }

  lemma EverywhereKeeps(n: Net, e: Event, nick: string)
    requires NetOk(n)
    ensures NetOk(Net(nick, Everywhere(n.chans, e)))
  {
    hide Fold, KeysOk, OnMembers;
    forall i | 0 <= i < |n.chans|
      ensures KeysOk(Everywhere(n.chans, e)[i].members)
    {
      OnMembersKeepsKeys(n.chans[i].members, e);
    }
  }

  lemma NextKeeps(n: Net, e: Event)
    requires NetOk(n)
    ensures NetOk(Next(n, e))
  {
    hide NetOk, Everywhere, Ensured, WithMembers, MembersOf, Removed, Listed, Moded;
    match e
    case Message(buffer) => EnsuredKeeps(n, buffer);
    case Names(buffer, names) =>
      var u := n.(chans := Ensured(n.chans, buffer));
      EnsuredKeeps(n, buffer);
      MembersAreOk(u, buffer);
      ListedKeepsKeys(MembersOf(u.chans, buffer), names);
      WithMembersKeeps(u, buffer, Listed(MembersOf(u.chans, buffer), names));
    case Join(nick, buffer, account) =>
      var u := n.(chans := Ensured(n.chans, buffer));
      EnsuredKeeps(n, buffer);
      MembersAreOk(u, buffer);
      WithMembersKeeps(u, buffer, MembersOf(u.chans, buffer)[Fold(nick) := Member(nick, account, false, "")]);
    case Part(nick, buffer) =>
      RemovedKeeps(n, buffer);
      MembersAreOk(n, buffer);
      WithMembersKeeps(n, buffer, MembersOf(n.chans, buffer) - {Fold(nick)});
    case Kick(nick, buffer) =>
      MembersAreOk(n, buffer);
      WithMembersKeeps(n, buffer, MembersOf(n.chans, buffer) - {Fold(nick)});
      WithMembersKeeps(n, buffer, map[]);
    case Mode(buffer, changes) =>
      MembersAreOk(n, buffer);
      ModedKeepsKeys(MembersOf(n.chans, buffer), changes);
      WithMembersKeeps(n, buffer, Moded(MembersOf(n.chans, buffer), changes));
    case Nick(nick, newNick) => EverywhereKeeps(n, e, Next(n, e).nick);
    case _ => EverywhereKeeps(n, e, n.nick);
  }

  /** After any run of events from an empty network on, no two buffers have names that
      fold the same, and every member stands under the fold of its current nick. */
  lemma {:induction false} RunKeepsNet(n: Net, events: seq<Event>)
    requires NetOk(n)
    ensures NetOk(NextAll(n, events))
    decreases |events|
  {
    hide NetOk, Next;
    if events != [] {
      NextKeeps(n, events[0]);
      RunKeepsNet(Next(n, events[0]), events[1..]);
    }
  }

  // --- Rank order ---

  predicate AllRanked(members: map<string, Member>) {
    forall k :: k in members ==> Ranked(members[k].modes)
  }

  /** Every member's prefixes are in rank order, each once. */
  predicate NetRanked(chans: seq<Chan>) {
    forall i :: 0 <= i < |chans| ==> AllRanked(chans[i].members)
  }

  /** No later entry of a NAMES reply is for the same nick. */
  predicate LastEntry(names: seq<Member>, i: int) {
    0 <= i < |names| && forall j :: i < j < |names| ==> Fold(names[j].nick) != Fold(names[i].nick)
  }

  /** What a NAMES reply says last of each nick is in rank order. The prefixes of an
      entry stand as the server sent them. */
  ghost predicate NamesRanked(e: Event) {
    e.Names? ==> forall i :: LastEntry(e.members, i) ==> Ranked(e.members[i].modes)
  }

  lemma LastEntryCons(names: seq<Member>, i: int)
    requires names != [] && i >= 1
    ensures LastEntry(names, i) <==> LastEntry(names[1..], i - 1)
  {
    hide Fold;
    var rest := names[1..];
    assert forall j :: 1 <= j < |names| ==> names[j] == rest[j - 1];
    assert forall j :: 0 <= j < |rest| ==> rest[j] == names[j + 1];
  }

  /** Under each nick stands its last entry, or what stood there before. */
  lemma {:induction false} ListedAt(members: map<string, Member>, names: seq<Member>, k: string)
    requires k in Listed(members, names)
    ensures (exists i :: LastEntry(names, i) && Fold(names[i].nick) == k && Listed(members, names)[k] == names[i])
      || (k in members && Listed(members, names)[k] == members[k]
        && forall i :: 0 <= i < |names| ==> Fold(names[i].nick) != k)
    decreases |names|
  {
    hide Fold;
    if names != [] {
      var rest := names[1..];
      var now := members[Fold(names[0].nick) := names[0]];
      ListedAt(now, rest, k);
      if i :| LastEntry(rest, i) && Fold(rest[i].nick) == k && Listed(now, rest)[k] == rest[i] {
        LastEntryCons(names, i + 1);
      } else {
        assert forall i :: 1 <= i < |names| ==> names[i] == rest[i - 1];
        if k == Fold(names[0].nick) {
          assert LastEntry(names, 0);
        }
      }
    }
  }

  lemma ListedLast(members: map<string, Member>, names: seq<Member>, i: int)
    requires LastEntry(names, i)
    ensures Fold(names[i].nick) in Listed(members, names) && Listed(members, names)[Fold(names[i].nick)] == names[i]
  {
    hide Fold, Listed;
    var k := Fold(names[i].nick);
    ListedNames(members, names);
    assert k in FoldAll(names) by { assert names[i] in names; }
    assert k in Listed(members, names).Keys;
    ListedAt(members, names, k);
    if j :| LastEntry(names, j) && Fold(names[j].nick) == k && Listed(members, names)[k] == names[j] {
      assert i == j;
    }
  }

  lemma ListedRankedIff(members: map<string, Member>, names: seq<Member>)
    requires AllRanked(members)
    ensures AllRanked(Listed(members, names)) <==> forall i :: LastEntry(names, i) ==> Ranked(names[i].modes)
  {
    hide Ranked, Fold, Listed;
    var now := Listed(members, names);
    if AllRanked(now) {
      forall i | LastEntry(names, i)
        ensures Ranked(names[i].modes)
      {
        ListedLast(members, names, i);
      }
    }
    if forall i :: LastEntry(names, i) ==> Ranked(names[i].modes) {
      forall k | k in now
        ensures Ranked(now[k].modes)
      {
        ListedAt(members, names, k);
      }
    }
  }

  lemma ModedOnce(modes: string, c: MemberMode)
    requires Ranked(modes)
    ensures Ranked(Changed(modes, c))
  {
    WithIs(modes, c.symbol);
    WithoutIs(modes, c.symbol);
  }

  lemma {:induction false} ModedKeepsRank(members: map<string, Member>, changes: seq<MemberMode>)
    requires AllRanked(members)
    ensures AllRanked(Moded(members, changes))
    decreases |changes|
  {
    if changes != [] {
      var c, k := changes[0], Fold(changes[0].nick);
      if k in members {
        ModedOnce(members[k].modes, c);
      }
      hide Ranked, Changed, Fold;
      var now := if k in members then members[k := members[k].(modes := Changed(members[k].modes, c))] else members;
      ModedKeepsRank(now, changes[1..]);
    }
  }

  lemma OnMembersKeepsRank(members: map<string, Member>, e: Event)
    requires AllRanked(members)
    ensures AllRanked(OnMembers(members, e))
  {
    hide Ranked, Fold;
  }

  lemma EverywhereKeepsRank(chans: seq<Chan>, e: Event)
    requires NetRanked(chans)
    ensures NetRanked(Everywhere(chans, e))
  {
    hide AllRanked, OnMembers, Fold;
    forall i | 0 <= i < |chans|
      ensures AllRanked(Everywhere(chans, e)[i].members)
    {
      OnMembersKeepsRank(chans[i].members, e);
    }
  }

  lemma EnsuredKeepsRank(chans: seq<Chan>, name: string)
    requires NetRanked(chans)
    ensures NetRanked(Ensured(chans, name)) && AllRanked(MembersOf(Ensured(chans, name), name))
  {
    hide Ranked, Find;
  }

  lemma MembersOfRanked(chans: seq<Chan>, name: string)
    requires NetRanked(chans)
    ensures AllRanked(MembersOf(chans, name))
  {
    hide Ranked, Find;
  }

  lemma WithMembersRankedIff(chans: seq<Chan>, name: string, members: map<string, Member>)
    requires NetRanked(chans)
    ensures AllRanked(members) ==> NetRanked(WithMembers(chans, name, members))
    ensures Find(chans, name) >= 0 ==> (NetRanked(WithMembers(chans, name, members)) <==> AllRanked(members))
  {
    hide AllRanked, Fold;
    var i := Find(chans, name);
    if i >= 0 {
      assert WithMembers(chans, name, members)[i].members == members;
    }
  }

  lemma RemovedKeepsRank(chans: seq<Chan>, name: string)
    requires NetRanked(chans)
    ensures NetRanked(Removed(chans, name))
  {
    hide AllRanked, Fold;
  }

  lemma LeftKeepsRank(members: map<string, Member>, k: string, m: Member)
    requires AllRanked(members)
    ensures AllRanked(members - {k}) && (m.modes == "" ==> AllRanked(members[k := m])) && AllRanked(map[])
  {
    hide Rank;
  }

  /** From rank order, an event leads to rank order if and only if it is no NAMES reply
      that says otherwise. */
  lemma NextRankedIff(n: Net, e: Event)
    requires NetRanked(n.chans)
    ensures NetRanked(Next(n, e).chans) <==> NamesRanked(e)
  {
    hide NetRanked, AllRanked, Everywhere, WithMembers, MembersOf, Removed, Listed, Moded, Fold, LastEntry, Ranked,
      Find;
    match e
    case Message(buffer) => EnsuredKeepsRank(n.chans, buffer);
    case Names(buffer, names) =>
      var cs := Ensured(n.chans, buffer);
      EnsuredKeepsRank(n.chans, buffer);
      hide Ensured;
      ListedRankedIff(MembersOf(cs, buffer), names);
      WithMembersRankedIff(cs, buffer, Listed(MembersOf(cs, buffer), names));
    case Join(nick, buffer, account) =>
      var cs := Ensured(n.chans, buffer);
      EnsuredKeepsRank(n.chans, buffer);
      var m := Member(nick, account, false, "");
      LeftKeepsRank(MembersOf(cs, buffer), Fold(nick), m);
      WithMembersRankedIff(cs, buffer, MembersOf(cs, buffer)[Fold(nick) := m]);
    case Part(nick, buffer) =>
      RemovedKeepsRank(n.chans, buffer);
      MembersOfRanked(n.chans, buffer);
      LeftKeepsRank(MembersOf(n.chans, buffer), Fold(nick), Member("", "", false, ""));
      WithMembersRankedIff(n.chans, buffer, MembersOf(n.chans, buffer) - {Fold(nick)});
    case Kick(nick, buffer) =>
      MembersOfRanked(n.chans, buffer);
      LeftKeepsRank(MembersOf(n.chans, buffer), Fold(nick), Member("", "", false, ""));
      WithMembersRankedIff(n.chans, buffer, MembersOf(n.chans, buffer) - {Fold(nick)});
      WithMembersRankedIff(n.chans, buffer, map[]);
    case Mode(buffer, changes) =>
      MembersOfRanked(n.chans, buffer);
      ModedKeepsRank(MembersOf(n.chans, buffer), changes);
      WithMembersRankedIff(n.chans, buffer, Moded(MembersOf(n.chans, buffer), changes));
    case _ => EverywhereKeepsRank(n.chans, e);
  }

  /** Rank order in every state along a run. */
  ghost predicate RankedThroughout(n: Net, events: seq<Event>)
    decreases |events|
  {
    NetRanked(n.chans) && (events != [] ==> RankedThroughout(Next(n, events[0]), events[1..]))
  }

  /** Members' prefixes are in rank order all along a run if and only if every NAMES
      reply of the run gives them so: no other event ever breaks the order. */
  lemma {:induction false} RankedThroughoutIff(n: Net, events: seq<Event>)
    requires NetRanked(n.chans)
    ensures RankedThroughout(n, events) <==> forall e :: e in events ==> NamesRanked(e)
    decreases |events|
  {
    hide NetRanked, Next, NamesRanked;
    if events != [] {
      var u := Next(n, events[0]);
      NextRankedIff(n, events[0]);
      assert events == [events[0]] + events[1..];
      if NamesRanked(events[0]) {
        RankedThroughoutIff(u, events[1..]);
      }
    }
  }

  /** A server that sends a symbol unknown here before an operator's, or a voice before
      it, gets such members stored, under their right nicks all the same. */
  lemma NamesOutOfOrder(modes: string)
    requires modes == "!@" || modes == "+@"
    ensures var e := Names("#c", [Member("bob", "", false, modes)]);
            var n := Next(Net("me", []), e);
            !NamesRanked(e) && !NetRanked(n.chans) && NetOk(n)
  {
    hide NamesRanked, NetRanked, Next, NetOk, Rank;
    RanksOf();
    assert Rank(modes[0]) > Rank(modes[1]);
    OneOutOfOrder(modes);
    FromEmpty();
    NextRankedIff(Net("me", []), Names("#c", [Member("bob", "", false, modes)]));
    NextKeeps(Net("me", []), Names("#c", [Member("bob", "", false, modes)]));
  }

  lemma FromEmpty()
    ensures NetRanked([]) && NetOk(Net("me", []))
  {
  }

  lemma OneOutOfOrder(modes: string)
    requires !Ranked(modes)
    ensures !NamesRanked(Names("#c", [Member("bob", "", false, modes)]))
  {
    hide Ranked;
    assert LastEntry([Member("bob", "", false, modes)], 0);
  }

  lemma RankAt(pre: string, c: char, post: string)
    requires pre + [c] + post == PREFIX_ORDER && c !in pre
    ensures Rank(c) == |pre|
  {
    hide IndexByte;
    IndexByteAt(pre, c, post);
  }

  lemma RanksOf()
    ensures Rank('@') == 2 && Rank('+') == 4 && Rank('!') == 5
  {
    hide Rank;
    assert "~&" + ['@'] + "%+" == PREFIX_ORDER;
    RankAt("~&", '@', "%+");
    assert "~&@%" + ['+'] + "" == PREFIX_ORDER;
    RankAt("~&@%", '+', "");
    UnknownRank();
  }

  lemma UnknownRank()
    ensures Rank('!') == 5
  {
    hide IndexByte;
    assert '!' !in PREFIX_ORDER;
  }

  // --- Against a plain roster ---

  /** Who is where, in its simplest form: the folded names of the buffers, each with the
      folded nicks on it. */
  type Roster = map<string, set<string>>

  ghost function RosterOf(chans: seq<Chan>): Roster {
    map f | f in (set c <- chans :: Fold(c.name)) :: MembersFolded(chans, f)
  }

  ghost function MembersFolded(chans: seq<Chan>, f: string): set<string> {
    if i :| 0 <= i < |chans| && Fold(chans[i].name) == f then chans[i].members.Keys else {}
  }

  function FoldAll(names: seq<Member>): set<string> { set m | m in names :: Fold(m.nick) }

  ghost function RosterAfter(r: Roster, self: string, e: Event): Roster {
    match e
    case Message(b) => if Fold(b) in r then r else r[Fold(b) := {}]
    case Names(b, names) => r[Fold(b) := (if Fold(b) in r then r[Fold(b)] else {}) + FoldAll(names)]
    case Join(nick, b, _) => r[Fold(b) := (if Fold(b) in r then r[Fold(b)] else {}) + {Fold(nick)}]
    case Part(nick, b) =>
      if Fold(nick) == Fold(self) then r - {Fold(b)}
      else if Fold(b) in r then r[Fold(b) := r[Fold(b)] - {Fold(nick)}] else r
    case Kick(nick, b) =>
      if Fold(b) !in r then r
      else if Fold(nick) == Fold(self) then r[Fold(b) := {}]
      else r[Fold(b) := r[Fold(b)] - {Fold(nick)}]
    case Mode(_, _) => r
    case _ => map f | f in r :: SetAfter(r[f], e)
  }

  function SetAfter(nicks: set<string>, e: Event): set<string> {
    match e
    case Quit(nick) => nicks - {Fold(nick)}
    case Nick(nick, newNick) => if Fold(nick) in nicks then nicks - {Fold(nick)} + {Fold(newNick)} else nicks
    case Disconnect => {}
    case _ => nicks
  }

  lemma OnMembersKeys(members: map<string, Member>, e: Event)
    ensures OnMembers(members, e).Keys == SetAfter(members.Keys, e)
  {
    hide Fold;
  }

  lemma RosterAt(chans: seq<Chan>, i: nat)
    requires NoTwins(chans) && i < |chans|
    ensures Fold(chans[i].name) in RosterOf(chans) && RosterOf(chans)[Fold(chans[i].name)] == chans[i].members.Keys
  {
    hide Fold;
    assert chans[i] in chans;
  }

  lemma RosterDomain(chans: seq<Chan>, f: string)
    ensures f in RosterOf(chans) <==> exists i :: 0 <= i < |chans| && Fold(chans[i].name) == f
  {
    hide Fold;
    if i :| 0 <= i < |chans| && Fold(chans[i].name) == f {
      assert chans[i] in chans;
    }
  }

  lemma FindInRoster(chans: seq<Chan>, name: string)
    requires NoTwins(chans)
    ensures Fold(name) in RosterOf(chans) <==> Find(chans, name) >= 0
    ensures Fold(name) in RosterOf(chans) ==> RosterOf(chans)[Fold(name)] == MembersOf(chans, name).Keys
    ensures Find(chans, name) < 0 ==> MembersOf(chans, name) == map[]
  {
    RosterDomain(chans, Fold(name));
    hide Fold, RosterOf;
    var i := Find(chans, name);
    if i >= 0 {
      RosterAt(chans, i);
    }
  }

  /** Two rosters are the same when they agree at every name. */
  lemma SameRoster(a: Roster, b: Roster)
    requires forall f :: f in a <==> f in b
    requires forall f :: f in a ==> a[f] == b[f]
    ensures a == b
  {}

  lemma EnsuredRoster(chans: seq<Chan>, name: string)
    requires NoTwins(chans)
    ensures NoTwins(Ensured(chans, name))
    ensures RosterOf(Ensured(chans, name)) == if Fold(name) in RosterOf(chans) then RosterOf(chans)
      else RosterOf(chans)[Fold(name) := {}]
  {
    FindInRoster(chans, name);
    if Find(chans, name) < 0 {
      var r := Ensured(chans, name);
      assert NoTwins(r);
      forall f
        ensures f in RosterOf(r) <==> f in RosterOf(chans) || f == Fold(name)
        ensures f in RosterOf(r) ==> RosterOf(r)[f] == if f == Fold(name) then {} else RosterOf(chans)[f]
      {
        GrownRoster(chans, name, f);
      }
      hide RosterOf, Fold;
      SameRoster(RosterOf(r), RosterOf(chans)[Fold(name) := {}]);
    }
  }

  lemma GrownRoster(chans: seq<Chan>, name: string, f: string)
    requires NoTwins(chans) && Find(chans, name) < 0
    ensures var r := chans + [Chan(name, map[])];
            NoTwins(r)
            && (f in RosterOf(r) <==> f in RosterOf(chans) || f == Fold(name))
            && (f in RosterOf(r) ==> RosterOf(r)[f] == if f == Fold(name) then {} else RosterOf(chans)[f])
  {
    hide Fold, RosterOf;
    var r := chans + [Chan(name, map[])];
    RosterDomain(chans, f);
    RosterDomain(r, f);
    if i :| 0 <= i < |chans| && Fold(chans[i].name) == f {
      assert r[i] == chans[i];
      RosterAt(chans, i);
      RosterAt(r, i);
    }
    RosterAt(r, |chans|);
    assert r[|chans|].members.Keys == {};
  }

  lemma WithMembersRoster(chans: seq<Chan>, name: string, members: map<string, Member>)
    requires NoTwins(chans)
    ensures NoTwins(WithMembers(chans, name, members))
    ensures RosterOf(WithMembers(chans, name, members)) ==
      if Fold(name) in RosterOf(chans) then RosterOf(chans)[Fold(name) := members.Keys] else RosterOf(chans)
  {
    hide Fold, RosterOf;
    var i, r := Find(chans, name), WithMembers(chans, name, members);
    FindInRoster(chans, name);
    if i >= 0 {
      assert forall j :: 0 <= j < |chans| ==> r[j].name == chans[j].name;
      forall f
        ensures f in RosterOf(r) <==> f in RosterOf(chans)
        ensures f in RosterOf(r) ==> RosterOf(r)[f] == if f == Fold(name) then members.Keys else RosterOf(chans)[f]
      {
        RosterDomain(chans, f);
        RosterDomain(r, f);
        if j :| 0 <= j < |chans| && Fold(chans[j].name) == f {
          RosterAt(chans, j);
          RosterAt(r, j);
          assert j != i ==> !EqualIRC(chans[j].name, chans[i].name);
        }
      }
      SameRoster(RosterOf(r), RosterOf(chans)[Fold(name) := members.Keys]);
    }
  }

  lemma RemovedRoster(chans: seq<Chan>, name: string)
    requires NoTwins(chans)
    ensures RosterOf(Removed(chans, name)) == RosterOf(chans) - {Fold(name)}
  {
    hide Fold, RosterOf, Find;
    var i, r := Find(chans, name), Removed(chans, name);
    FindInRoster(chans, name);
    if i >= 0 {
      assert forall j :: 0 <= j < |r| ==> r[j] == chans[if j < i then j else j + 1];
      assert NoTwins(r);
      forall f
        ensures f in RosterOf(r) <==> f in RosterOf(chans) && f != Fold(name)
        ensures f in RosterOf(r) ==> RosterOf(r)[f] == RosterOf(chans)[f]
      {
        RosterDomain(chans, f);
        RosterDomain(r, f);
        if j :| 0 <= j < |r| && Fold(r[j].name) == f {
          var k := if j < i then j else j + 1;
          RosterAt(chans, k);
          RosterAt(r, j);
          assert !EqualIRC(chans[k].name, chans[i].name);
        }
        if k :| 0 <= k < |chans| && Fold(chans[k].name) == f && f != Fold(name) {
          assert k != i;
          assert r[if k < i then k else k - 1] == chans[k];
        }
      }
      SameRoster(RosterOf(r), RosterOf(chans) - {Fold(name)});
    } else {
      SameRoster(RosterOf(chans), RosterOf(chans) - {Fold(name)});
    }
  }

  lemma EverywhereRoster(chans: seq<Chan>, e: Event)
    requires NoTwins(chans)
    ensures RosterOf(Everywhere(chans, e)).Keys == RosterOf(chans).Keys
    ensures forall i :: 0 <= i < |chans| ==>
      Fold(chans[i].name) in RosterOf(chans) && Fold(chans[i].name) in RosterOf(Everywhere(chans, e))
      && RosterOf(chans)[Fold(chans[i].name)] == chans[i].members.Keys
      && RosterOf(Everywhere(chans, e))[Fold(chans[i].name)] == OnMembers(chans[i].members, e).Keys
  {
    hide Fold, RosterOf, OnMembers;
    var r := Everywhere(chans, e);
    assert NoTwins(r);
    forall f
      ensures f in RosterOf(r) <==> f in RosterOf(chans)
    {
      RosterDomain(chans, f);
      RosterDomain(r, f);
      assert forall i :: 0 <= i < |chans| ==> r[i].name == chans[i].name;
    }
    forall i | 0 <= i < |chans|
      ensures Fold(chans[i].name) in RosterOf(chans) && Fold(chans[i].name) in RosterOf(r)
      ensures RosterOf(chans)[Fold(chans[i].name)] == chans[i].members.Keys
      ensures RosterOf(r)[Fold(chans[i].name)] == OnMembers(chans[i].members, e).Keys
    {
      RosterAt(chans, i);
      RosterAt(r, i);
    }
  }

  lemma {:induction false} ListedNames(members: map<string, Member>, names: seq<Member>)
    ensures Listed(members, names).Keys == members.Keys + FoldAll(names)
    decreases |names|
  {
    hide Fold;
    if names != [] {
      ListedNames(members[Fold(names[0].nick) := names[0]], names[1..]);
      assert names == [names[0]] + names[1..];
    }
  }

  lemma JoinRoster(n: Net, nick: string, b: string, account: string)
    requires NetOk(n)
    ensures var e := Join(nick, b, account);
            RosterOf(Next(n, e).chans) == RosterAfter(RosterOf(n.chans), n.nick, e)
  {
    hide RosterOf, Fold, WithMembers, Ensured, Find, KeysOk;
    var cs := Ensured(n.chans, b);
    EnsuredRoster(n.chans, b);
    FindInRoster(cs, b);
    var was := MembersOf(cs, b);
    var now := was[Fold(nick) := Member(nick, account, false, "")];
    assert now.Keys == was.Keys + {Fold(nick)};
    WithMembersRoster(cs, b, now);
    SameRoster(RosterOf(Next(n, Join(nick, b, account)).chans),
      RosterAfter(RosterOf(n.chans), n.nick, Join(nick, b, account)));
  }

  lemma NamesRoster(n: Net, b: string, names: seq<Member>)
    requires NetOk(n)
    ensures var e := Names(b, names);
            RosterOf(Next(n, e).chans) == RosterAfter(RosterOf(n.chans), n.nick, e)
  {
    hide RosterOf, Fold, WithMembers, Ensured, Find, KeysOk;
    var cs := Ensured(n.chans, b);
    EnsuredRoster(n.chans, b);
    FindInRoster(cs, b);
    ListedNames(MembersOf(cs, b), names);
    WithMembersRoster(cs, b, Listed(MembersOf(cs, b), names));
    SameRoster(RosterOf(Next(n, Names(b, names)).chans), RosterAfter(RosterOf(n.chans), n.nick, Names(b, names)));
  }

  lemma PartRoster(n: Net, nick: string, b: string)
    requires NetOk(n)
    ensures RosterOf(Next(n, Part(nick, b)).chans) == RosterAfter(RosterOf(n.chans), n.nick, Part(nick, b))
  {
    hide RosterOf, Fold, WithMembers, Removed, Find, KeysOk;
    FindInRoster(n.chans, b);
    var left := MembersOf(n.chans, b) - {Fold(nick)};
    assert left.Keys == MembersOf(n.chans, b).Keys - {Fold(nick)};
    RemovedRoster(n.chans, b);
    WithMembersRoster(n.chans, b, left);
  }

  lemma KickRoster(n: Net, nick: string, b: string)
    requires NetOk(n)
    ensures RosterOf(Next(n, Kick(nick, b)).chans) == RosterAfter(RosterOf(n.chans), n.nick, Kick(nick, b))
  {
    hide RosterOf, Fold, WithMembers, Find, KeysOk;
    FindInRoster(n.chans, b);
    var left := MembersOf(n.chans, b) - {Fold(nick)};
    assert left.Keys == MembersOf(n.chans, b).Keys - {Fold(nick)};
    var nobody: map<string, Member> := map[];
    assert nobody.Keys == {};
    WithMembersRoster(n.chans, b, if EqualIRC(nick, n.nick) then nobody else left);
  }

  lemma ModeRoster(n: Net, b: string, changes: seq<MemberMode>)
    requires NetOk(n)
    ensures RosterOf(Next(n, Mode(b, changes)).chans) == RosterOf(n.chans)
  {
    hide RosterOf, Fold, WithMembers, Find, KeysOk, Moded;
    FindInRoster(n.chans, b);
    MembersAreOk(n, b);
    ModedKeepsKeys(MembersOf(n.chans, b), changes);
    WithMembersRoster(n.chans, b, Moded(MembersOf(n.chans, b), changes));
    if Fold(b) in RosterOf(n.chans) {
      SameRoster(RosterOf(Next(n, Mode(b, changes)).chans), RosterOf(n.chans));
    }
  }

  lemma EveryBufferRoster(n: Net, e: Event)
    requires NetOk(n) && (e.Quit? || e.Nick? || e.Away? || e.Disconnect?)
    ensures RosterOf(Next(n, e).chans) == RosterAfter(RosterOf(n.chans), n.nick, e)
  {
    hide RosterOf, Fold, KeysOk, Everywhere, OnMembers, SetAfter;
    var r := RosterOf(n.chans);
    var a := RosterOf(Everywhere(n.chans, e));
    EverywhereRoster(n.chans, e);
    forall f | f in a
      ensures f in r && a[f] == SetAfter(r[f], e)
    {
      RosterDomain(n.chans, f);
      var i :| 0 <= i < |n.chans| && Fold(n.chans[i].name) == f;
      OnMembersKeys(n.chans[i].members, e);
    }
    assert forall f :: f in a <==> f in r by { assert a.Keys == r.Keys; }
    SameRoster(a, RosterAfter(r, n.nick, e));
  }

  /** What the buffers hold is, after every event, what the plain roster says. */
  lemma RosterFollows(n: Net, e: Event)
    requires NetOk(n)
    ensures RosterOf(Next(n, e).chans) == RosterAfter(RosterOf(n.chans), n.nick, e)
  {
    hide *;
    if e.Quit? || e.Nick? || e.Away? || e.Disconnect? {
      EveryBufferRoster(n, e);
    } else {
      match e
      case Message(b) => MessageRoster(n, b);
      case Names(b, names) => NamesRoster(n, b, names);
      case Join(nick, b, account) => JoinRoster(n, nick, b, account);
      case Mode(b, changes) => ModeRoster(n, b, changes); ModeIsQuiet(RosterOf(n.chans), n.nick, b, changes);
      case Part(nick, b) => PartRoster(n, nick, b);
      case Kick(nick, b) => KickRoster(n, nick, b);
      case _ =>
    }
  }

  /** The roster after a run, and who we are by then. */
  ghost function RosterAll(r: Roster, self: string, events: seq<Event>): Roster
    decreases |events|
  {
    if events == [] then r
    else RosterAll(RosterAfter(r, self, events[0]), SelfAfter(self, events[0]), events[1..])
  }

  function SelfAfter(self: string, e: Event): string {
    if e.Nick? && EqualIRC(self, e.nick) then e.newNick else self
  }

  lemma SelfFollows(n: Net, e: Event)
    ensures Next(n, e).nick == SelfAfter(n.nick, e)
  {
    hide Everywhere, WithMembers, Ensured, Removed, Listed, Moded;
  }

  /** Over any run, from buffers that are in order, the network is its plain roster. */
  lemma {:induction false} RosterFollowsRun(n: Net, events: seq<Event>)
    requires NetOk(n)
    ensures RosterOf(NextAll(n, events).chans) == RosterAll(RosterOf(n.chans), n.nick, events)
    decreases |events|
  {
    hide NetOk, Next, RosterOf, RosterAfter, SelfAfter;
    if events != [] {
      NextKeeps(n, events[0]);
      RosterFollows(n, events[0]);
      SelfFollows(n, events[0]);
      RosterFollowsRun(Next(n, events[0]), events[1..]);
    }
  }

  lemma MessageRoster(n: Net, b: string)
    requires NetOk(n)
    ensures RosterOf(Next(n, Message(b)).chans) == RosterAfter(RosterOf(n.chans), n.nick, Message(b))
  {
    hide RosterOf, Fold, Ensured, KeysOk;
    EnsuredRoster(n.chans, b);
  }

  lemma ModeIsQuiet(r: Roster, self: string, b: string, changes: seq<MemberMode>)
    ensures RosterAfter(r, self, Mode(b, changes)) == r
  {}
}

/** The same with the source's own objects: buffers changed in place, found through an
    index that is built on first use. */
module NetworkState {
  import opened GoStrings
  import opened IrcLine
  import opened Modes
  import opened NetworkSpec

  class Channel {
    const name: string
    var members: map<string, Member>

    constructor (name: string, members: map<string, Member>)
      ensures this.name == name && this.members == members
    {
      this.name, this.members := name, members;
    }

    function View(): Chan
      reads this
    {
      Chan(name, members)
    }
  }

  /** No two buffers have names that fold the same. */
  predicate Distinct(channels: seq<Channel>) {
    forall i, j :: 0 <= i < j < |channels| ==> !EqualIRC(channels[i].name, channels[j].name)
  }

  /** The map of the buffers by folded name. */
  ghost predicate Indexes(index: map<string, Channel>, channels: seq<Channel>) {
    && (forall c :: c in channels ==> Fold(c.name) in index && index[Fold(c.name)] == c)
    && (forall f :: f in index ==> index[f] in channels && Fold(index[f].name) == f)
  }

  /** The position of the first buffer of that name. */
  predicate First(channels: seq<Channel>, name: string, i: int) {
    && -1 <= i < |channels|
    && (i >= 0 ==> EqualIRC(channels[i].name, name))
    && forall j :: 0 <= j < (if i < 0 then |channels| else i) ==> !EqualIRC(channels[j].name, name)
  }

  lemma IndexFinds(index: map<string, Channel>, channels: seq<Channel>, name: string, i: int)
    requires Distinct(channels) && Indexes(index, channels) && First(channels, name, i)
    ensures Fold(name) in index <==> i >= 0
    ensures i >= 0 ==> index[Fold(name)] == channels[i]
  {
    hide Fold;
    if Fold(name) in index {
      var k :| 0 <= k < |channels| && channels[k] == index[Fold(name)];
      assert EqualIRC(channels[k].name, name);
    }
  }

  lemma IndexPush(index: map<string, Channel>, channels: seq<Channel>, c: Channel)
    requires Distinct(channels) && Indexes(index, channels) && First(channels, c.name, -1)
    ensures Distinct(channels + [c]) && Indexes(index[Fold(c.name) := c], channels + [c])
  {
    hide Fold;
    var r := channels + [c];
    assert forall i :: 0 <= i < |channels| ==> r[i] == channels[i];
    forall d | d in channels
      ensures Fold(d.name) != Fold(c.name)
    {
      var k :| 0 <= k < |channels| && channels[k] == d;
      assert !EqualIRC(channels[k].name, c.name);
    }
    assert forall d :: d in r <==> d in channels || d == c;
  }

  function DropAt(channels: seq<Channel>, i: nat): seq<Channel>
    requires i < |channels|
  {
    channels[..i] + channels[i + 1..]
  }

  lemma DropAtIs(channels: seq<Channel>, i: nat)
    requires i < |channels| && Distinct(channels)
    ensures Distinct(DropAt(channels, i))
    ensures forall c :: c in DropAt(channels, i) <==> c in channels && Fold(c.name) != Fold(channels[i].name)
  {
    hide Fold;
    var r := DropAt(channels, i);
    assert forall j :: 0 <= j < |r| ==> r[j] == channels[if j < i then j else j + 1];
    forall c | c in r
      ensures c in channels && Fold(c.name) != Fold(channels[i].name)
    {
      var j :| 0 <= j < |r| && r[j] == c;
      assert j >= i ==> !EqualIRC(channels[i].name, channels[j + 1].name);
      assert j < i ==> !EqualIRC(channels[j].name, channels[i].name);
    }
    forall c | c in channels && Fold(c.name) != Fold(channels[i].name)
      ensures c in r
    {
      var k :| 0 <= k < |channels| && channels[k] == c;
      assert r[if k < i then k else k - 1] == c;
    }
  }

  lemma DropAtHas(channels: seq<Channel>, i: nat, c: Channel)
    requires i < |channels| && Distinct(channels)
    ensures c in DropAt(channels, i) <==> c in channels && Fold(c.name) != Fold(channels[i].name)
  {
    DropAtIs(channels, i);
  }

  lemma IndexDrop(index: map<string, Channel>, channels: seq<Channel>, i: nat)
    requires Distinct(channels) && Indexes(index, channels) && i < |channels|
    ensures Distinct(DropAt(channels, i)) && Indexes(index - {Fold(channels[i].name)}, DropAt(channels, i))
  {
    DropAtIs(channels, i);
    hide Fold, DropAt, Distinct;
    var r, less := DropAt(channels, i), index - {Fold(channels[i].name)};
    forall c | c in r
      ensures Fold(c.name) in less && less[Fold(c.name)] == c
    {
      DropAtHas(channels, i, c);
    }
    forall f | f in less
      ensures less[f] in r && Fold(less[f].name) == f
    {
      DropAtHas(channels, i, index[f]);
    }
  }

  lemma IndexLacks(index: map<string, Channel>, channels: seq<Channel>, name: string)
    requires Distinct(channels) && Indexes(index, channels) && First(channels, name, -1)
    ensures index - {Fold(name)} == index
  {
    hide Fold, Distinct;
    IndexFindsNone(index, channels, name);
  }

  lemma IndexFindsNone(index: map<string, Channel>, channels: seq<Channel>, name: string)
    requires Indexes(index, channels) && First(channels, name, -1)
    ensures Fold(name) !in index
  {
    hide Fold;
    assert forall k :: 0 <= k < |channels| ==> !EqualIRC(channels[k].name, name);
    assert forall c :: c in channels ==> Fold(c.name) != Fold(name);
  }

  lemma FirstUnique(channels: seq<Channel>, name: string, i: int, k: int)
    requires First(channels, name, i) && First(channels, name, k)
    ensures i == k
  {
    hide Fold;
  }

  lemma SameFold(channels: seq<Channel>, name: string, i: nat)
    requires i < |channels| && First(channels, name, i)
    ensures Fold(channels[i].name) == Fold(name)
  {}

  class Network {
    var nick: string
    var channels: seq<Channel>
    var byFold: Option<map<string, Channel>>

    constructor (nick: string)
      ensures Valid() && View() == Net(nick, []) && channels == []
    {
      this.nick, channels, byFold := nick, [], None;
    }

    function Chans(): (cs: seq<Chan>)
      reads this`channels, channels
      ensures |cs| == |channels|
      ensures forall i :: 0 <= i < |cs| ==> cs[i] == channels[i].View()
    {
      var all := channels;
      seq(|all|, i requires 0 <= i < |all| reads all => all[i].View())
    }

    function View(): Net
      reads this, channels
    {
      Net(nick, Chans())
    }

    ghost predicate Valid()
      reads this, channels
    {
      Distinct(channels) && (byFold.Some? ==> Indexes(byFold.value, channels))
    }

    lemma FirstIsFind(name: string)
      ensures First(channels, name, Find(Chans(), name))
      ensures forall i :: First(channels, name, i) ==> i == Find(Chans(), name)
    {
      hide Fold;
      var k := Find(Chans(), name);
      assert First(channels, name, k);
      forall i | First(channels, name, i)
        ensures i == k
      {
        FirstUnique(channels, name, i, k);
      }
    }

    method InitByFold()
      requires Valid()
      modifies this`byFold
      ensures Valid() && byFold.Some?
    {
      if byFold == None {
        var index: map<string, Channel> := map[];
        for i := 0 to |channels|
          invariant Indexes(index, channels[..i])
        {
          assert channels[..i + 1] == channels[..i] + [channels[i]];
          IndexPush(index, channels[..i], channels[i]);
          index := index[Fold(channels[i].name) := channels[i]];
        }
        assert channels[..|channels|] == channels;
        byFold := Some(index);
      }
    }

    /** Channel: the lookup through the index finds what a search of every buffer would. */
    method Lookup(name: string) returns (c: Channel?)
      requires Valid()
      modifies this`byFold
      ensures Valid() && byFold.Some?
      ensures var i := Find(Chans(), name); if i < 0 then c == null else c == channels[i]
    {
      InitByFold();
      FirstIsFind(name);
      IndexFinds(byFold.value, channels, name, Find(Chans(), name));
      c := if Fold(name) in byFold.value then byFold.value[Fold(name)] else null;
    }

    /** A new buffer at the end of the list. */
    method Append(c: Channel)
      requires Valid() && byFold.Some? && First(channels, c.name, -1)
      modifies this`byFold, this`channels
      ensures Valid() && byFold.Some? && channels == old(channels) + [c]
      ensures Chans() == old(Chans()) + [c.View()]
    {
      hide Fold, Indexes, Distinct, First;
      IndexPush(byFold.value, channels, c);
      byFold := Some(byFold.value[Fold(c.name) := c]);
      channels := channels + [c];
    }

    /** getOrCreate. */
    method GetOrCreate(name: string) returns (c: Channel, created: bool)
      requires Valid()
      modifies this`byFold, this`channels
      ensures Valid() && Chans() == Ensured(old(Chans()), name) && created == (Find(old(Chans()), name) < 0)
      ensures Find(Chans(), name) >= 0 && c == channels[Find(Chans(), name)]
      ensures if created then channels == old(channels) + [c] && fresh(c) else channels == old(channels)
    {
      hide Fold, Indexes, Distinct, Find, First;
      var found := Lookup(name);
      if found != null {
        return found, false;
      }
      FirstIsFind(name);
      ghost var was := Chans();
      c := new Channel(name, map[]);
      Append(c);
      created := true;
      FoundLast(was, name);
    }

    /** The linear search of remove. */
    method Search(name: string) returns (i: nat)
      ensures i <= |channels| && First(channels, name, if i < |channels| then i else -1)
      ensures Find(Chans(), name) == if i < |channels| then i else -1
    {
      hide Fold;
      i := 0;
      while i < |channels| && !EqualIRC(channels[i].name, name)
        invariant 0 <= i <= |channels|
        invariant forall j :: 0 <= j < i ==> !EqualIRC(channels[j].name, name)
      {
        i := i + 1;
      }
      FirstIsFind(name);
    }

    /** remove: out of the index, and out of the list at the first buffer of that name. */
    method Remove(name: string)
      requires Valid()
      modifies this`byFold, this`channels
      ensures Valid() && Chans() == Removed(old(Chans()), name)
    {
      hide Fold, Indexes, Distinct, First, Find, CutOutAt, DropAt;
      InitByFold();
      var i := Search(name);
      if i < |channels| {
        IndexDrop(byFold.value, channels, i);
        SameFold(channels, name, i);
        byFold := Some(byFold.value - {Fold(name)});
        assert Chans() == old(Chans());
        CutOut(i);
      } else {
        IndexLacks(byFold.value, channels, name);
        byFold := Some(byFold.value - {Fold(name)});
      }
    }

    /** One buffer out of the list. */
    method CutOut(i: nat)
      requires i < |channels|
      modifies this`channels
      ensures channels == DropAt(old(channels), i) && Chans() == CutOutAt(old(Chans()), i)
    {
      channels := channels[..i] + channels[i + 1..];
    }

    /** The members of buffer i changed in place. */
    method SetMembers(i: nat, members: map<string, Member>)
      requires Valid() && i < |channels|
      modifies channels[i]
      ensures Valid() && Chans() == old(Chans())[i := old(Chans())[i].(members := members)]
    {
      hide Fold, Indexes;
      assert forall j :: 0 <= j < |channels| && j != i ==> channels[j] != channels[i];
      channels[i].members := members;
    }

    /** The members of the named buffer, if there is one. */
    method UpdateMembers(name: string, members: map<string, Member>)
      requires Valid()
      modifies this`byFold, channels
      ensures Valid() && Chans() == WithMembers(old(Chans()), name, members) && channels == old(channels)
    {
      hide Fold, Indexes, Distinct;
      var c := Lookup(name);
      if c != null {
        SetMembers(Find(Chans(), name), members);
      }
    }

    method MembersNow(name: string) returns (members: map<string, Member>)
      requires Valid()
      modifies this`byFold
      ensures Valid() && members == MembersOf(Chans(), name)
    {
      hide Fold, Indexes, Distinct;
      var c := Lookup(name);
      members := if c == null then map[] else c.members;
    }

    /** Quit, nick, away and disconnect go over every buffer. */
    method OverAll(e: Event)
      requires Valid()
      modifies channels
      ensures Valid() && Chans() == Everywhere(old(Chans()), e) && channels == old(channels)
    {
      hide Fold, Indexes, OnMembers, Everywhere, First;
      ghost var was := Chans();
      for i := 0 to |channels|
        invariant Valid() && |Chans()| == |was|
        invariant forall j :: 0 <= j < i ==> Chans()[j] == was[j].(members := OnMembers(was[j].members, e))
        invariant forall j :: i <= j < |was| ==> Chans()[j] == was[j]
      {
        SetMembers(i, OnMembers(channels[i].members, e));
      }
      assert Chans() == Everywhere(was, e);
    }

    method Opened(buffer: string)
      requires Valid()
      modifies this, channels
      ensures Valid() && View() == Next(old(View()), Message(buffer))
    {
      hide Fold, Indexes, Distinct, Find, Ensured, Removed, WithMembers, MembersOf, Everywhere, OnMembers, Listed,
        Moded;
      var _, _ := GetOrCreate(buffer);
    }

    method Spread(e: Event)
      requires Valid() && (e.Quit? || e.Nick? || e.Away? || e.Disconnect?)
      modifies this, channels
      ensures Valid() && View() == Next(old(View()), e)
    {
      hide Fold, Indexes, Distinct, Find, Ensured, Removed, WithMembers, MembersOf, Everywhere, OnMembers, Listed,
        Moded;
      if e.Nick? && EqualIRC(this.nick, e.nick) {
        this.nick := e.newNick;
      }
      OverAll(e);
    }

    method NamesCame(buffer: string, names: seq<Member>)
      requires Valid()
      modifies this, channels
      ensures Valid() && View() == Next(old(View()), Names(buffer, names))
    {
      hide Fold, Indexes, Distinct, Find, Ensured, Removed, WithMembers, MembersOf, Everywhere, OnMembers, Listed,
        Moded;
      var _, _ := GetOrCreate(buffer);
      var members := MembersNow(buffer);
      var all := ListAll(members, names);
      UpdateMembers(buffer, all);
    }

    method Joined(nick: string, buffer: string, account: string)
      requires Valid()
      modifies this, channels
      ensures Valid() && View() == Next(old(View()), Join(nick, buffer, account))
    {
      hide Fold, Indexes, Distinct, Find, Ensured, Removed, WithMembers, MembersOf, Everywhere, OnMembers, Listed,
        Moded;
      var _, _ := GetOrCreate(buffer);
      var members := MembersNow(buffer);
      UpdateMembers(buffer, members[Fold(nick) := Member(nick, account, false, "")]);
    }

    method Parted(nick: string, buffer: string)
      requires Valid()
      modifies this, channels
      ensures Valid() && View() == Next(old(View()), Part(nick, buffer))
    {
      hide Fold, Indexes, Distinct, Find, Ensured, Removed, WithMembers, MembersOf, Everywhere, OnMembers, Listed,
        Moded;
      if EqualIRC(nick, this.nick) {
        Remove(buffer);
      } else {
        var members := MembersNow(buffer);
        UpdateMembers(buffer, members - {Fold(nick)});
      }
    }

    method Kicked(nick: string, buffer: string)
      requires Valid()
      modifies this, channels
      ensures Valid() && View() == Next(old(View()), Kick(nick, buffer))
    {
      hide Fold, Indexes, Distinct, Find, Ensured, Removed, WithMembers, MembersOf, Everywhere, OnMembers, Listed,
        Moded;
      if EqualIRC(nick, this.nick) {
        UpdateMembers(buffer, map[]);
      } else {
        var members := MembersNow(buffer);
        UpdateMembers(buffer, members - {Fold(nick)});
      }
    }

    method ModeCame(buffer: string, changes: seq<MemberMode>)
      requires Valid()
      modifies this, channels
      ensures Valid() && View() == Next(old(View()), Mode(buffer, changes))
    {
      hide Fold, Indexes, Distinct, Find, Ensured, Removed, WithMembers, MembersOf, Everywhere, OnMembers, Listed,
        Moded;
      var members := MembersNow(buffer);
      var moded := ModeAll(members, changes);
      UpdateMembers(buffer, moded);
    }

    /** applyLocked's membership cases. */
    method Apply(e: Event)
      requires Valid()
      modifies this, channels
      ensures Valid() && View() == Next(old(View()), e)
    {
      hide Valid, Next;
      match e
      case Message(buffer) => Opened(buffer);
      case Names(buffer, names) => NamesCame(buffer, names);
      case Join(nick, buffer, account) => Joined(nick, buffer, account);
      case Part(nick, buffer) => Parted(nick, buffer);
      case Kick(nick, buffer) => Kicked(nick, buffer);
      case Mode(buffer, changes) => ModeCame(buffer, changes);
      case _ => Spread(e);
    }

    method ListAll(from: map<string, Member>, names: seq<Member>) returns (members: map<string, Member>)
      ensures members == Listed(from, names)
    {
      members := from;
      for i := 0 to |names|
        invariant Listed(members, names[i..]) == Listed(from, names)
      {
        assert names[i..][1..] == names[i + 1..];
        members := members[Fold(names[i].nick) := names[i]];
      }
    }

    method ModeAll(from: map<string, Member>, changes: seq<MemberMode>) returns (members: map<string, Member>)
      ensures members == Moded(from, changes)
    {
      members := from;
      for i := 0 to |changes|
        invariant Moded(members, changes[i..]) == Moded(from, changes)
      {
        assert changes[i..][1..] == changes[i + 1..];
        var mm, k := changes[i], Fold(changes[i].nick);
        if k in members {
          var modes: string;
          if mm.add {
            modes := AddPrefix(members[k].modes, mm.symbol);
          } else {
            modes := WithoutPrefix(members[k].modes, mm.symbol);
          }
          members := members[k := members[k].(modes := modes)];
        }
      }
    }

    /** clone: new buffers with the same members, and an index of their own. */
    method Clone() returns (n: Network)
      requires Valid()
      ensures fresh(n) && n.Valid() && n.View() == View() && n.byFold.Some?
      ensures forall c :: c in n.channels ==> fresh(c)
    {
      hide Fold, Indexes, Distinct, First, Find;
      n := new Network(nick);
      n.InitByFold();
      for i := 0 to |channels|
        invariant fresh(n) && n.Valid() && n.byFold.Some? && n.nick == nick
        invariant forall c :: c in n.channels ==> fresh(c)
        invariant n.Chans() == Chans()[..i]
      {
        CloneFits(n, i);
        n.AppendCopy(channels[i].name, channels[i].members);
        assert Chans()[..i + 1] == Chans()[..i] + [Chans()[i]];
      }
      assert Chans()[..|channels|] == Chans();
    }

    method AppendCopy(name: string, members: map<string, Member>)
      requires Valid() && byFold.Some? && First(channels, name, -1)
      modifies this`byFold, this`channels
      ensures Valid() && byFold.Some? && Chans() == old(Chans()) + [Chan(name, members)]
      ensures forall c :: c in channels ==> c in old(channels) || fresh(c)
    {
      hide Fold, Indexes, Distinct, First, Find;
      var c := new Channel(name, members);
      Append(c);
    }

    lemma CloneFits(n: Network, i: nat)
      requires Valid() && i < |channels| && n.Chans() == Chans()[..i]
      ensures First(n.channels, channels[i].name, -1)
    {
      hide Fold;
      assert |n.channels| == i;
      forall j | 0 <= j < i
        ensures !EqualIRC(n.channels[j].name, channels[i].name)
      {
        assert n.Chans()[j] == Chans()[j];
      }
    }
  }

  lemma FoundLast(chans: seq<Chan>, name: string)
    requires Find(chans, name) < 0
    ensures Find(chans + [Chan(name, map[])], name) == |chans|
  {
    hide Fold;
    var r := chans + [Chan(name, map[])];
    assert r[|chans|].name == name;
    assert forall j :: 0 <= j < |chans| ==> r[j] == chans[j] && !EqualIRC(chans[j].name, name);
  }
}
