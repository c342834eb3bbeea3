/** Channel modes from a MODE line to what is stored: internal/irc/translate.go and
    the mode functions of internal/core/engine.go. One char stands for one rune. */
module Modes {
  import opened GoStrings

  // --- What the server announces ---

  /** A PREFIX value, "(letters)symbols", aligned by position. */
  function SplitPrefixSpec(prefix: string): (r: (string, string))
    ensures |r.0| == |r.1|
  {
    var i := IndexByte(prefix, ')');
    if prefix != "" && prefix[0] == '(' && i > 1 && |prefix[1..i]| == |prefix[i + 1..]|
    then (prefix[1..i], prefix[i + 1..])
    else ("ov", "@+")
  }

  /** The classes of a CHANMODES value, the fourth with all that is left. */
  function Class(chanmodes: string, k: nat): string {
    if k == 0 then Before(chanmodes, ',')
    else if ',' in chanmodes then Class(After(chanmodes, ','), k - 1)
    else ""
  }

  /** Which letters set a membership prefix, and which others take arguments: always
      as a list, always, or only when set. */
  datatype Spec = Spec(letters: string, symbols: string, list: string, always: string, whenSet: string)

  function Announced(prefix: string, chanmodes: string): (s: Spec)
    ensures |s.letters| == |s.symbols|
  {
    var p := SplitPrefixSpec(prefix);
    Spec(p.0, p.1, Class(chanmodes, 0), Class(chanmodes, 1), Class(chanmodes, 2))
  }

  predicate Sign(c: char) { c == '+' || c == '-' }

  predicate Signed(flags: string) { flags != "" && Sign(flags[0]) }

  /** The sign in force after some flags. */
  function Adding(flags: string): bool {
    if flags == "" then true
    else
      var c := flags[|flags| - 1];
      if c == '+' then true else if c == '-' then false else Adding(flags[..|flags| - 1])
  }

  lemma {:induction false} AddingLater(f1: string, f2: string)
    requires Signed(f2)
    ensures Adding(f1 + f2) == Adding(f2)
  {
    var n := |f2| - 1;
    assert (f1 + f2)[..|f1| + n] == f1 + f2[..n];
    if n > 0 && !Sign(f2[n]) {
      AddingLater(f1, f2[..n]);
    }
  }

  // --- Which nick a prefix change is for ---

  datatype MemberMode = MemberMode(nick: string, symbol: char, add: bool)

  predicate TakesArg(spec: Spec, c: char, add: bool) {
    c in spec.letters || c in spec.list || c in spec.always || (add && c in spec.whenSet)
  }

  /** How many arguments some flags ask for. */
  function ArgsTaken(spec: Spec, flags: string): nat {
    if flags == "" then 0
    else
      var init, c := flags[..|flags| - 1], flags[|flags| - 1];
      ArgsTaken(spec, init) + (if !Sign(c) && TakesArg(spec, c, Adding(init)) then 1 else 0)
  }

  /** The membership changes some flags make: each letter takes the argument that is
      left for it, and one without a (non-empty) argument changes nothing. */
  function Changes(spec: Spec, flags: string, args: seq<string>): seq<MemberMode>
    requires |spec.letters| == |spec.symbols|
  {
    if flags == "" then []
    else
      var init, c := flags[..|flags| - 1], flags[|flags| - 1];
      var k := ArgsTaken(spec, init);
      Changes(spec, init, args) + Change(spec, c, Adding(init), args, k)
  }

  /** What flag c changes, when k arguments are taken. */
  function Change(spec: Spec, c: char, add: bool, args: seq<string>, k: nat): seq<MemberMode>
    requires |spec.letters| == |spec.symbols|
  {
    if !Sign(c) && c in spec.letters && k < |args| && args[k] != ""
    then [MemberMode(args[k], spec.symbols[IndexByte(spec.letters, c)], add)]
    else []
  }

  /** membershipModeChanges. */
  method MembershipModeChanges(prefix: string, chanmodes: string, flags: string, args: seq<string>)
    returns (out: seq<MemberMode>)
    ensures out == Changes(Announced(prefix, chanmodes), flags, args)
  {
    var spec := Announced(prefix, chanmodes);
    hide Announced;
    var add, ai := true, 0;
    out := [];
    for i := 0 to |flags|
      invariant add == Adding(flags[..i])
      invariant ai == if ArgsTaken(spec, flags[..i]) < |args| then ArgsTaken(spec, flags[..i]) else |args|
      invariant out == Changes(spec, flags[..i], args)
    {
      var c := flags[i];
      assert flags[..i + 1][..i] == flags[..i];
      if c == '+' {
        add := true;
      } else if c == '-' {
        add := false;
      } else {
        var takesArg := TakesArg(spec, c, add);
        var arg := "";
        if takesArg && ai < |args| {
          arg := args[ai];
          ai := ai + 1;
        }
        if c in spec.letters && arg != "" {
          out := out + [MemberMode(arg, spec.symbols[IndexByte(spec.letters, c)], add)];
        }
      }
    }
    assert flags[..|flags|] == flags;
  }

  lemma {:induction false} ArgsTakenLater(spec: Spec, f1: string, f2: string)
    requires Signed(f2)
    ensures ArgsTaken(spec, f1 + f2) == ArgsTaken(spec, f1) + ArgsTaken(spec, f2)
  {
    var n := |f2| - 1;
    assert (f1 + f2)[..|f1| + n] == f1 + f2[..n];
    if n > 0 {
      AddingLater(f1, f2[..n]);
      ArgsTakenLater(spec, f1, f2[..n]);
    } else {
      assert f1 + f2[..n] == f1 && f2[..n] == "";
    }
  }

  function Unused(spec: Spec, flags: string, args: seq<string>): seq<string> {
    var k := ArgsTaken(spec, flags);
    args[if k < |args| then k else |args|..]
  }

  lemma UnusedAt(spec: Spec, flags: string, args: seq<string>, k: nat)
    ensures var m := ArgsTaken(spec, flags) + k;
            && (m < |args| <==> k < |Unused(spec, flags, args)|)
            && (m < |args| ==> Unused(spec, flags, args)[k] == args[m])
  {}

  /** A MODE line may be cut in two before a sign: the second part goes on with the
      arguments the first left over. */
  lemma {:induction false} ChangesSplit(spec: Spec, f1: string, f2: string, args: seq<string>)
    requires |spec.letters| == |spec.symbols| && Signed(f2)
    ensures Changes(spec, f1 + f2, args) == Changes(spec, f1, args) + Changes(spec, f2, Unused(spec, f1, args))
  {
    hide Changes, Change, ArgsTaken, Unused, Adding;
    var n := |f2| - 1;
    var left := Unused(spec, f1, args);
    if n > 0 {
      LastChange(spec, f1, f2, args);
      LastChange(spec, "", f2, left);
      assert "" + f2 == f2 && "" + f2[..n] == f2[..n];
      AddingLater(f1, f2[..n]);
      ArgsTakenLater(spec, f1, f2[..n]);
      ChangesSplit(spec, f1, f2[..n], args);
      ChangeLater(spec, f2[n], Adding(f2[..n]), f1, args, ArgsTaken(spec, f2[..n]));
      Regrouped(Changes(spec, f1, args), Changes(spec, f2[..n], left),
        Change(spec, f2[n], Adding(f2[..n]), left, ArgsTaken(spec, f2[..n])));
    } else {
      SignChangesNothing(spec, f2, args, f1);
    }
  }

  lemma Regrouped(a: seq<MemberMode>, b: seq<MemberMode>, c: seq<MemberMode>)
    ensures a + b + c == a + (b + c)
  {}

  lemma SignChangesNothing(spec: Spec, f2: string, args: seq<string>, f1: string)
    requires |spec.letters| == |spec.symbols| && |f2| == 1 && Signed(f2)
    ensures Changes(spec, f2, Unused(spec, f1, args)) == []
    ensures Changes(spec, f1 + f2, args) == Changes(spec, f1, args)
  {
    assert f2[..0] == "" && (f1 + f2)[..|f1|] == f1;
  }

  lemma LastChange(spec: Spec, f1: string, f2: string, args: seq<string>)
    requires |spec.letters| == |spec.symbols| && f2 != ""
    ensures var init := f1 + f2[..|f2| - 1];
      Changes(spec, f1 + f2, args)
        == Changes(spec, init, args) + Change(spec, f2[|f2| - 1], Adding(init), args, ArgsTaken(spec, init))
  {
    hide Change, ArgsTaken, Adding;
    assert (f1 + f2)[..|f1 + f2| - 1] == f1 + f2[..|f2| - 1];
  }

  lemma ChangeLater(spec: Spec, c: char, add: bool, f1: string, args: seq<string>, k: nat)
    requires |spec.letters| == |spec.symbols|
    ensures Change(spec, c, add, args, ArgsTaken(spec, f1) + k) == Change(spec, c, add, Unused(spec, f1, args), k)
  {
    UnusedAt(spec, f1, args, k);
    hide Unused, ArgsTaken;
  }

  // --- The channel's own settings ---

  predicate Foreign(spec: Spec, c: char) { c in spec.letters || c in spec.list }

  /** The flags without the membership and list letters. */
  function Kept(spec: Spec, flags: string): string {
    if flags == "" then ""
    else
      var c := flags[|flags| - 1];
      Kept(spec, flags[..|flags| - 1]) + (if !Sign(c) && Foreign(spec, c) then "" else [c])
  }

  function SettingFlags(spec: Spec, flags: string): string {
    (if Signed(flags) then "" else "+") + Kept(spec, flags)
  }

  /** channelSettingFlags. */
  method ChannelSettingFlags(prefix: string, chanmodes: string, flags: string) returns (b: string)
    ensures b == SettingFlags(Announced(prefix, chanmodes), flags)
  {
    var spec := Announced(prefix, chanmodes);
    hide Announced;
    b := if Signed(flags) then "" else "+";
    ghost var sign := b;
    assert flags[..0] == "";
    for i := 0 to |flags|
      invariant b == sign + Kept(spec, flags[..i])
    {
      assert flags[..i + 1][..i] == flags[..i];
      if !Sign(flags[i]) && Foreign(spec, flags[i]) {
        continue;
      }
      b := b + [flags[i]];
    }
    assert flags[..|flags|] == flags;
  }

  // --- The stored mode ---

  /** The letters in force after some flags. */
  function Applied(letters: set<char>, flags: string): set<char> {
    if flags == "" then letters
    else
      var init, c := flags[..|flags| - 1], flags[|flags| - 1];
      if Sign(c) then Applied(letters, init)
      else if Adding(init) then Applied(letters, init) + {c}
      else Applied(letters, init) - {c}
  }

  lemma {:induction false} UnnamedStays(letters: set<char>, f1: string, f2: string, x: char)
    requires x !in f2
    ensures x in Applied(letters, f1 + f2) <==> x in Applied(letters, f1)
  {
    if f2 == "" {
      assert f1 + f2 == f1;
    } else {
      var n := |f2| - 1;
      assert (f1 + f2)[..|f1| + n] == f1 + f2[..n];
      UnnamedStays(letters, f1, f2[..n], x);
    }
  }

  /** A letter is in force when the last flag that names it adds it, or when none does
      and it was. */
  lemma LastFlagDecides(letters: set<char>, flags: string, x: char)
    requires !Sign(x)
    ensures x !in flags ==> (x in Applied(letters, flags) <==> x in letters)
    ensures forall i :: 0 <= i < |flags| && flags[i] == x && x !in flags[i + 1..] ==>
              (x in Applied(letters, flags) <==> Adding(flags[..i]))
  {
    if x !in flags {
      UnnamedStays(letters, "", flags, x);
      assert "" + flags == flags;
    }
    forall i | 0 <= i < |flags| && flags[i] == x && x !in flags[i + 1..]
      ensures x in Applied(letters, flags) <==> Adding(flags[..i])
    {
      NamedLast(letters, flags[..i], x);
      UnnamedStays(letters, flags[..i] + [x], flags[i + 1..], x);
      assert flags[..i] + [x] + flags[i + 1..] == flags;
    }
  }

  lemma NamedLast(letters: set<char>, before: string, x: char)
    requires !Sign(x)
    ensures x in Applied(letters, before + [x]) <==> Adding(before)
  {
    assert (before + [x])[..|before|] == before;
  }

  ghost function Least(letters: set<char>): (m: char)
    requires letters != {}
    ensures m in letters && forall x :: x in letters ==> m <= x
  {
    LeastExists(letters);
    var m :| m in letters && forall x :: x in letters ==> m <= x;
    m
  }

  lemma {:induction false} LeastExists(letters: set<char>)
    requires letters != {}
    ensures exists m :: m in letters && forall x :: x in letters ==> m <= x
    decreases |letters|
  {
    var y :| y in letters;
    var rest := letters - {y};
    if rest == {} {
      assert letters == {y};
    } else {
      LeastExists(rest);
      var m :| m in rest && forall x :: x in rest ==> m <= x;
      assert forall x :: x in letters ==> x == y || x in rest;
      if y <= m {
        assert forall x :: x in letters ==> y <= x;
      } else {
        assert forall x :: x in letters ==> m <= x;
      }
    }
  }

  /** The letters in order. */
  ghost function Ordered(letters: set<char>): string
    decreases |letters|
  {
    if letters == {} then "" else [Least(letters)] + Ordered(letters - {Least(letters)})
  }

  predicate Rising(s: string) { forall i, j :: 0 <= i < j < |s| ==> s[i] < s[j] }

  lemma RisingCons(m: char, rest: string)
    requires Rising(rest) && forall x :: x in rest ==> m < x
    ensures Rising([m] + rest) && forall x :: x in [m] + rest <==> x == m || x in rest
  {
    forall i | 0 <= i < |rest|
      ensures m < rest[i]
    {
      assert rest[i] in rest;
    }
  }

  lemma {:induction false} OrderedIs(letters: set<char>)
    ensures Rising(Ordered(letters)) && forall x :: x in Ordered(letters) <==> x in letters
    decreases |letters|
  {
    if letters != {} {
      var m := Least(letters);
      OrderedIs(letters - {m});
      hide Rising;
      RisingCons(m, Ordered(letters - {m}));
    } else {
      assert Rising("");
    }
  }

  predicate Spells(s: string, letters: set<char>) { Rising(s) && forall x :: x in s <==> x in letters }

  lemma SpellsHead(s: string, letters: set<char>)
    requires Spells(s, letters) && letters != {}
    ensures s != "" && s[0] == Least(letters) && Spells(s[1..], letters - {Least(letters)})
  {
    var m := Least(letters);
    assert m in s;
    assert s[0] in letters;
    assert s[0] == m;
    var rest := s[1..];
    assert Rising(rest);
    forall x
      ensures x in rest <==> x in letters - {m}
    {
      assert x in s <==> x == s[0] || x in rest;
      if x in rest {
        var i :| 0 <= i < |rest| && rest[i] == x;
        assert s[0] < s[i + 1];
      }
    }
  }

  /** There is one way only to write a set of letters in order. */
  lemma {:induction false} RisingIsOrdered(s: string, letters: set<char>)
    requires Spells(s, letters)
    ensures s == Ordered(letters)
    decreases |s|
  {
    hide Spells;
    if letters == {} {
      if s != "" {
        SpelledFirst(s, letters);
      }
    } else {
      SpellsHead(s, letters);
      RisingIsOrdered(s[1..], letters - {Least(letters)});
      assert s == [s[0]] + s[1..];
    }
  }

  lemma SpelledFirst(s: string, letters: set<char>)
    requires Spells(s, letters) && s != ""
    ensures s[0] in letters
  {
    assert s[0] in s;
  }

  function LettersOf(mode: string): set<char> {
    if mode != "" && mode[0] == '+' then set c | c in mode[1..] else {}
  }

  ghost function Render(letters: set<char>): string {
    if letters == {} then "" else "+" + Ordered(letters)
  }

  /** The flags of a change, without its arguments. */
  function ChangeFlags(change: string): string { Before(TrimBlanks(change), ' ') }

  ghost function Updated(current: string, change: string): string {
    if Signed(ChangeFlags(change)) then Render(Applied(LettersOf(current), ChangeFlags(change)))
    else ChangeFlags(change)
  }

  /** updateChannelMode. */
  method UpdateChannelMode(current: string, change: string) returns (mode: string)
    ensures mode == Updated(current, change)
  {
    var flags := ChangeFlags(change);
    hide ChangeFlags;
    if !Signed(flags) {
      return flags;
    }
    var adding, letters := true, LettersOf(current);
    for i := 0 to |flags|
      invariant adding == Adding(flags[..i]) && letters == Applied(LettersOf(current), flags[..i])
    {
      assert flags[..i + 1][..i] == flags[..i];
      if flags[i] == '+' {
        adding := true;
      } else if flags[i] == '-' {
        adding := false;
      } else if adding {
        letters := letters + {flags[i]};
      } else {
        letters := letters - {flags[i]};
      }
    }
    assert flags[..|flags|] == flags;
    if letters == {} {
      return "";
    }
    var sorted := SortLetters(letters);
    return "+" + sorted;
  }

  method SortLetters(letters: set<char>) returns (s: string)
    ensures s == Ordered(letters)
  {
    var left := letters;
    s := "";
    while left != {}
      invariant s + Ordered(left) == Ordered(letters)
      decreases |left|
    {
      var m := Smallest(left);
      hide Least;
      assert s + ([m] + Ordered(left - {m})) == s + [m] + Ordered(left - {m});
      s := s + [m];
      left := left - {m};
    }
  }

  method Smallest(left: set<char>) returns (m: char)
    requires left != {}
    ensures m in left && m == Least(left)
  {
    m :| m in left;
    var seen := {m};
    while seen != left
      invariant m in seen && seen <= left && forall x :: x in seen ==> m <= x
      decreases |left - seen|
    {
      var x :| x in left - seen;
      if x < m {
        m := x;
      }
      seen := seen + {x};
    }
  }

  /** A stored mode in its one proper form. */
  predicate Canonical(mode: string) {
    mode == "" || (|mode| > 1 && mode[0] == '+' && Rising(mode[1..]) && forall c :: c in mode[1..] ==> !Sign(c))
  }

  lemma RenderIsCanonical(letters: set<char>)
    requires forall c :: c in letters ==> !Sign(c)
    ensures Canonical(Render(letters)) && LettersOf(Render(letters)) == letters
  {
    OrderedIs(letters);
    if letters != {} {
      var s := Render(letters);
      assert s[1..] == Ordered(letters);
    }
  }

  lemma CanonicalIsRender(mode: string)
    requires Canonical(mode)
    ensures mode == Render(LettersOf(mode)) && forall c :: c in LettersOf(mode) ==> !Sign(c)
  {
    if mode != "" {
      RisingIsOrdered(mode[1..], LettersOf(mode));
      assert mode[1..][0] in LettersOf(mode);
    }
  }

  lemma {:induction false} AppliedHasNoSigns(letters: set<char>, flags: string)
    requires forall c :: c in letters ==> !Sign(c)
    ensures forall c :: c in Applied(letters, flags) ==> !Sign(c)
  {
    if flags != "" {
      AppliedHasNoSigns(letters, flags[..|flags| - 1]);
    }
  }

  lemma {:induction false} AppliedLater(letters: set<char>, f1: string, f2: string)
    requires Signed(f2)
    ensures Applied(letters, f1 + f2) == Applied(Applied(letters, f1), f2)
  {
    var n := |f2| - 1;
    assert (f1 + f2)[..|f1| + n] == f1 + f2[..n];
    if n > 0 {
      AddingLater(f1, f2[..n]);
      AppliedLater(letters, f1, f2[..n]);
    } else {
      assert f1 + f2[..n] == f1 && f2[..n] == "";
    }
  }

  /** A change written with signs keeps the mode canonical, and its letters are those
      the flags leave in force. */
  lemma UpdateIsCanonical(current: string, change: string)
    requires Canonical(current) && Signed(ChangeFlags(change))
    ensures Canonical(Updated(current, change))
    ensures LettersOf(Updated(current, change)) == Applied(LettersOf(current), ChangeFlags(change))
  {
    CanonicalIsRender(current);
    AppliedHasNoSigns(LettersOf(current), ChangeFlags(change));
    RenderIsCanonical(Applied(LettersOf(current), ChangeFlags(change)));
  }

  predicate Plain(flags: string) { forall c :: c in flags ==> c !in BLANKS }

  lemma PlainFlags(flags: string)
    requires Plain(flags)
    ensures ChangeFlags(flags) == flags
  {
    TrimRightUnique(flags, |flags|, BLANKS);
    assert flags[..|flags|] == flags;
  }

  /** Two changes in sequence are the one change written without a gap. */
  lemma UpdatesCompose(current: string, f1: string, f2: string)
    requires Canonical(current) && Signed(f1) && Signed(f2) && Plain(f1) && Plain(f2)
    ensures Updated(Updated(current, f1), f2) == Updated(current, f1 + f2)
  {
    PlainFlags(f1);
    PlainFlags(f2);
    PlainFlags(f1 + f2);
    UpdateIsCanonical(current, f1);
    AppliedLater(LettersOf(current), f1, f2);
  }

  // --- From the MODE line to the stored mode ---

  predicate NoForeign(spec: Spec, s: string) { forall c :: c in s && !Sign(c) ==> !Foreign(spec, c) }

  lemma {:induction false} KeptHasNoForeign(spec: Spec, flags: string)
    ensures NoForeign(spec, Kept(spec, flags))
    ensures flags != "" && Sign(flags[0]) ==> Kept(spec, flags) != "" && Kept(spec, flags)[0] == flags[0]
  {
    if flags != "" {
      KeptHasNoForeign(spec, flags[..|flags| - 1]);
    }
  }

  lemma {:induction false} AppliedAddsOnlyFlags(letters: set<char>, flags: string)
    ensures forall c :: c in Applied(letters, flags) ==> c in letters || (c in flags && !Sign(c))
  {
    if flags != "" {
      AppliedAddsOnlyFlags(letters, flags[..|flags| - 1]);
    }
  }

  lemma {:induction false} TrimLeftBlanksPart(s: string)
    ensures |TrimLeftBlanks(s)| <= |s| && TrimLeftBlanks(s) == s[|s| - |TrimLeftBlanks(s)|..]
  {
    if s != "" && s[0] in BLANKS {
      TrimLeftBlanksPart(s[1..]);
    }
  }

  lemma SignedStaysFirst(s: string)
    requires Signed(s)
    ensures Signed(ChangeFlags(s)) && ChangeFlags(s) <= s
  {
    var t := TrimRight(s, BLANKS);
    assert s[0] !in BLANKS;
    assert t != "";
    assert t[0] == s[0];
    assert TrimLeftBlanks(t) == t;
    var i := IndexByte(t, ' ');
  }

  /** No membership letter and no list letter ever gets into a stored mode through a
      MODE line, whatever its flags are, and the mode stays canonical. */
  lemma StoredModeStaysClean(spec: Spec, current: string, flags: string)
    requires Canonical(current) && forall c :: c in LettersOf(current) ==> !Foreign(spec, c)
    ensures var mode := Updated(current, SettingFlags(spec, flags));
            Canonical(mode) && forall c :: c in LettersOf(mode) ==> !Foreign(spec, c)
  {
    var s := SettingFlags(spec, flags);
    KeptHasNoForeign(spec, flags);
    assert Signed(s);
    SignedStaysFirst(s);
    var fs := ChangeFlags(s);
    hide ChangeFlags, SettingFlags, Foreign;
    UpdateIsCanonical(current, s);
    AppliedAddsOnlyFlags(LettersOf(current), fs);
    forall c | c in LettersOf(Updated(current, s))
      ensures !Foreign(spec, c)
    {
      if c !in LettersOf(current) {
        assert c in fs && c in s;
        InSetting(spec, flags, c);
      }
    }
  }

  lemma InSetting(spec: Spec, flags: string, c: char)
    requires c in SettingFlags(spec, flags) && !Sign(c)
    ensures !Foreign(spec, c)
  {
    KeptHasNoForeign(spec, flags);
  }

  /** So after any number of MODE lines from an empty mode on. */
  ghost function Stored(spec: Spec, lines: seq<string>): string {
    if lines == [] then ""
    else Updated(Stored(spec, lines[..|lines| - 1]), SettingFlags(spec, lines[|lines| - 1]))
  }

  lemma {:induction false} StoredIsClean(spec: Spec, lines: seq<string>)
    ensures Canonical(Stored(spec, lines)) && forall c :: c in LettersOf(Stored(spec, lines)) ==> !Foreign(spec, c)
  {
    hide Updated, SettingFlags, Foreign;
    if lines != [] {
      StoredIsClean(spec, lines[..|lines| - 1]);
      StoredModeStaysClean(spec, Stored(spec, lines[..|lines| - 1]), lines[|lines| - 1]);
    }
  }

  // --- Membership prefixes ---

  const PREFIX_ORDER := "~&@%+"

  function Rank(c: char): nat {
    var i := IndexByte(PREFIX_ORDER, c);
    if i >= 0 then i else |PREFIX_ORDER|
  }

  predicate Ranked(modes: string) {
    forall i, j :: 0 <= i < j < |modes| ==> Rank(modes[i]) <= Rank(modes[j]) && modes[i] != modes[j]
  }

  /** Where a symbol goes: before the first one of lower rank. */
  function Place(modes: string, rank: nat): (i: nat)
    ensures i <= |modes|
    ensures forall j :: 0 <= j < i ==> Rank(modes[j]) <= rank
    ensures i < |modes| ==> Rank(modes[i]) > rank
  {
    if modes == "" || Rank(modes[0]) > rank then 0 else 1 + Place(modes[1..], rank)
  }

  function WithPrefix(modes: string, sym: char): string {
    if sym in modes then modes
    else
      var i := Place(modes, Rank(sym));
      modes[..i] + [sym] + modes[i..]
  }

  /** addPrefix, for the one-symbol strings its callers pass. */
  method AddPrefix(modes: string, sym: char) returns (r: string)
    ensures r == WithPrefix(modes, sym)
  {
    if sym in modes {
      return modes;
    }
    for i := 0 to |modes|
      invariant forall j :: 0 <= j < i ==> Rank(modes[j]) <= Rank(sym)
    {
      if Rank(modes[i]) > Rank(sym) {
        PlaceIs(modes, Rank(sym), i);
        return modes[..i] + [sym] + modes[i..];
      }
    }
    PlaceIs(modes, Rank(sym), |modes|);
    assert modes[..|modes|] + [sym] + modes[|modes|..] == modes + [sym];
    return modes + [sym];
  }

  lemma PlaceIs(modes: string, rank: nat, i: nat)
    requires i <= |modes| && (forall j :: 0 <= j < i ==> Rank(modes[j]) <= rank)
    requires i < |modes| ==> Rank(modes[i]) > rank
    ensures Place(modes, rank) == i
  {}

  /** strings.ReplaceAll(modes, sym, ""). */
  function WithoutPrefix(modes: string, sym: char): string {
    if modes == "" then ""
    else (if modes[0] == sym then "" else [modes[0]]) + WithoutPrefix(modes[1..], sym)
  }

  function Changed(modes: string, change: MemberMode): string {
    if change.add then WithPrefix(modes, change.symbol) else WithoutPrefix(modes, change.symbol)
  }

  function ChangedBy(modes: string, changes: seq<MemberMode>): string
    decreases |changes|
  {
    if changes == [] then modes else ChangedBy(Changed(modes, changes[0]), changes[1..])
  }

  lemma {:induction false} WithoutIs(modes: string, sym: char)
    requires Ranked(modes)
    ensures Ranked(WithoutPrefix(modes, sym))
    ensures forall x :: x in WithoutPrefix(modes, sym) <==> x in modes && x != sym
  {
    if modes != "" {
      var rest := modes[1..];
      WithoutIs(rest, sym);
      var r := WithoutPrefix(rest, sym);
      forall i | 0 <= i < |r|
        ensures Rank(modes[0]) <= Rank(r[i]) && modes[0] != r[i]
      {
        assert r[i] in r;
        var j :| 0 <= j < |rest| && rest[j] == r[i];
        assert modes[j + 1] == r[i];
      }
      assert forall x :: x in modes <==> x == modes[0] || x in rest;
    }
  }

  /** Every symbol of a ranks as high as every one of b, and none is in both. */
  predicate Outranks(a: string, b: string) { forall x, y :: x in a && y in b ==> Rank(x) <= Rank(y) && x != y }

  lemma RankedConcat(a: string, b: string)
    requires Ranked(a) && Ranked(b) && Outranks(a, b)
    ensures Ranked(a + b)
  {
    hide Rank;
    var s := a + b;
    forall i, j | 0 <= i < j < |s|
      ensures Rank(s[i]) <= Rank(s[j]) && s[i] != s[j]
    {
      if i < |a| <= j {
        assert s[i] in a && s[j] in b;
      }
    }
  }

  lemma RankedParts(s: string, i: nat)
    requires Ranked(s) && i <= |s|
    ensures Ranked(s[..i]) && Ranked(s[i..]) && Outranks(s[..i], s[i..])
  {
    hide Rank;
  }

  lemma PlaceParts(modes: string, sym: char)
    requires Ranked(modes) && sym !in modes
    ensures var i := Place(modes, Rank(sym));
            Outranks(modes[..i], [sym]) && Outranks([sym], modes[i..])
  {
    var i := Place(modes, Rank(sym));
    hide Rank, Place;
    forall y | y in modes[i..]
      ensures Rank(sym) <= Rank(y) && sym != y
    {
      var k :| i <= k < |modes| && modes[k] == y;
      assert k == i || Rank(modes[i]) <= Rank(modes[k]);
    }
  }

  lemma WithIs(modes: string, sym: char)
    requires Ranked(modes)
    ensures Ranked(WithPrefix(modes, sym))
    ensures forall x :: x in WithPrefix(modes, sym) <==> x in modes || x == sym
  {
    if sym !in modes {
      var i := Place(modes, Rank(sym));
      RankedParts(modes, i);
      PlaceParts(modes, sym);
      InsertedIs(modes, i, sym);
      hide Rank, Place, Ranked, Outranks;
      OneRanked(sym);
      RankedConcat(modes[..i], [sym]);
      OutranksAll(modes[..i], [sym], modes[i..]);
      RankedConcat(modes[..i] + [sym], modes[i..]);
    }
  }

  lemma InsertedIs(modes: string, i: nat, sym: char)
    requires i <= |modes|
    ensures forall x :: x in modes[..i] + [sym] + modes[i..] <==> x in modes || x == sym
  {
    assert modes == modes[..i] + modes[i..];
  }

  lemma OneRanked(sym: char)
    ensures Ranked([sym])
  {}

  lemma OutranksAll(a: string, b: string, c: string)
    requires Outranks(a, c) && Outranks(b, c)
    ensures Outranks(a + b, c)
  {
    hide Rank;
  }

  /** Whatever prefix changes come, a member's prefixes stay in rank order, highest
      first, each at most once. */
  lemma {:induction false} PrefixesStayRanked(modes: string, changes: seq<MemberMode>)
    requires Ranked(modes)
    ensures Ranked(ChangedBy(modes, changes))
    decreases |changes|
  {
    if changes != [] {
      WithIs(modes, changes[0].symbol);
      WithoutIs(modes, changes[0].symbol);
      PrefixesStayRanked(Changed(modes, changes[0]), changes[1..]);
    }
  }

  /** The last change that names a symbol decides whether the member has it. */
  lemma {:induction false} LastChangeDecides(modes: string, changes: seq<MemberMode>, i: nat)
    requires Ranked(modes) && i < |changes|
    requires forall j :: i < j < |changes| ==> changes[j].symbol != changes[i].symbol
    ensures changes[i].symbol in ChangedBy(modes, changes) <==> changes[i].add
    decreases |changes|
  {
    WithIs(modes, changes[0].symbol);
    WithoutIs(modes, changes[0].symbol);
    hide WithPrefix, WithoutPrefix, Ranked;
    if i == 0 {
      assert forall c :: c in changes[1..] ==> c.symbol != changes[0].symbol;
      Untouched(Changed(modes, changes[0]), changes[1..], changes[0].symbol);
    } else {
      LastChangeDecides(Changed(modes, changes[0]), changes[1..], i - 1);
    }
  }

  lemma {:induction false} Untouched(modes: string, changes: seq<MemberMode>, sym: char)
    requires Ranked(modes) && forall c :: c in changes ==> c.symbol != sym
    ensures sym in ChangedBy(modes, changes) <==> sym in modes
    decreases |changes|
  {
    if changes != [] {
      WithIs(modes, changes[0].symbol);
      WithoutIs(modes, changes[0].symbol);
      Untouched(Changed(modes, changes[0]), changes[1..], sym);
    }
  }
}
