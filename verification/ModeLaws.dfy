/** How a MODE line is read, letter by letter, from the classes the server announced:
    which letter takes which argument, whose prefix it changes, what is the channel's own. */
module ModeLaws {
  import opened GoStrings
  import opened Modes

  // --- The classes ---

  /** PREFIX as servers send it, and CHANMODES with its four classes. */
  function PrefixValue(letters: string, symbols: string): string { "(" + letters + [')'] + symbols }

  function ChanmodesValue(a: string, b: string, c: string, d: string): string {
    a + [','] + (b + [','] + (c + [','] + d))
  }

  lemma PrefixIs(letters: string, symbols: string)
    requires letters != "" && |letters| == |symbols| && ')' !in letters
    ensures SplitPrefixSpec(PrefixValue(letters, symbols)) == (letters, symbols)
  {
    var p := PrefixValue(letters, symbols);
    IndexByteAt("(" + letters, ')', symbols);
    assert p[1..|letters| + 1] == letters && p[|letters| + 2..] == symbols;
  }

  predicate IsPrefixValue(prefix: string, letters: string, symbols: string) {
    prefix == PrefixValue(letters, symbols) && letters != "" && ')' !in letters && |letters| == |symbols|
  }

  /** Anything else counts as the RFC's own. */
  lemma PrefixFallsBack(prefix: string)
    requires forall letters, symbols :: !IsPrefixValue(prefix, letters, symbols)
    ensures SplitPrefixSpec(prefix) == ("ov", "@+")
  {
    hide IsPrefixValue;
    var i := IndexByte(prefix, ')');
    if prefix != "" && prefix[0] == '(' && i > 1 && |prefix[1..i]| == |prefix[i + 1..]| {
      PrefixParts(prefix, i);
    }
  }

  lemma PrefixParts(prefix: string, i: int)
    requires prefix != "" && prefix[0] == '(' && i == IndexByte(prefix, ')') > 1
    requires |prefix[1..i]| == |prefix[i + 1..]|
    ensures IsPrefixValue(prefix, prefix[1..i], prefix[i + 1..])
  {
    IndexByteFirst(prefix, ')');
    hide IndexByte;
    assert prefix == "(" + prefix[1..i] + [')'] + prefix[i + 1..];
    assert forall j :: 0 <= j < i - 1 ==> prefix[1..i][j] == prefix[j + 1];
  }

  lemma ClassesAre(a: string, b: string, c: string, d: string)
    requires ',' !in a && ',' !in b && ',' !in c
    ensures var v := ChanmodesValue(a, b, c, d); Class(v, 0) == a && Class(v, 1) == b && Class(v, 2) == c
  {
    hide Class;
    var w := c + [','] + d;
    FirstClass(a, b + [','] + w, 0);
    FirstClass(a, b + [','] + w, 1);
    FirstClass(a, b + [','] + w, 2);
    FirstClass(b, w, 0);
    FirstClass(b, w, 1);
    FirstClass(c, d, 0);
  }

  lemma FirstClass(a: string, rest: string, k: nat)
    requires ',' !in a
    ensures Class(a + [','] + rest, 0) == a
    ensures k > 0 ==> Class(a + [','] + rest, k) == Class(rest, k - 1)
  {
    CutAt(a, ',', rest);
  }

  /** Classes that are left out at the end are empty. */
  lemma MissingClasses(a: string, b: string)
    requires ',' !in a && ',' !in b
    ensures Class(a, 0) == a && Class(a, 1) == "" && Class(a, 2) == ""
    ensures var v := a + [','] + b; Class(v, 0) == a && Class(v, 1) == b && Class(v, 2) == ""
  {
    FirstClass(a, b, 1);
    FirstClass(a, b, 2);
  }

  // --- The sign in force ---

  /** The last sign decides; without one letters are added. */
  lemma {:induction false} AddingIff(flags: string)
    ensures Adding(flags) <==>
      (forall j :: 0 <= j < |flags| ==> !Sign(flags[j]))
      || exists i :: 0 <= i < |flags| && flags[i] == '+' && forall j :: i < j < |flags| ==> !Sign(flags[j])
  {
    if flags != "" {
      var n := |flags| - 1;
      var init := flags[..n];
      AddingIff(init);
      assert forall j :: 0 <= j < n ==> init[j] == flags[j];
      if flags[n] == '+' {
        assert flags[n] == '+';
      }
    }
  }

  lemma {:induction false} AddingOn(f: string, sign: char, rest: string)
    requires Sign(sign) && Adding(f) == (sign == '+')
    ensures Adding(f + rest) == Adding([sign] + rest)
  {
    if rest == "" {
      assert f + rest == f && [sign] + rest == [sign];
    } else {
      var n := |rest| - 1;
      AddingOn(f, sign, rest[..n]);
      assert (f + rest)[..|f| + n] == f + rest[..n] && ([sign] + rest)[..1 + n] == [sign] + rest[..n];
    }
  }

  lemma {:induction false} ArgsTakenOn(spec: Spec, f: string, sign: char, rest: string)
    requires Sign(sign) && Adding(f) == (sign == '+')
    ensures ArgsTaken(spec, f + rest) == ArgsTaken(spec, f) + ArgsTaken(spec, [sign] + rest)
  {
    if rest == "" {
      assert f + rest == f && [sign] + rest == [sign] && [sign][..0] == "";
    } else {
      var n := |rest| - 1;
      AddingOn(f, sign, rest[..n]);
      ArgsTakenOn(spec, f, sign, rest[..n]);
      assert (f + rest)[..|f| + n] == f + rest[..n] && ([sign] + rest)[..1 + n] == [sign] + rest[..n];
    }
  }

  lemma {:induction false} ChangesOn(spec: Spec, f: string, sign: char, rest: string, args: seq<string>)
    requires |spec.letters| == |spec.symbols| && Sign(sign) && Adding(f) == (sign == '+')
    ensures Changes(spec, f + rest, args)
      == Changes(spec, f, args) + Changes(spec, [sign] + rest, Unused(spec, f, args))
  {
    hide Change, Unused;
    var left := Unused(spec, f, args);
    if rest == "" {
      assert f + rest == f && [sign] + rest == [sign];
      SignAlone(spec, sign, left);
    } else {
      var n := |rest| - 1;
      AddingOn(f, sign, rest[..n]);
      ArgsTakenOn(spec, f, sign, rest[..n]);
      ChangesOn(spec, f, sign, rest[..n], args);
      LastChange(spec, f, rest, args);
      LastChange(spec, [sign], rest, left);
      ChangeLater(spec, rest[n], Adding(f + rest[..n]), f, args, ArgsTaken(spec, [sign] + rest[..n]));
      hide *;
      Regrouped(Changes(spec, f, args), Changes(spec, [sign] + rest[..n], left),
        Change(spec, rest[n], Adding([sign] + rest[..n]), left, ArgsTaken(spec, [sign] + rest[..n])));
    }
  }

  lemma SignAlone(spec: Spec, sign: char, args: seq<string>)
    requires |spec.letters| == |spec.symbols| && Sign(sign)
    ensures Changes(spec, [sign], args) == [] && ArgsTaken(spec, [sign]) == 0 && Unused(spec, [sign], args) == args
  {
    assert [sign][..0] == "";
  }

  // --- Letter by letter ---

  /** Where letter c stands among the prefix letters: the first place it has. */
  predicate StandsAt(letters: string, c: char, i: nat) {
    i < |letters| && letters[i] == c && c !in letters[..i]
  }

  /** What is left once one argument is used up. */
  function ButFirst(args: seq<string>): seq<string> { if args == [] then [] else args[1..] }

  lemma LettersAre(letters: string, symbols: string, a: string, b: string, c: string, d: string)
    requires letters != "" && |letters| == |symbols| && ')' !in letters && ',' !in a && ',' !in b && ',' !in c
    ensures Announced(PrefixValue(letters, symbols), ChanmodesValue(a, b, c, d)) == Spec(letters, symbols, a, b, c)
  {
    PrefixIs(letters, symbols);
    ClassesAre(a, b, c, d);
    hide SplitPrefixSpec, Class, PrefixValue, ChanmodesValue;
  }

  lemma OneLetter(spec: Spec, sign: char, x: char, args: seq<string>)
    requires |spec.letters| == |spec.symbols| && Sign(sign) && !Sign(x)
    ensures Adding([sign, x]) == (sign == '+')
    ensures Changes(spec, [sign, x], args) == Change(spec, x, sign == '+', args, 0)
    ensures Unused(spec, [sign, x], args) == if TakesArg(spec, x, sign == '+') then ButFirst(args) else args
  {
    var f := [sign, x];
    assert f[..1] == [sign] && [sign][..0] == "";
    SignAlone(spec, sign, args);
    hide Change;
    assert ArgsTaken(spec, f) == if TakesArg(spec, x, sign == '+') then 1 else 0;
  }

  /** A prefix letter takes the next argument: unless there is none, or it is empty, it
      gives the nick named there, or takes from it, the symbol that stands where the letter
      does. */
  lemma PrefixLetter(spec: Spec, sign: char, x: char, i: nat, rest: string, args: seq<string>)
    requires |spec.letters| == |spec.symbols| && Sign(sign) && !Sign(x) && StandsAt(spec.letters, x, i)
    ensures Changes(spec, [sign, x] + rest, args) ==
      (if args != [] && args[0] != "" then [MemberMode(args[0], spec.symbols[i], sign == '+')] else [])
      + Changes(spec, [sign] + rest, ButFirst(args))
  {
    OneLetter(spec, sign, x, args);
    ChangesOn(spec, [sign, x], sign, rest, args);
    PlaceOf(spec.letters, x, i);
    hide Changes, ArgsTaken, Unused, Adding;
  }

  lemma PlaceOf(letters: string, x: char, i: nat)
    requires StandsAt(letters, x, i)
    ensures IndexByte(letters, x) == i && x in letters
  {
    IndexByteAt(letters[..i], x, letters[i + 1..]);
    assert letters == letters[..i] + [x] + letters[i + 1..];
  }

  /** A list letter, one that always takes an argument, and one that takes it when set and
      is set: the argument is used up, and no prefix changes. */
  lemma OtherLetterWithArg(spec: Spec, sign: char, x: char, rest: string, args: seq<string>)
    requires |spec.letters| == |spec.symbols| && Sign(sign) && !Sign(x) && x !in spec.letters
    requires x in spec.list || x in spec.always || (x in spec.whenSet && sign == '+')
    ensures Changes(spec, [sign, x] + rest, args) == Changes(spec, [sign] + rest, ButFirst(args))
  {
    OneLetter(spec, sign, x, args);
    ChangesOn(spec, [sign, x], sign, rest, args);
    hide Changes, ArgsTaken, Unused, Adding;
  }

  /** Any other letter uses up nothing. */
  lemma OtherLetter(spec: Spec, sign: char, x: char, rest: string, args: seq<string>)
    requires |spec.letters| == |spec.symbols| && Sign(sign) && !Sign(x) && x !in spec.letters
    requires !(x in spec.list || x in spec.always || (x in spec.whenSet && sign == '+'))
    ensures Changes(spec, [sign, x] + rest, args) == Changes(spec, [sign] + rest, args)
  {
    OneLetter(spec, sign, x, args);
    ChangesOn(spec, [sign, x], sign, rest, args);
    hide Changes, ArgsTaken, Unused, Adding;
  }

  /** A sign takes over from the one before; a line starts with '+'; nothing is changed by
      a sign alone. */
  lemma Signs(spec: Spec, sign: char, next: char, rest: string, args: seq<string>)
    requires |spec.letters| == |spec.symbols| && Sign(sign) && Sign(next)
    ensures Changes(spec, [sign, next] + rest, args) == Changes(spec, [next] + rest, args)
    ensures Changes(spec, rest, args) == Changes(spec, "+" + rest, args)
    ensures Changes(spec, [sign], args) == []
  {
    hide Changes, Unused, ArgsTaken, Adding;
    NoFlags(spec, args);
    ChangesOn(spec, "", '+', rest, args);
    assert "" + rest == rest && ['+'] + rest == "+" + rest;
    SignAlone(spec, sign, args);
    ChangesSplit(spec, [sign], [next] + rest, args);
    assert [sign] + ([next] + rest) == [sign, next] + rest;
    assert [] + Changes(spec, [next] + rest, args) == Changes(spec, [next] + rest, args);
    assert [] + Changes(spec, "+" + rest, args) == Changes(spec, "+" + rest, args);
  }

  lemma NoFlags(spec: Spec, args: seq<string>)
    requires |spec.letters| == |spec.symbols|
    ensures Changes(spec, "", args) == [] && Unused(spec, "", args) == args && Adding("")
  {}

  /** A MODE line, read off what the server announced: these are all its letters. */
  lemma ModeLineIsRead(letters: string, symbols: string, a: string, b: string, c: string, d: string,
                       sign: char, x: char, rest: string, args: seq<string>)
    requires letters != "" && |letters| == |symbols| && ')' !in letters && ',' !in a && ',' !in b && ',' !in c
    requires Sign(sign) && !Sign(x)
    ensures var spec := Announced(PrefixValue(letters, symbols), ChanmodesValue(a, b, c, d));
      && (forall i: nat :: StandsAt(letters, x, i) ==>
            Changes(spec, [sign, x] + rest, args) ==
              (if args != [] && args[0] != "" then [MemberMode(args[0], symbols[i], sign == '+')] else [])
              + Changes(spec, [sign] + rest, ButFirst(args)))
      && (x !in letters && (x in a || x in b || (x in c && sign == '+')) ==>
            Changes(spec, [sign, x] + rest, args) == Changes(spec, [sign] + rest, ButFirst(args)))
      && (x !in letters && !(x in a || x in b || (x in c && sign == '+')) ==>
            Changes(spec, [sign, x] + rest, args) == Changes(spec, [sign] + rest, args))
  {
    LettersAre(letters, symbols, a, b, c, d);
    var spec := Spec(letters, symbols, a, b, c);
    hide Changes, Announced, PrefixValue, ChanmodesValue;
    forall i: nat | StandsAt(letters, x, i)
      ensures Changes(spec, [sign, x] + rest, args) ==
        (if args != [] && args[0] != "" then [MemberMode(args[0], symbols[i], sign == '+')] else [])
        + Changes(spec, [sign] + rest, ButFirst(args))
    {
      PrefixLetter(spec, sign, x, i, rest, args);
    }
    if x !in letters {
      if x in a || x in b || (x in c && sign == '+') {
        OtherLetterWithArg(spec, sign, x, rest, args);
      } else {
        OtherLetter(spec, sign, x, rest, args);
      }
    }
  }

  // --- The channel's own settings ---

  lemma {:induction false} KeptConcat(spec: Spec, f: string, g: string)
    ensures Kept(spec, f + g) == Kept(spec, f) + Kept(spec, g)
  {
    if g == "" {
      assert f + g == f;
    } else {
      var n := |g| - 1;
      KeptConcat(spec, f, g[..n]);
      assert (f + g)[..|f| + n] == f + g[..n];
      hide Foreign;
      var last := if !Sign(g[n]) && Foreign(spec, g[n]) then "" else [g[n]];
      assert Kept(spec, f) + Kept(spec, g[..n]) + last == Kept(spec, f) + (Kept(spec, g[..n]) + last);
    }
  }

  /** What is the channel's own: every sign and every letter that is neither a prefix's nor
      a list's, in order, behind a '+' unless the line brings a sign. */
  lemma SettingsAreTheRest(letters: string, symbols: string, a: string, b: string, c: string, d: string,
                           x: char, rest: string)
    requires letters != "" && |letters| == |symbols| && ')' !in letters && ',' !in a && ',' !in b && ',' !in c
    ensures var spec := Announced(PrefixValue(letters, symbols), ChanmodesValue(a, b, c, d));
      && Kept(spec, "") == ""
      && Kept(spec, [x] + rest) ==
           (if x == '+' || x == '-' || (x !in letters && x !in a) then [x] else "") + Kept(spec, rest)
      && SettingFlags(spec, [x] + rest) == (if x == '+' || x == '-' then "" else "+") + Kept(spec, [x] + rest)
      && SettingFlags(spec, "") == "+"
  {
    LettersAre(letters, symbols, a, b, c, d);
    var spec := Spec(letters, symbols, a, b, c);
    hide Announced, PrefixValue, ChanmodesValue, Kept;
    KeptConcat(spec, [x], rest);
    OneKept(spec, x);
    assert ([x] + rest)[0] == x;
  }

  lemma OneKept(spec: Spec, x: char)
    ensures Kept(spec, [x]) == if x == '+' || x == '-' || (x !in spec.letters && x !in spec.list) then [x] else ""
    ensures Kept(spec, "") == ""
  {
    assert [x][..0] == "" && [x][0] == x;
  }

  // --- What is stored ---

  /** Only the flags of a change count, not what comes behind a space. */
  lemma FlagsOfChange(flags: string, args: string)
    requires flags != "" && Plain(flags)
    ensures ChangeFlags(flags) == flags && ChangeFlags(flags + [' '] + args) == flags
  {
    PlainFlags(flags);
    var s := flags + [' '] + args;
    var t := TrimRight(s, BLANKS);
    assert s[|flags| - 1] == flags[|flags| - 1];
    assert |t| >= |flags| && t == s[..|t|];
    assert t[0] == flags[0] && flags[0] in flags;
    assert TrimLeftBlanks(t) == t;
    if |t| == |flags| {
      assert t == flags;
      assert ' ' !in t;
    } else {
      assert t == flags + [' '] + t[|flags| + 1..];
      CutAt(flags, ' ', t[|flags| + 1..]);
    }
  }

  /** A mode set outright, as a 324 reply has it, is stored as it is; a change leaves in
      force what it adds last and what it does not name. */
  lemma UpdateIs(current: string, flags: string, args: string, x: char)
    requires Canonical(current) && flags != "" && Plain(flags) && !Sign(x)
    ensures Updated(current, flags + [' '] + args) == Updated(current, flags)
    ensures flags[0] != '+' && flags[0] != '-' ==> Updated(current, flags) == flags
    ensures Signed(flags) ==> Canonical(Updated(current, flags))
    ensures Signed(flags) && x !in flags ==> (x in LettersOf(Updated(current, flags)) <==> x in LettersOf(current))
    ensures Signed(flags) ==> forall i :: 0 <= i < |flags| && flags[i] == x && x !in flags[i + 1..] ==>
      (x in LettersOf(Updated(current, flags)) <==> Adding(flags[..i]))
  {
    FlagsOfChange(flags, args);
    if Signed(flags) {
      UpdateIsCanonical(current, flags);
      LastFlagDecides(LettersOf(current), flags, x);
    }
  }

  lemma NothingIsStored(current: string)
    ensures Updated(current, "") == ""
  {}

  lemma {:induction false} KeptApplies(spec: Spec, letters: set<char>, flags: string, x: char)
    requires !Sign(x) && !Foreign(spec, x)
    ensures Adding(Kept(spec, flags)) == Adding(flags)
    ensures x in Applied(letters, Kept(spec, flags)) <==> x in Applied(letters, flags)
  {
    if flags != "" {
      var init, c := flags[..|flags| - 1], flags[|flags| - 1];
      KeptApplies(spec, letters, init, x);
      LastApplied(letters, Kept(spec, init), c);
      LastApplied(letters, init, c);
      assert flags == init + [c] && Kept(spec, init) + "" == Kept(spec, init);
    }
  }

  lemma LastApplied(letters: set<char>, f: string, c: char)
    ensures Adding(f + [c]) == if c == '+' then true else if c == '-' then false else Adding(f)
    ensures Applied(letters, f + [c]) ==
      if Sign(c) then Applied(letters, f)
      else if Adding(f) then Applied(letters, f) + {c} else Applied(letters, f) - {c}
  {
    assert (f + [c])[..|f|] == f;
  }

  lemma {:induction false} PlusApplies(letters: set<char>, f: string)
    ensures Adding("+" + f) == Adding(f) && Applied(letters, "+" + f) == Applied(letters, f)
  {
    if f == "" {
      assert "+" + f == "+" && "+"[..0] == "";
    } else {
      var n := |f| - 1;
      PlusApplies(letters, f[..n]);
      assert ("+" + f)[..1 + n] == "+" + f[..n];
    }
  }

  /** A letter of the channel's own is in the stored mode after a MODE line just when the
      last flag that names it adds it, or none does and it was. */
  lemma OwnLettersAreStored(spec: Spec, current: string, flags: string, x: char)
    requires Canonical(current) && Plain(flags) && !Sign(x) && !Foreign(spec, x)
    ensures var mode := Updated(current, SettingFlags(spec, flags));
      && (x !in flags ==> (x in LettersOf(mode) <==> x in LettersOf(current)))
      && (forall i :: 0 <= i < |flags| && flags[i] == x && x !in flags[i + 1..] ==>
            (x in LettersOf(mode) <==> Adding(flags[..i])))
  {
    var s, letters := SettingFlags(spec, flags), LettersOf(current);
    KeptIsPlain(spec, flags);
    KeptHasNoForeign(spec, flags);
    PlainFlags(s);
    UpdateIsCanonical(current, s);
    KeptApplies(spec, letters, flags, x);
    PlusApplies(letters, Kept(spec, flags));
    assert "" + Kept(spec, flags) == Kept(spec, flags);
    hide Applied, Kept, LettersOf, Updated, ChangeFlags, Adding, Foreign, Canonical, NoForeign;
    assert x in LettersOf(Updated(current, s)) <==> x in Applied(letters, flags);
    LastFlagDecides(letters, flags, x);
  }

  lemma {:induction false} KeptIsPlain(spec: Spec, flags: string)
    requires Plain(flags)
    ensures Plain(Kept(spec, flags)) && Plain("+" + Kept(spec, flags)) && Plain("" + Kept(spec, flags))
  {
    if flags != "" {
      KeptIsPlain(spec, flags[..|flags| - 1]);
    }
  }
}
