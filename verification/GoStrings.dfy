/** The parts of Go's `strings` package the modelled code is written with. A Go
    string is a `string` here; whether one element stands for a byte or for a
    rune is said by the module that uses it. */
module GoStrings {
  datatype Option<+T> = None | Some(value: T) {
    function GetOr(default: T): T { if Some? then value else default }
  }

  /** strings.IndexByte: the first position of c, or -1. */
  function IndexByte(s: string, c: char): (i: int)
    ensures -1 <= i < |s|
    ensures i >= 0 ==> s[i] == c
    ensures i < 0 <==> c !in s
  {
    if s == "" then -1
    else if s[0] == c then 0
    else
      var j := IndexByte(s[1..], c);
      if j < 0 then -1 else j + 1
  }

  lemma {:induction false} IndexByteFirst(s: string, c: char)
    requires c in s
    ensures c !in s[..IndexByte(s, c)]
  {
    if s[0] != c {
      IndexByteFirst(s[1..], c);
      var j := IndexByte(s[1..], c);
      assert s[..j + 1] == [s[0]] + s[1..][..j];
    }
  }

  /** strings.LastIndexByte: the last position of c, or -1. */
  function LastIndexByte(s: string, c: char): (i: int)
    ensures -1 <= i < |s|
    ensures i >= 0 ==> s[i] == c
  {
    if s == "" then -1
    else if s[|s| - 1] == c then |s| - 1
    else LastIndexByte(s[..|s| - 1], c)
  }

  /** strings.Cut around a one-byte separator: what is before and after it. */
  function Before(s: string, c: char): string {
    var i := IndexByte(s, c);
    if i < 0 then s else s[..i]
  }

  function After(s: string, c: char): string {
    var i := IndexByte(s, c);
    if i < 0 then "" else s[i + 1..]
  }

  /** strings.TrimLeft(s, " "). */
  function TrimLeftSpaces(s: string): (r: string)
    ensures |r| <= |s|
    ensures r != "" ==> r[0] != ' '
  {
    if s != "" && s[0] == ' ' then TrimLeftSpaces(s[1..]) else s
  }

  /** strings.TrimRight with a cutset. */
  function TrimRight(s: string, cutset: string): (r: string)
    ensures |r| <= |s| && r == s[..|r|]
    ensures forall i :: |r| <= i < |s| ==> s[i] in cutset
    ensures r != "" ==> r[|r| - 1] !in cutset
  {
    if s != "" && s[|s| - 1] in cutset then TrimRight(s[..|s| - 1], cutset) else s
  }

  const BLANKS := " \t\n\r\U{b}\U{c}"

  /** strings.TrimSpace on ASCII text. */
  function TrimBlanks(s: string): string {
    TrimLeftBlanks(TrimRight(s, BLANKS))
  }

  function TrimLeftBlanks(s: string): string {
    if s != "" && s[0] in BLANKS then TrimLeftBlanks(s[1..]) else s
  }

  predicate HasPrefix(s: string, p: string) { p <= s }

  /** strings.Split around a one-character separator. */
  function Split(s: string, c: char): (parts: seq<string>)
    ensures |parts| >= 1
    decreases |s|
  {
    var i := IndexByte(s, c);
    if i < 0 then [s] else [s[..i]] + Split(s[i + 1..], c)
  }

  /** strings.Join. */
  function Join(parts: seq<string>, sep: string): string {
    if |parts| == 0 then ""
    else if |parts| == 1 then parts[0]
    else parts[0] + sep + Join(parts[1..], sep)
  }

  function UpperChar(c: char): char {
    if 'a' <= c <= 'z' then ((c as int) - 32) as char else c
  }

  /** strings.ToUpper on ASCII text. */
  function ToUpper(s: string): (r: string)
    ensures |r| == |s|
  {
    seq(|s|, i requires 0 <= i < |s| => UpperChar(s[i]))
  }

  /** The first c of `pre + [c] + post` when pre has none. */
  lemma {:induction false} IndexByteAt(pre: string, c: char, post: string)
    requires c !in pre
    ensures IndexByte(pre + [c] + post, c) == |pre|
  {
    if pre != "" {
      IndexByteAt(pre[1..], c, post);
      assert (pre + [c] + post)[1..] == pre[1..] + [c] + post;
    }
  }

  lemma CutAt(pre: string, c: char, post: string)
    requires c !in pre
    ensures Before(pre + [c] + post, c) == pre && After(pre + [c] + post, c) == post
  {
    IndexByteAt(pre, c, post);
  }

  lemma {:induction false} LastIndexByteAt(pre: string, c: char, post: string)
    requires c !in post
    ensures LastIndexByte(pre + [c] + post, c) == |pre|
  {
    if post != "" {
      var init := post[..|post| - 1];
      LastIndexByteAt(pre, c, init);
      assert (pre + [c] + post)[..|pre| + |post|] == pre + [c] + init;
    }
  }

  lemma SplitAt(pre: string, c: char, post: string)
    requires c !in pre
    ensures Split(pre + [c] + post, c) == [pre] + Split(post, c)
  {
    var s := pre + [c] + post;
    IndexByteAt(pre, c, post);
    assert s[..|pre|] == pre;
    assert s[|pre| + 1..] == post;
  }

  /** Splitting what was joined gives the parts back. */
  lemma {:induction false} SplitJoin(parts: seq<string>, c: char)
    requires |parts| >= 1
    requires forall p :: p in parts ==> c !in p
    ensures Split(Join(parts, [c]), c) == parts
  {
    if |parts| == 1 {
      assert parts == [parts[0]];
    } else {
      SplitAt(parts[0], c, Join(parts[1..], [c]));
      SplitJoin(parts[1..], c);
      assert parts == [parts[0]] + parts[1..];
    }
  }

  lemma {:induction false} TrimLeftIsSuffix(s: string)
    ensures var r := TrimLeftSpaces(s);
            r == s[|s| - |r|..] && forall i :: 0 <= i < |s| - |r| ==> s[i] == ' '
  {
    if s != "" && s[0] == ' ' {
      TrimLeftIsSuffix(s[1..]);
      var r := TrimLeftSpaces(s);
      assert s[1..][|s| - 1 - |r|..] == s[|s| - |r|..];
      assert forall i :: 1 <= i < |s| - |r| ==> s[i] == s[1..][i - 1];
    }
  }

  lemma TrimLeftNoSpace(s: string)
    requires s == "" || s[0] != ' '
    ensures TrimLeftSpaces(s) == s
  {}

  lemma {:induction false} TrimRightUnique(s: string, k: nat, cutset: string)
    requires k <= |s|
    requires forall i :: k <= i < |s| ==> s[i] in cutset
    requires k == 0 || s[k - 1] !in cutset
    ensures TrimRight(s, cutset) == s[..k]
    decreases |s|
  {
    if |s| > k {
      TrimRightUnique(s[..|s| - 1], k, cutset);
      assert s[..|s| - 1][..k] == s[..k];
    } else {
      assert s[..k] == s;
    }
  }

  // --- Numbers ---

  predicate Digit(c: char) { '0' <= c <= '9' }

  /** strconv.Itoa and FormatUint, base 10. */
  function Itoa(n: nat): (s: string)
    ensures s != "" && forall c :: c in s ==> Digit(c)
  {
    (if n < 10 then "" else Itoa(n / 10)) + [('0' as int + n % 10) as char]
  }

  /** strconv.ParseUint, base 10, but for its range. */
  function ParseUint(s: string): Option<nat> {
    if s == "" then None
    else
      var c := s[|s| - 1];
      if !Digit(c) then None
      else if |s| == 1 then Some(c as int - '0' as int)
      else match ParseUint(s[..|s| - 1])
        case None => None
        case Some(n) => Some(10 * n + (c as int - '0' as int))
  }

  /** What was printed is read back, and nothing shorter was lost on the way. */
  lemma {:induction false} ItoaParses(n: nat)
    ensures ParseUint(Itoa(n)) == Some(n)
  {
    var s := Itoa(n);
    if n >= 10 {
      ItoaParses(n / 10);
      assert s[..|s| - 1] == Itoa(n / 10);
    }
  }
}
