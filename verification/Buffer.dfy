/** internal/engine/buffer.go, the per-session half: the backlog of lines the app
    has not acknowledged. */
module Buffer {
  /** One inbound line: its sequence number, its arrival time, its bytes. */
  datatype BufferedLine = BufferedLine(id: nat, at: int, text: string)

  /** What a line charges against the byte budgets. */
  function LineCost(text: string): nat { |text| + 32 }

  function Cost(lines: seq<BufferedLine>): nat {
    if lines == [] then 0 else LineCost(lines[0].text) + Cost(lines[1..])
  }

  /** The lines numbered above n, by looking at every one of them. */
  function Above(lines: seq<BufferedLine>, n: nat): seq<BufferedLine> {
    if lines == [] then []
    else (if lines[0].id > n then [lines[0]] else []) + Above(lines[1..], n)
  }

  predicate Sorted(lines: seq<BufferedLine>) {
    forall i, j :: 0 <= i < j < |lines| ==> lines[i].id < lines[j].id
  }

  /** i splits the lines at n. */
  predicate SplitsAt(lines: seq<BufferedLine>, n: nat, i: nat) {
    && i <= |lines|
    && (forall k :: 0 <= k < i ==> lines[k].id <= n)
    && (forall k :: i <= k < |lines| ==> lines[k].id > n)
  }

  lemma {:induction false} CostConcat(a: seq<BufferedLine>, b: seq<BufferedLine>)
    ensures Cost(a + b) == Cost(a) + Cost(b)
  {
    if a == [] {
      assert a + b == b;
    } else {
      CostConcat(a[1..], b);
      assert (a + b)[1..] == a[1..] + b;
    }
  }

  lemma CostSplit(lines: seq<BufferedLine>, i: nat)
    requires i <= |lines|
    ensures Cost(lines) == Cost(lines[..i]) + Cost(lines[i..])
  {
    CostConcat(lines[..i], lines[i..]);
    assert lines == lines[..i] + lines[i..];
  }

  /** A split point is what a plain filter would keep, and there is only one. */
  lemma {:induction false} AboveIsSuffix(lines: seq<BufferedLine>, n: nat, i: nat)
    requires SplitsAt(lines, n, i)
    ensures Above(lines, n) == lines[i..]
  {
    if lines != [] {
      if i == 0 {
        AboveIsSuffix(lines[1..], n, 0);
        assert lines == [lines[0]] + lines[1..];
      } else {
        AboveIsSuffix(lines[1..], n, i - 1);
        assert lines[1..][i - 1..] == lines[i..];
      }
    }
  }

  /** In sorted lines there is a split point, so the filter keeps a suffix. */
  lemma {:induction false} SortedSplits(lines: seq<BufferedLine>, n: nat) returns (i: nat)
    requires Sorted(lines)
    ensures SplitsAt(lines, n, i) && Above(lines, n) == lines[i..]
  {
    i := 0;
    while i < |lines| && lines[i].id <= n
      invariant i <= |lines|
      invariant forall k :: 0 <= k < i ==> lines[k].id <= n
    {
      i := i + 1;
    }
    AboveIsSuffix(lines, n, i);
  }

  lemma CostNext(lines: seq<BufferedLine>, i: nat)
    requires i < |lines|
    ensures Cost(lines[..i + 1]) == Cost(lines[..i]) + LineCost(lines[i].text)
  {
    assert lines[..i + 1] == lines[..i] + [lines[i]];
    CostConcat(lines[..i], [lines[i]]);
    assert [lines[i]][1..] == [];
  }

  lemma CostOne(lines: seq<BufferedLine>, l: BufferedLine)
    ensures Cost(lines + [l]) == Cost(lines) + LineCost(l.text)
  {
    CostConcat(lines, [l]);
    assert [l][1..] == [];
  }

  lemma SortedSuffix(lines: seq<BufferedLine>, k: nat)
    requires Sorted(lines) && k <= |lines|
    ensures Sorted(lines[k..])
  {}

  lemma SortedPush(lines: seq<BufferedLine>, l: BufferedLine)
    requires Sorted(lines) && (lines == [] || lines[|lines| - 1].id < l.id)
    ensures Sorted(lines + [l])
  {}

  /** ackThrough's loop: the first k of the lines that stand in a from lo on are zeroed
      and their cost summed. */
  method Erase(a: array<BufferedLine>, lo: nat, k: nat, ghost lines: seq<BufferedLine>) returns (freed: nat)
    requires lo + |lines| <= a.Length && a[lo..lo + |lines|] == lines && k <= |lines|
    modifies a
    ensures a[lo + k..lo + |lines|] == lines[k..]
    ensures freed == Cost(lines[..k])
  {
    assert forall j :: 0 <= j < |lines| ==> a[lo + j] == lines[j];
    freed := 0;
    assert lines[..0] == [];
    for i := 0 to k
      invariant forall j :: i <= j < |lines| ==> a[lo + j] == lines[j]
      invariant freed == Cost(lines[..i])
    {
      hide Cost, LineCost;
      CostNext(lines, i);
      freed := freed + LineCost(a[lo + i].text);
      a[lo + i] := BufferedLine(0, 0, "");
    }
    forall i | 0 <= i < |lines| - k
      ensures a[lo + k..lo + |lines|][i] == lines[k..][i]
    {
      assert a[lo + (k + i)] == lines[k + i];
    }
  }

  lemma SliceOfSlice(all: seq<BufferedLine>, lo: nat, count: nat, i: nat, j: nat)
    requires i <= j <= count && lo + count <= |all|
    ensures all[lo + i..lo + j] == all[lo..lo + count][i..j] == all[lo..lo + count][i..][..j - i]
  {
    var part := all[lo..lo + count];
    forall k | 0 <= k < j - i
      ensures all[lo + i..lo + j][k] == part[i..j][k] == part[i..][..j - i][k]
    {}
  }

  /** lineBuffer over its Go slice: `count` entries of a backing array from `lo`.
      What the slice holds is Contents(); where it sits shows nowhere else. */
  class LineBuffer {
    var backing: array<BufferedLine>
    var lo: nat
    var count: nat
    var bytes: int

    ghost predicate Valid()
      reads this, backing
    {
      && lo + count <= backing.Length
      && Sorted(Contents())
      && bytes == Cost(Contents())
    }

    ghost function Contents(): seq<BufferedLine>
      reads this, backing
      requires lo + count <= backing.Length
    {
      backing[lo..lo + count]
    }

    constructor ()
      ensures Valid() && fresh(backing) && Contents() == []
    {
      backing, lo, count, bytes := new BufferedLine[0], 0, 0, 0;
    }

    /** push: Go's append, with a larger array once the capacity is used up. */
    method Push(l: BufferedLine)
      requires Valid()
      requires Contents() == [] || Contents()[count - 1].id < l.id
      modifies this, backing
      ensures Valid() && (backing == old(backing) || fresh(backing))
      ensures Contents() == old(Contents()) + [l]
    {
      if lo + count == backing.Length {
        Reallocate(2 * count + 1);
      }
      Place(l);
    }

    /** The next free entry of the backing array. */
    method Place(l: BufferedLine)
      requires Valid() && lo + count < backing.Length
      requires Contents() == [] || Contents()[count - 1].id < l.id
      modifies this`count, this`bytes, backing
      ensures Valid() && Contents() == old(Contents()) + [l]
    {
      ghost var was := Contents();
      CostOne(was, l);
      SortedPush(was, l);
      hide Cost, Sorted, LineCost;
      backing[lo + count] := l;
      assert backing[lo..lo + count] == was;
      count := count + 1;
      bytes := bytes + LineCost(l.text);
      assert Contents() == was + [l];
    }

    /** A fresh backing array of the given capacity, holding the same lines. */
    method Reallocate(capacity: nat)
      requires Valid() && count <= capacity
      modifies this
      ensures Valid() && fresh(backing)
      ensures Contents() == old(Contents()) && lo == 0 && count == old(count) && bytes == old(bytes)
      ensures backing.Length == capacity
    {
      var bigger := new BufferedLine[capacity];
      for i := 0 to count
        invariant lo == old(lo) && count == old(count) && backing == old(backing) && bytes == old(bytes)
        invariant backing[..] == old(backing[..])
        invariant bigger[..i] == backing[lo..lo + i]
      {
        bigger[i] := backing[lo + i];
      }
      backing, lo := bigger, 0;
      assert Contents() == old(Contents());
    }

    /** dropOldest. */
    method DropOldest() returns (l: BufferedLine, ok: bool)
      requires Valid()
      modifies this, backing
      ensures Valid() && (backing == old(backing) || fresh(backing))
      ensures ok <==> old(Contents()) != []
      ensures ok ==> l == old(Contents())[0] && Contents() == old(Contents())[1..]
      ensures !ok ==> Contents() == []
    {
      if count == 0 {
        return BufferedLine(0, 0, ""), false;
      }
      l := backing[lo];
      backing[lo] := BufferedLine(0, 0, "");
      lo, count := lo + 1, count - 1;
      bytes := bytes - LineCost(l.text);
      ok := true;
      assert Contents() == old(Contents())[1..];
      Compact();
    }

    /** sort.Search for the first line numbered above n. */
    method Search(n: nat) returns (i: nat)
      requires Valid()
      ensures SplitsAt(Contents(), n, i)
      ensures Above(Contents(), n) == Contents()[i..]
    {
      var j := count;
      i := 0;
      while i < j
        invariant 0 <= i <= j <= count
        invariant forall k :: 0 <= k < i ==> Contents()[k].id <= n
        invariant forall k :: j <= k < count ==> Contents()[k].id > n
      {
        var h := (i + j) / 2;
        assert Contents()[h] == backing[lo + h];
        if backing[lo + h].id > n {
          j := h;
        } else {
          i := h + 1;
        }
      }
      AboveIsSuffix(Contents(), n, i);
    }

    /** ackThrough: every line numbered at most n goes; the bytes freed. */
    method AckThrough(n: nat) returns (freed: nat)
      requires Valid()
      modifies this, backing
      ensures Valid() && (backing == old(backing) || fresh(backing))
      ensures Contents() == Above(old(Contents()), n)
      ensures freed == Cost(old(Contents())) - Cost(Contents())
    {
      hide Above, Cost, Sorted;
      ghost var was := Contents();
      var k := Search(n);
      CostSplit(was, k);
      SortedSuffix(was, k);
      freed := Erase(backing, lo, k, was);
      lo, count := lo + k, count - k;
      bytes := bytes - freed;
      assert Contents() == was[k..];
      Compact();
    }

    /** after: up to limit lines numbered above n, in order. */
    method After(n: nat, limit: nat) returns (lines: seq<BufferedLine>)
      requires Valid()
      ensures var all := Above(Contents(), n);
              lines == all[..if |all| < limit then |all| else limit]
    {
      hide Above, Cost, Sorted;
      var i := Search(n);
      var j := if count < i + limit then count else i + limit;
      lines := backing[lo + i..lo + j];
      SliceOfSlice(backing[..], lo, count, i, j);
    }

    /** countAfter. */
    method CountAfter(n: nat) returns (k: nat)
      requires Valid()
      ensures k == |Above(Contents(), n)|
    {
      var i := Search(n);
      k := count - i;
    }

    /** clear: the buffer is empty; the bytes freed. */
    method Clear() returns (freed: int)
      requires Valid()
      modifies this
      ensures Valid() && fresh(backing) && Contents() == []
      ensures freed == Cost(old(Contents()))
    {
      freed := bytes;
      backing, lo, count, bytes := new BufferedLine[0], 0, 0, 0;
    }

    /** compact: nothing observable changes. */
    method Compact()
      requires Valid()
      modifies this
      ensures Valid() && (backing == old(backing) || fresh(backing))
      ensures Contents() == old(Contents()) && bytes == old(bytes)
    {
      if backing.Length - lo > 1024 && count < (backing.Length - lo) / 4 {
        Reallocate(count * 2);
      }
    }
  }
}
