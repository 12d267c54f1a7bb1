/** What every revision of the coil controller computes before it talks to
    the device: the coil vector after a write and the request that carries
    it. */
module CoilMap {
  import opened Modbus

  /** Every listed coil address is a valid index of a cache of `n` coils
      (a Python list index out of range would raise IndexError). */
  predicate InRange(coils: seq<int>, n: int) {
    forall k :: 0 <= k < |coils| ==> 0 <= coils[k] < n
  }

  /** The cache after setting each listed coil to `state`, in list order:
      the loop `for i in coils: states[i] = state`. Every listed index holds
      `state`, every other index keeps its old value, so the order and any
      repetition of the list do not matter. */
  function Candidate(cache: seq<int>, coils: seq<int>, state: int): (r: seq<int>)
    requires InRange(coils, |cache|)
    ensures |r| == |cache|
    ensures forall j :: 0 <= j < |cache| ==> r[j] == (if j in coils then state else cache[j])
    decreases |coils|
  {
    if coils == [] then cache
    else
      var last := coils[|coils| - 1];
      var front := coils[..|coils| - 1];
      assert forall j :: j in coils <==> j in front || j == last;
      Candidate(cache, front, state)[last := state]
  }

  /** Two coil lists with the same members produce the same candidate: a
      list with duplicates, or the same list sorted, writes the same vector. */
  lemma CandidateSameMembers(cache: seq<int>, a: seq<int>, b: seq<int>, state: int)
    requires InRange(a, |cache|) && InRange(b, |cache|)
    requires forall j :: j in a <==> j in b
    ensures Candidate(cache, a, state) == Candidate(cache, b, state)
  {
  }

  /** Writing a cache of coil values with an OFF/ON state keeps it a coil
      vector. */
  lemma CandidateIsBits(cache: seq<int>, coils: seq<int>, state: int)
    requires InRange(coils, |cache|) && IsBits(cache) && IsBit(state)
    ensures IsBits(Candidate(cache, coils, state))
  {
  }

  /** The request every revision issues for a write of `coils` whose merged
      vector is `candidate`: a single-coil write of the only listed coil
      when the list has length exactly one, and otherwise a block write of
      the whole vector from address 0. */
  function IssuedRequest(coils: seq<int>, candidate: seq<int>): (r: Request)
    requires |coils| == 1 ==> 0 <= coils[0] < |candidate|
    ensures FunctionCode(r) == (if |coils| == 1 then 0x05 else 0x0F)
  {
    if |coils| == 1 then WriteBit(coils[0], candidate[coils[0]])
    else WriteBits(0, candidate)
  }

  /** The function-code selection rule, stated against the old cache: one
      address sends that address with the requested state; any other list
      length, the empty list and lists of one repeated address included,
      sends the old cache with exactly the listed coils overridden. */
  lemma SelectionRule(cache: seq<int>, coils: seq<int>, state: int)
    requires InRange(coils, |cache|)
    ensures |coils| == 1 ==>
      IssuedRequest(coils, Candidate(cache, coils, state)) == WriteBit(coils[0], state)
    ensures |coils| != 1 ==>
      var r := IssuedRequest(coils, Candidate(cache, coils, state));
      && r.WriteBits? && r.start == 0 && |r.values| == |cache|
      && forall j :: 0 <= j < |cache| ==> r.values[j] == (if j in coils then state else cache[j])
  {
  }

  // Python's built-in `sorted` on a list of coil addresses.

  predicate Ordered(s: seq<int>) {
    forall i, j :: 0 <= i < j < |s| ==> s[i] <= s[j]
  }

  function Insert(x: int, s: seq<int>): (r: seq<int>)
    requires Ordered(s)
    ensures Ordered(r)
    ensures multiset(r) == multiset(s) + multiset{x}
  {
    if s == [] || x <= s[0] then [x] + s
    else
      assert s == [s[0]] + s[1..];
      var tail := Insert(x, s[1..]);
      OrderedCons(s[0], tail, multiset(s[1..]) + multiset{x});
      [s[0]] + tail
  }

  lemma OrderedCons(h: int, tail: seq<int>, m: multiset<int>)
    requires Ordered(tail) && multiset(tail) == m
    requires forall y :: y in m ==> h <= y
    ensures Ordered([h] + tail)
  {
    forall k | 0 <= k < |tail| ensures h <= tail[k] {
      assert tail[k] in multiset(tail);
    }
  }

  /** `sorted(coils)`: an ordered permutation of its argument. */
  function Sort(s: seq<int>): (r: seq<int>)
    ensures Ordered(r)
    ensures multiset(r) == multiset(s)
  {
    if s == [] then []
    else
      assert s == [s[0]] + s[1..];
      Insert(s[0], Sort(s[1..]))
  }

  /** Sorting keeps the members, the length and the range of a coil list. */
  lemma SortSameMembers(s: seq<int>, n: int)
    ensures |Sort(s)| == |s|
    ensures forall j :: j in Sort(s) <==> j in s
    ensures InRange(s, n) ==> InRange(Sort(s), n)
  {
    var r := Sort(s);
    assert |r| == |multiset(r)| == |multiset(s)| == |s|;
    assert forall j :: j in r <==> j in multiset(r);
    if InRange(s, n) {
      forall k | 0 <= k < |r| ensures 0 <= r[k] < n {
        assert r[k] in r;
      }
    }
  }
}
