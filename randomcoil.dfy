/** The test-list generator `gen_coillist` (gateway/randomcoil.py, and the
    identical copy in randomcoil.py): a list of distinct coil addresses of
    random length between 1 and `max_coils`. Each `random.randint` is a
    nondeterministic choice; the retry loop that draws until it finds an
    address not yet in the list is one choice of an unused address. */
module RandomCoil {
  import opened CoilMap

  predicate Distinct(s: seq<int>) {
    forall i, j :: 0 <= i < j < |s| ==> s[i] != s[j]
  }

  function Members(s: seq<int>): set<int> {
    set x | x in s
  }

  /** The valid coil addresses 0 .. n-1. */
  function Addresses(n: nat): (r: set<int>)
    ensures forall v :: v in r <==> 0 <= v < n
  {
    if n == 0 then {} else Addresses(n - 1) + {n - 1}
  }

  lemma {:induction false} AddressesSize(n: nat)
    ensures |Addresses(n)| == n
  {
    if n > 0 {
      var front := Addresses(n - 1);
      AddressesSize(n - 1);
      assert n - 1 !in front;
      assert |front + {n - 1}| == |front| + 1;
    }
  }

  lemma {:induction false} DistinctMembersSize(s: seq<int>)
    requires Distinct(s)
    ensures |Members(s)| == |s|
  {
    if s != [] {
      var front := s[..|s| - 1];
      DistinctMembersSize(front);
      assert Members(s) == Members(front) + {s[|s| - 1]};
      assert s[|s| - 1] !in Members(front);
    }
  }

  /** While the list is shorter than `n`, some address in range is unused,
      so the retry loop has something to find. */
  lemma UnusedCoilExists(list: seq<int>, n: nat)
    requires InRange(list, n) && Distinct(list) && |list| < n
    ensures exists v :: 0 <= v < n && v !in list
  {
    DistinctMembersSize(list);
    AddressesSize(n);
    assert Members(list) <= Addresses(n);
    var spare := Addresses(n) - Members(list);
    assert |spare| == |Addresses(n)| - |Members(list)| > 0;
    var v :| v in spare;
    assert 0 <= v < n && v !in list;
  }

  /** `gen_coillist(max_coils)`: between 1 and `max_coils` addresses, all
      in range for a controller with `max_coils` coils, none repeated. */
  method GenCoilList(maxCoils: int) returns (list: seq<int>)
    requires maxCoils >= 1
    ensures 1 <= |list| <= maxCoils
    ensures InRange(list, maxCoils)
    ensures Distinct(list)
  {
    var count :| 1 <= count <= maxCoils;
    list := [];
    for k := 0 to count
      invariant |list| == k
      invariant InRange(list, maxCoils)
      invariant Distinct(list)
    {
      UnusedCoilExists(list, maxCoils);
      var coil :| 0 <= coil < maxCoils && coil !in list;
      list := list + [coil];
    }
  }
}
