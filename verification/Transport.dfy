/** The filter in front of a node's Raft transport: requests for its vote are answered by
    reputation before Raft sees them. */
module Transport {
  import opened Core
  import opened Replica
  import opened Voting

  datatype Rpc = RequestVote(term: nat, address: string) | OtherRpc(content: string)

  /** Reputation as the filter reads it: agents, or addresses, without a record count as 0. */
  function Standing(reps: map<string, int>, id: string): int {
    if id in reps then reps[id] else 0
  }

  /** The filter compares the voter's own record with the one filed under the candidate's address. */
  predicate Blocked(reps: map<string, int>, me: string, rpc: Rpc) {
    rpc.RequestVote? && Standing(reps, me) > Standing(reps, rpc.address)
  }

  /** The requests at the positions where `Blocked` is `side`, in order. Each is judged by the
      records at its own time. */
  function Sorted(rpcs: seq<Rpc>, views: seq<map<string, int>>, me: string, side: bool): seq<Rpc>
    requires |rpcs| == |views|
  {
    if rpcs == [] then []
    else
      var n := |rpcs| - 1;
      Sorted(rpcs[..n], views[..n], me, side) + if Blocked(views[n], me, rpcs[n]) == side then [rpcs[n]] else []
  }

  /** The loop of the transport: every request is either denied, in the term it asks for, or passed
      on, in the order of arrival. */
  method Run(rpcs: seq<Rpc>, views: seq<map<string, int>>, me: string) returns (denied: seq<Rpc>, passed: seq<Rpc>)
    requires |rpcs| == |views|
    ensures passed == Sorted(rpcs, views, me, false) && denied == Sorted(rpcs, views, me, true)
  {
    denied, passed := [], [];
    for i := 0 to |rpcs|
      invariant passed == Sorted(rpcs[..i], views[..i], me, false)
      invariant denied == Sorted(rpcs[..i], views[..i], me, true)
    {
      assert rpcs[..i + 1][..i] == rpcs[..i] && views[..i + 1][..i] == views[..i];
      if rpcs[i].RequestVote? {
        var candidate := if rpcs[i].address in views[i] then views[i][rpcs[i].address] else 0;
        var own := if me in views[i] then views[i][me] else 0;
        if own > candidate {
          denied := denied + [rpcs[i]];
          continue;
        }
      }
      passed := passed + [rpcs[i]];
    }
    assert rpcs[..|rpcs|] == rpcs && views[..|rpcs|] == views;
  }

  /** Nothing is lost and nothing is answered twice. */
  lemma {:induction false} EveryRequestIsHandledOnce(rpcs: seq<Rpc>, views: seq<map<string, int>>, me: string)
    requires |rpcs| == |views|
    ensures multiset(Sorted(rpcs, views, me, true)) + multiset(Sorted(rpcs, views, me, false)) == multiset(rpcs)
  {
    if rpcs != [] {
      var n := |rpcs| - 1;
      assert rpcs == rpcs[..n] + [rpcs[n]];
      EveryRequestIsHandledOnce(rpcs[..n], views[..n], me);
    }
  }

  ghost predicate Arrived(rpcs: seq<Rpc>, views: seq<map<string, int>>, me: string, r: Rpc, side: bool)
    requires |rpcs| == |views|
  {
    exists i :: 0 <= i < |rpcs| && rpcs[i] == r && Blocked(views[i], me, r) == side
  }

  /** A request is denied only if it was blocked when it arrived, and passed on only if it was not. */
  lemma {:induction false} SortedByTheFilter(rpcs: seq<Rpc>, views: seq<map<string, int>>, me: string, side: bool,
                                             r: Rpc)
    requires |rpcs| == |views|
    ensures r in Sorted(rpcs, views, me, side) <==> Arrived(rpcs, views, me, r, side)
  {
    if rpcs != [] {
      var n := |rpcs| - 1;
      var front, seen := rpcs[..n], views[..n];
      SortedByTheFilter(front, seen, me, side, r);
      if Arrived(front, seen, me, r, side) {
        var i :| 0 <= i < n && front[i] == r && Blocked(seen[i], me, r) == side;
        assert rpcs[i] == r && Blocked(views[i], me, r) == side;
      }
      if Arrived(rpcs, views, me, r, side) {
        var i :| 0 <= i < |rpcs| && rpcs[i] == r && Blocked(views[i], me, r) == side;
        if i < n {
          assert front[i] == r && Blocked(seen[i], me, r) == side;
        }
      }
    }
  }

  /** `at` are the positions, rising, of exactly the requests on this side of the filter. */
  ghost predicate InArrivalOrder(rpcs: seq<Rpc>, views: seq<map<string, int>>, me: string, side: bool, out: seq<Rpc>,
                                 at: seq<nat>)
    requires |rpcs| == |views|
  {
    && |at| == |out|
    && (forall i, j :: 0 <= i < j < |at| ==> at[i] < at[j])
    && (forall i :: 0 <= i < |at| ==> at[i] < |rpcs| && out[i] == rpcs[at[i]])
    && (forall n: nat :: n < |rpcs| ==> (n in at <==> Blocked(views[n], me, rpcs[n]) == side))
  }

  /** Both kinds of requests keep the order of arrival, and each request is on the side that the filter
      put it when it arrived. */
  lemma {:induction false} OrderIsKept(rpcs: seq<Rpc>, views: seq<map<string, int>>, me: string, side: bool)
    returns (at: seq<nat>)
    requires |rpcs| == |views|
    ensures InArrivalOrder(rpcs, views, me, side, Sorted(rpcs, views, me, side), at)
  {
    if rpcs == [] {
      at := [];
    } else {
      var n := |rpcs| - 1;
      var front, seen := rpcs[..n], views[..n];
      at := OrderIsKept(front, seen, me, side);
      forall m: nat | m < n ensures m in at <==> Blocked(views[m], me, rpcs[m]) == side {
        assert front[m] == rpcs[m] && seen[m] == views[m];
      }
      if Blocked(views[n], me, rpcs[n]) == side {
        at := at + [n];
      }
    }
  }

  // ---- Elections --------------------------------------------------------------------------

  /** With one shared view, the voters that the filter lets vote for the candidate at `address`. */
  function Willing(reps: map<string, int>, voters: set<string>, address: string): set<string> {
    set v | v in voters && Standing(reps, v) <= Standing(reps, address)
  }

  function AtLeast(reps: map<string, int>, voters: set<string>, level: int): set<string> {
    set v | v in voters && Standing(reps, v) >= level
  }

  predicate Majority(some: set<string>, voters: set<string>) {
    some <= voters && 2 * |some| > |voters|
  }

  lemma MajoritiesMeet(a: set<string>, b: set<string>, voters: set<string>)
    requires Majority(a, voters) && Majority(b, voters)
    ensures exists v :: v in a && v in b
  {
    SubsetSize(a + b, voters);
    assert |a + b| + |a * b| == |a| + |b|;
    assert a * b != {};
    var v :| v in a * b;
  }

  /** `granted` may elect the candidate: each but the candidate itself was let through by its filter.
      A candidate grants itself its vote without a request, so no filter sees that one. */
  ghost predicate MayElect(reps: map<string, int>, voters: set<string>, granted: set<string>, candidate: string,
                           address: string)
  {
    Majority(granted, voters) &&
    forall v, term :: v in granted && v != candidate ==> !Blocked(reps, v, RequestVote(term, address))
  }

  /** Wherever a majority stands at some level or above, an elected candidate does so too, by the record
      under its address, or else by its own record, and then it is the only one of them to grant. */
  lemma ElectedIsAsGoodAsTheMajority(reps: map<string, int>, voters: set<string>, granted: set<string>,
                                     candidate: string, address: string, level: int)
    requires MayElect(reps, voters, granted, candidate, address)
    requires Majority(AtLeast(reps, voters, level), voters)
    ensures Standing(reps, address) >= level || granted * AtLeast(reps, voters, level) == {candidate}
    ensures Standing(reps, address) >= level || Standing(reps, candidate) >= level
  {
    var good := AtLeast(reps, voters, level);
    MajoritiesMeet(granted, good, voters);
    forall v | v in granted && v in good && v != candidate ensures Standing(reps, address) >= level {
      assert !Blocked(reps, v, RequestVote(0, address));
    }
  }

  /** A candidate can be elected exactly when it and those that stand no higher than what is filed
      under its address are a majority. */
  lemma ElectableIff(reps: map<string, int>, voters: set<string>, candidate: string, address: string)
    requires candidate in voters
    ensures (exists granted :: MayElect(reps, voters, granted, candidate, address))
            <==> Majority(Willing(reps, voters, address) + {candidate}, voters)
  {
    var willing := Willing(reps, voters, address) + {candidate};
    if Majority(willing, voters) {
      assert MayElect(reps, voters, willing, candidate, address);
    }
    forall granted | MayElect(reps, voters, granted, candidate, address) ensures Majority(willing, voters) {
      forall v | v in granted ensures v in willing {
        assert v != candidate ==> !Blocked(reps, v, RequestVote(0, address));
      }
      SubsetSize(granted, willing);
    }
  }

  /** Records are filed under agent identifiers. A candidate whose address is none of them counts as
      0, so it can be elected exactly when, with itself, a majority has no positive record. */
  lemma ForeignAddressIff(reps: map<string, int>, voters: set<string>, candidate: string, address: string)
    requires candidate in voters && address !in reps
    ensures (exists granted :: MayElect(reps, voters, granted, candidate, address))
            <==> Majority((voters - AtLeast(reps, voters, 1)) + {candidate}, voters)
  {
    ElectableIff(reps, voters, candidate, address);
    assert Willing(reps, voters, address) == voters - AtLeast(reps, voters, 1);
  }

  /** An election in which the candidate's own vote decides: of three agents two stand at 90, and one
      of them is elected at an address that counts as 0. */
  lemma OwnVoteDecides()
    ensures var reps, voters := map["a" := 90, "c" := 90], {"a", "b", "c"};
            && MayElect(reps, voters, {"a", "b"}, "a", "x") && Majority(AtLeast(reps, voters, 90), voters)
            && Standing(reps, "x") == 0 && !Majority(Willing(reps, voters, "x"), voters)
  {
    var reps, voters := map["a" := 90, "c" := 90], {"a", "b", "c"};
    assert |voters| == 3 && |{"a", "b"}| == 2;
    assert AtLeast(reps, voters, 90) == {"a", "c"};
    assert Willing(reps, voters, "x") == {"b"};
  }

  // ---- What the documentation says --------------------------------------------------------

  /** Reputation as the engine reads it from the same records. */
  function Reputed(reps: map<string, int>, id: string): int {
    RepOf(EMPTY.(reps := reps), id)
  }

  /** Exactly when the filter judges this candidate as the documented comparison of reputations does. */
  predicate FilterAgrees(reps: map<string, int>, me: string, candidate: string, address: string) {
    if me !in reps then candidate !in reps || reps[candidate] == 100
    else if address !in reps then reps[me] == 0 || (candidate in reps && reps[candidate] < reps[me])
    else if candidate !in reps then reps[me] <= reps[address]
    else
      || address == candidate
      || reps[me] <= Min(reps[candidate], reps[address]) || Max(reps[candidate], reps[address]) < reps[me]
  }

  /** The documentation says that an agent rejects a candidate of lower reputation. The filter reads
      the record under the candidate's address, and a missing one as 0 where the engine reads 100. */
  lemma FilterMatchesDocumentationIff(reps: map<string, int>, me: string, candidate: string, address: string, term: nat)
    requires forall a :: a in reps ==> 0 <= reps[a] <= 100
    ensures (Blocked(reps, me, RequestVote(term, address)) <==> Reputed(reps, me) > Reputed(reps, candidate))
            <==> FilterAgrees(reps, me, candidate, address)
  {
    assert me in reps ==> 0 <= reps[me] <= 100;
    assert candidate in reps ==> 0 <= reps[candidate] <= 100;
    assert address in reps ==> 0 <= reps[address] <= 100;
  }

  /** Even where addresses are identifiers, the filter is as documented exactly when a voter with a
      positive record meets a candidate with a record, and a voter without one a candidate whose
      reputation is the default. */
  lemma FilterByIdentifierIff(reps: map<string, int>, me: string, candidate: string, term: nat)
    requires forall a :: a in reps ==> 0 <= reps[a] <= 100
    ensures (Blocked(reps, me, RequestVote(term, candidate)) <==> Reputed(reps, me) > Reputed(reps, candidate))
            <==> if me in reps then candidate in reps || reps[me] == 0 else candidate !in reps || reps[candidate] == 100
  {
    FilterMatchesDocumentationIff(reps, me, candidate, candidate, term);
  }

  /** An agent that has lost reputation rejects a newcomer that counts as 100; and one without a
      record grants an agent of any record. */
  lemma FilterMissesTheDefault(term: nat)
    ensures var reps := map["a" := 90];
            Blocked(reps, "a", RequestVote(term, "b")) && Reputed(reps, "a") < Reputed(reps, "b")
    ensures var reps := map["b" := 10];
            !Blocked(reps, "a", RequestVote(term, "b")) && Reputed(reps, "a") > Reputed(reps, "b")
  {
  }
}
