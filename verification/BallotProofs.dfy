/** Every call keeps the vote book well formed and the stored tallies equal to those of the recorded
    votes; the consequences for results, proofs and removal. */
module BallotProofs {
  import opened Curve
  import opened Wrappers
  import opened DaoTypes
  import opened Ballot

  /******* The order of votes *******/

  lemma {:induction false} AllVotesSplit<P>(s: seq<Address>, t: seq<Address>, votes: map<Address, Vote<P>>)
    ensures AllVotes(s + t, votes) == AllVotes(s, votes) + AllVotes(t, votes)
  {
    if s == [] {
      assert s + t == t;
    } else {
      assert (s + t)[1..] == s[1..] + t;
      AllVotesSplit(s[1..], t, votes);
    }
  }

  lemma {:induction false} AllVotesFrame<P>(s: seq<Address>, m: map<Address, Vote<P>>, n: map<Address, Vote<P>>)
    requires forall a :: a in s ==> (a in m <==> a in n) && (a in m ==> m[a] == n[a])
    ensures AllVotes(s, m) == AllVotes(s, n)
  {
    if s != [] {
      AllVotesFrame(s[1..], m, n);
    }
  }

  lemma {:induction false} AllVotesAt<P>(s: seq<Address>, votes: map<Address, Vote<P>>)
    requires forall a :: a in s ==> a in votes
    ensures |AllVotes(s, votes)| == |s|
    ensures forall i :: 0 <= i < |s| ==> AllVotes(s, votes)[i] == votes[s[i]]
  {
    if s != [] {
      AllVotesAt(s[1..], votes);
    }
  }

  /** `get_all_votes` yields the vote of each voter exactly once, in the order of the voter list. */
  lemma EachVoterOnce<P>(c: Group<P>, b: Ballot<P>)
    requires BookOk(c, b)
    ensures |Recorded(b)| == |b.voters| == |b.votes| <= MAX_VOTES_PER_PROPOSAL
    ensures forall i :: 0 <= i < |b.voters| ==>
                          Recorded(b)[i] == b.votes[b.voters[i]] && Recorded(b)[i].address == b.voters[i]
    ensures forall a :: a in b.votes ==> exists i :: 0 <= i < |b.voters| && b.voters[i] == a
  {
    AllVotesAt(b.voters, b.votes);
    DistinctSize(b.voters, b.votes.Keys);
  }

  lemma {:induction false} DistinctSize<T>(s: seq<T>, keys: set<T>)
    requires Distinct(s) && forall a :: a in s <==> a in keys
    ensures |s| == |keys|
  {
    if s == [] {
      assert keys == {};
    } else {
      assert forall a :: a in s[1..] <==> a in keys - {s[0]};
      DistinctSize(s[1..], keys - {s[0]});
    }
  }

  /******* Sums *******/

  lemma {:induction false} WeightForSplit<P>(s: seq<Vote<P>>, t: seq<Vote<P>>, choice: Choice)
    ensures WeightFor(s + t, choice) == WeightFor(s, choice) + WeightFor(t, choice)
  {
    if s == [] {
      assert s + t == t;
    } else {
      assert (s + t)[1..] == s[1..] + t;
      WeightForSplit(s[1..], t, choice);
    }
  }

  lemma WeightForOne<P>(vs: seq<Vote<P>>, v: Vote<P>, choice: Choice)
    ensures WeightFor(vs + [v], choice) == WeightFor(vs, choice) +
                                           if v.PublicVote? && v.choice == choice then v.weight else 0
  {
    WeightForSplit(vs, [v], choice);
    assert [v][1..] == [];
  }

  /** On a public ballot the three choices share out all the weight. */
  lemma {:induction false} WeightsShare<P>(vs: seq<Vote<P>>)
    requires forall i :: 0 <= i < |vs| ==> vs[i].PublicVote?
    ensures WeightFor(vs, Approve) + WeightFor(vs, Reject) + WeightFor(vs, Abstain) == TotalWeight(vs)
  {
    if vs != [] {
      WeightsShare(vs[1..]);
    }
  }

  lemma {:induction false} TotalWeightBound<P>(vs: seq<Vote<P>>)
    ensures TotalWeight(vs) <= |vs| * U32_LIMIT
  {
    if vs != [] {
      TotalWeightBound(vs[1..]);
    }
  }

  lemma {:induction false} WeightForBound<P>(vs: seq<Vote<P>>, choice: Choice)
    ensures WeightFor(vs, choice) <= TotalWeight(vs) <= |vs| * U32_LIMIT
  {
    TotalWeightBound(vs);
    if vs != [] {
      WeightForBound(vs[1..], choice);
    }
  }

  lemma {:induction false} CommitmentSumSplit<P(!new)>(c: Group<P>, s: seq<Vote<P>>, t: seq<Vote<P>>, i: nat)
    requires Lawful(c)
    ensures CommitmentSum(c, s + t, i) == c.add(CommitmentSum(c, s, i), CommitmentSum(c, t, i))
  {
    if t == [] {
      assert s + t == s;
      AddZeroLeft(c, CommitmentSum(c, s, i));
    } else {
      var u, v := t[..|t| - 1], t[|t| - 1];
      assert (s + t)[..|s + t| - 1] == s + u;
      CommitmentSumSplit(c, s, u, i);
      if v.AnonymousVote? && i < |v.commitments| {
        AddAssoc(c, CommitmentSum(c, s, i), CommitmentSum(c, u, i), G1Mul(c, v.commitments[i], v.weight));
      }
    }
  }

  /******* A new ballot *******/

  lemma SingleCommitmentSum<P(!new)>(c: Group<P>, v: Vote<P>, i: nat)
    requires Lawful(c) && v.AnonymousVote? && i < |v.commitments|
    ensures CommitmentSum(c, [v], i) == G1Mul(c, v.commitments[i], v.weight)
  {
    assert [v][..0] == [];
    AddZeroLeft(c, G1Mul(c, v.commitments[i], v.weight));
  }

  lemma SingleTallies<P(!new)>(c: Group<P>, p: Proposal, v: Vote<P>)
    requires Lawful(c) && VoteOk(c, p, p.proposer, v) && v.weight == 0
    ensures BallotWith(p, c, v).tallies == TalliesOf(c, p.publicVoting, [v])
  {
    if v.PublicVote? {
      assert [] + [v] == [v];
      WeightForOne([], v, Approve);
      WeightForOne([], v, Reject);
      WeightForOne([], v, Abstain);
    } else {
      SingleCommitmentSum(c, v, 0);
      SingleCommitmentSum(c, v, 1);
      SingleCommitmentSum(c, v, 2);
      assert BallotWith(p, c, v).tallies.points == Recomputed(c, [v]);
    }
  }

  lemma BallotWithOk<P(!new)>(p: Proposal, c: Group<P>, v: Vote<P>)
    requires Lawful(c) && VoteOk(c, p, p.proposer, v) && v.weight == 0
    ensures BallotOk(c, BallotWith(p, c, v))
  {
    var b := BallotWith(p, c, v);
    assert Recorded(b) == [v] by {
      assert b.voters[1..] == [];
      assert AllVotes(b.voters[1..], b.votes) == [];
    }
    SingleTallies(c, p, v);
    assert BookOk(c, b);
  }

  lemma AbstentionOk<P(!new)>(c: Group<P>, p: Proposal)
    requires Lawful(c)
    ensures VoteOk(c, p, p.proposer, Abstention(c, p.proposer, p.publicVoting))
  {
    CommitInSubgroup(c, 0, 0);
    CommitInSubgroup(c, 1, 0);
  }

  /** A new ballot, with its proposer abstaining at weight 0, is well formed. */
  lemma NewBallotOk<P(!new)>(c: Group<P>, p: Proposal)
    requires Lawful(c)
    ensures BallotOk(c, NewBallot(c, p))
  {
    AbstentionOk(c, p);
    BallotWithOk(p, c, Abstention(c, p.proposer, p.publicVoting));
  }

  /******* Casting *******/

  lemma RecordedAfterVote<P>(b: Ballot<P>, voter: Address, v: Vote<P>)
    requires voter !in b.voters
    ensures AllVotes(b.voters + [voter], b.votes[voter := v]) == Recorded(b) + [v]
  {
    var m := b.votes[voter := v];
    AllVotesSplit(b.voters, [voter], m);
    AllVotesFrame(b.voters, b.votes, m);
    assert [voter][1..] == [];
    assert AllVotes([voter], m) == [v];
  }

  /** One more vote: the stored tallies move to those of the longer list. */
  lemma AddTallyStep<P>(c: Group<P>, p: Proposal, vs: seq<Vote<P>>, v: Vote<P>)
    requires |vs| < MAX_VOTES_PER_PROPOSAL && VoteOk(c, p, v.address, v)
    ensures AddTally(c, TalliesOf(c, p.publicVoting, vs), v) == Ok(TalliesOf(c, p.publicVoting, vs + [v]))
  {
    if v.PublicVote? {
      WeightForBound(vs, v.choice);
      WeightForOne(vs, v, Approve);
      WeightForOne(vs, v, Reject);
      WeightForOne(vs, v, Abstain);
      assert AddTally(c, TalliesOf(c, p.publicVoting, vs), v).value.sums == SumsOf(vs + [v]);
    } else {
      assert (vs + [v])[..|vs + [v]| - 1] == vs;
      assert AddTally(c, TalliesOf(c, p.publicVoting, vs), v).value.points == Recomputed(c, vs + [v]);
    }
  }

  lemma BookAfterVote<P>(c: Group<P>, b: Ballot<P>, voter: Address, v: Vote<P>)
    requires BookOk(c, b) && voter !in b.votes && VoteOk(c, b.proposal, voter, v)
    requires |b.voters| < MAX_VOTES_PER_PROPOSAL
    ensures BookOk(c, b.(votes := b.votes[voter := v], voters := b.voters + [voter]))
  {
    var s := b.voters + [voter];
    forall a
      ensures a in s <==> a in b.votes[voter := v]
    {
      assert a in s <==> a in b.voters || a == voter;
    }
  }

  /** A successful `vote` keeps the ballot well formed. */
  lemma CastVoteKeeps<P(!new)>(c: Group<P>, b: Ballot<P>, now: nat, maxWeight: u32, voter: Address, v: Vote<P>)
    requires Lawful(c) && BallotOk(c, b)
    ensures CheckVote(c, b, now, maxWeight, voter, v).Ok? ==> RecordVote(c, b, voter, v).Ok?
    ensures CastVote(c, b, now, maxWeight, voter, v).Ok? ==> BallotOk(c, CastVote(c, b, now, maxWeight, voter, v).value)
  {
    if CheckVote(c, b, now, maxWeight, voter, v).Ok? {
      AllVotesAt(b.voters, b.votes);
      AddTallyStep(c, b.proposal, Recorded(b), v);
      RecordedAfterVote(b, voter, v);
      BookAfterVote(c, b, voter, v);
    }
  }

  /******* Removing *******/

  lemma PositionFound(s: seq<Address>, a: Address)
    ensures Position(s, a) < |s| <==> a in s
  {
    assert s[..|s|] == s;
  }

  lemma RecordedAfterRemoval<P>(b: Ballot<P>, voter: Address)
    requires Distinct(b.voters) && voter in b.voters && forall a :: a in b.voters ==> a in b.votes
    ensures var k := Position(b.voters, voter);
            && k < |b.voters|
            && |Recorded(b)| == |b.voters|
            && Recorded(b)[k] == b.votes[voter]
            && AllVotes(Without(b.voters, voter), b.votes - {voter}) == Recorded(b)[..k] + Recorded(b)[k + 1..]
  {
    var k := Position(b.voters, voter);
    PositionFound(b.voters, voter);
    var s, t := b.voters[..k], b.voters[k + 1..];
    var m := b.votes - {voter};
    Around(b.voters, k);
    assert voter !in s && voter !in t;
    AllVotesSplit(s, [voter] + t, b.votes);
    AllVotesSplit([voter], t, b.votes);
    AllVotesLength(s, b.votes);
    AllVotesLength(t, b.votes);
    AllVotesSingle(voter, b.votes);
    AroundGiven(Recorded(b), AllVotes(s, b.votes), b.votes[voter], AllVotes(t, b.votes));
    AllVotesFrame(s, b.votes, m);
    AllVotesFrame(t, b.votes, m);
    AllVotesSplit(s, t, m);
  }

  lemma AllVotesSingle<P>(a: Address, votes: map<Address, Vote<P>>)
    requires a in votes
    ensures AllVotes([a], votes) == [votes[a]]
  {
    assert [a][1..] == [];
  }

  lemma AllVotesLength<P>(s: seq<Address>, votes: map<Address, Vote<P>>)
    requires forall a :: a in s ==> a in votes
    ensures |AllVotes(s, votes)| == |s|
  {
    AllVotesAt(s, votes);
  }

  lemma Around<T>(r: seq<T>, k: nat)
    requires k < |r|
    ensures r == r[..k] + ([r[k]] + r[k + 1..])
  {
  }

  lemma AroundGiven<T>(r: seq<T>, x: seq<T>, y: T, z: seq<T>)
    requires r == x + ([y] + z)
    ensures |x| < |r| && r[..|x|] == x && r[|x|] == y && r[|x| + 1..] == z
    ensures |r| == |x| + 1 + |z|
  {
  }

  lemma WeightForRemoval<P>(vs: seq<Vote<P>>, k: nat, choice: Choice)
    requires k < |vs|
    ensures WeightFor(vs, choice)
         == WeightFor(vs[..k] + vs[k + 1..], choice) +
            if vs[k].PublicVote? && vs[k].choice == choice then vs[k].weight else 0
  {
    var s, t := vs[..k], vs[k + 1..];
    assert vs == (s + [vs[k]]) + t;
    WeightForOne(s, vs[k], choice);
    WeightForSplit(s + [vs[k]], t, choice);
    WeightForSplit(s, t, choice);
  }

  /** Taking `vs[k]` out of the sum and adding it back at the end gives the sum. */
  lemma CommitmentSumRemoval<P(!new)>(c: Group<P>, vs: seq<Vote<P>>, k: nat, i: nat)
    requires Lawful(c) && k < |vs|
    ensures CommitmentSum(c, vs, i) == Weigh(c, CommitmentSum(c, vs[..k] + vs[k + 1..], i), vs[k], i)
  {
    var s, v, t := vs[..k], vs[k], vs[k + 1..];
    assert vs == (s + [v]) + t;
    CommitmentSumSplit(c, s + [v], t, i);
    CommitmentSumSplit(c, s, t, i);
    assert (s + [v])[..|s + [v]| - 1] == s;
    if v.AnonymousVote? && i < |v.commitments| {
      var x, y, z := CommitmentSum(c, s, i), G1Mul(c, v.commitments[i], v.weight), CommitmentSum(c, t, i);
      AddAssoc(c, x, y, z);
      AddComm(c, y, z);
      AddAssoc(c, x, z, y);
    }
  }

  /** One vote less: the stored tallies move to those of the shorter list. */
  lemma SubtractTallyStep<P(!new)>(c: Group<P>, p: Proposal, vs: seq<Vote<P>>, k: nat)
    requires Lawful(c) && k < |vs| && VoteOk(c, p, vs[k].address, vs[k])
    ensures SubtractTally(c, TalliesOf(c, p.publicVoting, vs), vs[k])
         == Ok(TalliesOf(c, p.publicVoting, vs[..k] + vs[k + 1..]))
  {
    var ws, v := vs[..k] + vs[k + 1..], vs[k];
    if v.PublicVote? {
      WeightForRemoval(vs, k, Approve);
      WeightForRemoval(vs, k, Reject);
      WeightForRemoval(vs, k, Abstain);
      assert SubtractTally(c, TalliesOf(c, p.publicVoting, vs), v).value.sums == SumsOf(ws);
    } else {
      forall i | 0 <= i < 3
        ensures c.add(CommitmentSum(c, vs, i), G1Mul(c, v.commitments[i], FrSub(c, 0, v.weight)))
             == CommitmentSum(c, ws, i)
      {
        CommitmentSumRemoval(c, vs, k, i);
        RemovalExactIffSubgroup(c, CommitmentSum(c, ws, i), v.commitments[i], v.weight);
      }
      var r := SubtractTally(c, TalliesOf(c, p.publicVoting, vs), v);
      assert r.Ok? && r.value.points == Recomputed(c, ws);
    }
  }

  /** In a well-formed ballot the subtraction of a removed public vote never saturates. */
  lemma NeverSaturates<P>(c: Group<P>, b: Ballot<P>, voter: Address)
    requires BallotOk(c, b) && voter in b.votes && b.votes[voter].PublicVote?
    ensures b.tallies.PublicTallies? && |b.tallies.sums| == 3
    ensures b.votes[voter].weight <= b.tallies.sums[Index(b.votes[voter].choice)]
  {
    var k := Position(b.voters, voter);
    RecordedAfterRemoval(b, voter);
    WeightForRemoval(Recorded(b), k, b.votes[voter].choice);
  }

  /** `remove_vote` keeps the ballot well formed, and fails only for its two documented reasons. */
  lemma RemoveVoteKeeps<P(!new)>(c: Group<P>, b: Ballot<P>, voter: Address)
    requires Lawful(c) && BallotOk(c, b)
    ensures RemoveVote(c, b, voter).Ok? <==> b.proposal.status == Active && voter in b.votes
    ensures RemoveVote(c, b, voter).Ok? ==> BallotOk(c, RemoveVote(c, b, voter).value)
  {
    if b.proposal.status == Active && voter in b.votes {
      RecordedAfterRemoval(b, voter);
      SubtractTallyStep(c, b.proposal, Recorded(b), Position(b.voters, voter));
      BookAfterRemoval(c, b, voter);
    }
  }

  lemma WithoutMembers(s: seq<Address>, a: Address)
    requires Distinct(s) && a in s
    ensures |Without(s, a)| == |s| - 1 && Distinct(Without(s, a))
    ensures forall x :: x in Without(s, a) <==> x in s && x != a
  {
    var k := Position(s, a);
    PositionFound(s, a);
    assert s == s[..k] + [a] + s[k + 1..];
  }

  lemma BookAfterRemoval<P>(c: Group<P>, b: Ballot<P>, voter: Address)
    requires BookOk(c, b) && voter in b.votes
    ensures BookOk(c, b.(votes := b.votes - {voter}, voters := Without(b.voters, voter)))
  {
    WithoutMembers(b.voters, voter);
  }

  /******* Results *******/

  /** The aggregate check of `execute` and the recomputation of `proof` give one answer on every
      claimed opening, of any length. */
  lemma AggregateAgreesWithProof<P(!new)>(c: Group<P>, b: Ballot<P>, tallies: seq<u128>, seeds: seq<u128>)
    requires Lawful(c) && BallotOk(c, b)
    requires b.proposal.status == Active && !b.proposal.publicVoting
    ensures b.tallies.AnonymousTallies?
    ensures Proof(c, b, true, tallies, seeds) == Ok(Opens(c, tallies, seeds, b.tallies.points))
    ensures |tallies| == |seeds| == 3 ==>
              (Proof(c, b, true, tallies, seeds) == Ok(true)
               <==> Decide(c, b, true, Some(tallies), Some(seeds)) != Err(InvalidProof))
  {
  }

  /** A public proposal always gets a result: Approved (Rejected) exactly when the weight recorded for
      approval (rejection) exceeds half of all recorded weight. */
  lemma PublicResultIsSupermajority<P(!new)>(c: Group<P>, b: Ballot<P>, configured: bool)
    requires Lawful(c) && BallotOk(c, b) && b.proposal.publicVoting
    ensures var vs, r := Recorded(b), Decide(c, b, configured, None, None);
            && r.Ok?
            && (r.value == Approved <==> 2 * WeightFor(vs, Approve) > TotalWeight(vs))
            && (r.value == Rejected <==> 2 * WeightFor(vs, Reject) > TotalWeight(vs))
            && r.value in {Approved, Rejected, Cancelled}
  {
    var vs := Recorded(b);
    PublicShares(c, b);
    PublicDecision(c, b, configured);
  }

  lemma PublicShares<P>(c: Group<P>, b: Ballot<P>)
    requires BookOk(c, b) && b.proposal.publicVoting
    ensures var vs := Recorded(b);
            TotalWeight(vs) == WeightFor(vs, Approve) + WeightFor(vs, Reject) + WeightFor(vs, Abstain) < U128_LIMIT
  {
    EachVoterOnce(c, b);
    WeightsShare(Recorded(b));
    TotalWeightBound(Recorded(b));
  }

  lemma PublicDecision<P>(c: Group<P>, b: Ballot<P>, configured: bool)
    requires TalliesOk(c, b) && b.proposal.publicVoting
    ensures var vs := Recorded(b);
            Decide(c, b, configured, None, None)
            == TalliesToResult(WeightFor(vs, Approve), WeightFor(vs, Reject), WeightFor(vs, Abstain))
  {
  }

}
