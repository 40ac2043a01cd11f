/** One proposal with its votes: what a single call does to it, and what every call keeps. */
module Ballot {
  import opened Curve
  import opened Wrappers
  import opened DaoTypes

  /** Everything stored under one proposal. */
  datatype Ballot<P> = Ballot(
    proposal: Proposal,
    votes: map<Address, Vote<P>>,
    voters: seq<Address>,
    tallies: Tallies<P>,
    conflicts: seq<Address>)

  /******* The vote book *******/

  /** The stored votes in the order of the voter list; a voter without a stored vote is skipped. */
  function AllVotes<P>(voters: seq<Address>, votes: map<Address, Vote<P>>): seq<Vote<P>> {
    if voters == [] then []
    else (if voters[0] in votes then [votes[voters[0]]] else []) + AllVotes(voters[1..], votes)
  }

  function Recorded<P>(b: Ballot<P>): seq<Vote<P>> {
    AllVotes(b.voters, b.votes)
  }

  /** The first position of `a`, or the length. */
  function Position(s: seq<Address>, a: Address): (k: nat)
    ensures k <= |s|
    ensures k < |s| ==> s[k] == a
    ensures a !in s[..k]
  {
    if s == [] || s[0] == a then 0 else 1 + Position(s[1..], a)
  }

  function Without(s: seq<Address>, a: Address): seq<Address> {
    var k := Position(s, a);
    if k < |s| then s[..k] + s[k + 1..] else s
  }

  /******* Tallies *******/

  /** The weight recorded for one choice. */
  function WeightFor<P>(vs: seq<Vote<P>>, choice: Choice): nat {
    if vs == [] then 0
    else (if vs[0].PublicVote? && vs[0].choice == choice then vs[0].weight else 0) + WeightFor(vs[1..], choice)
  }

  /** All recorded weight. */
  function TotalWeight<P>(vs: seq<Vote<P>>): nat {
    if vs == [] then 0 else vs[0].weight + TotalWeight(vs[1..])
  }

  /** Adding one vote to a running commitment. */
  function Weigh<P>(c: Group<P>, sum: P, v: Vote<P>, i: nat): P {
    if v.AnonymousVote? && i < |v.commitments| then c.add(sum, G1Mul(c, v.commitments[i], v.weight)) else sum
  }

  /** The full recomputation: the weighted commitments of entry `i`, added up from the identity. */
  function CommitmentSum<P>(c: Group<P>, vs: seq<Vote<P>>, i: nat): P {
    if vs == [] then c.zero
    else Weigh(c, CommitmentSum(c, vs[..|vs| - 1], i), vs[|vs| - 1], i)
  }

  /** What a cast vote adds to the stored tallies. */
  function AddTally<P>(c: Group<P>, t: Tallies<P>, v: Vote<P>): Result<Tallies<P>> {
    if t.PublicTallies? && v.PublicVote? && Index(v.choice) < |t.sums| then
      var i := Index(v.choice);
      if t.sums[i] + v.weight >= U128_LIMIT then Err(ArithmeticTrap)
      else Ok(t.(sums := t.sums[i := t.sums[i] + v.weight]))
    else if t.AnonymousTallies? && v.AnonymousVote? && |v.commitments| <= |t.points| then
      Ok(t.(points := seq(|t.points|, i requires 0 <= i < |t.points| => Weigh(c, t.points[i], v, i))))
    else
      Err(WrongVoteType)
  }

  /** What a removed vote takes from the stored tallies: a saturating subtraction, or the commitment
      weighted by `0 - weight` in the scalar field. */
  function SubtractTally<P>(c: Group<P>, t: Tallies<P>, v: Vote<P>): Result<Tallies<P>> {
    if t.PublicTallies? && v.PublicVote? && Index(v.choice) < |t.sums| then
      var i := Index(v.choice);
      Ok(t.(sums := t.sums[i := if t.sums[i] < v.weight then 0 else t.sums[i] - v.weight]))
    else if t.AnonymousTallies? && v.AnonymousVote? && |v.commitments| <= |t.points| then
      Ok(t.(points := seq(|t.points|, i requires 0 <= i < |t.points| =>
           if i < |v.commitments| then c.add(t.points[i], G1Mul(c, v.commitments[i], FrSub(c, 0, v.weight)))
           else t.points[i])))
    else
      Err(WrongVoteType)
  }

  /******* Calls *******/

  /** The checks of `vote` that concern the proposal, in the order of the contract. */
  function CheckVote<P(==)>(c: Group<P>, b: Ballot<P>, now: nat, maxWeight: u32, voter: Address, v: Vote<P>)
    : Result<()> {
    var _ :- Need(b.proposal.status == Active, ProposalActive);
    var _ :- Need(now < b.proposal.votingEndsAt, ProposalVotingTime);
    var _ :- Need(|b.voters| < MAX_VOTES_PER_PROPOSAL, VoteLimitExceeded);
    var _ :- Need(voter !in b.votes, AlreadyVoted);
    var _ :- Need(voter !in b.conflicts, VoterConflicted);
    var _ :- Need(v.PublicVote? == b.proposal.publicVoting, WrongVoteType);
    var _ :- Need(v.AnonymousVote? ==> WellFormedCommitments(c, v), BadCommitment);
    var _ :- Need(v.address == voter, WrongVoter);
    var _ :- Need(b.proposal.token.None? ==> v.weight <= maxWeight, VoterWeight);
    Need(v.weight != 0, VoterWeight)
  }

  predicate WellFormedCommitments<P(==)>(c: Group<P>, v: Vote<P>)
    requires v.AnonymousVote?
  {
    && |v.commitments| == |v.encryptedVotes| == |v.encryptedSeeds| == 3
    && forall i :: 0 <= i < 3 ==> InSubgroup(c, v.commitments[i])
  }

  function RecordVote<P>(c: Group<P>, b: Ballot<P>, voter: Address, v: Vote<P>): Result<Ballot<P>> {
    var t :- AddTally(c, b.tallies, v);
    Ok(b.(votes := b.votes[voter := v], voters := b.voters + [voter], tallies := t))
  }

  function CastVote<P(==)>(c: Group<P>, b: Ballot<P>, now: nat, maxWeight: u32, voter: Address, v: Vote<P>)
    : Result<Ballot<P>> {
    var _ :- CheckVote(c, b, now, maxWeight, voter, v);
    RecordVote(c, b, voter, v)
  }

  function RemoveVote<P>(c: Group<P>, b: Ballot<P>, voter: Address): Result<Ballot<P>> {
    var _ :- Need(b.proposal.status == Active, ProposalActive);
    if voter !in b.votes then Err(VoteNotFound)
    else
      var t :- SubtractTally(c, b.tallies, b.votes[voter]);
      Ok(b.(votes := b.votes - {voter}, voters := Without(b.voters, voter), tallies := t))
  }

  function Revoke<P>(b: Ballot<P>): Result<Ballot<P>> {
    var _ :- Need(b.proposal.status == Active, ProposalActive);
    Ok(b.(proposal := b.proposal.(title := "REDACTED", ipfs := "NONE", status := Malicious)))
  }

  function Barred(list: seq<Address>, addresses: seq<Address>): seq<Address>
    decreases |addresses|
  {
    if addresses == [] then list
    else Barred(if addresses[0] in list then list else list + [addresses[0]], addresses[1..])
  }

  function Unbarred(list: seq<Address>, addresses: seq<Address>): seq<Address> {
    if list == [] then []
    else (if list[0] in addresses then [] else [list[0]]) + Unbarred(list[1..], addresses)
  }

  function AddConflicts<P>(b: Ballot<P>, addresses: seq<Address>): Result<Ballot<P>> {
    var _ :- Need(b.proposal.status == Active, ProposalActive);
    Ok(b.(conflicts := Barred(b.conflicts, addresses)))
  }

  function RemoveConflicts<P>(b: Ballot<P>, addresses: seq<Address>): Result<Ballot<P>> {
    var _ :- Need(b.proposal.status == Active, ProposalActive);
    Ok(b.(conflicts := Unbarred(b.conflicts, addresses)))
  }

  /******* Results *******/

  /** A choice wins only against the sum of the other two; the sums are checked `u128` additions. */
  function TalliesToResult(approve: nat, reject: nat, abstain: nat): Result<Status> {
    if reject + abstain >= U128_LIMIT then Err(ArithmeticTrap)
    else if approve > reject + abstain then Ok(Approved)
    else if approve + abstain >= U128_LIMIT then Err(ArithmeticTrap)
    else if reject > approve + abstain then Ok(Rejected)
    else Ok(Cancelled)
  }

  function Min(a: nat, b: nat): nat {
    if a < b then a else b
  }

  /** Do the tallies and seeds open the given points?  As with the contract's `zip`, the shorter
      sequence decides how many entries are compared. */
  predicate Opens<P(==)>(c: Group<P>, tallies: seq<u128>, seeds: seq<u128>, points: seq<P>) {
    forall i :: 0 <= i < Min(Min(|tallies|, |seeds|), |points|) ==> Commit(c, tallies[i], seeds[i]) == points[i]
  }

  function Recomputed<P>(c: Group<P>, vs: seq<Vote<P>>): seq<P> {
    [CommitmentSum(c, vs, 0), CommitmentSum(c, vs, 1), CommitmentSum(c, vs, 2)]
  }

  /** The contract's `proof` of a proposal with the given votes: recompute the aggregate from them.
      `configured` says whether the project has an anonymous voting configuration. */
  function ProofOf<P(==)>(c: Group<P>, p: Proposal, vs: seq<Vote<P>>, configured: bool, tallies: seq<u128>,
                          seeds: seq<u128>)
    : Result<bool> {
    var _ :- Need(p.status == Active, ProposalActive);
    var _ :- Need(!p.publicVoting, WrongVoteType);
    var _ :- Need(configured, NoAnonymousVotingConfig);
    Ok(Opens(c, tallies, seeds, Recomputed(c, vs)))
  }

  function Proof<P(==)>(c: Group<P>, b: Ballot<P>, configured: bool, tallies: seq<u128>, seeds: seq<u128>)
    : Result<bool> {
    ProofOf(c, b.proposal, Recorded(b), configured, tallies, seeds)
  }

  /** The status decided by `execute`. */
  function Decide<P(==)>(c: Group<P>, b: Ballot<P>, configured: bool, tallies: Option<seq<u128>>,
                         seeds: Option<seq<u128>>)
    : Result<Status> {
    if b.proposal.publicVoting then
      var _ :- Need(tallies.None? && seeds.None?, TallySeedError);
      if b.tallies.PublicTallies? && |b.tallies.sums| == 3 then
        TalliesToResult(b.tallies.sums[0], b.tallies.sums[1], b.tallies.sums[2])
      else Err(NoProposalOrPageFound)
    else
    if tallies.None? || seeds.None? || |tallies.value| != 3 || |seeds.value| != 3 then Err(TallySeedError)
    else if !configured then Err(NoAnonymousVotingConfig)
    else if b.tallies.AnonymousTallies? && Opens(c, tallies.value, seeds.value, b.tallies.points) then
      TalliesToResult(tallies.value[0], tallies.value[1], tallies.value[2])
    else Err(InvalidProof)
  }

  /******* A new ballot *******/

  /** The proposer's automatic abstention, with weight 0. */
  function Abstention<P>(c: Group<P>, proposer: Address, publicVoting: bool): Vote<P> {
    if publicVoting then PublicVote(proposer, 0, Abstain)
    else AnonymousVote(proposer, 0, ["0", "0", "0"], ["0", "0", "1"],
                       [Commit(c, 0, 0), Commit(c, 0, 0), Commit(c, 1, 0)])
  }

  /** A ballot that holds one vote; its tallies are that vote weighted by 0. */
  function BallotWith<P>(p: Proposal, c: Group<P>, v: Vote<P>): Ballot<P> {
    Ballot(p, map[p.proposer := v], [p.proposer],
           if v.PublicVote? then PublicTallies([0, 0, 0])
           else AnonymousTallies(seq(|v.commitments|,
                                 i requires 0 <= i < |v.commitments| => G1Mul(c, v.commitments[i], 0))),
           [])
  }

  function NewBallot<P>(c: Group<P>, p: Proposal): Ballot<P> {
    BallotWith(p, c, Abstention(c, p.proposer, p.publicVoting))
  }

  /******* What holds of every ballot *******/

  /** The voter list and the vote keys agree, and every vote sits under its own address, is of the
      proposal's kind and, if anonymous, carries three commitments of the subgroup. */
  ghost predicate BookOk<P>(c: Group<P>, b: Ballot<P>) {
    && Distinct(b.voters)
    && |b.voters| <= MAX_VOTES_PER_PROPOSAL
    && (forall a :: a in b.voters <==> a in b.votes)
    && (forall a :: a in b.votes ==> VoteOk(c, b.proposal, a, b.votes[a]))
  }

  ghost predicate VoteOk<P>(c: Group<P>, p: Proposal, a: Address, v: Vote<P>) {
    && v.address == a
    && v.PublicVote? == p.publicVoting
    && (v.AnonymousVote? ==> WellFormedCommitments(c, v))
  }

  function SumsOf<P>(vs: seq<Vote<P>>): seq<nat> {
    [WeightFor(vs, Approve), WeightFor(vs, Reject), WeightFor(vs, Abstain)]
  }

  function TalliesOf<P>(c: Group<P>, publicVoting: bool, vs: seq<Vote<P>>): Tallies<P> {
    if publicVoting then PublicTallies(SumsOf(vs)) else AnonymousTallies(Recomputed(c, vs))
  }

  /** The stored tallies are those of the recorded votes. */
  ghost predicate TalliesOk<P>(c: Group<P>, b: Ballot<P>) {
    b.tallies == TalliesOf(c, b.proposal.publicVoting, Recorded(b))
  }

  ghost predicate BallotOk<P>(c: Group<P>, b: Ballot<P>) {
    BookOk(c, b) && TalliesOk(c, b)
  }
}
