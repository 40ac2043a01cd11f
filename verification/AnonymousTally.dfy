/** The client's tally kernel: it turns decoded ballots into the opening that `execute` accepts. */
module AnonymousTally {
  import opened Curve
  import opened Wrappers
  import opened DaoTypes
  import opened Ballot
  import opened BallotProofs
  import D = Decimal

  const MAX_SAFE_INTEGER: int := 0x1F_FFFF_FFFF_FFFF

  /** What a decoded value can be without losing precision. */
  type SafeInteger = n: int | 0 <= n <= MAX_SAFE_INTEGER

  datatype DecodedVoter = DecodedVoter(weight: u32, voteValues: seq<SafeInteger>, seedValues: seq<SafeInteger>)

  /** Three entries each: approve, reject, abstain. */
  datatype ScalarTally = ScalarTally(tallies: seq<nat>, seeds: seq<nat>, voteCounts: seq<nat>)

  predicate WellFormed(voters: seq<DecodedVoter>) {
    forall k :: 0 <= k < |voters| ==> |voters[k].voteValues| == 3 && |voters[k].seedValues| == 3
  }

  /******* Specification *******/

  function Weighted(value: nat, weight: nat): nat {
    value * weight
  }

  function VoteSum(voters: seq<DecodedVoter>, i: nat): nat
    requires WellFormed(voters) && i < 3
  {
    if voters == [] then 0
    else
      var last := voters[|voters| - 1];
      VoteSum(voters[..|voters| - 1], i) + Weighted(last.voteValues[i], last.weight)
  }

  function SeedSum(voters: seq<DecodedVoter>, i: nat): nat
    requires WellFormed(voters) && i < 3
  {
    if voters == [] then 0
    else
      var last := voters[|voters| - 1];
      SeedSum(voters[..|voters| - 1], i) + Weighted(last.seedValues[i], last.weight)
  }

  function PositiveCount(voters: seq<DecodedVoter>, i: nat): nat
    requires WellFormed(voters) && i < 3
  {
    if voters == [] then 0
    else
      var last := voters[|voters| - 1];
      PositiveCount(voters[..|voters| - 1], i) + if last.voteValues[i] > 0 then 1 else 0
  }

  function ScalarTallyOf(voters: seq<DecodedVoter>): ScalarTally
    requires WellFormed(voters)
  {
    ScalarTally([VoteSum(voters, 0), VoteSum(voters, 1), VoteSum(voters, 2)],
                [SeedSum(voters, 0), SeedSum(voters, 1), SeedSum(voters, 2)],
                [PositiveCount(voters, 0), PositiveCount(voters, 1), PositiveCount(voters, 2)])
  }

  /******* The kernel *******/

  method AccumulateAnonymousTally(voters: seq<DecodedVoter>) returns (r: ScalarTally)
    requires WellFormed(voters)
    ensures r == ScalarTallyOf(voters)
  {
    var tallies, seeds, voteCounts := new nat[3](_ => 0), new nat[3](_ => 0), new nat[3](_ => 0);
    var k := 0;
    while k < |voters|
      invariant 0 <= k <= |voters|
      invariant WellFormed(voters[..k])
                && ScalarTally(tallies[..], seeds[..], voteCounts[..]) == ScalarTallyOf(voters[..k])
    {
      ghost var before := ScalarTally(tallies[..], seeds[..], voteCounts[..]);
      AddBallot(tallies, seeds, voteCounts, voters[k]);
      OneMoreBallot(voters[..k], voters[k]);
      assert voters[..k] + [voters[k]] == voters[..k + 1];
      AccumulatedStep(voters[..k], voters[k], before, ScalarTally(tallies[..], seeds[..], voteCounts[..]));
      k := k + 1;
    }
    assert voters[..k] == voters;
    r := ScalarTally(tallies[..], seeds[..], voteCounts[..]);
  }

  /** The inner loop: one ballot is added to the three entries of each buffer. */
  method AddBallot(tallies: array<nat>, seeds: array<nat>, voteCounts: array<nat>, voter: DecodedVoter)
    requires tallies != seeds && tallies != voteCounts && seeds != voteCounts
    requires tallies.Length == seeds.Length == voteCounts.Length == |voter.voteValues| == |voter.seedValues| == 3
    modifies tallies, seeds, voteCounts
    ensures forall j :: 0 <= j < 3 ==> tallies[j] == old(tallies[j]) + Weighted(voter.voteValues[j], voter.weight)
    ensures forall j :: 0 <= j < 3 ==> seeds[j] == old(seeds[j]) + Weighted(voter.seedValues[j], voter.weight)
    ensures forall j :: 0 <= j < 3 ==> voteCounts[j] == old(voteCounts[j]) + if voter.voteValues[j] > 0 then 1 else 0
  {
    var i := 0;
    while i < 3
      invariant 0 <= i <= 3
      invariant forall j :: 0 <= j < 3 ==>
                              tallies[j] == old(tallies[j]) +
                              if j < i then Weighted(voter.voteValues[j], voter.weight) else 0
      invariant forall j :: 0 <= j < 3 ==>
                              seeds[j] == old(seeds[j]) + if j < i then Weighted(voter.seedValues[j], voter.weight)
                              else 0
      invariant forall j :: 0 <= j < 3 ==>
                              voteCounts[j] == old(voteCounts[j]) + if j < i && voter.voteValues[j] > 0 then 1 else 0
    {
      tallies[i] := tallies[i] + Weighted(voter.voteValues[i], voter.weight);
      seeds[i] := seeds[i] + Weighted(voter.seedValues[i], voter.weight);
      if voter.voteValues[i] > 0 {
        voteCounts[i] := voteCounts[i] + 1;
      }
      i := i + 1;
    }
  }

  lemma AccumulatedStep(before: seq<DecodedVoter>, voter: DecodedVoter, t: ScalarTally, u: ScalarTally)
    requires WellFormed(before) && WellFormed(before + [voter]) && t == ScalarTallyOf(before)
    requires |voter.voteValues| == |voter.seedValues| == 3
    requires |u.tallies| == |u.seeds| == |u.voteCounts| == 3
    requires forall j :: 0 <= j < 3 ==> u.tallies[j] == t.tallies[j] + Weighted(voter.voteValues[j], voter.weight)
    requires forall j :: 0 <= j < 3 ==> u.seeds[j] == t.seeds[j] + Weighted(voter.seedValues[j], voter.weight)
    requires forall j :: 0 <= j < 3 ==> u.voteCounts[j] == t.voteCounts[j] + if voter.voteValues[j] > 0 then 1 else 0
    ensures u == ScalarTallyOf(before + [voter])
  {
    OneMoreBallot(before, voter);
    var w := ScalarTallyOf(before + [voter]);
    assert u.tallies == w.tallies && u.seeds == w.seeds && u.voteCounts == w.voteCounts;
  }

  lemma OneMoreBallot(before: seq<DecodedVoter>, voter: DecodedVoter)
    requires WellFormed(before) && |voter.voteValues| == |voter.seedValues| == 3
    ensures var after := before + [voter];
            && WellFormed(after)
            && forall i :: 0 <= i < 3 ==>
                             && VoteSum(after, i) == VoteSum(before, i) + Weighted(voter.voteValues[i], voter.weight)
                             && SeedSum(after, i) == SeedSum(before, i) + Weighted(voter.seedValues[i], voter.weight)
                             && PositiveCount(after, i) == PositiveCount(before, i) +
                                                           if voter.voteValues[i] > 0 then 1 else 0
  {
    var after := before + [voter];
    assert after[..|after| - 1] == before;
  }

  /** The ballots, by their places, with a positive value in entry `i`. */
  function Positive(voters: seq<DecodedVoter>, i: nat): set<int>
    requires WellFormed(voters) && i < 3
  {
    set k | 0 <= k < |voters| && voters[k].voteValues[i] > 0
  }

  lemma PositiveLast(voters: seq<DecodedVoter>, i: nat, n: nat)
    requires WellFormed(voters) && i < 3 && |voters| == n + 1
    ensures n !in Positive(voters[..n], i)
    ensures Positive(voters, i) == if voters[n].voteValues[i] > 0 then Positive(voters[..n], i) + {n}
                                   else Positive(voters[..n], i)
  {
    assert forall k :: 0 <= k < n ==> voters[..n][k] == voters[k];
  }

  /** What the counts mean: the number of ballots with a positive value, whatever their weights. */
  lemma {:induction false} CountsBallots(voters: seq<DecodedVoter>, i: nat)
    requires WellFormed(voters) && i < 3
    ensures PositiveCount(voters, i) == |Positive(voters, i)|
    ensures ScalarTallyOf(voters).voteCounts[i] == |Positive(voters, i)|
  {
    if voters == [] {
      assert Positive(voters, i) == {};
    } else {
      CountsBallots(voters[..|voters| - 1], i);
      PositiveLast(voters, i, |voters| - 1);
    }
  }

  /******* Completeness *******/

  /** The decoded voter opens this vote's commitments. */
  ghost predicate OpensVote<P>(c: Group<P>, voter: DecodedVoter, v: Vote<P>) {
    && |voter.voteValues| == 3 && |voter.seedValues| == 3
    && v.AnonymousVote? && |v.commitments| == 3
    && voter.weight == v.weight
    && forall i :: 0 <= i < 3 ==> v.commitments[i] == Commit(c, voter.voteValues[i], voter.seedValues[i])
  }

  ghost predicate OpensAll<P>(c: Group<P>, voters: seq<DecodedVoter>, vs: seq<Vote<P>>) {
    |voters| == |vs| && forall k :: 0 <= k < |vs| ==> OpensVote(c, voters[k], vs[k])
  }


  lemma OpensAllWellFormed<P>(c: Group<P>, voters: seq<DecodedVoter>, vs: seq<Vote<P>>)
    requires OpensAll(c, voters, vs)
    ensures WellFormed(voters)
  {
    forall k | 0 <= k < |voters|
      ensures |voters[k].voteValues| == 3 && |voters[k].seedValues| == 3
    {
      assert OpensVote(c, voters[k], vs[k]);
    }
  }

  /** The recomputed aggregate is the commitment to the client's sums. */
  lemma {:induction false} SumsOpen<P(!new)>(c: Group<P>, voters: seq<DecodedVoter>, vs: seq<Vote<P>>, i: nat)
    requires Lawful(c) && OpensAll(c, voters, vs) && WellFormed(voters) && i < 3
    ensures CommitmentSum(c, vs, i) == Commit(c, VoteSum(voters, i), SeedSum(voters, i))
  {
    if vs == [] {
      CommitPlain(c, 0, 0);
      AddZeroLeft(c, c.zero);
    } else {
      var us, ws, voter, v := voters[..|voters| - 1], vs[..|vs| - 1], voters[|voters| - 1], vs[|vs| - 1];
      SumsOpen(c, us, ws, i);
      WeighedCommit(c, VoteSum(us, i), SeedSum(us, i), voter.voteValues[i], voter.seedValues[i], v.weight);
    }
  }

  lemma WeighedCommit<P(!new)>(c: Group<P>, v0: nat, s0: nat, vote: nat, seed: nat, w: nat)
    requires Lawful(c)
    ensures c.add(Commit(c, v0, s0), G1Mul(c, Commit(c, vote, seed), w))
         == Commit(c, v0 + Weighted(vote, w), s0 + Weighted(seed, w))
  {
    CommitScales(c, w, vote, seed);
    var x, y := Weighted(vote, w), Weighted(seed, w);
    assert w * vote == x && w * seed == y;
    CommitAdds(c, v0, s0, x, y);
  }

  /** Precise values and the vote limit keep every sum far below `u128`. */
  lemma {:induction false} SumsBounded(voters: seq<DecodedVoter>, i: nat)
    requires WellFormed(voters) && i < 3
    ensures VoteSum(voters, i) <= |voters| * (MAX_SAFE_INTEGER * U32_LIMIT)
    ensures SeedSum(voters, i) <= |voters| * (MAX_SAFE_INTEGER * U32_LIMIT)
  {
    if voters != [] {
      var last := voters[|voters| - 1];
      SumsBounded(voters[..|voters| - 1], i);
      ProductBounded(last.voteValues[i], last.weight, MAX_SAFE_INTEGER, U32_LIMIT);
      ProductBounded(last.seedValues[i], last.weight, MAX_SAFE_INTEGER, U32_LIMIT);
    }
  }

  lemma ProductBounded(value: nat, weight: nat, most: nat, limit: nat)
    requires value <= most && weight <= limit
    ensures Weighted(value, weight) <= most * limit
  {
  }

  lemma TallyFits(voters: seq<DecodedVoter>)
    requires WellFormed(voters) && |voters| <= MAX_VOTES_PER_PROPOSAL
    ensures var t := ScalarTallyOf(voters);
            && (forall i :: 0 <= i < 3 ==> t.tallies[i] < U128_LIMIT && t.seeds[i] < U128_LIMIT)
            && t.tallies[0] + t.tallies[1] + t.tallies[2] < U128_LIMIT
  {
    SumsBounded(voters, 0);
    SumsBounded(voters, 1);
    SumsBounded(voters, 2);
    assert 3 * (40 * (MAX_SAFE_INTEGER * U32_LIMIT)) < U128_LIMIT;
  }

  /** Completeness: if the decoded voters open the recorded votes, the client's tally is accepted by `proof`
      and `execute`, and the result is the one those tallies stand for. */
  lemma ClientTallyAccepted<P(!new)>(c: Group<P>, b: Ballot<P>, voters: seq<DecodedVoter>)
    requires Lawful(c) && BallotOk(c, b) && b.proposal.status == Active && !b.proposal.publicVoting
    requires OpensAll(c, voters, Recorded(b))
    ensures WellFormed(voters)
    ensures var t := ScalarTallyOf(voters);
            && (forall i :: 0 <= i < 3 ==> t.tallies[i] < U128_LIMIT && t.seeds[i] < U128_LIMIT)
            && Proof(c, b, true, t.tallies, t.seeds) == Ok(true)
            && TalliesToResult(t.tallies[0], t.tallies[1], t.tallies[2]).Ok?
            && Decide(c, b, true, Some(t.tallies), Some(t.seeds))
               == TalliesToResult(t.tallies[0], t.tallies[1], t.tallies[2])
  {
    OpensAllWellFormed(c, voters, Recorded(b));
    EachVoterOnce(c, b);
    TallyFits(voters);
    SumsOpenAll(c, voters, Recorded(b));
    var t := ScalarTallyOf(voters);
    ProofIff(c, b, t.tallies, t.seeds);
    DecideIff(c, b, t.tallies, t.seeds);
  }

  lemma DecideIff<P(!new)>(c: Group<P>, b: Ballot<P>, tallies: seq<u128>, seeds: seq<u128>)
    requires Lawful(c) && BallotOk(c, b)
    requires b.proposal.status == Active && !b.proposal.publicVoting && |tallies| == |seeds| == 3
    ensures Decide(c, b, true, Some(tallies), Some(seeds)) ==
            if Proof(c, b, true, tallies, seeds) == Ok(true) then TalliesToResult(tallies[0], tallies[1], tallies[2])
            else Err(InvalidProof)
  {
    AggregateAgreesWithProof(c, b, tallies, seeds);
  }

  lemma SumsOpenAll<P(!new)>(c: Group<P>, voters: seq<DecodedVoter>, vs: seq<Vote<P>>)
    requires Lawful(c) && OpensAll(c, voters, vs) && WellFormed(voters)
    ensures var t := ScalarTallyOf(voters);
            forall i :: 0 <= i < 3 ==> Recomputed(c, vs)[i] == Commit(c, t.tallies[i], t.seeds[i])
  {
    SumsOpen(c, voters, vs, 0);
    SumsOpen(c, voters, vs, 1);
    SumsOpen(c, voters, vs, 2);
  }

  /******* Binding *******/

  /** Binding: if any other tally is accepted, it differs from the client's in the seed of some entry, and the two
      entries determine the discrete logarithm between the generators: it is the solution
      of the linear equation between them. */
  lemma OtherTallyYieldsLogarithm<P(!new)>(c: Group<P>, b: Ballot<P>, voters: seq<DecodedVoter>, tallies: seq<u128>,
                                           seeds: seq<u128>)
    returns (i: nat, log: nat)
    requires Lawful(c) && Prime(c.order) && c.voteGenerator != c.zero
    requires BallotOk(c, b) && b.proposal.status == Active && !b.proposal.publicVoting
    requires OpensAll(c, voters, Recorded(b)) && WellFormed(voters)
    requires |tallies| == |seeds| == 3 && Proof(c, b, true, tallies, seeds) == Ok(true)
    requires tallies != ScalarTallyOf(voters).tallies || seeds != ScalarTallyOf(voters).seeds
    ensures i < 3
    ensures var t := ScalarTallyOf(voters);
            && seeds[i] != t.seeds[i]
            && SolvesOpenings(c, tallies[i], seeds[i], t.tallies[i], t.seeds[i], log)
    ensures c.seedGenerator == Times(c, log, c.voteGenerator)
  {
    var t := ScalarTallyOf(voters);
    ClientTallyAccepted(c, b, voters);
    i :| 0 <= i < 3 && (tallies[i] != t.tallies[i] || seeds[i] != t.seeds[i]);
    SumsOpenAll(c, voters, Recorded(b));
    assert Commit(c, tallies[i], seeds[i]) == Recomputed(c, Recorded(b))[i];
    log := SecondOpeningYieldsLogarithm(c, tallies[i], seeds[i], t.tallies[i], t.seeds[i]);
  }

  /** Exactly which tallies are accepted, given the logarithm: those that agree with the client's, entry by entry,
      along the line that the logarithm defines. */
  lemma AcceptedTalliesIff<P(!new)>(c: Group<P>, log: nat, b: Ballot<P>, voters: seq<DecodedVoter>, tallies: seq<u128>,
                                    seeds: seq<u128>)
    requires Lawful(c) && Prime(c.order) && c.voteGenerator != c.zero
    requires c.seedGenerator == Times(c, log, c.voteGenerator)
    requires BallotOk(c, b) && b.proposal.status == Active && !b.proposal.publicVoting
    requires OpensAll(c, voters, Recorded(b)) && WellFormed(voters) && |tallies| == |seeds| == 3
    ensures var t := ScalarTallyOf(voters);
            Proof(c, b, true, tallies, seeds) == Ok(true) <==>
            forall i :: 0 <= i < 3 ==> OnOneLine(c, log, tallies[i], seeds[i], t.tallies[i], t.seeds[i])
  {
    var t := ScalarTallyOf(voters);
    SumsOpenAll(c, voters, Recorded(b));
    ProofIff(c, b, tallies, seeds);
    forall i | 0 <= i < 3
      ensures Commit(c, tallies[i], seeds[i]) == Recomputed(c, Recorded(b))[i]
         <==> OnOneLine(c, log, tallies[i], seeds[i], t.tallies[i], t.seeds[i])
    {
      CommitmentsAgreeIff(c, log, tallies[i], seeds[i], t.tallies[i], t.seeds[i]);
    }
  }

  lemma ProofIff<P>(c: Group<P>, b: Ballot<P>, tallies: seq<u128>, seeds: seq<u128>)
    requires b.proposal.status == Active && !b.proposal.publicVoting && |tallies| == |seeds| == 3
    ensures Proof(c, b, true, tallies, seeds) == Ok(true) <==>
            forall i :: 0 <= i < 3 ==> Commit(c, tallies[i], seeds[i]) == Recomputed(c, Recorded(b))[i]
  {
  }

  /******* Agreement with public voting *******/

  function OneHot(choice: Choice): seq<SafeInteger> {
    match choice
    case Approve => [1, 0, 0]
    case Reject => [0, 1, 0]
    case Abstain => [0, 0, 1]
  }

  /** The same ballots cast in public. */
  function InPublic<P>(vs: seq<Vote<P>>, choices: seq<Choice>): (us: seq<Vote<P>>)
    requires |vs| == |choices|
    ensures |us| == |vs|
  {
    seq(|vs|, k requires 0 <= k < |vs| => PublicVote(vs[k].address, vs[k].weight, choices[k]))
  }

  lemma {:induction false} VoteSumIsWeight<P>(voters: seq<DecodedVoter>, vs: seq<Vote<P>>, choices: seq<Choice>,
                                              choice: Choice)
    requires WellFormed(voters) && |voters| == |vs| == |choices|
    requires forall k :: 0 <= k < |vs| ==>
                           voters[k].weight == vs[k].weight && voters[k].voteValues == OneHot(choices[k])
    ensures VoteSum(voters, Index(choice)) == WeightFor(InPublic(vs, choices), choice)
  {
    if voters != [] {
      var n := |vs| - 1;
      VoteSumIsWeight(voters[..n], vs[..n], choices[..n], choice);
      var last: Vote<P> := PublicVote(vs[n].address, vs[n].weight, choices[n]);
      InPublicLast(vs, choices, last);
      WeightForOne(InPublic(vs[..n], choices[..n]), last, choice);
      OneHotAt(choices[n], choice);
    }
  }

  lemma InPublicLast<P>(vs: seq<Vote<P>>, choices: seq<Choice>, last: Vote<P>)
    requires |vs| == |choices| > 0
    requires var n := |vs| - 1; last == PublicVote(vs[n].address, vs[n].weight, choices[n])
    ensures var n := |vs| - 1; InPublic(vs, choices) == InPublic(vs[..n], choices[..n]) + [last]
  {
  }

  lemma OneHotAt(cast: Choice, choice: Choice)
    ensures OneHot(cast)[Index(choice)] == if cast == choice then 1 else 0
  {
  }

  /** When every ballot is for one choice, the anonymous result is the result that the same choices
      would have had in public. */
  lemma AnonymousResultIsPublicResult<P(!new)>(c: Group<P>, b: Ballot<P>, voters: seq<DecodedVoter>,
                                               choices: seq<Choice>)
    requires Lawful(c) && BallotOk(c, b) && b.proposal.status == Active && !b.proposal.publicVoting
    requires OpensAll(c, voters, Recorded(b)) && WellFormed(voters) && |choices| == |voters|
    requires forall k :: 0 <= k < |voters| ==> voters[k].voteValues == OneHot(choices[k])
    ensures var t, sums := ScalarTallyOf(voters), SumsOf(InPublic(Recorded(b), choices));
            && t.tallies == sums
            && (forall i :: 0 <= i < 3 ==> t.tallies[i] < U128_LIMIT && t.seeds[i] < U128_LIMIT)
            && Decide(c, b, true, Some(t.tallies), Some(t.seeds)) == TalliesToResult(sums[0], sums[1], sums[2])
  {
    ClientTallyAccepted(c, b, voters);
    var vs := Recorded(b);
    forall k | 0 <= k < |vs|
      ensures voters[k].weight == vs[k].weight
    {
      assert OpensVote(c, voters[k], vs[k]);
    }
    VoteSumIsWeight(voters, vs, choices, Approve);
    VoteSumIsWeight(voters, vs, choices, Reject);
    VoteSumIsWeight(voters, vs, choices, Abstain);
  }

  /******* Decoding a payload *******/

  // A decrypted payload is "<salt>:<value>"; bytes stand for its characters.

  const COLON: D.byte := 58

  /** `split(":").pop()`: what follows the last colon. */
  function LastSegment(s: seq<D.byte>): seq<D.byte> {
    if s == [] then []
    else if COLON in s[1..] then LastSegment(s[1..])
    else if s[0] == COLON then s[1..]
    else s
  }

  /** The longest prefix of digits, where `parseInt` stops reading. */
  function LeadingDigits(s: seq<D.byte>): seq<D.byte> {
    if s == [] || !D.IsDigit(s[0]) then [] else [s[0]] + LeadingDigits(s[1..])
  }

  predicate IsBlank(b: D.byte) {
    b == 32 || 9 <= b <= 13
  }

  function SkipBlanks(s: seq<D.byte>): seq<D.byte> {
    if s != [] && IsBlank(s[0]) then SkipBlanks(s[1..]) else s
  }

  /** The value of a hexadecimal digit, or 16. */
  function HexDigit(b: D.byte): nat {
    if D.IsDigit(b) then b - D.ZERO else if 97 <= b <= 102 then b - 87 else if 65 <= b <= 70 then b - 55 else 16
  }

  /** The number of the longest hexadecimal prefix, after the digits read so far. */
  function HexValue(s: seq<D.byte>, sofar: int): int
    decreases |s|
  {
    if s == [] || HexDigit(s[0]) == 16 then sofar else HexValue(s[1..], 16 * sofar + HexDigit(s[0]))
  }

  /** `parseInt` without a radix, on ASCII text: blanks, a sign, and a hexadecimal or decimal prefix; `None` stands
      for `NaN`.  Rounding sets in above the safe integers only. */
  function ParseInt(s: seq<D.byte>): Option<int> {
    var t := SkipBlanks(s);
    var signed := t != [] && (t[0] == 43 || t[0] == 45);
    var u := if signed then t[1..] else t;
    var hex := |u| >= 2 && u[0] == D.ZERO && (u[1] == 120 || u[1] == 88);
    var digits := LeadingDigits(u);
    if hex && (|u| == 2 || HexDigit(u[2]) == 16) then None
    else if !hex && digits == [] then None
    else
      var magnitude := if hex then HexValue(u[2..], 0) else D.Value(digits);
      Some(if signed && t[0] == 45 then -magnitude else magnitude)
  }

  /** `decodeAnonymousValue` */
  function DecodeAnonymousValue(plaintext: seq<D.byte>): Option<int> {
    ParseInt(LastSegment(plaintext))
  }

  lemma {:induction false} LastSegmentOfSuffix(salt: seq<D.byte>, value: seq<D.byte>)
    requires COLON !in value
    ensures LastSegment(salt + [COLON] + value) == value
  {
    var s := salt + [COLON] + value;
    if salt == [] {
      assert s[1..] == value;
    } else {
      assert s[1..] == salt[1..] + [COLON] + value;
      assert s[1..][|salt| - 1] == COLON;
      LastSegmentOfSuffix(salt[1..], value);
    }
  }

  lemma {:induction false} LeadingDigitsOfDigits(s: seq<D.byte>)
    requires forall i :: 0 <= i < |s| ==> D.IsDigit(s[i])
    ensures LeadingDigits(s) == s
  {
    if s != [] {
      LeadingDigitsOfDigits(s[1..]);
    }
  }

  lemma ParseIntOfDigits(s: seq<D.byte>)
    requires D.Canonical(s)
    ensures ParseInt(s) == Some(D.Value(s))
  {
    assert D.IsDigit(s[0]) && (|s| > 1 ==> D.IsDigit(s[1]));
    assert SkipBlanks(s) == s;
    LeadingDigitsOfDigits(s);
  }

  /** Whatever the salt (colons included), decoding a payload, salted or plain, gives the value that was
      printed into it. */
  lemma DecodeReadsPrinted(salt: seq<D.byte>, value: SafeInteger)
    ensures DecodeAnonymousValue(salt + [58] + D.Digits(value)) == Some(value)
    ensures DecodeAnonymousValue(D.Digits(value)) == Some(value)
  {
    var s := D.Digits(value);
    D.DigitsRead(value);
    assert COLON !in s;
    LastSegmentOfSuffix(salt, s);
    ParseIntOfDigits(s);
    assert COLON !in s[1..];
  }

  lemma {:induction false} LeadingDigitsStop(s: seq<D.byte>, rest: seq<D.byte>)
    requires forall i :: 0 <= i < |s| ==> D.IsDigit(s[i])
    requires rest != [] ==> !D.IsDigit(rest[0])
    ensures LeadingDigits(s + rest) == s
  {
    if s == [] {
      assert s + rest == rest;
    } else {
      LeadingDigitsStop(s[1..], rest);
      assert (s + rest)[1..] == s[1..] + rest;
    }
  }

  lemma ParseSigned(sign: D.byte, n: nat)
    requires sign == 45 || sign == 43
    ensures ParseInt([sign] + D.Digits(n)) == Some(if sign == 45 then 0 - n else n)
  {
    D.DigitsRead(n);
    SignedDigits(sign, D.Digits(n));
  }

  lemma SignedDigits(sign: D.byte, s: seq<D.byte>)
    requires (sign == 45 || sign == 43) && D.Canonical(s)
    ensures ParseInt([sign] + s) == Some(if sign == 45 then -D.Value(s) else D.Value(s))
  {
    LeadingDigitsOfDigits(s);
    assert D.IsDigit(s[0]) && (|s| > 1 ==> D.IsDigit(s[1]));
    var t := [sign] + s;
    assert t[1..] == s && SkipBlanks(t) == t;
  }

  lemma ParseBlank(blank: D.byte, rest: seq<D.byte>)
    requires IsBlank(blank)
    ensures ParseInt([blank] + rest) == ParseInt(rest)
  {
    assert ([blank] + rest)[1..] == rest;
  }

  lemma ParsePrefix(n: nat, other: D.byte, rest: seq<D.byte>)
    requires n > 0 && !D.IsDigit(other)
    ensures ParseInt(D.Digits(n) + [other] + rest) == Some(n)
  {
    var s := D.Digits(n);
    D.DigitsRead(n);
    LeadingDigitsStop(s, [other] + rest);
    var t := s + [other] + rest;
    assert t == s + ([other] + rest);
    assert t[0] == s[0] && D.IsDigit(t[0]);
    assert SkipBlanks(t) == t;
  }

  /** Beyond plain numbers: signs, blanks in front, anything behind, hexadecimal, and what is no number. */
  lemma ParseIntRules(n: nat, blank: D.byte, other: D.byte, rest: seq<D.byte>, d: nat)
    requires blank == 32 || 9 <= blank <= 13
    requires !(48 <= other <= 57)
    ensures ParseInt([45] + D.Digits(n)) == Some(0 - n) && ParseInt([43] + D.Digits(n)) == Some(n)
    ensures ParseInt([blank] + rest) == ParseInt(rest)
    ensures n > 0 ==> ParseInt(D.Digits(n) + [other] + rest) == Some(n)
    ensures ParseInt([]) == None && (other !in {32, 9, 10, 11, 12, 13, 43, 45} ==>
                                       ParseInt([other] + rest) == None)
    ensures ParseInt([48, 120, 49, 70]) == Some(31) && ParseInt([48, 88, 102, 48]) == Some(240)
    ensures d < 6 ==> HexDigit(97 + d) == HexDigit(65 + d) == 10 + d
    ensures HexDigit(96) == HexDigit(103) == HexDigit(64) == HexDigit(71) == 16
  {
    ParseSigned(45, n);
    ParseSigned(43, n);
    ParseBlank(blank, rest);
    if n > 0 {
      ParsePrefix(n, other, rest);
    }
    var hex: seq<D.byte> := [48, 120, 49, 70];
    assert hex[2..] == [49, 70] && [49, 70][1..] == [70] && [70][1..] == [];
    assert HexValue([70], 1) == 31;
    var upper : seq<D.byte> := [48, 88, 102, 48];
    assert upper[2..] == [102, 48] && [102, 48][1..] == [48] && [48][1..] == [];
    assert HexValue([48], 15) == 240;
  }
}
