/** The rules of `execute`: in a reachable state, exactly when it goes through for given arguments, with which
    result, and whom it pays. */
module ExecutionRules {
  import opened Curve
  import opened Wrappers
  import opened DaoTypes
  import opened Ledger
  import opened Ballot
  import opened BallotProofs
  import opened Dao
  import opened DaoProofs
  import opened Discrepancies
  import opened CallRules

  /** A maintainer closes an active proposal a day or more after its last vote, and the deposits can be returned:
      some vote may be recorded for a token only if its unit fits `i128`. */
  predicate Closable<P>(d: Deployment<P>, w: World<P>, ctx: Ctx, maintainer: Address, id: Id) {
    && ByMaintainer(w, ctx, maintainer, id.key) && Open(w, id)
    && var b := w.ballots[id];
    && b.proposal.votingEndsAt + 86_400 <= ctx.now
    && (b.voters == [] || b.proposal.token.None? || d.decimals(b.proposal.token.value) <= 38)
  }

  /** The outcome contract listed for this result, if there is one, accepts the call. */
  predicate Delivered(ctx: Ctx, p: Proposal, status: Status) {
    p.outcomes.None? || ctx.outcomeOk
    || p.outcomes.value <= (match status case Approved => 0 case Rejected => 1 case _ => 2)
  }

  /** What one account gets back: the proposer 5 units of the collateral, every voter what the vote had locked. */
  function Repaid<P>(d: Deployment<P>, b: Ballot<P>, asset: Address, who: Address): nat {
    (if who == b.proposal.proposer && asset == d.collateral then 50_000_000 else 0)
    + (if who in b.votes then Locked(d, b.proposal, b.votes[who].weight, asset) else 0)
  }

  /** The proposal gets this status, everybody is repaid, and nothing else changes. */
  ghost predicate Closes<P>(d: Deployment<P>, w: World<P>, id: Id, status: Status, next: World<P>) {
    && id in w.ballots
    && var b := w.ballots[id];
    && next == w.(ballots := w.ballots[id := b.(proposal := b.proposal.(status := status))], bank := next.bank)
    && forall asset, who :: who != d.self ==>
                              Balance(next.bank, asset, who) == Balance(w.bank, asset, who) + Repaid(d, b, asset, who)
  }

  /** A side wins if it has more than half of the whole. */
  function Winner(approve: nat, reject: nat, abstain: nat): Status {
    var total := approve + reject + abstain;
    if 2 * approve > total then Approved else if 2 * reject > total then Rejected else Cancelled
  }

  lemma RepaidIsPaidBack<P>(d: Deployment<P>, b: Ballot<P>, asset: Address, who: Address)
    ensures Repaid(d, b, asset, who) == PaidBack(d, b, asset, who)
  {
    if who in b.votes {
      LockedIsEscrow(d, b.proposal, b.votes[who].weight, asset);
    }
  }

  /** Whatever decides the status: when the call goes through, and what it does. */
  lemma CloseRule<P(!new)>(d: Deployment<P>, w: World<P>, ctx: Ctx, maintainer: Address, id: Id,
                           tallies: Option<seq<u128>>, seeds: Option<seq<u128>>)
    requires Lawful(d.curve) && WorldOk(d, w) && id in w.ballots
    ensures var r := DoExecute(d, w, ctx, maintainer, id.key, id.num, tallies, seeds);
            var status := Decide(d.curve, w.ballots[id], id.key in w.anonymous, tallies, seeds);
            && (r.Ok? <==> Closable(d, w, ctx, maintainer, id) && status.Ok?
                           && Delivered(ctx, w.ballots[id].proposal, status.value))
            && (r.Ok? ==> Closes(d, w, id, status.value, r.value))
  {
    var b := w.ballots[id];
    LoadIff(d, w, id.key, id.num);
    UnitTooLargeIff(d, b.proposal);
    if b.proposal.status == Active {
      PayOutExact(d, w, id, d.collateral, Address(d.self.id + 1));
      CloseAnswer(d, w, ctx, maintainer, id, tallies, seeds);
      var r := DoExecute(d, w, ctx, maintainer, id.key, id.num, tallies, seeds);
      if r.Ok? {
        forall asset, who | who != d.self
          ensures Balance(r.value.bank, asset, who) == Balance(w.bank, asset, who) + Repaid(d, b, asset, who)
        {
          PayOutExact(d, w, id, asset, who);
          RepaidIsPaidBack(d, b, asset, who);
        }
      }
    }
  }

  lemma CloseAnswer<P>(d: Deployment<P>, w: World<P>, ctx: Ctx, maintainer: Address, id: Id,
                       tallies: Option<seq<u128>>, seeds: Option<seq<u128>>)
    requires id in w.ballots && Load(w, id.key, id.num) == Ok(w.ballots[id])
    requires w.ballots[id].proposal.status == Active
    ensures var r, b := DoExecute(d, w, ctx, maintainer, id.key, id.num, tallies, seeds), w.ballots[id];
            var status := Decide(d.curve, b, id.key in w.anonymous, tallies, seeds);
            && (r.Ok? <==>
                && ByMaintainer(w, ctx, maintainer, id.key) && b.proposal.votingEndsAt + 86_400 <= ctx.now
                && PayOut(d, w.bank, b).Ok? && status.Ok? && Delivered(ctx, b.proposal, status.value))
            && (r.Ok? ==> r.value == w.(ballots := w.ballots[id := b.(proposal := b.proposal.(status := status.value))],
                                     bank := PayOut(d, w.bank, b).value))
  {
    var b := w.ballots[id];
    DecidedStatus(d.curve, b, id.key in w.anonymous, tallies, seeds);
  }

  lemma DecidedStatus<P>(c: Group<P>, b: Ballot<P>, configured: bool, tallies: Option<seq<u128>>,
                         seeds: Option<seq<u128>>)
    ensures var status := Decide(c, b, configured, tallies, seeds);
            status.Ok? ==> status.value in {Approved, Rejected, Cancelled}
  {
  }

  /** A public proposal: no tallies or seeds may be given, and the weight on record decides. */
  lemma PublicExecuteRule<P(!new)>(d: Deployment<P>, w: World<P>, ctx: Ctx, maintainer: Address, id: Id,
                                   tallies: Option<seq<u128>>, seeds: Option<seq<u128>>)
    requires Lawful(d.curve) && WorldOk(d, w) && id in w.ballots && w.ballots[id].proposal.publicVoting
    ensures var r := DoExecute(d, w, ctx, maintainer, id.key, id.num, tallies, seeds);
            var vs := Recorded(w.ballots[id]);
            var status := Winner(WeightFor(vs, Approve), WeightFor(vs, Reject), WeightFor(vs, Abstain));
            && (r.Ok? <==> Closable(d, w, ctx, maintainer, id) && tallies == None && seeds == None
                           && Delivered(ctx, w.ballots[id].proposal, status))
            && (r.Ok? ==> Closes(d, w, id, status, r.value))
  {
    assert SoundAt(d, w, id);
    CloseRule(d, w, ctx, maintainer, id, tallies, seeds);
    PublicResultIsSupermajority(d.curve, w.ballots[id], id.key in w.anonymous);
    PublicShares(d.curve, w.ballots[id]);
  }

  /** The claimed tallies and seeds open the sums of the recorded commitments, entry by entry. */
  predicate OpensSums<P(==)>(c: Group<P>, b: Ballot<P>, tallies: seq<u128>, seeds: seq<u128>) {
    && |tallies| == 3 && |seeds| == 3
    && forall i :: 0 <= i < 3 ==> Commit(c, tallies[i], seeds[i]) == CommitmentSum(c, Recorded(b), i)
  }

  /** The sums that the contract forms of the claimed tallies fit `u128`: the second one is only formed if
      approval does not win. */
  predicate Summable(approve: nat, reject: nat, abstain: nat) {
    && reject + abstain < 0x1_0000_0000_0000_0000_0000_0000_0000_0000
    && (approve > reject + abstain || approve + abstain < 0x1_0000_0000_0000_0000_0000_0000_0000_0000)
  }

  lemma OpensIff<P>(c: Group<P>, b: Ballot<P>, tallies: seq<u128>, seeds: seq<u128>)
    requires |tallies| == |seeds| == 3
    ensures OpensSums(c, b, tallies, seeds) <==> Opens(c, tallies, seeds, Recomputed(c, Recorded(b)))
  {
    assert forall i :: 0 <= i < 3 ==> Recomputed(c, Recorded(b))[i] == CommitmentSum(c, Recorded(b), i);
  }

  lemma AnonymousDecision<P>(c: Group<P>, b: Ballot<P>, tallies: Option<seq<u128>>, seeds: Option<seq<u128>>)
    requires TalliesOk(c, b) && !b.proposal.publicVoting
    ensures var status := Decide(c, b, true, tallies, seeds);
            && (status.Ok? <==>
                && tallies.Some? && seeds.Some? && OpensSums(c, b, tallies.value, seeds.value)
                && var t := tallies.value; Summable(t[0], t[1], t[2]))
            && (status.Ok? ==>
                  var t := tallies.value; status.value == Winner(t[0], t[1], t[2]))
  {
    if tallies.Some? && seeds.Some? && |tallies.value| == 3 && |seeds.value| == 3 {
      OpensIff(c, b, tallies.value, seeds.value);
    }
  }

  /** An anonymous proposal, for every argument that anybody may claim: tallies and seeds must both be given, three
      entries each, and open the sums of the recorded commitments; then the claimed tallies decide. */
  lemma AnonymousExecuteRule<P(!new)>(d: Deployment<P>, w: World<P>, ctx: Ctx, maintainer: Address, id: Id,
                                      tallies: Option<seq<u128>>, seeds: Option<seq<u128>>)
    requires Lawful(d.curve) && WorldOk(d, w) && id in w.ballots && !w.ballots[id].proposal.publicVoting
    ensures var r, b := DoExecute(d, w, ctx, maintainer, id.key, id.num, tallies, seeds), w.ballots[id];
            && (r.Ok? <==>
                && Closable(d, w, ctx, maintainer, id) && tallies.Some? && seeds.Some?
                && OpensSums(d.curve, b, tallies.value, seeds.value)
                && var t := tallies.value;
                Summable(t[0], t[1], t[2]) && Delivered(ctx, b.proposal, Winner(t[0], t[1], t[2])))
            && (r.Ok? ==> var t := tallies.value; Closes(d, w, id, Winner(t[0], t[1], t[2]), r.value))
  {
    assert SoundAt(d, w, id);
    CloseRule(d, w, ctx, maintainer, id, tallies, seeds);
    AnonymousDecision(d.curve, w.ballots[id], tallies, seeds);
  }

  /** `proof`: for an active anonymous proposal of a project that is set up for it, whether every claimed entry opens
      the sum of the recorded commitments.  Entries beyond the shortest list are not looked at. */
  lemma ProofRule<P>(c: Group<P>, p: Proposal, vs: seq<Vote<P>>, configured: bool, tallies: seq<u128>, seeds: seq<u128>)
    ensures var r := ProofOf(c, p, vs, configured, tallies, seeds);
            && (r.Ok? <==> p.status == Active && !p.publicVoting && configured)
            && (r.Ok? ==> (r.value <==> forall i: nat :: i < |tallies| && i < |seeds| && i < 3 ==>
                                                           Commit(c, tallies[i], seeds[i]) == CommitmentSum(c, vs, i)))
  {
    assert forall i :: 0 <= i < 3 ==> Recomputed(c, vs)[i] == CommitmentSum(c, vs, i);
  }
}
