/** The client's tally against the contract: when exactly it closes an anonymous proposal. */
module AnonymousExecution {
  import opened Curve
  import opened Wrappers
  import opened DaoTypes
  import opened Ballot
  import opened BallotProofs
  import opened Dao
  import opened DaoProofs
  import opened DaoTheorems
  import opened AnonymousTally

  /** The result of the client's tally, which always fits. */
  lemma ClientResult<P(!new)>(c: Group<P>, b: Ballot<P>, voters: seq<DecodedVoter>)
    requires Lawful(c) && BallotOk(c, b) && OpensAll(c, voters, Recorded(b))
    ensures WellFormed(voters)
    ensures var t := ScalarTallyOf(voters);
            && (forall i :: 0 <= i < 3 ==> t.tallies[i] < U128_LIMIT && t.seeds[i] < U128_LIMIT)
            && TalliesToResult(t.tallies[0], t.tallies[1], t.tallies[2]).Ok?
  {
    OpensAllWellFormed(c, voters, Recorded(b));
    EachVoterOnce(c, b);
    TallyFits(voters);
  }

  /** In a reachable state the client's tally executes an anonymous proposal exactly when it is time, the votes can
      be paid back and the outcome is delivered, and then with the status that the tally stands for. */
  lemma ClientTallyExecutes<P(!new)>(d: Deployment<P>, w: World<P>, ctx: Ctx, maintainer: Address, key: Key, num: nat,
                                     b: Ballot<P>,
                                     voters: seq<DecodedVoter>)
    requires Lawful(d.curve) && WorldOk(d, w)
    requires Load(w, key, num) == Ok(b) && !b.proposal.publicVoting && OpensAll(d.curve, voters, Recorded(b))
    ensures WellFormed(voters)
    ensures var t := ScalarTallyOf(voters);
            && (forall i :: 0 <= i < 3 ==> t.tallies[i] < U128_LIMIT && t.seeds[i] < U128_LIMIT)
            && var r, status := DoExecute(d, w, ctx, maintainer, key, num, Some(t.tallies), Some(t.seeds)),
                                TalliesToResult(t.tallies[0], t.tallies[1], t.tallies[2]);
            && status.Ok?
            && (r.Ok? <==> Executable(w, ctx, maintainer, key, b) && (b.voters == [] || !UnitTooLarge(d, b.proposal))
                           && OutcomeDelivered(ctx, b.proposal, status.value))
            && (r.Ok? ==> Id(key, num) in r.value.ballots
                          && r.value.ballots[Id(key, num)].proposal.status == status.value)
  {
    LoadedSound(d, w, key, num);
    ClientResult(d.curve, b, voters);
    var t := ScalarTallyOf(voters);
    ExecuteIff(d, w, ctx, maintainer, key, num, b, Some(t.tallies), Some(t.seeds));
    if b.proposal.status == Active {
      ClientTallyAccepted(d.curve, b, voters);
      PayOutExact(d, w, Id(key, num), d.collateral, Address(d.self.id + 1));
    }
  }
}
