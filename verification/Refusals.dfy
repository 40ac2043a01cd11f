/** Every refusal names a reason that holds. */
module Refusals {
  import opened Curve
  import opened Wrappers
  import opened DaoTypes
  import opened Ledger
  import opened Ballot
  import opened BallotProofs
  import opened Dao
  import opened DaoProofs
  import opened Discrepancies
  import opened CallRules
  import opened ExecutionRules

  /** A call of a maintainer on project `key` is refused: not signed, no such project, or not a maintainer of it. */
  predicate NotMaintainer<P>(w: World<P>, ctx: Ctx, who: Address, key: Key, error: Error) {
    match error
    case ContractPaused => ctx.paused
    case Unauthorized => who !in ctx.signers
    case InvalidKey => key !in w.projects
    case UnauthorizedSigner => key in w.projects && who !in w.projects[key].maintainers
    case _ => false
  }

  /** A call on a proposal is refused because of it: there is none, or it is closed. */
  predicate NotOpen<P>(w: World<P>, id: Id, error: Error) {
    match error
    case InvalidKey => id !in w.ballots && id.key !in w.projects
    case NoProposalOrPageFound => id !in w.ballots
    case ProposalActive => id in w.ballots && w.ballots[id].proposal.status != Active
    case _ => false
  }

  predicate NotVotable<P(==)>(d: Deployment<P>, w: World<P>, ctx: Ctx, voter: Address, b: Ballot<P>, v: Vote<P>,
                              error: Error) {
    match error
    case ProposalVotingTime => b.proposal.votingEndsAt <= ctx.now
    case VoteLimitExceeded => 40 <= |b.voters|
    case AlreadyVoted => voter in b.votes
    case VoterConflicted => voter in b.conflicts
    case WrongVoteType => v.PublicVote? != b.proposal.publicVoting
    case BadCommitment =>
      && v.AnonymousVote?
      && !(|v.commitments| == 3 && |v.encryptedVotes| == 3 && |v.encryptedSeeds| == 3
           && forall i :: 0 <= i < 3 ==> Times(d.curve, d.curve.order, v.commitments[i]) == d.curve.zero)
    case WrongVoter => v.address != voter
    case VoterWeight => v.weight == 0 || (b.proposal.token == None && ctx.maxWeight < v.weight)
    case CollateralError => !CanLock(d, w.bank, b.proposal, voter, v.weight)
    case ArithmeticTrap => b.proposal.token != None && !CanLock(d, w.bank, b.proposal, voter, v.weight)
    case _ => false
  }

  /** Where an error of `vote` on an existing proposal comes from. */
  predicate CastError<P(==)>(d: Deployment<P>, bank: Bank, ctx: Ctx, voter: Address, b: Ballot<P>, v: Vote<P>,
                             error: Error) {
    var checked := CheckVote(d.curve, b, ctx.now, ctx.maxWeight, voter, v);
    var pay := CheckedEscrow(d, b.proposal, v.weight);
    || (error == ContractPaused && ctx.paused)
    || (error == Unauthorized && voter !in ctx.signers)
    || checked == Err(error)
    || (checked.Ok? && pay == Err(error))
    || (checked.Ok? && pay.Ok? && Transfer(bank, pay.value.asset, voter, d.self, pay.value.amount) == Err(error))
    || (checked.Ok? && RecordVote(d.curve, b, voter, v) == Err(error))
  }

  lemma CastErrors<P>(d: Deployment<P>, w: World<P>, ctx: Ctx, voter: Address, key: Key, num: nat, v: Vote<P>)
    requires Load(w, key, num).Ok? && DoCast(d, w, ctx, voter, key, num, v).Err?
    ensures CastError(d, w.bank, ctx, voter, Load(w, key, num).value, v, DoCast(d, w, ctx, voter, key, num, v).error)
  {
  }

  lemma CastErrorMeans<P>(d: Deployment<P>, w: World<P>, ctx: Ctx, voter: Address, id: Id, b: Ballot<P>, v: Vote<P>,
                          error: Error)
    requires id in w.ballots && w.ballots[id] == b
    requires CheckVote(d.curve, b, ctx.now, ctx.maxWeight, voter, v).Ok? ==> RecordVote(d.curve, b, voter, v).Ok?
    requires CastError(d, w.bank, ctx, voter, b, v, error)
    ensures || (error == ContractPaused && ctx.paused)
            || (error == Unauthorized && voter !in ctx.signers)
            || NotOpen(w, id, error)
            || NotVotable(d, w, ctx, voter, b, v, error)
  {
    ChargeRefused(d, w.bank, b.proposal, voter, v.weight);
    if CheckVote(d.curve, b, ctx.now, ctx.maxWeight, voter, v).Err? {
      CheckRefused(d, w, ctx, voter, b, v);
    }
  }

  lemma NotFound<P>(d: Deployment<P>, w: World<P>, ctx: Ctx, voter: Address, key: Key, num: nat, v: Vote<P>)
    requires Load(w, key, num).Err? && Id(key, num) !in w.ballots
    ensures var r := DoCast(d, w, ctx, voter, key, num, v);
            && r.Err?
            && ((r.error == ContractPaused && ctx.paused) || (r.error == Unauthorized && voter !in ctx.signers)
                || NotOpen(w, Id(key, num), r.error))
  {
  }

  lemma CastRefused<P(!new)>(d: Deployment<P>, w: World<P>, ctx: Ctx, voter: Address, key: Key, num: nat, v: Vote<P>)
    requires Lawful(d.curve) && WorldOk(d, w) && DoCast(d, w, ctx, voter, key, num, v).Err?
    ensures var error, id := DoCast(d, w, ctx, voter, key, num, v).error, Id(key, num);
            || (error == ContractPaused && ctx.paused)
            || (error == Unauthorized && voter !in ctx.signers)
            || NotOpen(w, id, error)
            || (id in w.ballots && NotVotable(d, w, ctx, voter, w.ballots[id], v, error))
  {
    LoadIff(d, w, key, num);
    if Load(w, key, num).Ok? {
      assert SoundAt(d, w, Id(key, num));
      CastErrors(d, w, ctx, voter, key, num, v);
      CastVoteKeeps(d.curve, w.ballots[Id(key, num)], ctx.now, ctx.maxWeight, voter, v);
      CastErrorMeans(d, w, ctx, voter, Id(key, num), w.ballots[Id(key, num)], v,
                     DoCast(d, w, ctx, voter, key, num, v).error);
    } else {
      NotFound(d, w, ctx, voter, key, num, v);
    }
  }

  lemma CheckRefused<P>(d: Deployment<P>, w: World<P>, ctx: Ctx, voter: Address, b: Ballot<P>, v: Vote<P>)
    requires CheckVote(d.curve, b, ctx.now, ctx.maxWeight, voter, v).Err?
    ensures var error := CheckVote(d.curve, b, ctx.now, ctx.maxWeight, voter, v).error;
            if error == ProposalActive then b.proposal.status != Active
            else NotVotable(d, w, ctx, voter, b, v, error)
  {
  }

  lemma ChargeRefused<P>(d: Deployment<P>, bank: Bank, p: Proposal, voter: Address, weight: u32)
    ensures var pay := CheckedEscrow(d, p, weight);
            && (pay.Err? ==> pay.error == ArithmeticTrap && p.token != None && !CanLock(d, bank, p, voter, weight))
            && (pay.Ok? ==>
                  var r := Transfer(bank, pay.value.asset, voter, d.self, pay.value.amount);
                  r.Err? ==> r.error == CollateralError && !CanLock(d, bank, p, voter, weight))
  {
  }

  lemma RemoveRefused<P(!new)>(d: Deployment<P>, w: World<P>, ctx: Ctx, maintainer: Address, key: Key, num: nat,
                               voter: Address)
    requires Lawful(d.curve) && WorldOk(d, w) && DoRemove(d, w, ctx, maintainer, key, num, voter).Err?
    ensures var error, id := DoRemove(d, w, ctx, maintainer, key, num, voter).error, Id(key, num);
            || NotMaintainer(w, ctx, maintainer, key, error)
            || NotOpen(w, id, error)
            || (error == VoteNotFound && id in w.ballots && voter !in w.ballots[id].votes)
  {
    LoadIff(d, w, key, num);
    if Load(w, key, num).Ok? {
      assert SoundAt(d, w, Id(key, num));
      RemoveVoteKeeps(d.curve, w.ballots[Id(key, num)], voter);
    }
  }

  lemma RevokeRefused<P(!new)>(d: Deployment<P>, w: World<P>, ctx: Ctx, maintainer: Address, key: Key, num: nat)
    requires WorldOk(d, w) && DoRevoke(w, ctx, maintainer, key, num).Err?
    ensures var error := DoRevoke(w, ctx, maintainer, key, num).error;
            NotMaintainer(w, ctx, maintainer, key, error) || NotOpen(w, Id(key, num), error)
  {
    LoadIff(d, w, key, num);
  }

  lemma ConflictsRefused<P(!new)>(d: Deployment<P>, w: World<P>, ctx: Ctx, maintainer: Address, key: Key, num: nat,
                                  addresses: seq<Address>)
    requires WorldOk(d, w)
    ensures var r := DoAddConflicts(w, ctx, maintainer, key, num, addresses);
            r.Err? ==> NotMaintainer(w, ctx, maintainer, key, r.error) || NotOpen(w, Id(key, num), r.error)
    ensures var r := DoRemoveConflicts(w, ctx, maintainer, key, num, addresses);
            r.Err? ==> NotMaintainer(w, ctx, maintainer, key, r.error) || NotOpen(w, Id(key, num), r.error)
  {
    LoadIff(d, w, key, num);
  }

  /** Tallies and seeds belong to anonymous proposals, three of each. */
  predicate WrongArguments(p: Proposal, tallies: Option<seq<u128>>, seeds: Option<seq<u128>>) {
    if p.publicVoting then tallies.Some? || seeds.Some?
    else tallies.None? || seeds.None? || |tallies.value| != 3 || |seeds.value| != 3
  }

  predicate NotExecutable<P(==)>(d: Deployment<P>, w: World<P>, ctx: Ctx, b: Ballot<P>, tallies: Option<seq<u128>>,
                                 seeds: Option<seq<u128>>, error: Error) {
    match error
    case ProposalVotingTime => ctx.now < b.proposal.votingEndsAt + 86_400
    case TallySeedError => WrongArguments(b.proposal, tallies, seeds)
    case InvalidProof => !WrongArguments(b.proposal, tallies, seeds) && !b.proposal.publicVoting
                         && !OpensSums(d.curve, b, tallies.value, seeds.value)
    case OutcomeError => b.proposal.outcomes.Some? && b.proposal.outcomes.value > 0 && !ctx.outcomeOk
    case ArithmeticTrap =>
      || b.proposal.votingEndsAt + 86_400 >= 0x1_0000_0000_0000_0000
      || (b.voters != [] && b.proposal.token.Some? && d.decimals(b.proposal.token.value) >= 39)
      || (!WrongArguments(b.proposal, tallies, seeds) && !b.proposal.publicVoting
          && !Summable(tallies.value[0], tallies.value[1], tallies.value[2]))
    case _ => false
  }

  lemma DecisionRefused<P(!new)>(d: Deployment<P>, w: World<P>, ctx: Ctx, b: Ballot<P>, tallies: Option<seq<u128>>,
                                 seeds: Option<seq<u128>>)
    requires Lawful(d.curve) && BallotOk(d.curve, b)
    ensures var r := Decide(d.curve, b, true, tallies, seeds);
            r.Err? ==> NotExecutable(d, w, ctx, b, tallies, seeds, r.error)
  {
    if b.proposal.publicVoting {
      PublicResultIsSupermajority(d.curve, b, true);
    } else {
      AnonymousDecision(d.curve, b, tallies, seeds);
      if !WrongArguments(b.proposal, tallies, seeds) {
        OpensIff(d.curve, b, tallies.value, seeds.value);
      }
    }
  }

  /** Where an error of `execute` on an existing proposal comes from. */
  predicate ExecuteError<P(==)>(d: Deployment<P>, w: World<P>, ctx: Ctx, maintainer: Address, id: Id, b: Ballot<P>,
                                tallies: Option<seq<u128>>, seeds: Option<seq<u128>>, error: Error) {
    var status := Decide(d.curve, b, id.key in w.anonymous, tallies, seeds);
    || NotMaintainer(w, ctx, maintainer, id.key, error)
    || (error == ProposalActive && b.proposal.status != Active)
    || (error == ArithmeticTrap && b.proposal.votingEndsAt + 86_400 >= 0x1_0000_0000_0000_0000)
    || (error == ProposalVotingTime && ctx.now < b.proposal.votingEndsAt + 86_400)
    || (b.proposal.status == Active && PayOut(d, w.bank, b) == Err(error))
    || status == Err(error)
    || (error == OutcomeError && b.proposal.outcomes.Some? && b.proposal.outcomes.value > 0 && !ctx.outcomeOk)
  }

  lemma ExecuteErrors<P>(d: Deployment<P>, w: World<P>, ctx: Ctx, maintainer: Address, key: Key, num: nat,
                         tallies: Option<seq<u128>>, seeds: Option<seq<u128>>)
    requires DoExecute(d, w, ctx, maintainer, key, num, tallies, seeds).Err? && Load(w, key, num).Ok?
    ensures ExecuteError(d, w, ctx, maintainer, Id(key, num), Load(w, key, num).value, tallies, seeds,
                         DoExecute(d, w, ctx, maintainer, key, num, tallies, seeds).error)
  {
  }

  lemma NothingToExecute<P>(d: Deployment<P>, w: World<P>, ctx: Ctx, maintainer: Address, key: Key, num: nat,
                            tallies: Option<seq<u128>>, seeds: Option<seq<u128>>)
    requires Load(w, key, num).Err? && Id(key, num) !in w.ballots
    ensures var r := DoExecute(d, w, ctx, maintainer, key, num, tallies, seeds);
            r.Err? && (NotMaintainer(w, ctx, maintainer, key, r.error) || NotOpen(w, Id(key, num), r.error))
  {
  }

  lemma PayOutRefused<P(!new)>(d: Deployment<P>, w: World<P>, id: Id)
    requires WorldOk(d, w) && id in w.ballots && w.ballots[id].proposal.status == Active
    ensures var b := w.ballots[id];
            var r := PayOut(d, w.bank, b);
            r.Err? ==> r.error == ArithmeticTrap && b.voters != [] && b.proposal.token.Some?
                       && d.decimals(b.proposal.token.value) >= 39
  {
    PayOutExact(d, w, id, d.collateral, Address(d.self.id + 1));
    UnitTooLargeIff(d, w.ballots[id].proposal);
  }

  lemma ExecuteErrorMeans<P>(d: Deployment<P>, w: World<P>, ctx: Ctx, maintainer: Address, id: Id, b: Ballot<P>,
                             tallies: Option<seq<u128>>, seeds: Option<seq<u128>>, error: Error)
    requires id in w.ballots && w.ballots[id] == b
    requires ExecuteError(d, w, ctx, maintainer, id, b, tallies, seeds, error)
    requires var r := Decide(d.curve, b, id.key in w.anonymous, tallies, seeds);
             r.Err? ==> NotExecutable(d, w, ctx, b, tallies, seeds, r.error)
    requires b.proposal.status == Active ==>
               var r := PayOut(d, w.bank, b);
               r.Err? ==> r.error == ArithmeticTrap && b.voters != [] && b.proposal.token.Some?
                          && d.decimals(b.proposal.token.value) >= 39
    ensures || NotMaintainer(w, ctx, maintainer, id.key, error)
            || NotOpen(w, id, error)
            || NotExecutable(d, w, ctx, b, tallies, seeds, error)
  {
  }

  lemma ExecuteRefused<P(!new)>(d: Deployment<P>, w: World<P>, ctx: Ctx, maintainer: Address, key: Key, num: nat,
                                tallies: Option<seq<u128>>, seeds: Option<seq<u128>>)
    requires Lawful(d.curve) && WorldOk(d, w) && DoExecute(d, w, ctx, maintainer, key, num, tallies, seeds).Err?
    ensures var error, id := DoExecute(d, w, ctx, maintainer, key, num, tallies, seeds).error, Id(key, num);
            || NotMaintainer(w, ctx, maintainer, key, error)
            || NotOpen(w, id, error)
            || (id in w.ballots && NotExecutable(d, w, ctx, w.ballots[id], tallies, seeds, error))
  {
    LoadIff(d, w, key, num);
    if Load(w, key, num).Ok? {
      var id := Id(key, num);
      assert SoundAt(d, w, id);
      ExecuteErrors(d, w, ctx, maintainer, key, num, tallies, seeds);
      DecisionRefused(d, w, ctx, w.ballots[id], tallies, seeds);
      PublicIgnoresSetup(d.curve, w.ballots[id], key in w.anonymous, tallies, seeds);
      if w.ballots[id].proposal.status == Active {
        PayOutRefused(d, w, id);
      }
      ExecuteErrorMeans(d, w, ctx, maintainer, id, w.ballots[id], tallies, seeds,
                        DoExecute(d, w, ctx, maintainer, key, num, tallies, seeds).error);
    } else {
      NothingToExecute(d, w, ctx, maintainer, key, num, tallies, seeds);
    }
  }

  lemma PublicIgnoresSetup<P>(c: Group<P>, b: Ballot<P>, configured: bool, tallies: Option<seq<u128>>,
                              seeds: Option<seq<u128>>)
    ensures b.proposal.publicVoting || configured ==>
              Decide(c, b, configured, tallies, seeds) == Decide(c, b, true, tallies, seeds)
  {
  }

  lemma RegisterRefused<P>(d: Deployment<P>, w: World<P>, ctx: Ctx, maintainer: Address, project: Project)
    requires DoRegister(d, w, ctx, maintainer, project).Err?
    ensures match DoRegister(d, w, ctx, maintainer, project).error
            case ContractPaused => ctx.paused
            case InvalidProjectName => |project.name| > 30 || exists c :: c in project.name && !Alphanumeric(c)
            case ProjectAlreadyExist => d.keyOf(project.name) in w.projects
            case Unauthorized => maintainer !in ctx.signers
            case UnauthorizedSigner => maintainer !in project.maintainers
            case CollateralError => Balance(w.bank, d.collateral, maintainer) < 50_000_000
            case _ => false
  {
    NameOkIff(project.name);
  }

  lemma ProjectRefused<P>(w: World<P>, ctx: Ctx, maintainer: Address, key: Key, maintainers: seq<Address>, url: string,
                          ipfs: string, publicKey: string)
    ensures var r := DoUpdateConfig(w, ctx, maintainer, key, maintainers, url, ipfs);
            r.Err? ==> NotMaintainer(w, ctx, maintainer, key, r.error)
                       || (r.error == MissingMaintainer && maintainers == [])
    ensures var r := DoSetup(w, ctx, maintainer, key, publicKey);
            r.Err? ==> NotMaintainer(w, ctx, maintainer, key, r.error)
  {
  }

  lemma CreateRefused<P>(d: Deployment<P>, w: World<P>, ctx: Ctx, proposer: Address, key: Key, title: string,
                         ipfs: string, votingEndsAt: u64, publicVoting: bool, token: Option<Address>,
                         outcomes: Option<nat>)
    requires DoCreate(d, w, ctx, proposer, key, title, ipfs, votingEndsAt, publicVoting, token, outcomes).Err?
    ensures match DoCreate(d, w, ctx, proposer, key, title, ipfs, votingEndsAt, publicVoting, token, outcomes).error
            case ContractPaused => ctx.paused
            case ArithmeticTrap => ctx.now + 2_592_000 >= 0x1_0000_0000_0000_0000
            case ProposalInputValidation =>
              !(ctx.now + 86_400 <= votingEndsAt <= ctx.now + 2_592_000 && 10 <= |title| <= 256 && 32 <= |ipfs| <= 64)
            case Unauthorized => proposer !in ctx.signers
            case CollateralError => Balance(w.bank, d.collateral, proposer) < Deposit(token)
            case NoAnonymousVotingConfig => !publicVoting && key !in w.anonymous
            case NoProposalOrPageFound => key in w.totals && w.totals[key] >= 9000
            case InvalidKey => key !in w.projects
            case _ => false
  {
  }
}
