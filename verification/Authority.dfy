/** Nothing happens behind anybody's back: whatever a call changes was signed by whom it concerns. */
module Authority {
  import opened Curve
  import opened Wrappers
  import opened DaoTypes
  import opened Ledger
  import opened Ballot
  import opened Dao
  import opened DaoProofs
  import opened DaoTheorems
  import opened CallRules
  import opened ExecutionRules

  /** The account in whose name a call is made. */
  function Caller<P>(call: Call<P>): Address {
    match call
    case Register(maintainer, _) => maintainer
    case UpdateConfig(maintainer, _, _, _, _) => maintainer
    case AnonymousVotingSetup(maintainer, _, _) => maintainer
    case CreateProposal(proposer, _, _, _, _, _, _, _) => proposer
    case CastBallot(voter, _, _, _) => voter
    case RemoveBallot(maintainer, _, _, _) => maintainer
    case RevokeProposal(maintainer, _, _) => maintainer
    case Execute(maintainer, _, _, _, _) => maintainer
    case AddConflictOfInterest(maintainer, _, _, _) => maintainer
    case RemoveConflictOfInterest(maintainer, _, _, _) => maintainer
    case OutsideTransfer(_, from, _, _) => from
  }

  /** Name, configuration and anonymous voting of the project are as they were. */
  predicate SameProject<P>(w: World<P>, next: World<P>, key: Key) {
    && (key in w.projects <==> key in next.projects) && (key in w.projects ==> next.projects[key] == w.projects[key])
    && (key in w.anonymous <==> key in next.anonymous)
    && (key in w.anonymous ==> next.anonymous[key] == w.anonymous[key])
  }

  lemma OnProposalsKeepsProjects<P>(d: Deployment<P>, w: World<P>, e: Event<P>)
    requires Step(d, w, e).Ok?
    requires e.call.CastBallot? || e.call.RemoveBallot? || e.call.RevokeProposal?
    ensures Step(d, w, e).value.projects == w.projects && Step(d, w, e).value.anonymous == w.anonymous
  {
  }

  lemma ClosingKeepsProjects<P>(d: Deployment<P>, w: World<P>, e: Event<P>)
    requires Step(d, w, e).Ok?
    requires e.call.Execute? || e.call.AddConflictOfInterest? || e.call.RemoveConflictOfInterest?
    ensures Step(d, w, e).value.projects == w.projects && Step(d, w, e).value.anonymous == w.anonymous
  {
  }

  lemma OthersKeepProjects<P>(d: Deployment<P>, w: World<P>, e: Event<P>)
    requires Step(d, w, e).Ok? && (e.call.CreateProposal? || e.call.OutsideTransfer?)
    ensures Step(d, w, e).value.projects == w.projects && Step(d, w, e).value.anonymous == w.anonymous
  {
  }

  /** A call to the registry: a new project leaves the others alone, a maintainer may change or set up one. */
  lemma RegistryCallsKeepNames<P>(d: Deployment<P>, w: World<P>, e: Event<P>, key: Key)
    requires Step(d, w, e).Ok? && key in w.projects
    requires e.call.Register? || e.call.UpdateConfig? || e.call.AnonymousVotingSetup?
    ensures var next := Step(d, w, e).value;
            && key in next.projects && next.projects[key].name == w.projects[key].name
            && (SameProject(w, next, key) || ByMaintainer(w, e.ctx, Caller(e.call), key))
  {
    match e.call {
      case UpdateConfig(maintainer, k, maintainers, url, ipfs) =>
        UpdateRule(w, e.ctx, maintainer, k, maintainers, url, ipfs);
      case AnonymousVotingSetup(maintainer, k, publicKey) => SetupRule(w, e.ctx, maintainer, k, publicKey);
      case _ =>
    }
  }

  /** A project changes only by the hand of one of its maintainers, and never its name. */
  lemma ProjectChangesAreSigned<P>(d: Deployment<P>, w: World<P>, e: Event<P>, key: Key)
    requires key in w.projects
    ensures var next := Next(d, w, e);
            && key in next.projects && next.projects[key].name == w.projects[key].name
            && (SameProject(w, next, key) || ByMaintainer(w, e.ctx, Caller(e.call), key))
  {
    if Step(d, w, e).Ok? {
      match e.call {
        case Register(_, _) => RegistryCallsKeepNames(d, w, e, key);
        case UpdateConfig(_, _, _, _, _) => RegistryCallsKeepNames(d, w, e, key);
        case AnonymousVotingSetup(_, _, _) => RegistryCallsKeepNames(d, w, e, key);
        case CreateProposal(_, _, _, _, _, _, _, _) => OthersKeepProjects(d, w, e);
        case OutsideTransfer(_, _, _, _) => OthersKeepProjects(d, w, e);
        case CastBallot(_, _, _, _) => OnProposalsKeepsProjects(d, w, e);
        case RemoveBallot(_, _, _, _) => OnProposalsKeepsProjects(d, w, e);
        case RevokeProposal(_, _, _) => OnProposalsKeepsProjects(d, w, e);
        case _ => ClosingKeepsProjects(d, w, e);
      }
    }
  }

  /** The voter signed for one more vote, and that is all that is new. */
  predicate OwnVote<P(==)>(ctx: Ctx, b: Ballot<P>, f: Ballot<P>, voter: Address) {
    && !ctx.paused && voter in ctx.signers && voter !in b.votes && voter in f.votes && f.votes[voter].address == voter
    && f == b.(votes := b.votes[voter := f.votes[voter]], voters := b.voters + [voter], tallies := f.tallies)
  }

  lemma CastIsOwnVote<P(!new)>(d: Deployment<P>, w: World<P>, e: Event<P>)
    requires Lawful(d.curve) && WorldOk(d, w) && d.self !in e.ctx.signers && e.call.CastBallot? && Step(d, w, e).Ok?
    ensures var id, next := Id(e.call.key, e.call.num), Step(d, w, e).value;
            && id in w.ballots && id in next.ballots
            && OwnVote(e.ctx, w.ballots[id], next.ballots[id], e.call.voter)
  {
    var id := Id(e.call.key, e.call.num);
    CastRule(d, w, e.ctx, e.call.voter, e.call.key, e.call.num, e.call.vote, d.collateral, e.call.voter);
    assert SoundAt(d, w, id);
  }

  /** Who may make the other calls on a proposal. */
  lemma MaintainedBy<P(!new)>(d: Deployment<P>, w: World<P>, e: Event<P>, id: Id)
    requires Lawful(d.curve) && WorldOk(d, w) && Target(e.call) == Some(id) && Step(d, w, e).Ok?
    requires !e.call.CastBallot?
    ensures || ByMaintainer(w, e.ctx, Caller(e.call), id.key)
            || (e.call.RevokeProposal? && Caller(e.call) in e.ctx.admins && Caller(e.call) in e.ctx.signers)
  {
    match e.call {
      case RemoveBallot(maintainer, key, num, voter) => RemoveIff(d, w, e.ctx, maintainer, key, num, voter);
      case RevokeProposal(maintainer, key, num) => RevokeRule(d, w, e.ctx, maintainer, key, num);
      case Execute(maintainer, key, num, tallies, seeds) =>
        LoadIff(d, w, key, num);
        CloseRule(d, w, e.ctx, maintainer, id, tallies, seeds);
      case AddConflictOfInterest(maintainer, key, num, addresses) =>
        AddConflictsRule(d, w, e.ctx, maintainer, key, num, addresses, maintainer);
      case RemoveConflictOfInterest(maintainer, key, num, addresses) =>
        var at := RemoveConflictsRule(d, w, e.ctx, maintainer, key, num, addresses);
    }
  }

  lemma RevokedIsMalicious<P(!new)>(d: Deployment<P>, w: World<P>, e: Event<P>)
    requires WorldOk(d, w) && e.call.RevokeProposal? && Step(d, w, e).Ok?
    ensures var id := Id(e.call.key, e.call.num);
            id in Step(d, w, e).value.ballots && Step(d, w, e).value.ballots[id].proposal.status == Malicious
  {
    RevokeRule(d, w, e.ctx, e.call.maintainer, e.call.key, e.call.num);
  }

  /** A proposal changes only by votes that their voters signed, by the hand of a maintainer of the project, or by
      an administrator who revokes it. */
  lemma BallotChangesAreSigned<P(!new)>(d: Deployment<P>, w: World<P>, e: Event<P>, id: Id)
    requires Lawful(d.curve) && WorldOk(d, w) && d.self !in e.ctx.signers && id in w.ballots
    ensures var next, who := Next(d, w, e), Caller(e.call);
            && id in next.ballots
            && var b, f := w.ballots[id], next.ballots[id];
            || f == b
            || OwnVote(e.ctx, b, f, who)
            || ByMaintainer(w, e.ctx, who, id.key)
            || (f.proposal.status == Malicious && who in e.ctx.admins && who in e.ctx.signers)
  {
    BallotStep(d, w, e, id);
    if Target(e.call) == Some(id) && Step(d, w, e).Ok? {
      if e.call.CastBallot? {
        CastIsOwnVote(d, w, e);
      } else {
        MaintainedBy(d, w, e, id);
        if e.call.RevokeProposal? {
          RevokedIsMalicious(d, w, e);
        }
      }
    }
  }

  /** If the balance went down, it is the caller's own, and the caller has signed (transfers outside of the contract
      apart), or the contract closes a proposal. */
  predicate PaidRightly<P>(d: Deployment<P>, w: World<P>, e: Event<P>, next: World<P>, asset: Address, who: Address) {
    Balance(next.bank, asset, who) < Balance(w.bank, asset, who) ==>
      if who == d.self then e.call.Execute? && ByMaintainer(w, e.ctx, Caller(e.call), e.call.key)
      else who == Caller(e.call) && (who in e.ctx.signers || e.call.OutsideTransfer?)
  }

  lemma RegisterPays<P>(d: Deployment<P>, w: World<P>, e: Event<P>, asset: Address, who: Address)
    requires d.self !in e.ctx.signers && e.call.Register? && Step(d, w, e).Ok?
    ensures PaidRightly(d, w, e, Step(d, w, e).value, asset, who)
  {
    RegisterRule(d, w, e.ctx, e.call.maintainer, e.call.project, asset, who);
  }

  lemma CreatePays<P(!new)>(d: Deployment<P>, w: World<P>, e: Event<P>, asset: Address, who: Address)
    requires Lawful(d.curve) && d.self !in e.ctx.signers && e.call.CreateProposal? && Step(d, w, e).Ok?
    ensures PaidRightly(d, w, e, Step(d, w, e).value, asset, who)
  {
    var c := e.call;
    CreateRule(d, w, e.ctx, c.proposer, c.key, c.title, c.ipfs, c.votingEndsAt, c.publicVoting, c.token, c.outcomes,
               asset, who);
  }

  lemma CastPays<P(!new)>(d: Deployment<P>, w: World<P>, e: Event<P>, asset: Address, who: Address)
    requires Lawful(d.curve) && WorldOk(d, w) && d.self !in e.ctx.signers && e.call.CastBallot? && Step(d, w, e).Ok?
    ensures PaidRightly(d, w, e, Step(d, w, e).value, asset, who)
  {
    CastRule(d, w, e.ctx, e.call.voter, e.call.key, e.call.num, e.call.vote, asset, who);
  }

  lemma ExecutePays<P(!new)>(d: Deployment<P>, w: World<P>, e: Event<P>, asset: Address, who: Address)
    requires Lawful(d.curve) && WorldOk(d, w) && e.call.Execute? && Step(d, w, e).Ok?
    ensures PaidRightly(d, w, e, Step(d, w, e).value, asset, who)
  {
    var id := Id(e.call.key, e.call.num);
    LoadIff(d, w, id.key, id.num);
    CloseRule(d, w, e.ctx, e.call.maintainer, id, e.call.tallies, e.call.seeds);
  }

  /** The calls that move no money. */
  lemma OthersPayNothing<P>(d: Deployment<P>, w: World<P>, e: Event<P>)
    requires Step(d, w, e).Ok?
    requires e.call.UpdateConfig? || e.call.AnonymousVotingSetup? || e.call.RemoveBallot? || e.call.RevokeProposal?
             || e.call.AddConflictOfInterest? || e.call.RemoveConflictOfInterest?
    ensures Step(d, w, e).value.bank == w.bank
  {
  }

  /** No account but the caller's own is ever charged, and that one has signed (transfers outside of the contract
      apart); the contract itself pays only to close a proposal. */
  lemma OnlySignersPay<P(!new)>(d: Deployment<P>, w: World<P>, e: Event<P>, asset: Address, who: Address)
    requires Lawful(d.curve) && WorldOk(d, w) && d.self !in e.ctx.signers
    ensures PaidRightly(d, w, e, Next(d, w, e), asset, who)
  {
    if Step(d, w, e).Ok? {
      match e.call {
        case Register(_, _) => RegisterPays(d, w, e, asset, who);
        case CreateProposal(_, _, _, _, _, _, _, _) => CreatePays(d, w, e, asset, who);
        case CastBallot(_, _, _, _) => CastPays(d, w, e, asset, who);
        case Execute(_, _, _, _, _) => ExecutePays(d, w, e, asset, who);
        case OutsideTransfer(a, from, to, amount) => OutsideMoves(w.bank, a, from, to, amount, asset, who);
        case _ => OthersPayNothing(d, w, e);
      }
    }
  }

  lemma OutsideMoves(bank: Bank, asset: Address, from: Address, to: Address, amount: nat, a: Address, who: Address)
    requires Transfer(bank, asset, from, to, amount).Ok?
    ensures Balance(Transfer(bank, asset, from, to, amount).value, a, who) < Balance(bank, a, who) ==> who == from
  {
    if from != to {
      TransferMoves(bank, asset, from, to, amount, a, who);
    }
  }
}
