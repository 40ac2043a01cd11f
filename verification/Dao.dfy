/** The contract as a step system: all projects, proposals and balances, and every call on them. */
module Dao {
  import opened Curve
  import opened Wrappers
  import opened DaoTypes
  import opened Ledger
  import opened Ballot

  const I128_LIMIT: int := 0x8000_0000_0000_0000_0000_0000_0000_0000

  /** What stays fixed for one deployment: the curve, the contract's own address, the collateral asset,
      the decimals of every token and the hash that turns names into keys. */
  datatype Deployment<!P> = Deployment(
    curve: Group<P>,
    self: Address,
    collateral: Address,
    decimals: Address -> nat,
    keyOf: string -> Key)

  /** What a call learns from outside: the clock, who signed, the pause flag and admins of the
      administration module, the voter's maximum weight, and whether an outcome call succeeds. */
  datatype Ctx = Ctx(now: u64, signers: set<Address>, paused: bool, admins: seq<Address>, maxWeight: u32,
                     outcomeOk: bool)

  datatype Id = Id(key: Key, num: nat)

  /** The stored state, with two running totals kept for accounting: what removals slashed and what
      others sent to the contract unasked. */
  datatype World<P> = World(
    projects: map<Key, Project>,
    registry: seq<Key>,
    anonymous: map<Key, string>,       // the public key of each project's anonymous voting
    totals: map<Key, nat>,
    ballots: map<Id, Ballot<P>>,
    bank: Bank,
    slashed: map<Address, nat>,
    received: map<Address, nat>)

  datatype Call<P> =
    | Register(maintainer: Address, project: Project)
    | UpdateConfig(maintainer: Address, key: Key, maintainers: seq<Address>, url: string, ipfs: string)
    | AnonymousVotingSetup(maintainer: Address, key: Key, publicKey: string)
    | CreateProposal(proposer: Address, key: Key, title: string, ipfs: string, votingEndsAt: u64, publicVoting: bool,
                     token: Option<Address>, outcomes: Option<nat>)
    | CastBallot(voter: Address, key: Key, num: nat, vote: Vote<P>)
    | RemoveBallot(maintainer: Address, key: Key, num: nat, voter: Address)
    | RevokeProposal(maintainer: Address, key: Key, num: nat)
    | Execute(maintainer: Address, key: Key, num: nat, tallies: Option<seq<u128>>, seeds: Option<seq<u128>>)
    | AddConflictOfInterest(maintainer: Address, key: Key, num: nat, addresses: seq<Address>)
    | RemoveConflictOfInterest(maintainer: Address, key: Key, num: nat, addresses: seq<Address>)
    | OutsideTransfer(asset: Address, from: Address, to: Address, amount: nat)

  datatype Event<P> = Event(ctx: Ctx, call: Call<P>)

  /******* Escrow *******/

  datatype Payment = Payment(asset: Address, amount: nat)

  function Pow10(n: nat): nat {
    if n == 0 then 1 else 10 * Pow10(n - 1)
  }

  /** What a vote of the given weight locks: tokens by weight, or the fixed vote collateral. */
  function VoteEscrow<P>(d: Deployment<P>, p: Proposal, weight: u32): Payment {
    match p.token
    case None => Payment(d.collateral, VOTE_COLLATERAL)
    case Some(t) => Payment(t, weight * Pow10(d.decimals(t)))
  }

  /** The same amount as the contract computes it, in checked `i128` arithmetic. */
  function CheckedEscrow<P>(d: Deployment<P>, p: Proposal, weight: u32): Result<Payment> {
    var _ :- Need(p.token.Some? ==> Pow10(d.decimals(p.token.value)) < I128_LIMIT, ArithmeticTrap);
    var _ :- Need(p.token.Some? ==> VoteEscrow(d, p, weight).amount < I128_LIMIT, ArithmeticTrap);
    Ok(VoteEscrow(d, p, weight))
  }

  function Share(payment: Payment, asset: Address): nat {
    if payment.asset == asset then payment.amount else 0
  }

  /** What the votes have locked of one asset. */
  function OwedToVotes<P>(d: Deployment<P>, p: Proposal, vs: seq<Vote<P>>, asset: Address): nat {
    if vs == [] then 0
    else Share(VoteEscrow(d, p, vs[0].weight), asset) + OwedToVotes(d, p, vs[1..], asset)
  }

  /** What a ballot owes in one asset: the proposal collateral and the votes. */
  function Owed<P>(d: Deployment<P>, b: Ballot<P>, asset: Address): nat {
    Share(Payment(d.collateral, PROPOSAL_COLLATERAL), asset) + OwedToVotes(d, b.proposal, Recorded(b), asset)
  }

  /** The proposer's deposit. */
  function CreationCollateral(token: Option<Address>): nat {
    if token.Some? then PROPOSAL_COLLATERAL else PROPOSAL_COLLATERAL + VOTE_COLLATERAL
  }

  /** The escrow of every recorded vote goes back to its voter, in order. */
  function PayVotes<P>(d: Deployment<P>, bank: Bank, p: Proposal, vs: seq<Vote<P>>): Result<Bank>
    decreases |vs|
  {
    if vs == [] then Ok(bank)
    else
      var pay :- CheckedEscrow(d, p, vs[0].weight);
      var paid :- Transfer(bank, pay.asset, d.self, vs[0].address, pay.amount);
      PayVotes(d, paid, p, vs[1..])
  }

  function PayOut<P>(d: Deployment<P>, bank: Bank, b: Ballot<P>): Result<Bank> {
    var paid :- Transfer(bank, d.collateral, d.self, b.proposal.proposer, PROPOSAL_COLLATERAL);
    PayVotes(d, paid, b.proposal, Recorded(b))
  }

  /******* Access *******/

  function AuthMaintainer<P>(w: World<P>, ctx: Ctx, maintainer: Address, key: Key): Result<()> {
    var _ :- Need(maintainer in ctx.signers, Unauthorized);
    var _ :- Need(key in w.projects, InvalidKey);
    Need(maintainer in w.projects[key].maintainers, UnauthorizedSigner)
  }

  function Count(totals: map<Key, nat>, key: Key): nat {
    if key in totals then totals[key] else 0
  }

  function Total<P>(w: World<P>, key: Key): nat {
    Count(w.totals, key)
  }

  function Load<P>(w: World<P>, key: Key, num: nat): Result<Ballot<P>> {
    var _ :- Need(num / MAX_PROPOSALS_PER_PAGE < MAX_PAGES, NoProposalOrPageFound);
    var _ :- Need(key in w.projects, InvalidKey);
    if Id(key, num) in w.ballots then Ok(w.ballots[Id(key, num)]) else Err(NoProposalOrPageFound)
  }

  function Store<P>(w: World<P>, key: Key, num: nat, b: Ballot<P>): World<P> {
    w.(ballots := w.ballots[Id(key, num) := b])
  }

  /******* Calls *******/

  predicate NameOk(name: string) {
    |name| <= 30 && forall i :: 0 <= i < |name| ==>
                                  'a' <= name[i] <= 'z' || 'A' <= name[i] <= 'Z' || '0' <= name[i] <= '9'
  }

  function DoRegister<P>(d: Deployment<P>, w: World<P>, ctx: Ctx, maintainer: Address, project: Project)
    : Result<World<P>> {
    var _ :- Need(!ctx.paused, ContractPaused);
    var _ :- Need(NameOk(project.name), InvalidProjectName);
    var key := d.keyOf(project.name);
    var _ :- Need(key !in w.projects, ProjectAlreadyExist);
    var _ :- Need(maintainer in ctx.signers, Unauthorized);
    var _ :- Need(maintainer in project.maintainers, UnauthorizedSigner);
    var bank :- Transfer(w.bank, d.collateral, maintainer, d.self, REGISTER_COLLATERAL);
    Ok(w.(projects := w.projects[key := project], registry := w.registry + [key], bank := bank))
  }

  function DoUpdateConfig<P>(w: World<P>, ctx: Ctx, maintainer: Address, key: Key, maintainers: seq<Address>,
                             url: string, ipfs: string)
    : Result<World<P>> {
    var _ :- Need(!ctx.paused, ContractPaused);
    var _ :- AuthMaintainer(w, ctx, maintainer, key);
    var _ :- Need(maintainers != [], MissingMaintainer);
    Ok(w.(projects := w.projects[key := w.projects[key].(maintainers := maintainers, url := url, ipfs := ipfs)]))
  }

  function DoSetup<P>(w: World<P>, ctx: Ctx, maintainer: Address, key: Key, publicKey: string): Result<World<P>> {
    var _ :- Need(!ctx.paused, ContractPaused);
    var _ :- AuthMaintainer(w, ctx, maintainer, key);
    Ok(w.(anonymous := w.anonymous[key := publicKey]))
  }

  function DoCreate<P>(d: Deployment<P>, w: World<P>, ctx: Ctx, proposer: Address, key: Key, title: string,
                       ipfs: string,
                       votingEndsAt: u64, publicVoting: bool, token: Option<Address>,
                       outcomes: Option<nat>): Result<World<P>> {
    var _ :- Need(!ctx.paused, ContractPaused);
    var _ :- Need(ctx.now + MAX_VOTING_PERIOD < U64_LIMIT, ArithmeticTrap);
    var _ :- Need(ctx.now + MIN_VOTING_PERIOD <= votingEndsAt <= ctx.now + MAX_VOTING_PERIOD
                  && 10 <= |title| <= MAX_TITLE_LENGTH && 32 <= |ipfs| <= 64, ProposalInputValidation);
    var _ :- Need(proposer in ctx.signers, Unauthorized);
    var bank :- Transfer(w.bank, d.collateral, proposer, d.self, CreationCollateral(token));
    var _ :- Need(publicVoting || key in w.anonymous, NoAnonymousVotingConfig);
    var num := Total(w, key);
    var _ :- Need(num / MAX_PROPOSALS_PER_PAGE < MAX_PAGES, NoProposalOrPageFound);
    var _ :- Need(key in w.projects, InvalidKey);
    var p := Proposal(num, title, proposer, ipfs, votingEndsAt, publicVoting, token, outcomes, Active);
    Ok(w.(totals := w.totals[key := num + 1],
       ballots := w.ballots[Id(key, num) := NewBallot(d.curve, p)],
       bank := bank))
  }

  function DoCast<P(==)>(d: Deployment<P>, w: World<P>, ctx: Ctx, voter: Address, key: Key, num: nat, v: Vote<P>)
    : Result<World<P>> {
    var _ :- Need(!ctx.paused, ContractPaused);
    var _ :- Need(voter in ctx.signers, Unauthorized);
    var b :- Load(w, key, num);
    var _ :- CheckVote(d.curve, b, ctx.now, ctx.maxWeight, voter, v);
    var pay :- CheckedEscrow(d, b.proposal, v.weight);
    var bank :- Transfer(w.bank, pay.asset, voter, d.self, pay.amount);
    var e :- RecordVote(d.curve, b, voter, v);
    Ok(Store(w, key, num, e).(bank := bank))
  }

  function DoRemove<P>(d: Deployment<P>, w: World<P>, ctx: Ctx, maintainer: Address, key: Key, num: nat, voter: Address)
    : Result<World<P>> {
    var _ :- Need(!ctx.paused, ContractPaused);
    var _ :- AuthMaintainer(w, ctx, maintainer, key);
    var b :- Load(w, key, num);
    var e :- RemoveVote(d.curve, b, voter);
    var pay := VoteEscrow(d, b.proposal, if voter in b.votes then b.votes[voter].weight else 0);
    Ok(Store(w, key, num, e).(slashed := Plus(w.slashed, pay.asset, pay.amount)))
  }

  function DoRevoke<P>(w: World<P>, ctx: Ctx, maintainer: Address, key: Key, num: nat): Result<World<P>> {
    var _ :- Need(!ctx.paused, ContractPaused);
    var _ :- if maintainer in ctx.admins then Need(maintainer in ctx.signers, Unauthorized)
             else AuthMaintainer(w, ctx, maintainer, key);
    var b :- Load(w, key, num);
    var e :- Revoke(b);
    Ok(Store(w, key, num, e))
  }

  function OutcomeIndex(status: Status): nat {
    match status
    case Approved => 0
    case Rejected => 1
    case _ => 2
  }

  function DoExecute<P(==)>(d: Deployment<P>, w: World<P>, ctx: Ctx, maintainer: Address, key: Key, num: nat,
                            tallies: Option<seq<u128>>, seeds: Option<seq<u128>>): Result<World<P>> {
    var _ :- Need(!ctx.paused, ContractPaused);
    var _ :- AuthMaintainer(w, ctx, maintainer, key);
    var b :- Load(w, key, num);
    var _ :- Need(b.proposal.status == Active, ProposalActive);
    var _ :- Need(b.proposal.votingEndsAt + TIMELOCK_DELAY < U64_LIMIT, ArithmeticTrap);
    var _ :- Need(b.proposal.votingEndsAt + TIMELOCK_DELAY <= ctx.now, ProposalVotingTime);
    var bank :- PayOut(d, w.bank, b);
    var status :- Decide(d.curve, b, key in w.anonymous, tallies, seeds);
    var _ :- Need(b.proposal.outcomes.Some? && OutcomeIndex(status) < b.proposal.outcomes.value ==>
                    ctx.outcomeOk, OutcomeError);
    Ok(Store(w, key, num, b.(proposal := b.proposal.(status := status))).(bank := bank))
  }

  function DoAddConflicts<P>(w: World<P>, ctx: Ctx, maintainer: Address, key: Key, num: nat, addresses: seq<Address>)
    : Result<World<P>> {
    var _ :- Need(!ctx.paused, ContractPaused);
    var _ :- AuthMaintainer(w, ctx, maintainer, key);
    var b :- Load(w, key, num);
    var e :- AddConflicts(b, addresses);
    Ok(Store(w, key, num, e))
  }

  function DoRemoveConflicts<P>(w: World<P>, ctx: Ctx, maintainer: Address, key: Key, num: nat, addresses: seq<Address>)
    : Result<World<P>> {
    var _ :- Need(!ctx.paused, ContractPaused);
    var _ :- AuthMaintainer(w, ctx, maintainer, key);
    var b :- Load(w, key, num);
    var e :- RemoveConflicts(b, addresses);
    Ok(Store(w, key, num, e))
  }

  /** A transfer between other parties, or a gift to the contract: never out of the contract. */
  function DoOutside<P>(d: Deployment<P>, w: World<P>, asset: Address, from: Address, to: Address, amount: nat)
    : Result<World<P>> {
    var _ :- Need(from != d.self, Unauthorized);
    var bank :- Transfer(w.bank, asset, from, to, amount);
    Ok(w.(bank := bank, received := if to == d.self then Plus(w.received, asset, amount) else w.received))
  }

  function Step<P(==)>(d: Deployment<P>, w: World<P>, e: Event<P>): Result<World<P>> {
    match e.call
    case Register(maintainer, project) => DoRegister(d, w, e.ctx, maintainer, project)
    case UpdateConfig(maintainer, key, maintainers, url, ipfs) =>
      DoUpdateConfig(w, e.ctx, maintainer, key, maintainers, url, ipfs)
    case AnonymousVotingSetup(maintainer, key, publicKey) => DoSetup(w, e.ctx, maintainer, key, publicKey)
    case CreateProposal(proposer, key, title, ipfs, votingEndsAt, publicVoting, token, outcomes) =>
      DoCreate(d, w, e.ctx, proposer, key, title, ipfs, votingEndsAt, publicVoting, token, outcomes)
    case CastBallot(voter, key, num, v) => DoCast(d, w, e.ctx, voter, key, num, v)
    case RemoveBallot(maintainer, key, num, voter) => DoRemove(d, w, e.ctx, maintainer, key, num, voter)
    case RevokeProposal(maintainer, key, num) => DoRevoke(w, e.ctx, maintainer, key, num)
    case Execute(maintainer, key, num, tallies, seeds) => DoExecute(d, w, e.ctx, maintainer, key, num, tallies, seeds)
    case AddConflictOfInterest(maintainer, key, num, addresses) =>
      DoAddConflicts(w, e.ctx, maintainer, key, num, addresses)
    case RemoveConflictOfInterest(maintainer, key, num, addresses) =>
      DoRemoveConflicts(w, e.ctx, maintainer, key, num, addresses)
    case OutsideTransfer(asset, from, to, amount) => DoOutside(d, w, asset, from, to, amount)
  }

  /** A failed call leaves the state as it was. */
  function Next<P(==)>(d: Deployment<P>, w: World<P>, e: Event<P>): World<P> {
    var r := Step(d, w, e);
    if r.Ok? then r.value else w
  }

  function Run<P(==)>(d: Deployment<P>, w: World<P>, trace: seq<Event<P>>): World<P>
    decreases |trace|
  {
    if trace == [] then w else Run(d, Next(d, w, trace[0]), trace[1..])
  }

  /** The contract's own address signs nothing: it cannot be called from within itself. */
  ghost predicate Outside<P>(d: Deployment<P>, trace: seq<Event<P>>) {
    forall i :: 0 <= i < |trace| ==> d.self !in trace[i].ctx.signers
  }

  /** The state right after deployment, with arbitrary balances of other accounts. */
  ghost predicate Initial<P>(d: Deployment<P>, w: World<P>) {
    && w.projects == map[] && w.registry == [] && w.anonymous == map[] && w.totals == map[] && w.ballots == map[]
    && w.slashed == map[] && w.received == map[]
    && forall asset :: Balance(w.bank, asset, d.self) == 0
  }
}
