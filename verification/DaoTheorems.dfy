/** What holds over whole runs of the contract. */
module DaoTheorems {
  import opened Curve
  import opened Wrappers
  import opened DaoTypes
  import opened Ledger
  import opened Ballot
  import opened BallotProofs
  import opened Removal
  import opened Dao
  import opened Escrow
  import opened DaoProofs

  /******* Runs *******/

  /** The state before event `i`. */
  function Before<P(==)>(d: Deployment<P>, w: World<P>, trace: seq<Event<P>>, i: nat): World<P>
    requires i <= |trace|
  {
    Run(d, w, trace[..i])
  }

  predicate Succeeds<P(==)>(d: Deployment<P>, w: World<P>, trace: seq<Event<P>>, i: nat)
    requires i < |trace|
  {
    Step(d, Before(d, w, trace, i), trace[i]).Ok?
  }

  lemma {:induction false} RunSplit<P>(d: Deployment<P>, w: World<P>, s: seq<Event<P>>, t: seq<Event<P>>)
    ensures Run(d, w, s + t) == Run(d, Run(d, w, s), t)
    decreases |s|
  {
    if s == [] {
      assert s + t == t;
    } else {
      assert (s + t)[1..] == s[1..] + t;
      RunSplit(d, Next(d, w, s[0]), s[1..], t);
    }
  }

  lemma BeforeStart<P>(d: Deployment<P>, w: World<P>, trace: seq<Event<P>>)
    ensures Before(d, w, trace, 0) == w
  {
    assert trace[..0] == [];
  }

  lemma RunOne<P>(d: Deployment<P>, w: World<P>, trace: seq<Event<P>>, i: nat)
    requires i < |trace|
    ensures Before(d, w, trace, i + 1) == Next(d, Before(d, w, trace, i), trace[i])
  {
    var one := [trace[i]];
    assert trace[..i + 1] == trace[..i] + one;
    RunSplit(d, w, trace[..i], one);
    assert one[1..] == [];
    assert Run(d, Before(d, w, trace, i), one) == Run(d, Next(d, Before(d, w, trace, i), trace[i]), one[1..]);
  }

  lemma RunFrom<P>(d: Deployment<P>, w: World<P>, trace: seq<Event<P>>, i: nat, j: nat)
    requires i <= j <= |trace|
    ensures Before(d, w, trace, j) == Run(d, Before(d, w, trace, i), trace[i..j])
  {
    assert trace[..j] == trace[..i] + trace[i..j];
    RunSplit(d, w, trace[..i], trace[i..j]);
  }

  /** Every state of a run from deployment satisfies the invariant. */
  lemma ReachableOk<P(!new)>(d: Deployment<P>, w: World<P>, trace: seq<Event<P>>, i: nat)
    requires Lawful(d.curve) && Initial(d, w) && Dao.Outside(d, trace) && i <= |trace|
    ensures WorldOk(d, Before(d, w, trace, i))
  {
    InitialOk(d, w);
    RunKeeps(d, w, trace[..i]);
  }

  /******* Escrow *******/

  /** Conservation over all runs, for every asset. */
  lemma EscrowConserved<P(!new)>(d: Deployment<P>, w: World<P>, trace: seq<Event<P>>, asset: Address)
    requires Lawful(d.curve) && Initial(d, w) && Dao.Outside(d, trace)
    ensures Conserved(d, Run(d, w, trace), asset)
  {
    InitialOk(d, w);
    RunKeeps(d, w, trace);
    assert WorldOk(d, Run(d, w, trace));
  }


  /** No execution ever fails for lack of funds. */
  lemma ExecutionNeverLacksFunds<P(!new)>(d: Deployment<P>, w: World<P>, ctx: Ctx, maintainer: Address, key: Key,
                                          num: nat,
                                          tallies: Option<seq<u128>>, seeds: Option<seq<u128>>)
    requires WorldOk(d, w)
    ensures DoExecute(d, w, ctx, maintainer, key, num, tallies, seeds) != Err(CollateralError)
  {
    if DoExecute(d, w, ctx, maintainer, key, num, tallies, seeds) == Err(CollateralError) {
      PayOutExact(d, w, Id(key, num), d.collateral, Address(d.self.id + 1));
    }
  }

  /** What a voter pays for a vote is what execution returns for it. */
  lemma DepositIsPaidBack<P>(d: Deployment<P>, w: World<P>, ctx: Ctx, voter: Address, key: Key, num: nat, v: Vote<P>,
                             asset: Address)
    requires d.self !in ctx.signers
    requires DoCast(d, w, ctx, voter, key, num, v).Ok?
    ensures var next, id := DoCast(d, w, ctx, voter, key, num, v).value, Id(key, num);
            && id in next.ballots
            && voter in next.ballots[id].votes
            && Balance(w.bank, asset, voter)
               == Balance(next.bank, asset, voter)
                  + Share(VoteEscrow(d, next.ballots[id].proposal, next.ballots[id].votes[voter].weight), asset)
  {
    var b := Load(w, key, num).value;
    var pay := VoteEscrow(d, b.proposal, v.weight);
    TransferMoves(w.bank, pay.asset, voter, d.self, pay.amount, asset, voter);
    assert RecordVote(d.curve, b, voter, v).value.votes[voter] == v;
  }

  /******* The effect of one call on the ballots *******/

  /** The proposal a call addresses, if any. */
  function Target<P>(call: Call<P>): Option<Id> {
    match call
    case CastBallot(_, key, num, _) => Some(Id(key, num))
    case RemoveBallot(_, key, num, _) => Some(Id(key, num))
    case RevokeProposal(_, key, num) => Some(Id(key, num))
    case Execute(_, key, num, _, _) => Some(Id(key, num))
    case AddConflictOfInterest(_, key, num, _) => Some(Id(key, num))
    case RemoveConflictOfInterest(_, key, num, _) => Some(Id(key, num))
    case _ => None
  }

  /** A proposal without the parts that calls change. */
  function Terms(p: Proposal): Proposal {
    p.(title := "", ipfs := "", status := Active)
  }

  /** The same call seen from its proposal; executing and revoking are not among the calls that keep it active. */
  function OnBallot<P>(e: Event<P>): seq<BallotCall<P>> {
    match e.call
    case CastBallot(voter, _, _, v) => [Cast(e.ctx.now, e.ctx.maxWeight, voter, v)]
    case RemoveBallot(_, _, _, voter) => [Remove(voter)]
    case AddConflictOfInterest(_, _, _, addresses) => [AddConflict(addresses)]
    case RemoveConflictOfInterest(_, _, _, addresses) => [RemoveConflict(addresses)]
    case _ => []
  }

  predicate Closes<P>(call: Call<P>) {
    call.Execute? || call.RevokeProposal?
  }

  /** A call that addresses a proposal finds it active and changes no other; its terms stay, and unless
      it closes the proposal, which changes nothing but the proposal itself, the ballot moves by the
      ballot-level call. */
  ghost predicate TargetEffect<P>(d: Deployment<P>, w: World<P>, e: Event<P>, id: Id, next: World<P>) {
    && id in w.ballots && id in next.ballots
    && next.ballots == w.ballots[id := next.ballots[id]]
    && w.ballots[id].proposal.status == Active
    && Terms(w.ballots[id].proposal) == Terms(next.ballots[id].proposal)
    && (Closes(e.call) <==> next.ballots[id].proposal.status != Active)
    && (Closes(e.call) ==> next.ballots[id] == w.ballots[id].(proposal := next.ballots[id].proposal))
    && (!Closes(e.call) ==> |OnBallot(e)| == 1 && Play(d.curve, w.ballots[id], OnBallot(e)[0]) == Ok(next.ballots[id]))
    && (e.call.CastBallot? ==> e.ctx.now < w.ballots[id].proposal.votingEndsAt)
    && (e.call.Execute? ==> w.ballots[id].proposal.votingEndsAt + TIMELOCK_DELAY <= e.ctx.now)
  }

  ghost predicate OtherEffect<P>(w: World<P>, e: Event<P>, next: World<P>) {
    if e.call.CreateProposal? then
      var id := Id(e.call.key, Total(w, e.call.key));
      && id in next.ballots
      && next.ballots == w.ballots[id := next.ballots[id]]
      && e.ctx.now + MIN_VOTING_PERIOD <= next.ballots[id].proposal.votingEndsAt
      && next.ballots[id].votes.Keys == {e.call.proposer} && next.ballots[id].votes[e.call.proposer].weight == 0
    else
      next.ballots == w.ballots
  }


  lemma CastEffect<P>(d: Deployment<P>, w: World<P>, e: Event<P>)
    requires e.call.CastBallot?
    requires DoCast(d, w, e.ctx, e.call.voter, e.call.key, e.call.num, e.call.vote).Ok?
    ensures TargetEffect(d, w, e, Id(e.call.key, e.call.num),
                         DoCast(d, w, e.ctx, e.call.voter, e.call.key, e.call.num, e.call.vote).value)
  {
  }

  lemma RemoveEffect<P>(d: Deployment<P>, w: World<P>, e: Event<P>)
    requires e.call.RemoveBallot?
    requires DoRemove(d, w, e.ctx, e.call.maintainer, e.call.key, e.call.num, e.call.voter).Ok?
    ensures TargetEffect(d, w, e, Id(e.call.key, e.call.num),
                         DoRemove(d, w, e.ctx, e.call.maintainer, e.call.key, e.call.num, e.call.voter).value)
  {
  }

  lemma RevokeEffect<P>(d: Deployment<P>, w: World<P>, e: Event<P>)
    requires e.call.RevokeProposal?
    requires DoRevoke(w, e.ctx, e.call.maintainer, e.call.key, e.call.num).Ok?
    ensures TargetEffect(d, w, e, Id(e.call.key, e.call.num),
                         DoRevoke(w, e.ctx, e.call.maintainer, e.call.key, e.call.num).value)
  {
  }

  lemma ExecuteEffect<P>(d: Deployment<P>, w: World<P>, e: Event<P>)
    requires e.call.Execute?
    requires DoExecute(d, w, e.ctx, e.call.maintainer, e.call.key, e.call.num, e.call.tallies, e.call.seeds).Ok?
    ensures TargetEffect(d, w, e, Id(e.call.key, e.call.num),
                         DoExecute(d, w, e.ctx, e.call.maintainer, e.call.key, e.call.num, e.call.tallies,
                                   e.call.seeds).value)
  {
    ExecuteSettles(d, w, e.ctx, e.call.maintainer, e.call.key, e.call.num, e.call.tallies, e.call.seeds);
  }

  lemma AddConflictsEffect<P>(d: Deployment<P>, w: World<P>, e: Event<P>)
    requires e.call.AddConflictOfInterest?
    requires DoAddConflicts(w, e.ctx, e.call.maintainer, e.call.key, e.call.num, e.call.addresses).Ok?
    ensures TargetEffect(d, w, e, Id(e.call.key, e.call.num),
                         DoAddConflicts(w, e.ctx, e.call.maintainer, e.call.key, e.call.num, e.call.addresses).value)
  {
  }

  lemma RemoveConflictsEffect<P>(d: Deployment<P>, w: World<P>, e: Event<P>)
    requires e.call.RemoveConflictOfInterest?
    requires DoRemoveConflicts(w, e.ctx, e.call.maintainer, e.call.key, e.call.num, e.call.addresses).Ok?
    ensures TargetEffect(d, w, e, Id(e.call.key, e.call.num),
                         DoRemoveConflicts(w, e.ctx, e.call.maintainer, e.call.key, e.call.num, e.call.addresses).value)
  {
  }

  lemma CreateEffect<P>(d: Deployment<P>, w: World<P>, e: Event<P>)
    requires e.call.CreateProposal? && Step(d, w, e).Ok?
    ensures OtherEffect(w, e, Step(d, w, e).value)
  {
  }

  lemma ElsewhereEffect<P>(d: Deployment<P>, w: World<P>, e: Event<P>)
    requires Step(d, w, e).Ok? && Target(e.call).None?
    ensures OtherEffect(w, e, Step(d, w, e).value)
  {
    match e.call {
      case Register(_, _) =>
      case UpdateConfig(_, _, _, _, _) =>
      case AnonymousVotingSetup(_, _, _) =>
      case CreateProposal(_, _, _, _, _, _, _, _) => CreateEffect(d, w, e);
      case OutsideTransfer(_, _, _, _) =>
    }
  }

  lemma StepEffect<P>(d: Deployment<P>, w: World<P>, e: Event<P>)
    requires Step(d, w, e).Ok?
    ensures Target(e.call).Some? ==> TargetEffect(d, w, e, Target(e.call).value, Step(d, w, e).value)
    ensures Target(e.call).None? ==> OtherEffect(w, e, Step(d, w, e).value)
  {
    match e.call {
      case CastBallot(_, _, _, _) => CastEffect(d, w, e);
      case RemoveBallot(_, _, _, _) => RemoveEffect(d, w, e);
      case RevokeProposal(_, _, _) => RevokeEffect(d, w, e);
      case Execute(_, _, _, _, _) => ExecuteEffect(d, w, e);
      case AddConflictOfInterest(_, _, _, _) => AddConflictsEffect(d, w, e);
      case RemoveConflictOfInterest(_, _, _, _) => RemoveConflictsEffect(d, w, e);
      case _ => ElsewhereEffect(d, w, e);
    }
  }

  /** A ballot seen across one event: either the event addresses it, or it is the same ballot. */
  lemma BallotStep<P(!new)>(d: Deployment<P>, w: World<P>, e: Event<P>, id: Id)
    requires BallotsSound(d, w) && id in w.ballots
    ensures id in Next(d, w, e).ballots
    ensures Terms(w.ballots[id].proposal) == Terms(Next(d, w, e).ballots[id].proposal)
    ensures Target(e.call) != Some(id) || Step(d, w, e).Err? ==> Next(d, w, e).ballots[id] == w.ballots[id]
    ensures Target(e.call) == Some(id) && Step(d, w, e).Ok? ==> TargetEffect(d, w, e, id, Next(d, w, e))
  {
    if Step(d, w, e).Ok? {
      StepEffect(d, w, e);
      if e.call.CreateProposal? {
        FreshNumber(d, w, e.call.key);
      }
    }
  }

  /******* Lifecycle *******/

  lemma {:induction false} FinalRun<P(!new)>(d: Deployment<P>, w: World<P>, trace: seq<Event<P>>, id: Id)
    requires Lawful(d.curve) && WorldOk(d, w) && Dao.Outside(d, trace)
    requires id in w.ballots && w.ballots[id].proposal.status != Active
    ensures id in Run(d, w, trace).ballots && Run(d, w, trace).ballots[id] == w.ballots[id]
    decreases |trace|
  {
    if trace != [] {
      BallotStep(d, w, trace[0], id);
      StepKeeps(d, w, trace[0]);
      FinalRun(d, Next(d, w, trace[0]), trace[1..], id);
    }
  }

  /** Once a proposal has left Active, nothing of it (status, votes, voter order, tallies, conflict list)
      ever changes again, and every later call on it fails: no collateral of it is paid twice. */
  lemma FinalForever<P(!new)>(d: Deployment<P>, w: World<P>, trace: seq<Event<P>>, id: Id, i: nat)
    requires Lawful(d.curve) && WorldOk(d, w) && Dao.Outside(d, trace) && i < |trace|
    requires id in w.ballots && w.ballots[id].proposal.status != Active
    ensures var u := Before(d, w, trace, i);
            && id in u.ballots
            && u.ballots[id] == w.ballots[id]
            && (Target(trace[i].call) == Some(id) ==> !Succeeds(d, w, trace, i))
  {
    FinalRun(d, w, trace[..i], id);
    RunKeeps(d, w, trace[..i]);
    BallotStep(d, Before(d, w, trace, i), trace[i], id);
  }

  lemma {:induction false} TermsRun<P(!new)>(d: Deployment<P>, w: World<P>, trace: seq<Event<P>>, id: Id)
    requires Lawful(d.curve) && WorldOk(d, w) && Dao.Outside(d, trace) && id in w.ballots
    ensures id in Run(d, w, trace).ballots
            && Terms(w.ballots[id].proposal) == Terms(Run(d, w, trace).ballots[id].proposal)
    decreases |trace|
  {
    if trace != [] {
      BallotStep(d, w, trace[0], id);
      StepKeeps(d, w, trace[0]);
      TermsRun(d, Next(d, w, trace[0]), trace[1..], id);
    }
  }

  /** The event puts a vote on record: a cast vote, or the proposer's abstention at creation. */
  predicate Records<P>(w: World<P>, call: Call<P>, id: Id) {
    || (call.CastBallot? && Id(call.key, call.num) == id)
    || (call.CreateProposal? && Id(call.key, Total(w, call.key)) == id)
  }

  lemma RecordedInTime<P>(d: Deployment<P>, w: World<P>, e: Event<P>, id: Id)
    requires Step(d, w, e).Ok? && Records(w, e.call, id)
    ensures id in Next(d, w, e).ballots && e.ctx.now < Next(d, w, e).ballots[id].proposal.votingEndsAt
  {
    StepEffect(d, w, e);
  }

  lemma ExecutedInTime<P>(d: Deployment<P>, w: World<P>, e: Event<P>, id: Id)
    requires Step(d, w, e).Ok? && e.call.Execute? && Id(e.call.key, e.call.num) == id
    ensures id in w.ballots && w.ballots[id].proposal.votingEndsAt + TIMELOCK_DELAY <= e.ctx.now
  {
    StepEffect(d, w, e);
  }

  /** A call that puts a vote on record comes more than the timelock before an execution of that proposal, whatever
      happens in between. */
  lemma VotesPrecedeExecution<P(!new)>(d: Deployment<P>, u: World<P>, e: Event<P>, between: seq<Event<P>>, f: Event<P>,
                                       id: Id)
    requires Lawful(d.curve) && WorldOk(d, u) && d.self !in e.ctx.signers && Dao.Outside(d, between)
    requires Step(d, u, e).Ok? && Records(u, e.call, id)
    requires Step(d, Run(d, Next(d, u, e), between), f).Ok? && f.call.Execute? && Id(f.call.key, f.call.num) == id
    ensures e.ctx.now + TIMELOCK_DELAY < f.ctx.now
  {
    RecordedInTime(d, u, e, id);
    StepKeeps(d, u, e);
    TermsRun(d, Next(d, u, e), between, id);
    ExecutedInTime(d, Run(d, Next(d, u, e), between), f, id);
  }

  /******* Results *******/

  /** The conditions of `execute` that do not depend on the votes. */
  predicate Executable<P>(w: World<P>, ctx: Ctx, maintainer: Address, key: Key, b: Ballot<P>) {
    && !ctx.paused && AuthMaintainer(w, ctx, maintainer, key).Ok? && b.proposal.status == Active
    && b.proposal.votingEndsAt + TIMELOCK_DELAY < U64_LIMIT
    && b.proposal.votingEndsAt + TIMELOCK_DELAY <= ctx.now
  }

  predicate OutcomeDelivered(ctx: Ctx, p: Proposal, status: Status) {
    p.outcomes.Some? && OutcomeIndex(status) < p.outcomes.value ==> ctx.outcomeOk
  }

  lemma ExecuteIff<P>(d: Deployment<P>, w: World<P>, ctx: Ctx, maintainer: Address, key: Key, num: nat, b: Ballot<P>,
                      tallies: Option<seq<u128>>, seeds: Option<seq<u128>>)
    requires Load(w, key, num) == Ok(b)
    ensures var r, status := DoExecute(d, w, ctx, maintainer, key, num, tallies, seeds),
                             Decide(d.curve, b, key in w.anonymous, tallies, seeds);
            && (r.Ok? <==> Executable(w, ctx, maintainer, key, b) && PayOut(d, w.bank, b).Ok? && status.Ok?
                           && OutcomeDelivered(ctx, b.proposal, status.value))
            && (r.Ok? ==> Id(key, num) in r.value.ballots
                          && r.value.ballots[Id(key, num)].proposal.status == status.value)
  {
  }

  /** When exactly a public proposal can be executed, and with what result: Approved (Rejected) if and only if
      the weight recorded for approval (rejection) exceeds half of all recorded weight. */
  lemma PublicExecution<P(!new)>(d: Deployment<P>, w: World<P>, ctx: Ctx, maintainer: Address, key: Key, num: nat,
                                 b: Ballot<P>)
    requires Lawful(d.curve) && WorldOk(d, w)
    requires Load(w, key, num) == Ok(b) && b.proposal.publicVoting
    ensures var r, status := DoExecute(d, w, ctx, maintainer, key, num, None, None),
                             Decide(d.curve, b, key in w.anonymous, None, None);
            && status.Ok?
            && (r.Ok? <==> Executable(w, ctx, maintainer, key, b) && (b.voters == [] || !UnitTooLarge(d, b.proposal))
                           && OutcomeDelivered(ctx, b.proposal, status.value))
            && (r.Ok? ==> Id(key, num) in r.value.ballots
                          && r.value.ballots[Id(key, num)].proposal.status == status.value)
            && (status.value == Approved <==> 2 * WeightFor(Recorded(b), Approve) > TotalWeight(Recorded(b)))
            && (status.value == Rejected <==> 2 * WeightFor(Recorded(b), Reject) > TotalWeight(Recorded(b)))
  {
    LoadedSound(d, w, key, num);
    PublicResultIsSupermajority(d.curve, b, key in w.anonymous);
    ExecuteIff(d, w, ctx, maintainer, key, num, b, None, None);
    if b.proposal.status == Active {
      PayOutExact(d, w, Id(key, num), d.collateral, Address(d.self.id + 1));
    }
  }

  /** In every run, whatever opening is claimed for an active anonymous proposal, the stored aggregate
      and the recomputation from the recorded votes accept or refuse it together. */
  lemma ProofsAgreeInEveryRun<P(!new)>(d: Deployment<P>, w: World<P>, trace: seq<Event<P>>, id: Id, tallies: seq<u128>,
                                       seeds: seq<u128>)
    requires Lawful(d.curve) && Initial(d, w) && Dao.Outside(d, trace)
    requires id in Run(d, w, trace).ballots
    ensures var u := Run(d, w, trace);
            var b := u.ballots[id];
            b.proposal.status == Active && !b.proposal.publicVoting ==>
              && b.tallies.AnonymousTallies?
              && Proof(d.curve, b, id.key in u.anonymous, tallies, seeds)
                 == Ok(Opens(d.curve, tallies, seeds, b.tallies.points))
  {
    InitialOk(d, w);
    RunKeeps(d, w, trace);
    var u := Run(d, w, trace);
    assert SoundAt(d, u, id);
    var b := u.ballots[id];
    if b.proposal.status == Active && !b.proposal.publicVoting {
      AggregateAgreesWithProof(d.curve, b, tallies, seeds);
    }
  }

  /******* Removal *******/

  predicate AllSucceed<P(==)>(d: Deployment<P>, w: World<P>, trace: seq<Event<P>>)
    decreases |trace|
  {
    trace == [] || (Step(d, w, trace[0]).Ok? && AllSucceed(d, Next(d, w, trace[0]), trace[1..]))
  }

  /** The calls of a trace on one proposal. */
  function Projection<P>(trace: seq<Event<P>>, id: Id): seq<BallotCall<P>> {
    if trace == [] then []
    else (if Target(trace[0].call) == Some(id) then OnBallot(trace[0]) else []) + Projection(trace[1..], id)
  }

  /** What one event leaves of a proposal that is still active afterwards. */
  ghost predicate PlayedBy<P>(d: Deployment<P>, w: World<P>, e: Event<P>, id: Id, next: World<P>) {
    && id in w.ballots && id in next.ballots
    && if Target(e.call) == Some(id) then |OnBallot(e)| == 1
                                          && Play(d.curve, w.ballots[id], OnBallot(e)[0]) == Ok(next.ballots[id])
       else next.ballots[id] == w.ballots[id]
  }

  lemma FirstSucceeds<P>(d: Deployment<P>, w: World<P>, trace: seq<Event<P>>)
    requires AllSucceed(d, w, trace) && trace != []
    ensures Step(d, w, trace[0]).Ok? && AllSucceed(d, Next(d, w, trace[0]), trace[1..])
    ensures Run(d, w, trace) == Run(d, Next(d, w, trace[0]), trace[1..])
  {
  }

  lemma FirstStep<P(!new)>(d: Deployment<P>, w: World<P>, trace: seq<Event<P>>, id: Id) returns (next: World<P>)
    requires Lawful(d.curve) && WorldOk(d, w) && Dao.Outside(d, trace) && AllSucceed(d, w, trace) && trace != []
    requires id in w.ballots
    ensures next == Next(d, w, trace[0])
    ensures WorldOk(d, next) && AllSucceed(d, next, trace[1..]) && Run(d, w, trace) == Run(d, next, trace[1..])
    ensures id in next.ballots && (next.ballots[id].proposal.status == Active ==> PlayedBy(d, w, trace[0], id, next))
  {
    next := Next(d, w, trace[0]);
    FirstSucceeds(d, w, trace);
    StepKeeps(d, w, trace[0]);
    BallotStep(d, w, trace[0], id);
  }

  /** As long as a proposal stays active, its ballot moves by the ballot-level calls alone. */
  lemma {:induction false} RunPlays<P(!new)>(d: Deployment<P>, w: World<P>, trace: seq<Event<P>>, id: Id)
    requires Lawful(d.curve) && WorldOk(d, w) && Dao.Outside(d, trace) && AllSucceed(d, w, trace)
    requires id in w.ballots && id in Run(d, w, trace).ballots && Run(d, w, trace).ballots[id].proposal.status == Active
    ensures PlayAll(d.curve, w.ballots[id], Projection(trace, id)) == Ok(Run(d, w, trace).ballots[id])
    decreases |trace|
  {
    if trace != [] {
      var next := FirstStep(d, w, trace, id);
      StaysActive(d, next, trace[1..], id);
      RunPlays(d, next, trace[1..], id);
      ProjectionPlays(d.curve, w.ballots[id], trace, id, next.ballots[id], Run(d, next, trace[1..]).ballots[id]);
    }
  }

  /** A proposal that is active at the end of a run was active at its start. */
  lemma StaysActive<P(!new)>(d: Deployment<P>, w: World<P>, trace: seq<Event<P>>, id: Id)
    requires Lawful(d.curve) && WorldOk(d, w) && Dao.Outside(d, trace)
    requires id in w.ballots && id in Run(d, w, trace).ballots && Run(d, w, trace).ballots[id].proposal.status == Active
    ensures w.ballots[id].proposal.status == Active
  {
    if w.ballots[id].proposal.status != Active {
      FinalRun(d, w, trace, id);
    }
  }

  lemma ProjectionPlays<P>(c: Group<P>, b: Ballot<P>, trace: seq<Event<P>>, id: Id, next: Ballot<P>, last: Ballot<P>)
    requires trace != []
    requires if Target(trace[0].call) == Some(id) then |OnBallot(trace[0])| == 1
                                                       && Play(c, b, OnBallot(trace[0])[0]) == Ok(next)
             else next == b
    requires PlayAll(c, next, Projection(trace[1..], id)) == Ok(last)
    ensures PlayAll(c, b, Projection(trace, id)) == Ok(last)
  {
    var rest := Projection(trace[1..], id);
    if Target(trace[0].call) == Some(id) {
      var call := OnBallot(trace[0])[0];
      PlayOneMore(c, b, call, rest);
      assert OnBallot(trace[0]) == [call];
      assert Projection(trace, id) == [call] + rest;
    } else {
      assert Projection(trace, id) == rest;
    }
  }

  lemma PlayOneMore<P>(c: Group<P>, b: Ballot<P>, call: BallotCall<P>, calls: seq<BallotCall<P>>)
    requires Play(c, b, call).Ok?
    ensures PlayAll(c, b, [call] + calls) == PlayAll(c, Play(c, b, call).value, calls)
  {
    assert ([call] + calls)[1..] == calls;
  }

  /** The event casts or removes the vote of `voter` on this proposal. */
  predicate ActsOnVote<P>(e: Event<P>, id: Id, voter: Address) {
    && (e.call.CastBallot? || e.call.RemoveBallot?)
    && Id(e.call.key, e.call.num) == id && e.call.voter == voter
  }

  lemma {:induction false} AllSucceedSplit<P>(d: Deployment<P>, w: World<P>, s: seq<Event<P>>, t: seq<Event<P>>)
    requires AllSucceed(d, w, s + t)
    ensures AllSucceed(d, w, s) && AllSucceed(d, Run(d, w, s), t)
    decreases |s|
  {
    if s == [] {
      assert s + t == t;
    } else {
      assert (s + t)[1..] == s[1..] + t;
      AllSucceedSplit(d, Next(d, w, s[0]), s[1..], t);
    }
  }
}
