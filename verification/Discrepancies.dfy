/** Where the contract does otherwise than its documentation says: the failing input, and exactly when the two
    agree. */
module Discrepancies {
  import opened Curve
  import opened Wrappers
  import opened DaoTypes
  import opened Ledger
  import opened Ballot
  import opened BallotProofs
  import opened Removal
  import opened Dao
  import opened DaoProofs
  import opened DaoTheorems

  /******* The winner of a vote *******/

  /** The documented result: the larger of approval and rejection, whatever the abstentions. */
  function Documented(approve: nat, reject: nat): Status {
    if approve > reject then Approved else if reject > approve then Rejected else Cancelled
  }

  lemma DocumentedIff(approve: nat, reject: nat, abstain: nat)
    requires approve + reject + abstain < U128_LIMIT
    ensures TalliesToResult(approve, reject, abstain) == Ok(Documented(approve, reject))
       <==> approve == reject || approve > reject + abstain || reject > approve + abstain
  {
  }

  /** A public proposal gets the documented result exactly when approval and rejection are even, or one of them
      has more than half of all recorded weight. */
  lemma DocumentedResultIff<P(!new)>(c: Group<P>, b: Ballot<P>, configured: bool)
    requires Lawful(c) && BallotOk(c, b) && b.proposal.publicVoting
    ensures var vs := Recorded(b);
            var approve, reject := WeightFor(vs, Approve), WeightFor(vs, Reject);
            (Decide(c, b, configured, None, None) == Ok(Documented(approve, reject)) <==>
             approve == reject || 2 * approve > TotalWeight(vs) || 2 * reject > TotalWeight(vs))
  {
    var vs := Recorded(b);
    PublicShares(c, b);
    PublicDecision(c, b, configured);
    DocumentedIff(WeightFor(vs, Approve), WeightFor(vs, Reject), WeightFor(vs, Abstain));
  }

  /** One vote to approve and one abstention of the same weight: documented as approved, cancelled in fact. */
  lemma DocumentedResultFails<P(!new)>(c: Group<P>, p: Proposal, x: Address, y: Address)
    returns (calls: seq<BallotCall<P>>)
    requires Lawful(c) && p.publicVoting && p.status == Active && p.votingEndsAt > 0
    requires p.proposer != x && p.proposer != y && x != y
    ensures PlayAll(c, NewBallot(c, p), calls).Ok?
    ensures var b := PlayAll(c, NewBallot(c, p), calls).value;
            && WeightFor(Recorded(b), Approve) == 1 && WeightFor(Recorded(b), Reject) == 0
            && Documented(1, 0) == Approved && Decide(c, b, false, None, None) == Ok(Cancelled)
  {
    var u, v: Vote<P> := PublicVote(x, 1, Approve), PublicVote(y, 1, Abstain);
    var b0 := NewBallot(c, p);
    var first, second: BallotCall<P> := Cast(0, 1, x, u), Cast(0, 1, y, v);
    calls := [first, second];
    assert b0.tallies == PublicTallies([0, 0, 0]);
    assert b0.votes.Keys == {p.proposer};
    assert Play(c, b0, first).Ok?;
    var b1 := Play(c, b0, first).value;
    assert b1.tallies == PublicTallies([1, 0, 0]);
    assert b1.votes.Keys == {p.proposer, x};
    assert Play(c, b1, second).Ok?;
    var b2 := Play(c, b1, second).value;
    assert b2.tallies == PublicTallies([1, 0, 1]);
    assert calls[1..] == [second] && [second][1..] == [];
    assert PlayAll(c, b1, [second]) == PlayAll(c, b2, []);
    NewBallotOk(c, p);
    PlayKeeps(c, b0, first);
    PlayKeeps(c, b1, second);
    assert SumsOf(Recorded(b2)) == [1, 0, 1];
  }

  /******* Tokens with large units *******/

  lemma {:induction false} Pow10Grows(m: nat, n: nat)
    requires m <= n
    ensures Pow10(m) <= Pow10(n)
    decreases n
  {
    if m < n {
      Pow10Grows(m, n - 1);
    }
  }

  lemma UnitLimit()
    ensures Pow10(38) < I128_LIMIT <= Pow10(39)
  {
    assert Pow10(10) == 10_000_000_000;
    assert Pow10(20) == 100_000_000_000_000_000_000;
    assert Pow10(30) == 1_000_000_000_000_000_000_000_000_000_000;
  }

  /** The unit of a token leaves `i128` from 39 decimals on. */
  lemma UnitTooLargeIff<P>(d: Deployment<P>, p: Proposal)
    ensures UnitTooLarge(d, p) <==> p.token.Some? && d.decimals(p.token.value) >= 39
  {
    UnitLimit();
    if p.token.Some? {
      var n := d.decimals(p.token.value);
      if n >= 39 {
        Pow10Grows(39, n);
      } else {
        Pow10Grows(n, 38);
      }
    }
  }

  /** Nobody can vote on such a proposal, and in a reachable state it has no vote with weight. */
  lemma LargeUnitTakesNoVote<P(!new)>(d: Deployment<P>, w: World<P>, ctx: Ctx, voter: Address, key: Key, num: nat,
                                      v: Vote<P>, b: Ballot<P>)
    requires WorldOk(d, w) && Load(w, key, num) == Ok(b) && UnitTooLarge(d, b.proposal)
    ensures DoCast(d, w, ctx, voter, key, num, v).Err?
    ensures forall a :: a in b.votes ==> b.votes[a].weight == 0
  {
    assert SoundAt(d, w, Id(key, num));
  }

  /** The proposer's own abstention still blocks the execution: in every run from deployment that registers a
      project and creates such a proposal, executing it in time fails. */
  lemma LargeUnitRun<P(!new)>(d: Deployment<P>, w: World<P>, trace: seq<Event<P>>, who: Address, project: Project,
                              key: Key, p: Proposal)
    requires Initial(d, w) && who != d.self
             && Balance(w.bank, d.collateral, who) == REGISTER_COLLATERAL + PROPOSAL_COLLATERAL
    requires p.token.Some? && d.decimals(p.token.value) >= 39
    requires NameOk(project.name) && project.maintainers == [who] && key == d.keyOf(project.name)
    requires 10 <= |p.title| <= MAX_TITLE_LENGTH && 32 <= |p.ipfs| <= 64
    requires p == Proposal(0, p.title, who, p.ipfs, MIN_VOTING_PERIOD, true, p.token, None, Active)
    requires |trace| == 3 && forall i :: 0 <= i < 3 ==> trace[i].ctx.signers == {who} && !trace[i].ctx.paused
    requires trace[0].call == Register(who, project)
    requires trace[1].call == CreateProposal(who, key, p.title, p.ipfs, MIN_VOTING_PERIOD, true, p.token, None)
             && trace[1].ctx.now == 0
    requires trace[2].call == Execute(who, key, 0, None, None) && trace[2].ctx.now >= MIN_VOTING_PERIOD + TIMELOCK_DELAY
    ensures Succeeds(d, w, trace, 0) && Succeeds(d, w, trace, 1)
    ensures Step(d, Before(d, w, trace, 2), trace[2]) == Err(ArithmeticTrap)
  {
    var w1 := RegisterOnce(d, w, trace[0].ctx, project, who);
    var w2 := CreateOnce(d, w1, trace[1].ctx, key, p);
    FirstTwoSucceed(d, w, trace, w1, w2, who, project, key, p);
    ExecuteInVain(d, w2, trace[2].ctx, key, p);
  }

  lemma FirstTwoSucceed<P>(d: Deployment<P>, w: World<P>, trace: seq<Event<P>>, w1: World<P>, w2: World<P>,
                           who: Address, project: Project, key: Key, p: Proposal)
    requires |trace| >= 2 && trace[0].call == Register(who, project)
    requires trace[1].call == CreateProposal(who, key, p.title, p.ipfs, MIN_VOTING_PERIOD, true, p.token, None)
    requires DoRegister(d, w, trace[0].ctx, who, project) == Ok(w1)
    requires DoCreate(d, w1, trace[1].ctx, who, key, p.title, p.ipfs, MIN_VOTING_PERIOD, true, p.token, None) == Ok(w2)
    ensures Succeeds(d, w, trace, 0) && Succeeds(d, w, trace, 1) && Before(d, w, trace, 2) == w2
  {
    FirstStates(d, w, trace);
    assert Step(d, w, trace[0]) == Ok(w1) && Step(d, w1, trace[1]) == Ok(w2);
  }

  /** Such runs exist. */
  lemma LargeUnitRunExists<P(!new)>(d: Deployment<P>, who: Address, project: Project, p: Proposal)
    returns (w: World<P>, trace: seq<Event<P>>)
    requires who != d.self && p.token.Some? && d.decimals(p.token.value) >= 39
    requires NameOk(project.name) && project.maintainers == [who]
    requires 10 <= |p.title| <= MAX_TITLE_LENGTH && 32 <= |p.ipfs| <= 64
    requires p == Proposal(0, p.title, who, p.ipfs, MIN_VOTING_PERIOD, true, p.token, None, Active)
    ensures Initial(d, w) && Dao.Outside(d, trace) && |trace| == 3 && trace[2].call.Execute?
    ensures Succeeds(d, w, trace, 0) && Succeeds(d, w, trace, 1)
    ensures Step(d, Before(d, w, trace, 2), trace[2]) == Err(ArithmeticTrap)
  {
    var bank: Bank := map[Holding(d.collateral, who) := REGISTER_COLLATERAL + PROPOSAL_COLLATERAL];
    w := World(map[], [], map[], map[], map[], bank, map[], map[]);
    var key := d.keyOf(project.name);
    var early, late := Ctx(0, {who}, false, [], 0, true),
                       Ctx(MIN_VOTING_PERIOD + TIMELOCK_DELAY, {who}, false, [], 0, true);
    trace := [Event(early, Register(who, project)),
              Event(early, CreateProposal(who, key, p.title, p.ipfs, MIN_VOTING_PERIOD, true, p.token, None)),
              Event(late, Execute(who, key, 0, None, None))];
    LargeUnitRun(d, w, trace, who, project, key, p);
  }

  lemma FirstStates<P>(d: Deployment<P>, w: World<P>, trace: seq<Event<P>>)
    requires |trace| >= 2
    ensures Before(d, w, trace, 0) == w
    ensures Before(d, w, trace, 1) == Next(d, w, trace[0])
    ensures Before(d, w, trace, 2) == Next(d, Next(d, w, trace[0]), trace[1])
  {
    BeforeStart(d, w, trace);
    RunOne(d, w, trace, 0);
    RunOne(d, w, trace, 1);
  }

  lemma RegisterOnce<P>(d: Deployment<P>, w: World<P>, ctx: Ctx, project: Project, who: Address)
    returns (next: World<P>)
    requires who != d.self && who in ctx.signers && !ctx.paused && NameOk(project.name) && project.maintainers == [who]
    requires w.projects == map[] && Balance(w.bank, d.collateral, who) == REGISTER_COLLATERAL + PROPOSAL_COLLATERAL
    ensures DoRegister(d, w, ctx, who, project) == Ok(next)
    ensures next.projects == map[d.keyOf(project.name) := project] && next.totals == w.totals
            && next.ballots == w.ballots
    ensures Balance(next.bank, d.collateral, who) == PROPOSAL_COLLATERAL
  {
    next := DoRegister(d, w, ctx, who, project).value;
    TransferMoves(w.bank, d.collateral, who, d.self, REGISTER_COLLATERAL, d.collateral, who);
  }

  /** The first proposal of a project, `p`, by a proposer who can just pay for it. */
  lemma CreateOnce<P>(d: Deployment<P>, w: World<P>, ctx: Ctx, key: Key, p: Proposal) returns (next: World<P>)
    requires p.proposer != d.self && p.proposer in ctx.signers && !ctx.paused && ctx.now == 0
    requires key in w.projects && w.totals == map[] && Balance(w.bank, d.collateral, p.proposer) == PROPOSAL_COLLATERAL
    requires p == Proposal(0, p.title, p.proposer, p.ipfs, MIN_VOTING_PERIOD, true, p.token, None, Active)
             && p.token.Some?
    requires 10 <= |p.title| <= MAX_TITLE_LENGTH && 32 <= |p.ipfs| <= 64
    ensures DoCreate(d, w, ctx, p.proposer, key, p.title, p.ipfs, MIN_VOTING_PERIOD, true, p.token, None) == Ok(next)
    ensures next.projects == w.projects && Id(key, 0) in next.ballots
            && next.ballots[Id(key, 0)] == NewBallot(d.curve, p)
    ensures Balance(next.bank, d.collateral, d.self) >= PROPOSAL_COLLATERAL
  {
    next := DoCreate(d, w, ctx, p.proposer, key, p.title, p.ipfs, MIN_VOTING_PERIOD, true, p.token, None).value;
    TransferMoves(w.bank, d.collateral, p.proposer, d.self, PROPOSAL_COLLATERAL, d.collateral, d.self);
  }

  lemma ExecuteInVain<P>(d: Deployment<P>, w: World<P>, ctx: Ctx, key: Key, p: Proposal)
    requires p.token.Some? && d.decimals(p.token.value) >= 39
    requires p.publicVoting && p.status == Active && p.votingEndsAt + TIMELOCK_DELAY <= ctx.now
    requires Id(key, 0) in w.ballots && w.ballots[Id(key, 0)] == NewBallot(d.curve, p)
    requires AuthMaintainer(w, ctx, p.proposer, key).Ok? && !ctx.paused
    requires Balance(w.bank, d.collateral, d.self) >= PROPOSAL_COLLATERAL
    ensures DoExecute(d, w, ctx, p.proposer, key, 0, None, None) == Err(ArithmeticTrap)
  {
    var b := w.ballots[Id(key, 0)];
    UnitTooLargeIff(d, p);
    assert Load(w, key, 0) == Ok(b);
    AllVotesSingle(p.proposer, b.votes);
    assert PayOut(d, w.bank, b) == Err(ArithmeticTrap);
  }
}
