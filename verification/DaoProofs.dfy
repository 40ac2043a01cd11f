/** What every call keeps, hence what holds after any run. */
module DaoProofs {
  import opened Curve
  import opened Wrappers
  import opened DaoTypes
  import opened Ledger
  import opened Ballot
  import opened BallotProofs
  import opened Dao
  import opened Escrow

  /******* The invariant *******/

  /** Every vote with weight passed the arithmetic checks when it was cast. */
  ghost predicate EscrowsChecked<P>(d: Deployment<P>, b: Ballot<P>) {
    forall a :: a in b.votes && b.votes[a].weight > 0 ==> CheckedEscrow(d, b.proposal, b.votes[a].weight).Ok?
  }

  ghost predicate BallotSound<P>(d: Deployment<P>, w: World<P>, id: Id, b: Ballot<P>) {
    && BallotOk(d.curve, b)
    && b.proposal.id == id.num
    && id.num < Total(w, id.key)
    && (!b.proposal.publicVoting ==> id.key in w.anonymous)
    && b.proposal.proposer != d.self && d.self !in b.votes
    && EscrowsChecked(d, b)
  }

  // The parts of the invariant are quantified over named instances, so that a proof unfolds the
  // instances it names and no others.

  ghost predicate SoundAt<P>(d: Deployment<P>, w: World<P>, id: Id) {
    id in w.ballots ==> BallotSound(d, w, id, w.ballots[id])
  }

  ghost predicate BallotsSound<P>(d: Deployment<P>, w: World<P>) {
    forall id :: SoundAt(d, w, id)
  }

  /** Proposals are numbered from 0 without gaps, for registered projects and within the page limit. */
  ghost predicate Numbered<P>(w: World<P>) {
    forall key :: NumberedAt(w, key)
  }

  ghost predicate NumberedAt<P>(w: World<P>, key: Key) {
    && (forall n: nat :: n < Total(w, key) ==> Id(key, n) in w.ballots)
    && (key in w.totals ==> key in w.projects && w.totals[key] <= MAX_PAGES * MAX_PROPOSALS_PER_PAGE)
  }

  ghost predicate RegistryOk<P>(w: World<P>) {
    Distinct(w.registry) && forall key :: key in w.registry <==> key in w.projects
  }

  ghost predicate Funded<P>(d: Deployment<P>, w: World<P>) {
    forall asset :: Conserved(d, w, asset)
  }

  ghost predicate WorldOk<P(!new)>(d: Deployment<P>, w: World<P>) {
    BallotsSound(d, w) && Numbered(w) && RegistryOk(w) && Funded(d, w)
  }

  lemma InitialOk<P(!new)>(d: Deployment<P>, w: World<P>)
    requires Initial(d, w)
    ensures WorldOk(d, w)
  {
    forall asset
      ensures Conserved(d, w, asset)
    {
      assert Held(d, w.ballots, asset) == map[];
    }
  }

  /******* One ballot changes *******/

  /** Replacing a ballot by a sound one keeps everything but the balance sheet. */
  lemma StoreKeeps<P(!new)>(d: Deployment<P>, w: World<P>, id: Id, b: Ballot<P>, next: World<P>)
    requires BallotsSound(d, w) && Numbered(w) && RegistryOk(w)
    requires id in w.ballots && BallotSound(d, w, id, b)
    requires next == w.(ballots := w.ballots[id := b], bank := next.bank, slashed := next.slashed)
    ensures BallotsSound(d, next) && Numbered(next) && RegistryOk(next)
  {
    forall i
      ensures SoundAt(d, next, i)
    {
      assert SoundAt(d, w, i);
      if i in next.ballots {
        SoundElsewhere(d, w, next, i, next.ballots[i]);
      }
    }
    NumberedKept(w, next);
  }

  lemma NumberedKept<P>(w: World<P>, next: World<P>)
    requires Numbered(w) && next.totals == w.totals
    requires w.ballots.Keys <= next.ballots.Keys && w.projects.Keys <= next.projects.Keys
    ensures Numbered(next)
  {
    forall key
      ensures NumberedAt(next, key)
    {
      assert NumberedAt(w, key);
    }
  }

  /** A ballot stays sound as long as the numbering and the configured projects only grow. */
  lemma SoundElsewhere<P>(d: Deployment<P>, w: World<P>, next: World<P>, id: Id, b: Ballot<P>)
    requires Total(w, id.key) <= Total(next, id.key) && w.anonymous.Keys <= next.anonymous.Keys
    ensures BallotSound(d, w, id, b) ==> BallotSound(d, next, id, b)
  {
  }

  lemma LoadedSound<P(!new)>(d: Deployment<P>, w: World<P>, key: Key, num: nat)
    requires BallotsSound(d, w) && Load(w, key, num).Ok?
    ensures Id(key, num) in w.ballots && w.ballots[Id(key, num)] == Load(w, key, num).value
    ensures BallotSound(d, w, Id(key, num), w.ballots[Id(key, num)])
  {
    assert SoundAt(d, w, Id(key, num));
  }

  /******* Casting *******/

  lemma CastSound<P(!new)>(d: Deployment<P>, w: World<P>, id: Id, b: Ballot<P>, ctx: Ctx, voter: Address, v: Vote<P>)
    requires Lawful(d.curve) && BallotSound(d, w, id, b) && voter != d.self
    requires CheckVote(d.curve, b, ctx.now, ctx.maxWeight, voter, v).Ok? && CheckedEscrow(d, b.proposal, v.weight).Ok?
    ensures RecordVote(d.curve, b, voter, v).Ok? && BallotSound(d, w, id, RecordVote(d.curve, b, voter, v).value)
    ensures voter !in b.voters
  {
    CastVoteKeeps(d.curve, b, ctx.now, ctx.maxWeight, voter, v);
  }

  lemma CastConserves<P>(d: Deployment<P>, w: World<P>, id: Id, voter: Address, v: Vote<P>, next: World<P>,
                         asset: Address)
    requires id in w.ballots && voter != d.self && Conserved(d, w, asset)
    requires var b := w.ballots[id];
             var pay := VoteEscrow(d, b.proposal, v.weight);
             && voter !in b.voters
             && b.proposal.status == Active
             && RecordVote(d.curve, b, voter, v).Ok?
             && Transfer(w.bank, pay.asset, voter, d.self, pay.amount) == Ok(next.bank)
             && next == w.(ballots := w.ballots[id := RecordVote(d.curve, b, voter, v).value], bank := next.bank)
    ensures Conserved(d, next, asset)
  {
    var b := w.ballots[id];
    var pay := VoteEscrow(d, b.proposal, v.weight);
    TransferMoves(w.bank, pay.asset, voter, d.self, pay.amount, asset, d.self);
    HeldSumUpdate(d, w.ballots, id, next.ballots[id], asset);
    OwedAfterVote(d, b, voter, v, asset);
  }

  lemma CastKeeps<P(!new)>(d: Deployment<P>, w: World<P>, ctx: Ctx, voter: Address, key: Key, num: nat, v: Vote<P>)
    requires Lawful(d.curve) && WorldOk(d, w) && d.self !in ctx.signers
    requires DoCast(d, w, ctx, voter, key, num, v).Ok?
    ensures WorldOk(d, DoCast(d, w, ctx, voter, key, num, v).value)
  {
    var id := Id(key, num);
    LoadedSound(d, w, key, num);
    var b := w.ballots[id];
    CastSound(d, w, id, b, ctx, voter, v);
    CastMoves(d, w, id, voter, v, DoCast(d, w, ctx, voter, key, num, v).value);
  }

  lemma CastMoves<P(!new)>(d: Deployment<P>, w: World<P>, id: Id, voter: Address, v: Vote<P>, next: World<P>)
    requires WorldOk(d, w) && id in w.ballots && voter != d.self
    requires var b := w.ballots[id];
             var pay := VoteEscrow(d, b.proposal, v.weight);
             && voter !in b.voters
             && b.proposal.status == Active
             && RecordVote(d.curve, b, voter, v).Ok?
             && BallotSound(d, w, id, RecordVote(d.curve, b, voter, v).value)
             && Transfer(w.bank, pay.asset, voter, d.self, pay.amount) == Ok(next.bank)
             && next == w.(ballots := w.ballots[id := RecordVote(d.curve, b, voter, v).value], bank := next.bank)
    ensures WorldOk(d, next)
  {
    StoreKeeps(d, w, id, next.ballots[id], next);
    forall asset
      ensures Conserved(d, next, asset)
    {
      assert Conserved(d, w, asset);
      CastConserves(d, w, id, voter, v, next, asset);
    }
  }

  /******* Removing *******/

  lemma RemoveSound<P(!new)>(d: Deployment<P>, w: World<P>, id: Id, b: Ballot<P>, voter: Address)
    requires Lawful(d.curve) && BallotSound(d, w, id, b) && RemoveVote(d.curve, b, voter).Ok?
    ensures BallotSound(d, w, id, RemoveVote(d.curve, b, voter).value)
    ensures BookOk(d.curve, b) && voter in b.votes
  {
    RemoveVoteKeeps(d.curve, b, voter);
  }

  lemma RemoveConserves<P>(d: Deployment<P>, w: World<P>, id: Id, voter: Address, next: World<P>, asset: Address)
    requires id in w.ballots && Conserved(d, w, asset)
    requires var b := w.ballots[id];
             && BookOk(d.curve, b) && voter in b.votes && b.proposal.status == Active
             && RemoveVote(d.curve, b, voter).Ok?
             && var pay := VoteEscrow(d, b.proposal, b.votes[voter].weight);
             next == w.(ballots := w.ballots[id := RemoveVote(d.curve, b, voter).value],
             slashed := Plus(w.slashed, pay.asset, pay.amount))
    ensures Conserved(d, next, asset)
  {
    HeldSumUpdate(d, w.ballots, id, next.ballots[id], asset);
    OwedAfterRemoval(d, w.ballots[id], voter, asset);
  }

  lemma RemoveKeeps<P(!new)>(d: Deployment<P>, w: World<P>, ctx: Ctx, maintainer: Address, key: Key, num: nat,
                             voter: Address)
    requires Lawful(d.curve) && WorldOk(d, w)
    requires DoRemove(d, w, ctx, maintainer, key, num, voter).Ok?
    ensures WorldOk(d, DoRemove(d, w, ctx, maintainer, key, num, voter).value)
  {
    var id := Id(key, num);
    LoadedSound(d, w, key, num);
    RemoveSound(d, w, id, w.ballots[id], voter);
    var next := DoRemove(d, w, ctx, maintainer, key, num, voter).value;
    StoreKeeps(d, w, id, next.ballots[id], next);
    forall asset
      ensures Conserved(d, next, asset)
    {
      assert Conserved(d, w, asset);
      RemoveConserves(d, w, id, voter, next, asset);
    }
  }

  /******* Relabelling *******/

  /** Only the title, the content link, the status or the conflict list differ. */
  ghost predicate Relabelled<P>(b: Ballot<P>, e: Ballot<P>) {
    e == b.(proposal := b.proposal.(title := e.proposal.title, ipfs := e.proposal.ipfs, status := e.proposal.status),
    conflicts := e.conflicts)
  }

  lemma RelabelSound<P>(d: Deployment<P>, w: World<P>, id: Id, b: Ballot<P>, e: Ballot<P>)
    requires Relabelled(b, e) && BallotSound(d, w, id, b)
    ensures BallotSound(d, w, id, e)
  {
    assert forall a :: a in b.votes ==> VoteOk(d.curve, b.proposal, a, b.votes[a]);
  }

  lemma RelabelConserves<P>(d: Deployment<P>, w: World<P>, id: Id, next: World<P>, asset: Address)
    requires id in w.ballots && id in next.ballots && Conserved(d, w, asset)
    requires var b, e := w.ballots[id], next.ballots[id];
             && Relabelled(b, e)
             && b.proposal.status == Active && (e.proposal.status == Active || e.proposal.status == Malicious)
             && next == w.(ballots := w.ballots[id := e])
    ensures Conserved(d, next, asset)
  {
    var b, e := w.ballots[id], next.ballots[id];
    HeldSumUpdate(d, w.ballots, id, e, asset);
    OwedSameToken(d, b.proposal, e.proposal, Recorded(b), asset);
  }

  /** Changing title, status or the conflict list changes nothing that is owed or counted. */
  lemma RelabelKeeps<P(!new)>(d: Deployment<P>, w: World<P>, id: Id, next: World<P>)
    requires WorldOk(d, w) && RelabelStep(w, id, next)
    ensures WorldOk(d, next)
  {
    assert SoundAt(d, w, id);
    RelabelSound(d, w, id, w.ballots[id], next.ballots[id]);
    StoreKeeps(d, w, id, next.ballots[id], next);
    forall asset
      ensures Conserved(d, next, asset)
    {
      assert Conserved(d, w, asset);
      RelabelConserves(d, w, id, next, asset);
    }
  }

  /** `next` differs from `w` in one active ballot, which was relabelled and stays active or is revoked. */
  ghost predicate RelabelStep<P>(w: World<P>, id: Id, next: World<P>) {
    && id in w.ballots && id in next.ballots
    && Relabelled(w.ballots[id], next.ballots[id])
    && w.ballots[id].proposal.status == Active
    && (next.ballots[id].proposal.status == Active || next.ballots[id].proposal.status == Malicious)
    && next == w.(ballots := w.ballots[id := next.ballots[id]])
  }

  lemma RevokeRelabels<P>(w: World<P>, ctx: Ctx, maintainer: Address, key: Key, num: nat)
    requires DoRevoke(w, ctx, maintainer, key, num).Ok?
    ensures RelabelStep(w, Id(key, num), DoRevoke(w, ctx, maintainer, key, num).value)
  {
  }

  lemma ConflictsRelabel<P>(w: World<P>, ctx: Ctx, maintainer: Address, key: Key, num: nat, addresses: seq<Address>)
    ensures DoAddConflicts(w, ctx, maintainer, key, num, addresses).Ok? ==>
              RelabelStep(w, Id(key, num), DoAddConflicts(w, ctx, maintainer, key, num, addresses).value)
    ensures DoRemoveConflicts(w, ctx, maintainer, key, num, addresses).Ok? ==>
              RelabelStep(w, Id(key, num), DoRemoveConflicts(w, ctx, maintainer, key, num, addresses).value)
  {
  }

  /******* Execution *******/

  /** The proposal votes with a token whose unit does not fit `i128` (39 decimals or more). */
  predicate UnitTooLarge<P>(d: Deployment<P>, p: Proposal) {
    p.token.Some? && Pow10(d.decimals(p.token.value)) >= I128_LIMIT
  }

  lemma EscrowsCheckedIff<P>(d: Deployment<P>, b: Ballot<P>)
    requires BookOk(d.curve, b) && EscrowsChecked(d, b)
    ensures !UnitTooLarge(d, b.proposal) ==>
              forall i :: 0 <= i < |Recorded(b)| ==> CheckedEscrow(d, b.proposal, Recorded(b)[i].weight).Ok?
    ensures UnitTooLarge(d, b.proposal) ==>
              forall i :: 0 <= i < |Recorded(b)| ==> CheckedEscrow(d, b.proposal, Recorded(b)[i].weight).Err?
  {
    EachVoterOnce(d.curve, b);
    forall i | 0 <= i < |Recorded(b)| && !UnitTooLarge(d, b.proposal)
      ensures CheckedEscrow(d, b.proposal, Recorded(b)[i].weight).Ok?
    {
      var a := b.voters[i];
      assert a in b.votes && b.votes[a] == Recorded(b)[i];
      if b.votes[a].weight == 0 && b.proposal.token.Some? {
        assert VoteEscrow(d, b.proposal, 0).amount == 0;
      }
    }
  }

  /** What execution returns to one account: its proposal collateral and the escrow of its vote. */
  function PaidBack<P>(d: Deployment<P>, b: Ballot<P>, asset: Address, who: Address): nat {
    (if who == b.proposal.proposer then Share(Payment(d.collateral, PROPOSAL_COLLATERAL), asset) else 0)
    + (if who in b.votes then Share(VoteEscrow(d, b.proposal, b.votes[who].weight), asset) else 0)
  }

  /** A payout from sufficient funds. */
  lemma PayOutFromFunds<P>(d: Deployment<P>, bank: Bank, b: Ballot<P>, asset: Address, who: Address)
    requires BookOk(d.curve, b) && EscrowsChecked(d, b)
    requires b.proposal.proposer != d.self && d.self !in b.votes && who != d.self
    requires forall a :: Owed(d, b, a) <= Balance(bank, a, d.self)
    ensures var r := PayOut(d, bank, b);
            && (r.Err? <==> b.voters != [] && UnitTooLarge(d, b.proposal))
            && (r.Err? ==> r.error == ArithmeticTrap)
            && (r.Ok? ==> Balance(r.value, asset, d.self) == Balance(bank, asset, d.self) - Owed(d, b, asset))
            && (r.Ok? ==> Balance(r.value, asset, who) == Balance(bank, asset, who) + PaidBack(d, b, asset, who))
  {
    var p, vs := b.proposal, Recorded(b);
    assert Owed(d, b, d.collateral) >= PROPOSAL_COLLATERAL;
    var t := Transfer(bank, d.collateral, d.self, p.proposer, PROPOSAL_COLLATERAL);
    forall a
      ensures OwedToVotes(d, p, vs, a) <= Balance(t.value, a, d.self)
    {
      TransferMoves(bank, d.collateral, d.self, p.proposer, PROPOSAL_COLLATERAL, a, d.self);
      assert Owed(d, b, a) <= Balance(bank, a, d.self);
    }
    TransferMoves(bank, d.collateral, d.self, p.proposer, PROPOSAL_COLLATERAL, asset, d.self);
    TransferMoves(bank, d.collateral, d.self, p.proposer, PROPOSAL_COLLATERAL, asset, who);
    NotPaidToSelf(d, b);
    PayVotesExact(d, t.value, p, vs, asset, who);
    EscrowsCheckedIff(d, b);
    PaidToVoter(d, b, asset, who);
  }

  lemma NotPaidToSelf<P>(d: Deployment<P>, b: Ballot<P>)
    requires BookOk(d.curve, b) && d.self !in b.votes
    ensures forall i :: 0 <= i < |Recorded(b)| ==> Recorded(b)[i].address != d.self
    ensures |Recorded(b)| == |b.voters|
  {
    EachVoterOnce(d.curve, b);
  }

  /** Solvency: in a reachable state the payout of an active proposal never lacks funds.  It fails only
      on arithmetic, exactly when votes are recorded for a token whose unit `10^decimals` leaves `i128`.
      Otherwise it costs the contract what the ballot owes and pays the proposer the proposal
      collateral and every voter what that vote had locked. */
  lemma PayOutExact<P(!new)>(d: Deployment<P>, w: World<P>, id: Id, asset: Address, who: Address)
    requires WorldOk(d, w) && id in w.ballots && w.ballots[id].proposal.status == Active && who != d.self
    ensures var b := w.ballots[id];
            var r := PayOut(d, w.bank, b);
            && (r.Err? <==> b.voters != [] && UnitTooLarge(d, b.proposal))
            && (r.Err? ==> r.error == ArithmeticTrap)
            && (r.Ok? ==> Balance(r.value, asset, d.self) == Balance(w.bank, asset, d.self) - Owed(d, b, asset))
            && (r.Ok? ==> Balance(r.value, asset, who) == Balance(w.bank, asset, who) + PaidBack(d, b, asset, who))
  {
    var b := w.ballots[id];
    assert SoundAt(d, w, id);
    forall a
      ensures Owed(d, b, a) <= Balance(w.bank, a, d.self)
    {
      assert Conserved(d, w, a);
      HeldSumAtLeast(d, w.ballots, id, a);
    }
    PayOutFromFunds(d, w.bank, b, asset, who);
  }

  lemma PaidToVoter<P>(d: Deployment<P>, b: Ballot<P>, asset: Address, who: Address)
    requires BookOk(d.curve, b)
    ensures OwedToVoter(d, b.proposal, Recorded(b), asset, who)
         == if who in b.votes then Share(VoteEscrow(d, b.proposal, b.votes[who].weight), asset) else 0
  {
    EachVoterOnce(d.curve, b);
    if who in b.votes {
      var k :| 0 <= k < |b.voters| && b.voters[k] == who;
      OwedToSingleVoter(d, b.proposal, Recorded(b), asset, k);
    } else {
      OwedToStranger(d, b.proposal, Recorded(b), asset, who);
    }
  }


  lemma ExecuteConserves<P>(d: Deployment<P>, w: World<P>, id: Id, next: World<P>, asset: Address)
    requires id in w.ballots && id in next.ballots && Conserved(d, w, asset)
    requires w.ballots[id].proposal.status == Active && HeldFor(d, next.ballots[id], asset) == 0
    requires Balance(next.bank, asset, d.self) == Balance(w.bank, asset, d.self) - Owed(d, w.ballots[id], asset)
    requires next == w.(ballots := w.ballots[id := next.ballots[id]], bank := next.bank)
    ensures Conserved(d, next, asset)
  {
    HeldSumUpdate(d, w.ballots, id, next.ballots[id], asset);
  }

  /** `next` differs from `w` in one ballot, which was paid out and closed. */
  ghost predicate SettleStep<P>(d: Deployment<P>, w: World<P>, id: Id, next: World<P>) {
    && id in w.ballots && id in next.ballots
    && var b, e := w.ballots[id], next.ballots[id];
    && Relabelled(b, e) && b.proposal.status == Active && e.proposal.status in {Approved, Rejected, Cancelled}
    && PayOut(d, w.bank, b) == Ok(next.bank)
    && next == w.(ballots := w.ballots[id := e], bank := next.bank)
  }

  lemma ExecuteSettles<P>(d: Deployment<P>, w: World<P>, ctx: Ctx, maintainer: Address, key: Key, num: nat,
                          tallies: Option<seq<u128>>, seeds: Option<seq<u128>>)
    requires DoExecute(d, w, ctx, maintainer, key, num, tallies, seeds).Ok?
    ensures SettleStep(d, w, Id(key, num), DoExecute(d, w, ctx, maintainer, key, num, tallies, seeds).value)
  {
  }

  lemma SettledConserves<P(!new)>(d: Deployment<P>, w: World<P>, id: Id, next: World<P>, asset: Address)
    requires WorldOk(d, w) && SettleStep(d, w, id, next)
    ensures Conserved(d, next, asset)
  {
    assert Conserved(d, w, asset);
    PayOutExact(d, w, id, asset, Address(d.self.id + 1));
    ExecuteConserves(d, w, id, next, asset);
  }

  /** Paying out a ballot and closing it. */
  lemma SettledKeeps<P(!new)>(d: Deployment<P>, w: World<P>, id: Id, next: World<P>)
    requires WorldOk(d, w) && SettleStep(d, w, id, next)
    ensures WorldOk(d, next)
  {
    forall asset
      ensures Conserved(d, next, asset)
    {
      SettledConserves(d, w, id, next, asset);
    }
    SettledSound(d, w, id, next);
  }

  lemma SettledSound<P(!new)>(d: Deployment<P>, w: World<P>, id: Id, next: World<P>)
    requires BallotsSound(d, w) && Numbered(w) && RegistryOk(w) && SettleStep(d, w, id, next)
    ensures BallotsSound(d, next) && Numbered(next) && RegistryOk(next)
  {
    assert SoundAt(d, w, id);
    RelabelSound(d, w, id, w.ballots[id], next.ballots[id]);
    StoreKeeps(d, w, id, next.ballots[id], next);
  }

  /******* Projects and new proposals *******/

  lemma RegisterKeeps<P(!new)>(d: Deployment<P>, w: World<P>, ctx: Ctx, maintainer: Address, project: Project)
    requires WorldOk(d, w) && d.self !in ctx.signers
    requires DoRegister(d, w, ctx, maintainer, project).Ok?
    ensures WorldOk(d, DoRegister(d, w, ctx, maintainer, project).value)
  {
    var next := DoRegister(d, w, ctx, maintainer, project).value;
    forall id
      ensures SoundAt(d, next, id)
    {
      assert SoundAt(d, w, id);
    }
    NumberedKept(w, next);
    forall asset
      ensures Conserved(d, next, asset)
    {
      assert Conserved(d, w, asset);
      TransferMoves(w.bank, d.collateral, maintainer, d.self, REGISTER_COLLATERAL, asset, d.self);
    }
  }


  lemma CreateKeeps<P(!new)>(d: Deployment<P>, w: World<P>, ctx: Ctx, proposer: Address, key: Key, title: string,
                             ipfs: string,
                             votingEndsAt: u64, publicVoting: bool, token: Option<Address>, outcomes: Option<nat>)
    requires Lawful(d.curve) && WorldOk(d, w) && d.self !in ctx.signers
    requires DoCreate(d, w, ctx, proposer, key, title, ipfs, votingEndsAt, publicVoting, token, outcomes).Ok?
    ensures WorldOk(d, DoCreate(d, w, ctx, proposer, key, title, ipfs, votingEndsAt, publicVoting, token,
                                outcomes).value)
  {
    var next := DoCreate(d, w, ctx, proposer, key, title, ipfs, votingEndsAt, publicVoting, token, outcomes).value;
    var num := Total(w, key);
    var p := Proposal(num, title, proposer, ipfs, votingEndsAt, publicVoting, token, outcomes, Active);
    FreshNumber(d, w, key);
    NewSound(d, w, key, p, next);
    forall asset
      ensures Conserved(d, next, asset)
    {
      assert Conserved(d, w, asset);
      CreateConserves(d, w, Id(key, num), p, next, asset);
    }
  }

  lemma FreshNumber<P(!new)>(d: Deployment<P>, w: World<P>, key: Key)
    requires BallotsSound(d, w)
    ensures Id(key, Total(w, key)) !in w.ballots
  {
    var id := Id(key, Total(w, key));
    assert SoundAt(d, w, id);
  }

  lemma NewBallotSound<P(!new)>(d: Deployment<P>, next: World<P>, key: Key, p: Proposal)
    requires Lawful(d.curve) && p.id < Total(next, key)
    requires p.proposer != d.self && (p.publicVoting || key in next.anonymous)
    ensures BallotSound(d, next, Id(key, p.id), NewBallot(d.curve, p))
  {
    NewBallotOk(d.curve, p);
  }

  lemma NewNumbered<P>(w: World<P>, key: Key, num: nat, b: Ballot<P>, next: World<P>)
    requires Numbered(w) && num == Total(w, key) < MAX_PAGES * MAX_PROPOSALS_PER_PAGE && key in w.projects
    requires next == w.(totals := w.totals[key := num + 1], ballots := w.ballots[Id(key, num) := b], bank := next.bank)
    ensures Numbered(next)
  {
    forall k
      ensures NumberedAt(next, k)
    {
      assert NumberedAt(w, k);
    }
  }

  lemma NewSound<P(!new)>(d: Deployment<P>, w: World<P>, key: Key, p: Proposal, next: World<P>)
    requires Lawful(d.curve) && BallotsSound(d, w) && Numbered(w) && RegistryOk(w)
    requires p.id == Total(w, key) < MAX_PAGES * MAX_PROPOSALS_PER_PAGE && key in w.projects
    requires p.proposer != d.self && (p.publicVoting || key in w.anonymous)
    requires next == w.(totals := w.totals[key := p.id + 1],
                     ballots := w.ballots[Id(key, p.id) := NewBallot(d.curve, p)],
                     bank := next.bank)
    ensures BallotsSound(d, next) && Numbered(next) && RegistryOk(next)
  {
    NewNumbered(w, key, p.id, NewBallot(d.curve, p), next);
    NewBallotSound(d, next, key, p);
    forall i
      ensures SoundAt(d, next, i)
    {
      assert SoundAt(d, w, i);
      if i in w.ballots && i != Id(key, p.id) {
        SoundElsewhere(d, w, next, i, w.ballots[i]);
      }
    }
  }

  lemma CreateConserves<P>(d: Deployment<P>, w: World<P>, id: Id, p: Proposal, next: World<P>, asset: Address)
    requires id !in w.ballots && p.proposer != d.self && p.status == Active && Conserved(d, w, asset)
    requires Transfer(w.bank, d.collateral, p.proposer, d.self, CreationCollateral(p.token)) == Ok(next.bank)
    requires next == w.(totals := next.totals, ballots := w.ballots[id := NewBallot(d.curve, p)], bank := next.bank)
    ensures Conserved(d, next, asset)
  {
    TransferMoves(w.bank, d.collateral, p.proposer, d.self, CreationCollateral(p.token), asset, d.self);
    HeldSumUpdate(d, w.ballots, id, NewBallot(d.curve, p), asset);
    OwedByNewBallot(d, p, asset);
  }

  lemma OutsideKeeps<P(!new)>(d: Deployment<P>, w: World<P>, asset: Address, from: Address, to: Address, amount: nat)
    requires WorldOk(d, w) && DoOutside(d, w, asset, from, to, amount).Ok?
    ensures WorldOk(d, DoOutside(d, w, asset, from, to, amount).value)
  {
    var next := DoOutside(d, w, asset, from, to, amount).value;
    forall id
      ensures SoundAt(d, next, id)
    {
      assert SoundAt(d, w, id);
    }
    NumberedKept(w, next);
    forall a
      ensures Conserved(d, next, a)
    {
      assert Conserved(d, w, a);
      if from != to {
        TransferMoves(w.bank, asset, from, to, amount, a, d.self);
      }
    }
  }

  lemma AccessKeeps<P(!new)>(d: Deployment<P>, w: World<P>, next: World<P>)
    requires WorldOk(d, w)
    requires next == w.(projects := next.projects, anonymous := next.anonymous)
    requires next.projects.Keys == w.projects.Keys && w.anonymous.Keys <= next.anonymous.Keys
    ensures WorldOk(d, next)
  {
    forall id
      ensures SoundAt(d, next, id)
    {
      assert SoundAt(d, w, id);
    }
    NumberedKept(w, next);
    forall a
      ensures Conserved(d, next, a)
    {
      assert Conserved(d, w, a);
    }
    assert forall key :: key in next.projects <==> key in w.projects;
  }

  lemma UpdateKeeps<P(!new)>(d: Deployment<P>, w: World<P>, ctx: Ctx, maintainer: Address, key: Key,
                             maintainers: seq<Address>, url: string,
                             ipfs: string)
    requires WorldOk(d, w) && DoUpdateConfig(w, ctx, maintainer, key, maintainers, url, ipfs).Ok?
    ensures WorldOk(d, DoUpdateConfig(w, ctx, maintainer, key, maintainers, url, ipfs).value)
  {
    AccessKeeps(d, w, DoUpdateConfig(w, ctx, maintainer, key, maintainers, url, ipfs).value);
  }

  lemma SetupKeeps<P(!new)>(d: Deployment<P>, w: World<P>, ctx: Ctx, maintainer: Address, key: Key, publicKey: string)
    requires WorldOk(d, w) && DoSetup(w, ctx, maintainer, key, publicKey).Ok?
    ensures WorldOk(d, DoSetup(w, ctx, maintainer, key, publicKey).value)
  {
    AccessKeeps(d, w, DoSetup(w, ctx, maintainer, key, publicKey).value);
  }

  lemma RevokeKeeps<P(!new)>(d: Deployment<P>, w: World<P>, ctx: Ctx, maintainer: Address, key: Key, num: nat)
    requires WorldOk(d, w) && DoRevoke(w, ctx, maintainer, key, num).Ok?
    ensures WorldOk(d, DoRevoke(w, ctx, maintainer, key, num).value)
  {
    RevokeRelabels(w, ctx, maintainer, key, num);
    RelabelKeeps(d, w, Id(key, num), DoRevoke(w, ctx, maintainer, key, num).value);
  }

  lemma AddConflictsKeeps<P(!new)>(d: Deployment<P>, w: World<P>, ctx: Ctx, maintainer: Address, key: Key, num: nat,
                                   addresses: seq<Address>)
    requires WorldOk(d, w) && DoAddConflicts(w, ctx, maintainer, key, num, addresses).Ok?
    ensures WorldOk(d, DoAddConflicts(w, ctx, maintainer, key, num, addresses).value)
  {
    ConflictsRelabel(w, ctx, maintainer, key, num, addresses);
    RelabelKeeps(d, w, Id(key, num), DoAddConflicts(w, ctx, maintainer, key, num, addresses).value);
  }

  lemma RemoveConflictsKeeps<P(!new)>(d: Deployment<P>, w: World<P>, ctx: Ctx, maintainer: Address, key: Key, num: nat,
                                      addresses: seq<Address>)
    requires WorldOk(d, w) && DoRemoveConflicts(w, ctx, maintainer, key, num, addresses).Ok?
    ensures WorldOk(d, DoRemoveConflicts(w, ctx, maintainer, key, num, addresses).value)
  {
    ConflictsRelabel(w, ctx, maintainer, key, num, addresses);
    RelabelKeeps(d, w, Id(key, num), DoRemoveConflicts(w, ctx, maintainer, key, num, addresses).value);
  }

  lemma ExecuteKeeps<P(!new)>(d: Deployment<P>, w: World<P>, ctx: Ctx, maintainer: Address, key: Key, num: nat,
                              tallies: Option<seq<u128>>, seeds: Option<seq<u128>>)
    requires WorldOk(d, w) && DoExecute(d, w, ctx, maintainer, key, num, tallies, seeds).Ok?
    ensures WorldOk(d, DoExecute(d, w, ctx, maintainer, key, num, tallies, seeds).value)
  {
    ExecuteSettles(d, w, ctx, maintainer, key, num, tallies, seeds);
    SettledKeeps(d, w, Id(key, num), DoExecute(d, w, ctx, maintainer, key, num, tallies, seeds).value);
  }

  /******* Runs *******/

  /** Every call keeps every ballot well formed, the numbering gapless and the escrow conserved. */
  lemma StepKeeps<P(!new)>(d: Deployment<P>, w: World<P>, e: Event<P>)
    requires Lawful(d.curve) && WorldOk(d, w) && d.self !in e.ctx.signers
    ensures WorldOk(d, Next(d, w, e))
  {
    if Step(d, w, e).Ok? {
      match e.call {
        case Register(maintainer, project) => RegisterKeeps(d, w, e.ctx, maintainer, project);
        case UpdateConfig(maintainer, key, maintainers, url, ipfs) =>
          UpdateKeeps(d, w, e.ctx, maintainer, key, maintainers, url, ipfs);
        case AnonymousVotingSetup(maintainer, key, publicKey) => SetupKeeps(d, w, e.ctx, maintainer, key, publicKey);
        case CreateProposal(proposer, key, title, ipfs, votingEndsAt, publicVoting, token, outcomes) =>
          CreateKeeps(d, w, e.ctx, proposer, key, title, ipfs, votingEndsAt, publicVoting, token, outcomes);
        case CastBallot(voter, key, num, v) => CastKeeps(d, w, e.ctx, voter, key, num, v);
        case RemoveBallot(maintainer, key, num, voter) => RemoveKeeps(d, w, e.ctx, maintainer, key, num, voter);
        case RevokeProposal(maintainer, key, num) => RevokeKeeps(d, w, e.ctx, maintainer, key, num);
        case Execute(maintainer, key, num, tallies, seeds) =>
          ExecuteKeeps(d, w, e.ctx, maintainer, key, num, tallies, seeds);
        case AddConflictOfInterest(maintainer, key, num, addresses) =>
          AddConflictsKeeps(d, w, e.ctx, maintainer, key, num, addresses);
        case RemoveConflictOfInterest(maintainer, key, num, addresses) =>
          RemoveConflictsKeeps(d, w, e.ctx, maintainer, key, num, addresses);
        case OutsideTransfer(asset, from, to, amount) => OutsideKeeps(d, w, asset, from, to, amount);
      }
    }
  }

  /** After every run from deployment the invariant holds: vote books well formed, tallies and aggregates
      equal to those of the recorded votes, numbering gapless, every asset conserved. */
  lemma {:induction false} RunKeeps<P(!new)>(d: Deployment<P>, w: World<P>, trace: seq<Event<P>>)
    requires Lawful(d.curve) && WorldOk(d, w) && Dao.Outside(d, trace)
    ensures WorldOk(d, Run(d, w, trace))
    decreases |trace|
  {
    if trace != [] {
      StepKeeps(d, w, trace[0]);
      RunKeeps(d, Next(d, w, trace[0]), trace[1..]);
    }
  }
}
