/** Two runs of the contract side by side, one with a vote and one without: a vote that is removed leaves nothing
    behind but its slashed escrow. */
module Undo {
  import opened Curve
  import opened Wrappers
  import opened DaoTypes
  import opened Ledger
  import opened Ballot
  import opened BallotProofs
  import opened Removal
  import opened Dao
  import opened DaoProofs
  import opened DaoTheorems

  /** The vote that one of the runs has: whose, where, and what it locked. */
  datatype Mark<P> = Mark(self: Address, id: Id, voter: Address, vote: Vote<P>, escrow: Payment)

  /******* Balances *******/

  /** `t` is `u` after the voter has paid the escrow to the contract. */
  predicate PaidAt<P>(m: Mark<P>, u: Bank, t: Bank, asset: Address, who: Address) {
    Balance(t, asset, who) == Balance(u, asset, who) + (if who == m.self then Share(m.escrow, asset) else 0)
    - (if who == m.voter then Share(m.escrow, asset) else 0)
  }

  ghost predicate Paid<P>(m: Mark<P>, u: Bank, t: Bank) {
    forall asset, who :: PaidAt(m, u, t, asset, who)
  }

  lemma TransferAt(bank: Bank, asset: Address, from: Address, to: Address, amount: nat, a: Address, x: Address)
    requires Transfer(bank, asset, from, to, amount).Ok?
    ensures Balance(Transfer(bank, asset, from, to, amount).value, a, x)
         == Balance(bank, a, x) - (if a == asset && x == from then amount else 0)
            + (if a == asset && x == to then amount else 0)
  {
  }

  /** A transfer that succeeds with the escrow paid also succeeds without, unless it is the contract that pays. */
  lemma TransferMirrors<P>(m: Mark<P>, u: Bank, t: Bank, asset: Address, from: Address, to: Address, amount: nat)
    requires Paid(m, u, t) && from != m.self && Transfer(t, asset, from, to, amount).Ok?
    ensures Transfer(u, asset, from, to, amount).Ok?
    ensures Paid(m, Transfer(u, asset, from, to, amount).value, Transfer(t, asset, from, to, amount).value)
  {
    assert PaidAt(m, u, t, asset, from);
    var u', t' := Transfer(u, asset, from, to, amount).value, Transfer(t, asset, from, to, amount).value;
    forall a, x ensures PaidAt(m, u', t', a, x) {
      assert PaidAt(m, u, t, a, x);
      TransferAt(u, asset, from, to, amount, a, x);
      TransferAt(t, asset, from, to, amount, a, x);
    }
  }

  /******* Worlds *******/

  /** The ballots agree but for the extra vote, at place `k` of its voter list. */
  ghost predicate BallotsMirror<P>(m: Mark<P>, u: map<Id, Ballot<P>>, t: map<Id, Ballot<P>>, k: nat) {
    && m.id in u && m.id in t && t == u[m.id := t[m.id]]
    && Extra(u[m.id], t[m.id], m.voter, m.vote, k)
  }

  /** `t` is `u` with the extra vote and its escrow. */
  ghost predicate Mirror<P>(m: Mark<P>, u: World<P>, t: World<P>, k: nat) {
    && t == u.(ballots := t.ballots, bank := t.bank)
    && BallotsMirror(m, u.ballots, t.ballots, k)
    && Paid(m, u.bank, t.bank)
  }

  /** The mark belongs to the contract and its vote to an outsider. */
  predicate MarkOk<P>(d: Deployment<P>, m: Mark<P>) {
    m.self == d.self && m.voter != d.self
  }

  /** The same new ballot elsewhere keeps the difference. */
  lemma ElsewhereMirrors<P>(m: Mark<P>, u: map<Id, Ballot<P>>, t: map<Id, Ballot<P>>, k: nat, id: Id, b: Ballot<P>)
    requires BallotsMirror(m, u, t, k) && id != m.id
    ensures BallotsMirror(m, u[id := b], t[id := b], k)
  {
    assert t[id := b] == u[id := b][m.id := t[m.id]];
  }

  lemma HereMirrors<P>(m: Mark<P>, u: map<Id, Ballot<P>>, t: map<Id, Ballot<P>>, k: nat, b: Ballot<P>, c: Ballot<P>,
                       j: nat)
    requires BallotsMirror(m, u, t, k) && Extra(b, c, m.voter, m.vote, j)
    ensures BallotsMirror(m, u[m.id := b], t[m.id := c], j)
  {
    assert t[m.id := c] == u[m.id := b][m.id := c];
  }

  lemma LoadMirrors<P>(m: Mark<P>, u: World<P>, t: World<P>, k: nat, key: Key, num: nat)
    requires Mirror(m, u, t, k) && Load(t, key, num).Ok?
    ensures Load(u, key, num).Ok?
    ensures Id(key, num) != m.id ==> Load(u, key, num) == Load(t, key, num)
    ensures Id(key, num) == m.id ==>
              Load(u, key, num).value == u.ballots[m.id] && Load(t, key, num).value == t.ballots[m.id]
  {
  }

  /******* One call *******/

  lemma AccessMirrors<P>(d: Deployment<P>, m: Mark<P>, u: World<P>, t: World<P>, k: nat, e: Event<P>)
    requires MarkOk(d, m) && Mirror(m, u, t, k) && d.self !in e.ctx.signers && Step(d, t, e).Ok?
    requires e.call.Register? || e.call.UpdateConfig? || e.call.AnonymousVotingSetup? || e.call.OutsideTransfer?
    ensures Step(d, u, e).Ok? && Mirror(m, Step(d, u, e).value, Step(d, t, e).value, k)
  {
    match e.call {
      case Register(maintainer, project) =>
        TransferMirrors(m, u.bank, t.bank, d.collateral, maintainer, d.self, REGISTER_COLLATERAL);
      case OutsideTransfer(asset, from, to, amount) => TransferMirrors(m, u.bank, t.bank, asset, from, to, amount);
      case _ =>
    }
  }

  lemma CreateMirrors<P(!new)>(d: Deployment<P>, m: Mark<P>, u: World<P>, t: World<P>, k: nat, ctx: Ctx, p: Proposal,
                               key: Key)
    requires MarkOk(d, m) && Mirror(m, u, t, k) && BallotsSound(d, u) && d.self !in ctx.signers
    requires p.id == Total(t, key) && p.status == Active && p.votingEndsAt < U64_LIMIT
    requires DoCreate(d, t, ctx, p.proposer, key, p.title, p.ipfs, p.votingEndsAt, p.publicVoting, p.token,
                      p.outcomes).Ok?
    ensures DoCreate(d, u, ctx, p.proposer, key, p.title, p.ipfs, p.votingEndsAt, p.publicVoting, p.token,
                     p.outcomes).Ok?
    ensures Mirror(m, DoCreate(d, u, ctx, p.proposer, key, p.title, p.ipfs, p.votingEndsAt, p.publicVoting, p.token,
                               p.outcomes).value,
                   DoCreate(d, t, ctx, p.proposer, key, p.title, p.ipfs, p.votingEndsAt, p.publicVoting, p.token,
                            p.outcomes).value, k)
  {
    TransferMirrors(m, u.bank, t.bank, d.collateral, p.proposer, d.self, CreationCollateral(p.token));
    assert SoundAt(d, u, m.id);
    ElsewhereMirrors(m, u.ballots, t.ballots, k, Id(key, p.id), NewBallot(d.curve, p));
  }

  /** A call on another proposal. */
  lemma OtherCastMirrors<P(!new)>(d: Deployment<P>, m: Mark<P>, u: World<P>, t: World<P>, k: nat, ctx: Ctx,
                                  voter: Address,
                                  key: Key, num: nat, v: Vote<P>)
    requires MarkOk(d, m) && Mirror(m, u, t, k) && d.self !in ctx.signers && Id(key, num) != m.id
    requires DoCast(d, t, ctx, voter, key, num, v).Ok?
    ensures DoCast(d, u, ctx, voter, key, num, v).Ok?
    ensures Mirror(m, DoCast(d, u, ctx, voter, key, num, v).value, DoCast(d, t, ctx, voter, key, num, v).value, k)
  {
    LoadMirrors(m, u, t, k, key, num);
    var b := Load(t, key, num).value;
    var pay := VoteEscrow(d, b.proposal, v.weight);
    TransferMirrors(m, u.bank, t.bank, pay.asset, voter, d.self, pay.amount);
    ElsewhereMirrors(m, u.ballots, t.ballots, k, Id(key, num), RecordVote(d.curve, b, voter, v).value);
  }

  lemma OtherRemoveMirrors<P(!new)>(d: Deployment<P>, m: Mark<P>, u: World<P>, t: World<P>, k: nat, ctx: Ctx,
                                    maintainer: Address,
                                    key: Key, num: nat, voter: Address)
    requires Mirror(m, u, t, k) && Id(key, num) != m.id && DoRemove(d, t, ctx, maintainer, key, num, voter).Ok?
    ensures DoRemove(d, u, ctx, maintainer, key, num, voter).Ok?
    ensures Mirror(m, DoRemove(d, u, ctx, maintainer, key, num, voter).value,
                   DoRemove(d, t, ctx, maintainer, key, num, voter).value, k)
  {
    LoadMirrors(m, u, t, k, key, num);
    ElsewhereMirrors(m, u.ballots, t.ballots, k, Id(key, num),
                     RemoveVote(d.curve, Load(t, key, num).value, voter).value);
  }

  lemma OtherRevokeMirrors<P>(d: Deployment<P>, m: Mark<P>, u: World<P>, t: World<P>, k: nat, ctx: Ctx,
                              maintainer: Address, key: Key, num: nat)
    requires Mirror(m, u, t, k) && Id(key, num) != m.id && DoRevoke(t, ctx, maintainer, key, num).Ok?
    ensures DoRevoke(u, ctx, maintainer, key, num).Ok?
    ensures Mirror(m, DoRevoke(u, ctx, maintainer, key, num).value, DoRevoke(t, ctx, maintainer, key, num).value, k)
  {
    LoadMirrors(m, u, t, k, key, num);
    ElsewhereMirrors(m, u.ballots, t.ballots, k, Id(key, num), Revoke(Load(t, key, num).value).value);
  }

  lemma OtherAddMirrors<P>(m: Mark<P>, u: World<P>, t: World<P>, k: nat, ctx: Ctx, maintainer: Address, key: Key,
                           num: nat, addresses: seq<Address>)
    requires Mirror(m, u, t, k) && Id(key, num) != m.id && DoAddConflicts(t, ctx, maintainer, key, num, addresses).Ok?
    ensures DoAddConflicts(u, ctx, maintainer, key, num, addresses).Ok?
    ensures Mirror(m, DoAddConflicts(u, ctx, maintainer, key, num, addresses).value,
                   DoAddConflicts(t, ctx, maintainer, key, num, addresses).value, k)
  {
    LoadMirrors(m, u, t, k, key, num);
    ElsewhereMirrors(m, u.ballots, t.ballots, k, Id(key, num), AddConflicts(Load(t, key, num).value, addresses).value);
  }

  lemma OtherDropMirrors<P>(m: Mark<P>, u: World<P>, t: World<P>, k: nat, ctx: Ctx, maintainer: Address, key: Key,
                            num: nat, addresses: seq<Address>)
    requires Mirror(m, u, t, k) && Id(key, num) != m.id
             && DoRemoveConflicts(t, ctx, maintainer, key, num, addresses).Ok?
    ensures DoRemoveConflicts(u, ctx, maintainer, key, num, addresses).Ok?
    ensures Mirror(m, DoRemoveConflicts(u, ctx, maintainer, key, num, addresses).value,
                   DoRemoveConflicts(t, ctx, maintainer, key, num, addresses).value, k)
  {
    LoadMirrors(m, u, t, k, key, num);
    ElsewhereMirrors(m, u.ballots, t.ballots, k, Id(key, num),
                     RemoveConflicts(Load(t, key, num).value, addresses).value);
  }

  /** The payout of another proposal: the contract can afford it without the escrow too. */
  lemma PayOutMirrors<P(!new)>(d: Deployment<P>, m: Mark<P>, u: World<P>, t: World<P>, k: nat, id: Id)
    requires MarkOk(d, m) && Mirror(m, u, t, k) && WorldOk(d, u) && WorldOk(d, t)
    requires id in t.ballots && id != m.id && t.ballots[id].proposal.status == Active
             && PayOut(d, t.bank, t.ballots[id]).Ok?
    ensures id in u.ballots && PayOut(d, u.bank, t.ballots[id]).Ok?
    ensures Paid(m, PayOut(d, u.bank, t.ballots[id]).value, PayOut(d, t.bank, t.ballots[id]).value)
  {
    var b := t.ballots[id];
    PayOutExact(d, u, id, d.collateral, m.voter);
    PayOutExact(d, t, id, d.collateral, m.voter);
    var u', t' := PayOut(d, u.bank, b).value, PayOut(d, t.bank, b).value;
    forall a, x ensures PaidAt(m, u', t', a, x) {
      assert PaidAt(m, u.bank, t.bank, a, x);
      var who := if x == d.self then m.voter else x;
      PayOutExact(d, u, id, a, who);
      PayOutExact(d, t, id, a, who);
    }
  }

  lemma OtherExecuteMirrors<P(!new)>(d: Deployment<P>, m: Mark<P>, u: World<P>, t: World<P>, k: nat, ctx: Ctx,
                                     maintainer: Address,
                                     key: Key, num: nat, tallies: Option<seq<u128>>, seeds: Option<seq<u128>>)
    requires MarkOk(d, m) && Mirror(m, u, t, k) && WorldOk(d, u) && WorldOk(d, t) && Id(key, num) != m.id
    requires DoExecute(d, t, ctx, maintainer, key, num, tallies, seeds).Ok?
    ensures DoExecute(d, u, ctx, maintainer, key, num, tallies, seeds).Ok?
    ensures Mirror(m, DoExecute(d, u, ctx, maintainer, key, num, tallies, seeds).value,
                   DoExecute(d, t, ctx, maintainer, key, num, tallies, seeds).value, k)
  {
    LoadMirrors(m, u, t, k, key, num);
    var b := Load(t, key, num).value;
    PayOutMirrors(d, m, u, t, k, Id(key, num));
    var status := Decide(d.curve, b, key in t.anonymous, tallies, seeds).value;
    ElsewhereMirrors(m, u.ballots, t.ballots, k, Id(key, num), b.(proposal := b.proposal.(status := status)));
  }

  /******* One call on the marked proposal *******/

  lemma RecordMirrors<P(!new)>(g: Group<P>, m: Mark<P>, b: Ballot<P>, c: Ballot<P>, k: nat, now: nat, maxWeight: u32,
                               voter: Address, v: Vote<P>)
    returns (j: nat)
    requires Lawful(g) && BallotOk(g, b) && BallotOk(g, c) && Extra(b, c, m.voter, m.vote, k) && voter != m.voter
    requires CheckVote(g, c, now, maxWeight, voter, v).Ok? && RecordVote(g, c, voter, v).Ok?
    ensures CheckVote(g, b, now, maxWeight, voter, v).Ok? && RecordVote(g, b, voter, v).Ok?
    ensures Extra(RecordVote(g, b, voter, v).value, RecordVote(g, c, voter, v).value, m.voter, m.vote, j)
  {
    j := PlayMirrors(g, b, c, m.voter, m.vote, k, Cast(now, maxWeight, voter, v));
  }

  lemma SameCastMirrors<P(!new)>(d: Deployment<P>, m: Mark<P>, u: World<P>, t: World<P>, k: nat, ctx: Ctx,
                                 voter: Address, v: Vote<P>)
    returns (j: nat)
    requires Lawful(d.curve) && MarkOk(d, m) && Mirror(m, u, t, k) && BallotsSound(d, u) && BallotsSound(d, t)
             && d.self !in ctx.signers
    requires voter != m.voter && DoCast(d, t, ctx, voter, m.id.key, m.id.num, v).Ok?
    ensures DoCast(d, u, ctx, voter, m.id.key, m.id.num, v).Ok?
    ensures Mirror(m, DoCast(d, u, ctx, voter, m.id.key, m.id.num, v).value,
                   DoCast(d, t, ctx, voter, m.id.key, m.id.num, v).value, j)
  {
    LoadMirrors(m, u, t, k, m.id.key, m.id.num);
    assert SoundAt(d, u, m.id) && SoundAt(d, t, m.id);
    var b, c := u.ballots[m.id], t.ballots[m.id];
    j := RecordMirrors(d.curve, m, b, c, k, ctx.now, ctx.maxWeight, voter, v);
    var pay := VoteEscrow(d, b.proposal, v.weight);
    TransferMirrors(m, u.bank, t.bank, pay.asset, voter, d.self, pay.amount);
    HereMirrors(m, u.ballots, t.ballots, k, RecordVote(d.curve, b, voter, v).value,
                RecordVote(d.curve, c, voter, v).value, j);
  }

  lemma SameRemoveMirrors<P(!new)>(d: Deployment<P>, m: Mark<P>, u: World<P>, t: World<P>, k: nat, ctx: Ctx,
                                   maintainer: Address, voter: Address)
    returns (j: nat)
    requires Lawful(d.curve) && Mirror(m, u, t, k) && BallotsSound(d, u) && BallotsSound(d, t)
    requires voter != m.voter && DoRemove(d, t, ctx, maintainer, m.id.key, m.id.num, voter).Ok?
    ensures DoRemove(d, u, ctx, maintainer, m.id.key, m.id.num, voter).Ok?
    ensures Mirror(m, DoRemove(d, u, ctx, maintainer, m.id.key, m.id.num, voter).value,
                   DoRemove(d, t, ctx, maintainer, m.id.key, m.id.num, voter).value, j)
  {
    LoadMirrors(m, u, t, k, m.id.key, m.id.num);
    assert SoundAt(d, u, m.id) && SoundAt(d, t, m.id);
    var b, c := u.ballots[m.id], t.ballots[m.id];
    j := PlayMirrors(d.curve, b, c, m.voter, m.vote, k, Remove(voter));
    HereMirrors(m, u.ballots, t.ballots, k, RemoveVote(d.curve, b, voter).value, RemoveVote(d.curve, c, voter).value,
                j);
  }

  lemma SameAddMirrors<P>(m: Mark<P>, u: World<P>, t: World<P>, k: nat, ctx: Ctx, maintainer: Address,
                          addresses: seq<Address>)
    requires Mirror(m, u, t, k) && DoAddConflicts(t, ctx, maintainer, m.id.key, m.id.num, addresses).Ok?
    ensures DoAddConflicts(u, ctx, maintainer, m.id.key, m.id.num, addresses).Ok?
    ensures Mirror(m, DoAddConflicts(u, ctx, maintainer, m.id.key, m.id.num, addresses).value,
                   DoAddConflicts(t, ctx, maintainer, m.id.key, m.id.num, addresses).value, k)
  {
    LoadMirrors(m, u, t, k, m.id.key, m.id.num);
    var b, c := u.ballots[m.id], t.ballots[m.id];
    HereMirrors(m, u.ballots, t.ballots, k, AddConflicts(b, addresses).value, AddConflicts(c, addresses).value, k);
  }

  lemma SameDropMirrors<P>(m: Mark<P>, u: World<P>, t: World<P>, k: nat, ctx: Ctx, maintainer: Address,
                           addresses: seq<Address>)
    requires Mirror(m, u, t, k) && DoRemoveConflicts(t, ctx, maintainer, m.id.key, m.id.num, addresses).Ok?
    ensures DoRemoveConflicts(u, ctx, maintainer, m.id.key, m.id.num, addresses).Ok?
    ensures Mirror(m, DoRemoveConflicts(u, ctx, maintainer, m.id.key, m.id.num, addresses).value,
                   DoRemoveConflicts(t, ctx, maintainer, m.id.key, m.id.num, addresses).value, k)
  {
    LoadMirrors(m, u, t, k, m.id.key, m.id.num);
    var b, c := u.ballots[m.id], t.ballots[m.id];
    HereMirrors(m, u.ballots, t.ballots, k, RemoveConflicts(b, addresses).value, RemoveConflicts(c, addresses).value,
                k);
  }

  /** Any call that does not act on the extra vote and leaves its proposal active succeeds without it as well, and
      the difference stays what it was. */
  lemma StepMirrors<P(!new)>(d: Deployment<P>, m: Mark<P>, u: World<P>, t: World<P>, k: nat, e: Event<P>)
    returns (j: nat)
    requires Lawful(d.curve) && MarkOk(d, m) && Mirror(m, u, t, k) && WorldOk(d, u) && WorldOk(d, t)
    requires d.self !in e.ctx.signers && !ActsOnVote(e, m.id, m.voter)
             && (Target(e.call) == Some(m.id) ==> !Closes(e.call))
    requires Step(d, t, e).Ok?
    ensures Step(d, u, e).Ok? && Mirror(m, Step(d, u, e).value, Step(d, t, e).value, j)
  {
    j := k;
    match e.call {
      case CreateProposal(proposer, key, title, ipfs, votingEndsAt, publicVoting, token, outcomes) =>
        var p := Proposal(Total(t, key), title, proposer, ipfs, votingEndsAt, publicVoting, token, outcomes, Active);
        CreateMirrors(d, m, u, t, k, e.ctx, p, key);
      case CastBallot(voter, key, num, v) =>
        if Id(key, num) == m.id {
          j := SameCastMirrors(d, m, u, t, k, e.ctx, voter, v);
        } else {
          OtherCastMirrors(d, m, u, t, k, e.ctx, voter, key, num, v);
        }
      case RemoveBallot(maintainer, key, num, voter) =>
        if Id(key, num) == m.id {
          j := SameRemoveMirrors(d, m, u, t, k, e.ctx, maintainer, voter);
        } else {
          OtherRemoveMirrors(d, m, u, t, k, e.ctx, maintainer, key, num, voter);
        }
      case RevokeProposal(maintainer, key, num) => OtherRevokeMirrors(d, m, u, t, k, e.ctx, maintainer, key, num);
      case Execute(maintainer, key, num, tallies, seeds) =>
        OtherExecuteMirrors(d, m, u, t, k, e.ctx, maintainer, key, num, tallies, seeds);
      case AddConflictOfInterest(maintainer, key, num, addresses) =>
        if Id(key, num) == m.id {
          SameAddMirrors(m, u, t, k, e.ctx, maintainer, addresses);
        } else {
          OtherAddMirrors(m, u, t, k, e.ctx, maintainer, key, num, addresses);
        }
      case RemoveConflictOfInterest(maintainer, key, num, addresses) =>
        if Id(key, num) == m.id {
          SameDropMirrors(m, u, t, k, e.ctx, maintainer, addresses);
        } else {
          OtherDropMirrors(m, u, t, k, e.ctx, maintainer, key, num, addresses);
        }
      case _ => AccessMirrors(d, m, u, t, k, e);
    }
  }

  /******* Whole runs *******/

  lemma {:induction false} RunMirrors<P(!new)>(d: Deployment<P>, m: Mark<P>, u: World<P>, t: World<P>, k: nat,
                                               trace: seq<Event<P>>)
    returns (j: nat)
    requires Lawful(d.curve) && MarkOk(d, m) && Mirror(m, u, t, k) && WorldOk(d, u) && WorldOk(d, t)
    requires Dao.Outside(d, trace) && AllSucceed(d, t, trace)
    requires forall i :: 0 <= i < |trace| ==> !ActsOnVote(trace[i], m.id, m.voter)
    requires m.id in Run(d, t, trace).ballots && Run(d, t, trace).ballots[m.id].proposal.status == Active
    ensures AllSucceed(d, u, trace) && WorldOk(d, Run(d, u, trace)) && WorldOk(d, Run(d, t, trace))
    ensures Mirror(m, Run(d, u, trace), Run(d, t, trace), j)
    decreases |trace|
  {
    j := k;
    if trace != [] {
      var t' := FirstStep(d, t, trace, m.id);
      StaysActive(d, t', trace[1..], m.id);
      var i, u' := NextMirrors(d, m, u, t, k, trace[0], t');
      j := RunMirrors(d, m, u', t', i, trace[1..]);
    }
  }

  lemma NextMirrors<P(!new)>(d: Deployment<P>, m: Mark<P>, u: World<P>, t: World<P>, k: nat, e: Event<P>, t': World<P>)
    returns (j: nat, u': World<P>)
    requires Lawful(d.curve) && MarkOk(d, m) && Mirror(m, u, t, k) && WorldOk(d, u) && WorldOk(d, t)
    requires d.self !in e.ctx.signers && !ActsOnVote(e, m.id, m.voter)
    requires Step(d, t, e) == Ok(t') && m.id in t'.ballots && t'.ballots[m.id].proposal.status == Active
    ensures Step(d, u, e) == Ok(u') && WorldOk(d, u') && Mirror(m, u', t', j)
  {
    BallotStep(d, t, e, m.id);
    j := StepMirrors(d, m, u, t, k, e);
    StepKeeps(d, u, e);
    u' := Next(d, u, e);
  }

  /** An accepted vote is a difference of this kind. */
  lemma CastMirrors<P>(d: Deployment<P>, w: World<P>, e: Event<P>, m: Mark<P>)
    requires e.call.CastBallot? && Target(e.call) == Some(m.id) && Step(d, w, e).Ok? && d.self !in e.ctx.signers
    requires m.self == d.self && m.voter == e.call.voter && m.vote == e.call.vote && m.id in w.ballots
    requires m.escrow == VoteEscrow(d, w.ballots[m.id].proposal, e.call.vote.weight)
    ensures MarkOk(d, m) && Mirror(m, w, Step(d, w, e).value, |w.ballots[m.id].voters|)
  {
    var b, t := w.ballots[m.id], Step(d, w, e).value;
    CastIsExtra(d.curve, b, e.ctx.now, e.ctx.maxWeight, m.voter, m.vote);
    forall a, x ensures PaidAt(m, w.bank, t.bank, a, x) {
      TransferAt(w.bank, m.escrow.asset, m.voter, d.self, m.escrow.amount, a, x);
    }
  }

  /** Removing the extra vote leaves the escrow as the only difference. */
  lemma RemoveUndoes<P(!new)>(d: Deployment<P>, m: Mark<P>, u: World<P>, t: World<P>, k: nat, ctx: Ctx,
                              maintainer: Address)
    requires Lawful(d.curve) && Mirror(m, u, t, k) && BallotsSound(d, u) && BallotsSound(d, t)
    requires DoRemove(d, t, ctx, maintainer, m.id.key, m.id.num, m.voter).Ok?
    requires m.escrow == VoteEscrow(d, u.ballots[m.id].proposal, m.vote.weight)
    ensures DoRemove(d, t, ctx, maintainer, m.id.key, m.id.num, m.voter)
         == Ok(u.(bank := t.bank, slashed := Plus(u.slashed, m.escrow.asset, m.escrow.amount)))
  {
    assert SoundAt(d, u, m.id) && SoundAt(d, t, m.id);
    var b, c := u.ballots[m.id], t.ballots[m.id];
    RemoveRestores(d.curve, m, b, c, k);
    assert t.ballots[m.id := b] == u.ballots;
  }

  lemma RemoveRestores<P(!new)>(g: Group<P>, m: Mark<P>, b: Ballot<P>, c: Ballot<P>, k: nat)
    requires Lawful(g) && BallotOk(g, b) && BallotOk(g, c) && Extra(b, c, m.voter, m.vote, k)
             && RemoveVote(g, c, m.voter).Ok?
    ensures RemoveVote(g, c, m.voter) == Ok(b)
  {
    RemoveVoteKeeps(g, c, m.voter);
    RemovingTheExtra(g, b, c, RemoveVote(g, c, m.voter).value, m.voter, m.vote, k);
  }

  /** A vote that is removed leaves nothing behind but its slashed escrow: whatever successful calls others make in
      between, on any proposal, those calls also succeed without the vote, and lead to the same projects, pages,
      ballots and books.  Only the balances of the voter and of the contract differ, by the escrow, and so does
      the amount slashed. */
  lemma RemovedVoteLeavesOnlyItsEscrow<P(!new)>(d: Deployment<P>, w: World<P>, cast: Event<P>, between: seq<Event<P>>,
                                                remove: Event<P>, id: Id)
    requires Lawful(d.curve) && WorldOk(d, w) && Dao.Outside(d, [cast] + between + [remove])
    requires AllSucceed(d, w, [cast] + between + [remove])
    requires cast.call.CastBallot? && Target(cast.call) == Some(id)
    requires remove.call.RemoveBallot? && Target(remove.call) == Some(id) && remove.call.voter == cast.call.voter
    requires forall k :: 0 <= k < |between| ==> !ActsOnVote(between[k], id, cast.call.voter)
    ensures id in w.ballots && AllSucceed(d, w, between)
    ensures var u, t := Run(d, w, between), Run(d, w, [cast] + between + [remove]);
            var escrow := VoteEscrow(d, w.ballots[id].proposal, cast.call.vote.weight);
            && t == u.(bank := t.bank, slashed := Plus(u.slashed, escrow.asset, escrow.amount))
            && Paid(Mark(d.self, id, cast.call.voter, cast.call.vote, escrow), u.bank, t.bank)
  {
    var w1, t := RunAround(d, w, cast, between, remove);
    OutsideParts(d, cast, between, remove);
    StepEffect(d, w, cast);
    var escrow := VoteEscrow(d, w.ballots[id].proposal, cast.call.vote.weight);
    var m := Mark(d.self, id, cast.call.voter, cast.call.vote, escrow);
    CastMirrors(d, w, cast, m);
    StepKeeps(d, w, cast);
    RemovedAfter(d, m, w, w1, |w.ballots[id].voters|, between, remove.ctx, remove.call.maintainer);
  }

  lemma OutsideParts<P>(d: Deployment<P>, cast: Event<P>, between: seq<Event<P>>, remove: Event<P>)
    requires Dao.Outside(d, [cast] + between + [remove])
    ensures d.self !in cast.ctx.signers && Dao.Outside(d, between)
  {
    var whole := [cast] + between + [remove];
    assert whole[0] == cast;
    forall k | 0 <= k < |between| ensures d.self !in between[k].ctx.signers {
      assert whole[k + 1] == between[k];
    }
  }

  lemma RemovedAfter<P(!new)>(d: Deployment<P>, m: Mark<P>, w: World<P>, w1: World<P>, k: nat, between: seq<Event<P>>,
                              ctx: Ctx, maintainer: Address)
    requires Lawful(d.curve) && MarkOk(d, m) && Mirror(m, w, w1, k) && WorldOk(d, w) && WorldOk(d, w1)
    requires m.escrow == VoteEscrow(d, w.ballots[m.id].proposal, m.vote.weight)
    requires Dao.Outside(d, between) && AllSucceed(d, w1, between)
    requires forall k :: 0 <= k < |between| ==> !ActsOnVote(between[k], m.id, m.voter)
    requires DoRemove(d, Run(d, w1, between), ctx, maintainer, m.id.key, m.id.num, m.voter).Ok?
    ensures AllSucceed(d, w, between)
    ensures var u, t := Run(d, w, between), Run(d, w1, between);
            && DoRemove(d, t, ctx, maintainer, m.id.key, m.id.num, m.voter)
               == Ok(u.(bank := t.bank, slashed := Plus(u.slashed, m.escrow.asset, m.escrow.amount)))
            && Paid(m, u.bank, t.bank)
  {
    var u, t := Run(d, w, between), Run(d, w1, between);
    var j := RunMirrors(d, m, w, w1, k, between);
    TermsRun(d, w, between, m.id);
    EscrowOfTerms(d, w.ballots[m.id].proposal, u.ballots[m.id].proposal, m.vote.weight);
    RemoveUndoes(d, m, u, t, j, ctx, maintainer);
  }

  lemma EscrowOfTerms<P>(d: Deployment<P>, p: Proposal, q: Proposal, weight: u32)
    requires Terms(p) == Terms(q)
    ensures VoteEscrow(d, p, weight) == VoteEscrow(d, q, weight)
  {
    assert Terms(p).token == p.token && Terms(q).token == q.token;
  }

  lemma RunAround<P>(d: Deployment<P>, w: World<P>, cast: Event<P>, between: seq<Event<P>>, remove: Event<P>)
    returns (w1: World<P>, t: World<P>)
    requires AllSucceed(d, w, [cast] + between + [remove])
    ensures Step(d, w, cast) == Ok(w1) && AllSucceed(d, w1, between)
    ensures t == Run(d, w1, between) && Step(d, t, remove).Ok?
    ensures Run(d, w, [cast] + between + [remove]) == Step(d, t, remove).value
  {
    var whole, last := [cast] + between + [remove], [remove];
    assert whole[0] == cast && whole[1..] == between + last;
    FirstSucceeds(d, w, whole);
    w1 := Next(d, w, cast);
    t := Run(d, w1, between);
    AllSucceedSplit(d, w1, between, last);
    RunSplit(d, w1, between, last);
    FirstSucceeds(d, t, last);
    assert last[1..] == [];
  }

  /** In particular the whole stored ballot (votes, voter order, tallies, conflict list) is the one that the other
      calls on this proposal produce by themselves. */
  lemma RemovalUndoesVoteInRun<P(!new)>(d: Deployment<P>, w: World<P>, cast: Event<P>, between: seq<Event<P>>,
                                        remove: Event<P>, id: Id)
    requires Lawful(d.curve) && WorldOk(d, w) && Dao.Outside(d, [cast] + between + [remove])
    requires AllSucceed(d, w, [cast] + between + [remove])
    requires cast.call.CastBallot? && Target(cast.call) == Some(id)
    requires remove.call.RemoveBallot? && Target(remove.call) == Some(id) && remove.call.voter == cast.call.voter
    requires forall k :: 0 <= k < |between| ==> !ActsOnVote(between[k], id, cast.call.voter)
    ensures id in w.ballots && id in Run(d, w, [cast] + between + [remove]).ballots
    ensures PlayAll(d.curve, w.ballots[id], Projection(between, id))
         == Ok(Run(d, w, [cast] + between + [remove]).ballots[id])
  {
    RemovedVoteLeavesOnlyItsEscrow(d, w, cast, between, remove, id);
    OutsideParts(d, cast, between, remove);
    TermsRun(d, w, between, id);
    var w1, t := RunAround(d, w, cast, between, remove);
    StepEffect(d, t, remove);
    RunPlays(d, w, between, id);
  }
}
