/** What the contract holds of every asset, and why a payout never lacks funds. */
module Escrow {
  import opened DaoTypes
  import opened Ledger
  import opened Ballot
  import opened BallotProofs
  import opened Dao

  /******* Sums over votes *******/

  lemma {:induction false} OwedSplit<P>(d: Deployment<P>, p: Proposal, s: seq<Vote<P>>, t: seq<Vote<P>>, asset: Address)
    ensures OwedToVotes(d, p, s + t, asset) == OwedToVotes(d, p, s, asset) + OwedToVotes(d, p, t, asset)
  {
    if s == [] {
      assert s + t == t;
    } else {
      assert (s + t)[1..] == s[1..] + t;
      OwedSplit(d, p, s[1..], t, asset);
    }
  }

  lemma OwedOneMore<P>(d: Deployment<P>, p: Proposal, s: seq<Vote<P>>, v: Vote<P>, asset: Address)
    ensures OwedToVotes(d, p, s + [v], asset) == OwedToVotes(d, p, s, asset) + Share(VoteEscrow(d, p, v.weight), asset)
  {
    OwedSplit(d, p, s, [v], asset);
    assert [v][1..] == [];
  }

  lemma {:induction false} OwedSameToken<P>(d: Deployment<P>, p: Proposal, q: Proposal, s: seq<Vote<P>>, asset: Address)
    requires p.token == q.token
    ensures OwedToVotes(d, p, s, asset) == OwedToVotes(d, q, s, asset)
  {
    if s != [] {
      OwedSameToken(d, p, q, s[1..], asset);
    }
  }

  /** What the votes of one account have locked. */
  function OwedToVoter<P>(d: Deployment<P>, p: Proposal, vs: seq<Vote<P>>, asset: Address, who: Address): nat {
    if vs == [] then 0
    else (if vs[0].address == who then Share(VoteEscrow(d, p, vs[0].weight), asset) else 0)
         + OwedToVoter(d, p, vs[1..], asset, who)
  }

  lemma {:induction false} OwedToStranger<P>(d: Deployment<P>, p: Proposal, vs: seq<Vote<P>>, asset: Address,
                                             who: Address)
    requires forall i :: 0 <= i < |vs| ==> vs[i].address != who
    ensures OwedToVoter(d, p, vs, asset, who) == 0
  {
    if vs != [] {
      OwedToStranger(d, p, vs[1..], asset, who);
    }
  }

  lemma {:induction false} OwedToSingleVoter<P>(d: Deployment<P>, p: Proposal, vs: seq<Vote<P>>, asset: Address, k: nat)
    requires k < |vs| && forall i, j :: 0 <= i < j < |vs| ==> vs[i].address != vs[j].address
    ensures OwedToVoter(d, p, vs, asset, vs[k].address) == Share(VoteEscrow(d, p, vs[k].weight), asset)
  {
    if k == 0 {
      OwedToStranger(d, p, vs[1..], asset, vs[0].address);
    } else {
      OwedToSingleVoter(d, p, vs[1..], asset, k - 1);
    }
  }

  /******* Changes of one ballot *******/

  lemma OwedAfterVote<P>(d: Deployment<P>, b: Ballot<P>, voter: Address, v: Vote<P>, asset: Address)
    requires voter !in b.voters && RecordVote(d.curve, b, voter, v).Ok?
    ensures Owed(d, RecordVote(d.curve, b, voter, v).value, asset)
         == Owed(d, b, asset) + Share(VoteEscrow(d, b.proposal, v.weight), asset)
  {
    RecordedAfterVote(b, voter, v);
    OwedOneMore(d, b.proposal, Recorded(b), v, asset);
  }

  lemma OwedAfterRemoval<P>(d: Deployment<P>, b: Ballot<P>, voter: Address, asset: Address)
    requires BookOk(d.curve, b) && voter in b.votes && RemoveVote(d.curve, b, voter).Ok?
    ensures Owed(d, b, asset)
         == Owed(d, RemoveVote(d.curve, b, voter).value,
                 asset) + Share(VoteEscrow(d, b.proposal, b.votes[voter].weight), asset)
  {
    var k, vs, p := Position(b.voters, voter), Recorded(b), b.proposal;
    RecordedAfterRemoval(b, voter);
    var s, t := vs[..k], vs[k + 1..];
    assert vs == (s + [vs[k]]) + t;
    OwedSplit(d, p, s + [vs[k]], t, asset);
    OwedOneMore(d, p, s, vs[k], asset);
    OwedSplit(d, p, s, t, asset);
  }

  /** The proposer deposits exactly what the new ballot owes, in badge and in token mode alike. */
  lemma OwedByNewBallot<P>(d: Deployment<P>, p: Proposal, asset: Address)
    ensures Owed(d, NewBallot(d.curve, p), asset) == Share(Payment(d.collateral, CreationCollateral(p.token)), asset)
  {
    var b := NewBallot(d.curve, p);
    var v := b.votes[p.proposer];
    AllVotesSingle(p.proposer, b.votes);
    assert [v][1..] == [];
    assert OwedToVotes(d, p, [v], asset) == Share(VoteEscrow(d, p, 0), asset);
  }

  /******* All ballots *******/

  /** Active proposals owe their escrow back; a revoked proposal keeps it for good. */
  function HeldFor<P>(d: Deployment<P>, b: Ballot<P>, asset: Address): nat {
    if b.proposal.status == Active || b.proposal.status == Malicious then Owed(d, b, asset) else 0
  }

  function Held<P>(d: Deployment<P>, ballots: map<Id, Ballot<P>>, asset: Address): map<Id, nat> {
    map id | id in ballots :: HeldFor(d, ballots[id], asset)
  }

  ghost function HeldSum<P>(d: Deployment<P>, ballots: map<Id, Ballot<P>>, asset: Address): nat {
    SumMap(Held(d, ballots, asset))
  }

  lemma HeldSumUpdate<P>(d: Deployment<P>, ballots: map<Id, Ballot<P>>, id: Id, b: Ballot<P>, asset: Address)
    ensures HeldSum(d, ballots[id := b], asset)
         == HeldSum(d, ballots, asset) + HeldFor(d, b,
                                                 asset) - (if id in ballots then HeldFor(d, ballots[id], asset) else 0)
  {
    assert Held(d, ballots[id := b], asset) == Held(d, ballots, asset)[id := HeldFor(d, b, asset)];
    SumMapUpdate(Held(d, ballots, asset), id, HeldFor(d, b, asset));
  }

  lemma HeldSumAtLeast<P>(d: Deployment<P>, ballots: map<Id, Ballot<P>>, id: Id, asset: Address)
    requires id in ballots
    ensures HeldFor(d, ballots[id], asset) <= HeldSum(d, ballots, asset)
  {
    SumMapAtLeast(Held(d, ballots, asset), id);
  }

  function Deposits<P>(d: Deployment<P>, w: World<P>, asset: Address): nat {
    |w.registry| * Share(Payment(d.collateral, REGISTER_COLLATERAL), asset)
  }

  /** Conservation: the contract's balance of an asset is the registration deposits, the escrow of active
      and of revoked proposals, the slashed votes and what it was given. */
  ghost predicate Conserved<P>(d: Deployment<P>, w: World<P>, asset: Address) {
    Balance(w.bank, asset, d.self)
    == Deposits(d, w, asset) + HeldSum(d, w.ballots, asset) + Amount(w.slashed, asset) + Amount(w.received, asset)
  }

  /******* Payouts *******/

  /** With enough of every asset, paying all votes can fail only by arithmetic; it costs the contract
      exactly what was owed and brings every account exactly what its votes had locked. */
  lemma {:induction false} PayVotesExact<P>(d: Deployment<P>, bank: Bank, p: Proposal, vs: seq<Vote<P>>, asset: Address,
                                            who: Address)
    requires forall a :: OwedToVotes(d, p, vs, a) <= Balance(bank, a, d.self)
    requires forall i :: 0 <= i < |vs| ==> vs[i].address != d.self
    requires who != d.self
    ensures var r := PayVotes(d, bank, p, vs);
            && (r.Err? ==> r.error == ArithmeticTrap)
            && (r.Ok? <==> forall i :: 0 <= i < |vs| ==> CheckedEscrow(d, p, vs[i].weight).Ok?)
            && (r.Ok? ==>
                  Balance(r.value, asset, d.self) == Balance(bank, asset, d.self) - OwedToVotes(d, p, vs, asset))
            && (r.Ok? ==> Balance(r.value, asset, who) == Balance(bank, asset, who) + OwedToVoter(d, p, vs, asset, who))
    decreases |vs|
  {
    if vs != [] {
      var pay := VoteEscrow(d, p, vs[0].weight);
      assert OwedToVotes(d, p, vs, pay.asset) >= pay.amount;
      var t := Transfer(bank, pay.asset, d.self, vs[0].address, pay.amount);
      if CheckedEscrow(d, p, vs[0].weight).Ok? {
        forall a
          ensures OwedToVotes(d, p, vs[1..], a) <= Balance(t.value, a, d.self)
        {
          TransferMoves(bank, pay.asset, d.self, vs[0].address, pay.amount, a, d.self);
          assert OwedToVotes(d, p, vs, a) == Share(pay, a) + OwedToVotes(d, p, vs[1..], a);
        }
        TransferMoves(bank, pay.asset, d.self, vs[0].address, pay.amount, asset, d.self);
        TransferMoves(bank, pay.asset, d.self, vs[0].address, pay.amount, asset, who);
        PayVotesExact(d, t.value, p, vs[1..], asset, who);
        assert forall i :: 0 < i < |vs| ==> vs[i] == vs[1..][i - 1];
      }
    }
  }
}
