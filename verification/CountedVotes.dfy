/** Where the votes come from that an execution counts and pays back. */
module CountedVotes {
  import opened Curve
  import opened Wrappers
  import opened DaoTypes
  import opened Ballot
  import opened BallotProofs
  import opened Dao
  import opened DaoProofs
  import opened DaoTheorems

  /** The ballot holds vote `v` of `a`. */
  predicate Holds<P(==)>(w: World<P>, id: Id, a: Address, v: Vote<P>) {
    id in w.ballots && a in w.ballots[id].votes && w.ballots[id].votes[a] == v
  }

  /** The event puts vote `v` of `a` into the ballot: `a` casts it, or creates the proposal and abstains with
      weight 0. */
  predicate Brings<P(==)>(w: World<P>, call: Call<P>, id: Id, a: Address, v: Vote<P>) {
    || (call.CastBallot? && Id(call.key, call.num) == id && call.voter == a && call.vote == v)
    || (call.CreateProposal? && Id(call.key, Total(w, call.key)) == id && call.proposer == a && v.weight == 0)
  }


  /** The vote is in the name of `a`, who signed for it, and without a voting token its weight is within the maximum
      that `a` then had. */
  predicate Granted<P>(ctx: Ctx, p: Proposal, a: Address, v: Vote<P>) {
    !ctx.paused && a in ctx.signers && v.address == a && (p.token == None ==> v.weight <= ctx.maxWeight)
  }

  lemma CastIsGranted<P>(d: Deployment<P>, w: World<P>, e: Event<P>)
    requires e.call.CastBallot? && Step(d, w, e).Ok?
    ensures Load(w, e.call.key, e.call.num).Ok? && e.call.vote.weight > 0
    ensures Granted(e.ctx, Load(w, e.call.key, e.call.num).value.proposal, e.call.voter, e.call.vote)
  {
  }

  lemma CreationIsGranted<P>(d: Deployment<P>, w: World<P>, e: Event<P>)
    requires e.call.CreateProposal? && Step(d, w, e).Ok?
    ensures var id := Id(e.call.key, Total(w, e.call.key));
            var b := Step(d, w, e).value.ballots[id];
            e.call.proposer in b.votes && Granted(e.ctx, b.proposal, e.call.proposer, b.votes[e.call.proposer])
  {
  }

  /** A vote in the book after an event was there before, on the same terms, or is brought by the event. */
  lemma StepBrings<P(!new)>(d: Deployment<P>, w: World<P>, e: Event<P>, id: Id, a: Address, v: Vote<P>)
    requires Holds(Next(d, w, e), id, a, v)
    ensures (Holds(w, id, a, v) && w.ballots[id].proposal.token == Next(d, w, e).ballots[id].proposal.token)
            || (Step(d, w, e).Ok? && Brings(w, e.call, id, a, v)
                && Granted(e.ctx, Next(d, w, e).ballots[id].proposal, a, v))
  {
    if Step(d, w, e).Ok? {
      StepEffect(d, w, e);
      if e.call.CastBallot? {
        CastIsGranted(d, w, e);
      } else if e.call.CreateProposal? {
        CreationIsGranted(d, w, e);
      }
      EffectBrings(d, w, e, Step(d, w, e).value, id, a, v);
    }
  }

  /** What an event that went through leaves of a vote, by its effect on the ballots. */
  lemma EffectBrings<P>(d: Deployment<P>, w: World<P>, e: Event<P>, next: World<P>, id: Id, a: Address, v: Vote<P>)
    requires Target(e.call).Some? ==> TargetEffect(d, w, e, Target(e.call).value, next)
    requires Target(e.call).None? ==> OtherEffect(w, e, next)
    requires e.call.CastBallot? ==>
               Granted(e.ctx, w.ballots[Id(e.call.key, e.call.num)].proposal, e.call.voter, e.call.vote)
    requires e.call.CreateProposal? ==>
               var b := next.ballots[Id(e.call.key, Total(w, e.call.key))];
               e.call.proposer in b.votes && Granted(e.ctx, b.proposal, e.call.proposer, b.votes[e.call.proposer])
    requires Holds(next, id, a, v)
    ensures (Holds(w, id, a, v) && w.ballots[id].proposal.token == next.ballots[id].proposal.token)
            || (Brings(w, e.call, id, a, v) && Granted(e.ctx, next.ballots[id].proposal, a, v))
  {
  }

  /** Every vote in the book after `n` events was brought by a successful one of them, which its voter signed and
      which granted its weight. */
  lemma {:induction false} VoteOrigin<P(!new)>(d: Deployment<P>, w: World<P>, trace: seq<Event<P>>, n: nat, id: Id,
                                               a: Address, v: Vote<P>)
    returns (i: nat)
    requires w.ballots == map[] && n <= |trace| && Holds(Before(d, w, trace, n), id, a, v)
    ensures i < n && Succeeds(d, w, trace, i) && Brings(Before(d, w, trace, i), trace[i].call, id, a, v)
    ensures Granted(trace[i].ctx, Before(d, w, trace, n).ballots[id].proposal, a, v)
  {
    BeforeStart(d, w, trace);
    var m := n - 1;
    var u := Before(d, w, trace, m);
    RunOne(d, w, trace, m);
    StepBrings(d, u, trace[m], id, a, v);
    i := m;
    if Holds(u, id, a, v) && u.ballots[id].proposal.token == Before(d, w, trace, n).ballots[id].proposal.token {
      i := VoteOrigin(d, w, trace, m, id, a, v);
    }
  }

  /** In every run from deployment, every vote with weight on a proposal without a voting token was cast by its voter
      in a call that the voter signed, with at most the weight that the voter then had. */
  lemma WeightsAreGranted<P(!new)>(d: Deployment<P>, w: World<P>, trace: seq<Event<P>>, n: nat, id: Id, a: Address)
    returns (i: nat)
    requires Initial(d, w) && n <= |trace|
    requires var u := Before(d, w, trace, n);
             id in u.ballots && a in u.ballots[id].votes && u.ballots[id].votes[a].weight > 0
             && u.ballots[id].proposal.token == None
    ensures i < n && Succeeds(d, w, trace, i)
    ensures var v := Before(d, w, trace, n).ballots[id].votes[a];
            && trace[i].call == CastBallot(a, id.key, id.num, v)
            && v.address == a && a in trace[i].ctx.signers && v.weight <= trace[i].ctx.maxWeight
  {
    i := VoteOrigin(d, w, trace, n, id, a, Before(d, w, trace, n).ballots[id].votes[a]);
  }

  /** Every vote that an execution counts and pays back was put on record by its voter in a call of its own, more
      than a day earlier. */
  lemma CountedVotesPrecedeExecution<P(!new)>(d: Deployment<P>, w: World<P>, trace: seq<Event<P>>, j: nat, id: Id,
                                              v: Vote<P>) returns (i: nat)
    requires Lawful(d.curve) && Initial(d, w) && Dao.Outside(d, trace) && j < |trace|
    requires Succeeds(d, w, trace, j) && trace[j].call.Execute? && Id(trace[j].call.key, trace[j].call.num) == id
    requires id in Before(d, w, trace, j).ballots && v in Recorded(Before(d, w, trace, j).ballots[id])
    ensures i < j && Succeeds(d, w, trace, i) && Brings(Before(d, w, trace, i), trace[i].call, id, v.address, v)
    ensures trace[i].ctx.now + 86_400 < trace[j].ctx.now
  {
    InitialOk(d, w);
    ReachableOk(d, w, trace, j);
    var u := Before(d, w, trace, j);
    RecordedUnderAddress(d, u, id, v);
    i := VoteOrigin(d, w, trace, j, id, v.address, v);
    var before := Before(d, w, trace, i);
    ReachableOk(d, w, trace, i);
    RunOne(d, w, trace, i);
    RunFrom(d, w, trace, i + 1, j);
    VotesPrecedeExecution(d, before, trace[i], trace[i + 1..j], trace[j], id);
  }

  lemma RecordedUnderAddress<P(!new)>(d: Deployment<P>, w: World<P>, id: Id, v: Vote<P>)
    requires WorldOk(d, w) && id in w.ballots && v in Recorded(w.ballots[id])
    ensures Holds(w, id, v.address, v)
  {
    assert SoundAt(d, w, id);
    var b := w.ballots[id];
    EachVoterOnce(d.curve, b);
    var k :| 0 <= k < |Recorded(b)| && Recorded(b)[k] == v;
    assert b.voters[k] in b.votes;
  }
}
