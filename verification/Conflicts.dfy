/** The conflict-of-interest list of a proposal, and whom it keeps from voting. */
module Conflicts {
  import opened Curve
  import opened Wrappers
  import opened DaoTypes
  import opened Ballot
  import opened Removal
  import opened Dao
  import opened DaoProofs
  import opened DaoTheorems

  /** Barring adds the addresses that are missing, behind the list, each once. */
  lemma {:induction false} BarredMeaning(list: seq<Address>, addresses: seq<Address>, a: Address)
    ensures list <= Barred(list, addresses)
    ensures a in Barred(list, addresses) <==> a in list || a in addresses
    ensures Distinct(list) ==> Distinct(Barred(list, addresses))
    decreases |addresses|
  {
    if addresses != [] {
      BarredMeaning(if addresses[0] in list then list else list + [addresses[0]], addresses[1..], a);
    }
  }

  lemma {:induction false} UnbarredMeaning(list: seq<Address>, addresses: seq<Address>, a: Address)
    ensures a in Unbarred(list, addresses) <==> a in list && a !in addresses
  {
    if list != [] {
      UnbarredMeaning(list[1..], addresses, a);
    }
  }

  predicate KeptAt(list: seq<Address>, addresses: seq<Address>, at: seq<nat>, k: nat)
    requires k < |list|
  {
    k in at <==> list[k] !in addresses
  }

  lemma Shift(list: seq<Address>, addresses: seq<Address>, left: seq<Address>, rest: seq<nat>) returns (at: seq<nat>)
    requires list != [] && Places(list[1..], left, rest)
    requires forall k: nat :: k < |list| - 1 ==> KeptAt(list[1..], addresses, rest, k)
    ensures Places(list, left, at) && Places(list, [list[0]] + left, [0] + at) && 0 !in at
    ensures forall k: nat :: 0 < k < |list| ==> KeptAt(list, addresses, at, k)
  {
    at := PlacesBehind(list, left, rest);
    forall k: nat | 0 < k < |list| ensures KeptAt(list, addresses, at, k) {
      assert KeptAt(list[1..], addresses, rest, k - 1);
      if k - 1 in rest {
        var i :| 0 <= i < |rest| && rest[i] == k - 1;
        assert at[i] == k;
      }
    }
  }

  /** What stays of the list keeps its order, and every entry that is not given stays. */
  lemma {:induction false} UnbarredOrder(list: seq<Address>, addresses: seq<Address>) returns (at: seq<nat>)
    ensures Places(list, Unbarred(list, addresses), at)
    ensures forall k: nat :: k < |list| ==> KeptAt(list, addresses, at, k)
  {
    at := [];
    if list != [] {
      var rest := UnbarredOrder(list[1..], addresses);
      var later := Shift(list, addresses, Unbarred(list[1..], addresses), rest);
      at := if list[0] in addresses then later else [0] + later;
      forall k: nat | k < |list| ensures KeptAt(list, addresses, at, k) {
        assert k > 0 ==> KeptAt(list, addresses, later, k);
      }
    }
  }

  /** The event takes `a` off the conflict list of the proposal. */
  predicate Clears<P>(call: Call<P>, id: Id, a: Address) {
    call.RemoveConflictOfInterest? && Id(call.key, call.num) == id && a in call.addresses
  }

  /** `a` is on the list, or the proposal has been closed. */
  predicate KeptOut<P>(w: World<P>, id: Id, a: Address) {
    id in w.ballots && (w.ballots[id].proposal.status == Active ==> a in w.ballots[id].conflicts)
  }

  lemma PlayKeepsOut<P>(c: Group<P>, b: Ballot<P>, call: BallotCall<P>, a: Address)
    requires Play(c, b, call).Ok? && a in b.conflicts
    requires call.RemoveConflict? ==> a !in call.addresses
    ensures a in Play(c, b, call).value.conflicts
  {
    match call
    case Cast(_, _, _, _) =>
    case Remove(_) =>
    case AddConflict(addresses) => BarredMeaning(b.conflicts, addresses, a);
    case RemoveConflict(addresses) => UnbarredMeaning(b.conflicts, addresses, a);
  }

  lemma StepKeepsOut<P(!new)>(d: Deployment<P>, w: World<P>, e: Event<P>, id: Id, a: Address)
    requires BallotsSound(d, w) && KeptOut(w, id, a) && !Clears(e.call, id, a)
    ensures KeptOut(Next(d, w, e), id, a)
  {
    BallotStep(d, w, e, id);
    if Target(e.call) == Some(id) && Step(d, w, e).Ok? && !Closes(e.call) {
      PlayKeepsOut(d.curve, w.ballots[id], OnBallot(e)[0], a);
    }
  }

  lemma {:induction false} RunKeepsOut<P(!new)>(d: Deployment<P>, w: World<P>, trace: seq<Event<P>>, id: Id, a: Address)
    requires Lawful(d.curve) && WorldOk(d, w) && Dao.Outside(d, trace) && KeptOut(w, id, a)
    requires forall k :: 0 <= k < |trace| ==> !Clears(trace[k].call, id, a)
    ensures KeptOut(Run(d, w, trace), id, a)
    decreases |trace|
  {
    if trace != [] {
      StepKeepsOut(d, w, trace[0], id, a);
      StepKeeps(d, w, trace[0]);
      RunKeepsOut(d, Next(d, w, trace[0]), trace[1..], id, a);
    }
  }

  /** Once on the conflict list of a proposal, an address cannot vote on it until a call takes it off. */
  lemma ConflictKeepsOut<P(!new)>(d: Deployment<P>, w: World<P>, trace: seq<Event<P>>, i: nat, id: Id, a: Address)
    requires Lawful(d.curve) && WorldOk(d, w) && Dao.Outside(d, trace) && i < |trace|
    requires id in w.ballots && a in w.ballots[id].conflicts
    requires forall k :: 0 <= k < i ==> !Clears(trace[k].call, id, a)
    requires trace[i].call.CastBallot? && Target(trace[i].call) == Some(id) && trace[i].call.voter == a
    ensures !Succeeds(d, w, trace, i)
  {
    RunKeepsOut(d, w, trace[..i], id, a);
    RunKeeps(d, w, trace[..i]);
    BallotStep(d, Before(d, w, trace, i), trace[i], id);
  }
}
