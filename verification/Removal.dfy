/** Removing a vote leaves the proposal as if the vote had never been cast. */
module Removal {
  import opened Curve
  import opened Wrappers
  import opened DaoTypes
  import opened Ballot
  import opened BallotProofs

  /** The calls that leave a proposal active. */
  datatype BallotCall<P> =
    | Cast(now: nat, maxWeight: u32, voter: Address, vote: Vote<P>)
    | Remove(voter: Address)
    | AddConflict(addresses: seq<Address>)
    | RemoveConflict(addresses: seq<Address>)

  function Play<P(==)>(c: Group<P>, b: Ballot<P>, call: BallotCall<P>): Result<Ballot<P>> {
    match call
    case Cast(now, maxWeight, voter, v) => CastVote(c, b, now, maxWeight, voter, v)
    case Remove(voter) => RemoveVote(c, b, voter)
    case AddConflict(addresses) => AddConflicts(b, addresses)
    case RemoveConflict(addresses) => RemoveConflicts(b, addresses)
  }

  /** All the calls, each of which has to succeed. */
  function PlayAll<P(==)>(c: Group<P>, b: Ballot<P>, calls: seq<BallotCall<P>>): Result<Ballot<P>>
    decreases |calls|
  {
    if calls == [] then Ok(b)
    else
      var d :- Play(c, b, calls[0]);
      PlayAll(c, d, calls[1..])
  }

  predicate Concerns<P>(call: BallotCall<P>, voter: Address) {
    (call.Cast? || call.Remove?) && call.voter == voter
  }

  lemma PlayKeeps<P(!new)>(c: Group<P>, b: Ballot<P>, call: BallotCall<P>)
    requires Lawful(c) && BallotOk(c, b)
    ensures Play(c, b, call).Ok? ==> BallotOk(c, Play(c, b, call).value)
  {
    match call
    case Cast(now, maxWeight, voter, v) => CastVoteKeeps(c, b, now, maxWeight, voter, v);
    case Remove(voter) => RemoveVoteKeeps(c, b, voter);
    case AddConflict(addresses) =>
    case RemoveConflict(addresses) =>
  }

  /******* One extra vote *******/

  function Inserted(s: seq<Address>, k: nat, a: Address): seq<Address>
    requires k <= |s|
  {
    s[..k] + [a] + s[k..]
  }

  /** `d` is `b` with one more vote, by `voter`, at place `k` of the voter list. */
  ghost predicate Extra<P>(b: Ballot<P>, d: Ballot<P>, voter: Address, v: Vote<P>, k: nat) {
    && k <= |b.voters|
    && voter !in b.votes
    && d == b.(votes := b.votes[voter := v], voters := Inserted(b.voters, k, voter), tallies := d.tallies)
  }

  lemma PositionUnique(s: seq<Address>, a: Address, k: nat)
    requires Distinct(s) && k < |s| && s[k] == a
    ensures Position(s, a) == k
    ensures Without(s, a) == s[..k] + s[k + 1..]
  {
    PositionFound(s, a);
    var p := Position(s, a);
    assert forall i :: 0 <= i < p ==> s[..p][i] == s[i];
  }

  function Dropped(s: seq<Address>, p: nat): seq<Address>
    requires p < |s|
  {
    s[..p] + s[p + 1..]
  }

  lemma DroppedInserted(s: seq<Address>, k: nat, a: Address, p: nat)
    requires k <= |s| && p < |s|
    ensures |Inserted(s, k, a)| == |s| + 1
    ensures p < k ==> Inserted(s, k, a)[p] == s[p] && Dropped(Inserted(s, k, a), p) == Inserted(Dropped(s, p), k - 1, a)
    ensures k <= p ==> Inserted(s, k, a)[p + 1] == s[p]
                       && Dropped(Inserted(s, k, a), p + 1) == Inserted(Dropped(s, p), k, a)
  {
    var t := Inserted(s, k, a);
    if p < k {
      assert Dropped(t, p) == s[..p] + s[p + 1..k] + [a] + s[k..];
      assert Inserted(Dropped(s, p), k - 1, a) == s[..p] + s[p + 1..k] + [a] + s[k..];
    } else {
      assert Dropped(t, p + 1) == s[..k] + [a] + s[k..p] + s[p + 1..];
      assert Inserted(Dropped(s, p), k, a) == s[..k] + [a] + s[k..p] + s[p + 1..];
    }
  }

  /** Removing another voter's entry commutes with the insertion. */
  lemma WithoutInserted(s: seq<Address>, t: seq<Address>, k: nat, a: Address, w: Address, left: seq<Address>)
    returns (j: nat)
    requires k <= |s| && t == Inserted(s, k, a) && left == Without(s, w)
    requires Distinct(s) && Distinct(t) && w in s
    ensures j <= |left| && Without(t, w) == Inserted(left, j, a)
  {
    PositionFound(s, w);
    var p := Position(s, w);
    DroppedInserted(s, k, a, p);
    PositionUnique(s, w, p);
    if p < k {
      PositionUnique(t, w, p);
      j := k - 1;
    } else {
      PositionUnique(t, w, p + 1);
      j := k;
    }
  }

  lemma CheckMirrors<P>(c: Group<P>, b: Ballot<P>, d: Ballot<P>, voter: Address, v: Vote<P>, k: nat,
                        now: nat, maxWeight: u32, w: Address, u: Vote<P>)
    requires Extra(b, d, voter, v, k)
    requires CheckVote(c, d, now, maxWeight, w, u).Ok?
    ensures CheckVote(c, b, now, maxWeight, w, u).Ok? && w != voter
  {
    assert |d.voters| == |b.voters| + 1;
  }

  lemma CastMirrors<P>(c: Group<P>, b: Ballot<P>, d: Ballot<P>, voter: Address, v: Vote<P>, k: nat,
                       now: nat, maxWeight: u32, w: Address, u: Vote<P>)
    requires Extra(b, d, voter, v, k) && w != voter
    requires CastVote(c, b, now, maxWeight, w, u).Ok? && CastVote(c, d, now, maxWeight, w, u).Ok?
    ensures Extra(CastVote(c, b, now, maxWeight, w, u).value, CastVote(c, d, now, maxWeight, w, u).value, voter, v, k)
  {
    assert d.voters + [w] == Inserted(b.voters + [w], k, voter);
    assert d.votes[w := u] == b.votes[w := u][voter := v];
  }

  lemma RemoveMirrors<P>(c: Group<P>, b: Ballot<P>, d: Ballot<P>, voter: Address, v: Vote<P>, k: nat, w: Address)
    returns (j: nat)
    requires Extra(b, d, voter, v, k) && Distinct(b.voters) && Distinct(d.voters) && w in b.voters
    requires w != voter && RemoveVote(c, d, w).Ok? && RemoveVote(c, b, w).Ok?
    ensures Extra(RemoveVote(c, b, w).value, RemoveVote(c, d, w).value, voter, v, j)
  {
    RemoveShape(c, d, w);
    RemoveShape(c, b, w);
    j := WithoutInserted(b.voters, d.voters, k, voter, w, Without(b.voters, w));
    assert d.votes - {w} == (b.votes - {w})[voter := v];
  }

  lemma RemoveShape<P>(c: Group<P>, b: Ballot<P>, w: Address)
    requires RemoveVote(c, b, w).Ok?
    ensures b.proposal.status == Active && w in b.votes
    ensures var e := RemoveVote(c, b, w).value;
            e == b.(votes := b.votes - {w}, voters := Without(b.voters, w), tallies := e.tallies)
  {
  }

  /** A call by anyone else that succeeds with the extra vote also succeeds without it, and the two
      ballots still differ by that vote alone. */
  lemma PlayMirrors<P(!new)>(c: Group<P>, b: Ballot<P>, d: Ballot<P>, voter: Address, v: Vote<P>, k: nat,
                             call: BallotCall<P>)
    returns (j: nat)
    requires Lawful(c) && BallotOk(c, b) && BallotOk(c, d) && Extra(b, d, voter, v, k)
    requires !Concerns(call, voter) && Play(c, d, call).Ok?
    ensures Play(c, b, call).Ok?
    ensures BallotOk(c, Play(c, b, call).value) && BallotOk(c, Play(c, d, call).value)
    ensures Extra(Play(c, b, call).value, Play(c, d, call).value, voter, v, j)
  {
    PlayKeeps(c, b, call);
    PlayKeeps(c, d, call);
    j := k;
    match call {
      case Cast(now, maxWeight, w, u) =>
        CheckMirrors(c, b, d, voter, v, k, now, maxWeight, w, u);
        CastVoteKeeps(c, b, now, maxWeight, w, u);
        CastMirrors(c, b, d, voter, v, k, now, maxWeight, w, u);
      case Remove(w) =>
        RemoveShape(c, d, w);
        RemoveVoteKeeps(c, b, w);
        j := RemoveMirrors(c, b, d, voter, v, k, w);
      case AddConflict(addresses) =>
      case RemoveConflict(addresses) =>
    }
  }

  lemma {:induction false} PlayAllMirrors<P(!new)>(c: Group<P>, b: Ballot<P>, d: Ballot<P>, voter: Address, v: Vote<P>,
                                                   k: nat,
                                                   calls: seq<BallotCall<P>>) returns (j: nat)
    requires Lawful(c) && BallotOk(c, b) && BallotOk(c, d) && Extra(b, d, voter, v, k)
    requires forall i :: 0 <= i < |calls| ==> !Concerns(calls[i], voter)
    requires PlayAll(c, d, calls).Ok?
    ensures PlayAll(c, b, calls).Ok?
    ensures BallotOk(c, PlayAll(c, b, calls).value) && BallotOk(c, PlayAll(c, d, calls).value)
    ensures Extra(PlayAll(c, b, calls).value, PlayAll(c, d, calls).value, voter, v, j)
    decreases |calls|
  {
    if calls == [] {
      j := k;
    } else {
      var i := PlayMirrors(c, b, d, voter, v, k, calls[0]);
      j := PlayAllMirrors(c, Play(c, b, calls[0]).value, Play(c, d, calls[0]).value, voter, v, i, calls[1..]);
    }
  }

  lemma WithoutTheInserted(s: seq<Address>, k: nat, a: Address)
    requires k <= |s| && Distinct(Inserted(s, k, a))
    ensures Without(Inserted(s, k, a), a) == s
  {
    PositionUnique(Inserted(s, k, a), a, k);
  }

  lemma RemovedBook<P>(c: Group<P>, b: Ballot<P>, d: Ballot<P>, e: Ballot<P>, voter: Address, v: Vote<P>, k: nat)
    requires Distinct(d.voters) && Extra(b, d, voter, v, k) && RemoveVote(c, d, voter) == Ok(e)
    ensures e == b.(tallies := e.tallies)
  {
    RemoveShape(c, d, voter);
    WithoutTheInserted(b.voters, k, voter);
  }


  /** Without the extra vote the two ballots are equal, tallies included. */
  lemma RemovingTheExtra<P>(c: Group<P>, b: Ballot<P>, d: Ballot<P>, e: Ballot<P>, voter: Address, v: Vote<P>, k: nat)
    requires BallotOk(c, b) && BallotOk(c, e) && Distinct(d.voters) && Extra(b, d, voter, v, k)
    requires RemoveVote(c, d, voter) == Ok(e)
    ensures e == b
  {
    RemovedBook(c, b, d, e, voter, v, k);
  }


  /** `remove_vote` undoes `vote`: whatever others did to the proposal in between, the whole ballot (votes,
      voter order, tallies, conflict list) is the one that their calls alone would have produced. */
  lemma RemoveUndoesVote<P(!new)>(c: Group<P>, b: Ballot<P>, now: nat, maxWeight: u32, voter: Address, v: Vote<P>,
                                  between: seq<BallotCall<P>>)
    requires Lawful(c) && BallotOk(c, b)
    requires forall i :: 0 <= i < |between| ==> !Concerns(between[i], voter)
    requires PlayAll(c, b, [Cast(now, maxWeight, voter, v)] + between + [Remove(voter)]).Ok?
    ensures PlayAll(c, b, [Cast(now, maxWeight, voter, v)] + between + [Remove(voter)]) == PlayAll(c, b, between)
  {
    PlaySandwich(c, b, Cast(now, maxWeight, voter, v), between, Remove(voter));
    var d := CastVote(c, b, now, maxWeight, voter, v).value;
    CastVoteKeeps(c, b, now, maxWeight, voter, v);
    CastIsExtra(c, b, now, maxWeight, voter, v);
    var k := PlayAllMirrors(c, b, d, voter, v, |b.voters|, between);
    var e := PlayAll(c, d, between).value;
    RemoveVoteKeeps(c, e, voter);
    RemovingTheExtra(c, PlayAll(c, b, between).value, e, RemoveVote(c, e, voter).value, voter, v, k);
  }

  lemma CastIsExtra<P>(c: Group<P>, b: Ballot<P>, now: nat, maxWeight: u32, voter: Address, v: Vote<P>)
    requires CastVote(c, b, now, maxWeight, voter, v).Ok?
    ensures Extra(b, CastVote(c, b, now, maxWeight, voter, v).value, voter, v, |b.voters|)
  {
    assert b.voters + [voter] == Inserted(b.voters, |b.voters|, voter);
  }

  lemma PlaySandwich<P>(c: Group<P>, b: Ballot<P>, first: BallotCall<P>, between: seq<BallotCall<P>>,
                        last: BallotCall<P>)
    requires PlayAll(c, b, [first] + between + [last]).Ok?
    ensures Play(c, b, first).Ok? && PlayAll(c, Play(c, b, first).value, between).Ok?
    ensures PlayAll(c, b, [first] + between + [last])
         == Play(c, PlayAll(c, Play(c, b, first).value, between).value, last)
  {
    assert ([first] + between + [last])[1..] == between + [last];
    var d := Play(c, b, first).value;
    PlayAllSplit(c, d, between, [last]);
    var single := [last];
    assert single[1..] == [];
  }

  lemma {:induction false} PlayAllSplit<P>(c: Group<P>, b: Ballot<P>, s: seq<BallotCall<P>>, t: seq<BallotCall<P>>)
    decreases |s|
    ensures PlayAll(c, b, s).Err? ==> PlayAll(c, b, s + t).Err?
    ensures PlayAll(c, b, s).Ok? ==> PlayAll(c, b, s + t) == PlayAll(c, PlayAll(c, b, s).value, t)
  {
    if s == [] {
      assert s + t == t;
    } else {
      assert (s + t)[1..] == s[1..] + t;
      var d := Play(c, b, s[0]);
      if d.Ok? {
        PlayAllSplit(c, d.value, s[1..], t);
      }
    }
  }
}
