/** The rules of the contract as its callers see them: in a reachable state, exactly when each call goes through,
    and everything that it then changes.  Amounts and limits are written out. */
module CallRules {
  import opened Curve
  import opened Wrappers
  import opened DaoTypes
  import opened Ledger
  import opened Ballot
  import opened BallotProofs
  import opened Dao
  import opened DaoProofs
  import opened Conflicts

  /** The call is signed by a maintainer of the project, and the contract is not paused. */
  predicate ByMaintainer<P>(w: World<P>, ctx: Ctx, who: Address, key: Key) {
    !ctx.paused && who in ctx.signers && key in w.projects && who in w.projects[key].maintainers
  }

  predicate Open<P>(w: World<P>, id: Id) {
    id in w.ballots && w.ballots[id].proposal.status == Active
  }

  /** What a vote of this weight locks of one asset: 2 units of the collateral, or tokens by weight. */
  function Locked<P>(d: Deployment<P>, p: Proposal, weight: u32, asset: Address): nat {
    match p.token
    case None => if asset == d.collateral then 20_000_000 else 0
    case Some(t) => if asset == t then weight * Pow10(d.decimals(t)) else 0
  }

  /** What moves when `amount` goes from one account to another. */
  predicate Moves(bank: Bank, next: Bank, asset: Address, who: Address, from: Address, to: Address, amount: nat) {
    Balance(next, asset, who)
    == Balance(bank, asset, who) - (if who == from then amount else 0) + (if who == to then amount else 0)
  }

  /** In a reachable state a proposal is found exactly if it exists. */
  lemma LoadIff<P(!new)>(d: Deployment<P>, w: World<P>, key: Key, num: nat)
    requires WorldOk(d, w)
    ensures Load(w, key, num).Ok? <==> Id(key, num) in w.ballots
    ensures Id(key, num) in w.ballots ==> Load(w, key, num).value == w.ballots[Id(key, num)]
  {
    if Id(key, num) in w.ballots {
      assert SoundAt(d, w, Id(key, num)) && NumberedAt(w, key);
    }
  }

  /******* Voting *******/

  /** What is asked of a vote: in time, room for it, the first one of this voter, who is not barred; under the
      voter's own name, of the kind of the proposal, with a weight that the voter has. */
  predicate Admits<P(==)>(c: Group<P>, b: Ballot<P>, ctx: Ctx, voter: Address, v: Vote<P>) {
    && ctx.now < b.proposal.votingEndsAt && |b.voters| < 40 && voter !in b.voters && voter !in b.conflicts
    && v.address == voter && 0 < v.weight && (b.proposal.token == None ==> v.weight <= ctx.maxWeight)
    && if b.proposal.publicVoting then v.PublicVote?
       else
         && v.AnonymousVote? && |v.commitments| == 3 && |v.encryptedVotes| == 3 && |v.encryptedSeeds| == 3
         && forall i :: 0 <= i < 3 ==> Times(c, c.order, v.commitments[i]) == c.zero
  }

  /** The voter holds what the vote locks, and the amount fits `i128`. */
  predicate CanLock<P>(d: Deployment<P>, bank: Bank, p: Proposal, voter: Address, weight: u32) {
    match p.token
    case None => 20_000_000 <= Balance(bank, d.collateral, voter)
    case Some(t) =>
      && Pow10(d.decimals(t)) < 0x8000_0000_0000_0000_0000_0000_0000_0000
      && weight * Pow10(d.decimals(t)) < 0x8000_0000_0000_0000_0000_0000_0000_0000
      && weight * Pow10(d.decimals(t)) <= Balance(bank, t, voter)
  }

  lemma CheckVoteIff<P>(c: Group<P>, b: Ballot<P>, ctx: Ctx, voter: Address, v: Vote<P>)
    requires BookOk(c, b)
    ensures CheckVote(c, b, ctx.now, ctx.maxWeight, voter, v).Ok? <==>
            b.proposal.status == Active && Admits(c, b, ctx, voter, v)
  {
    if v.AnonymousVote? {
      assert WellFormedCommitments(c, v) <==>
             && |v.commitments| == 3 && |v.encryptedVotes| == 3 && |v.encryptedSeeds| == 3
             && forall i :: 0 <= i < 3 ==> Times(c, c.order, v.commitments[i]) == c.zero;
    }
  }

  lemma ChargeIff<P>(d: Deployment<P>, bank: Bank, p: Proposal, voter: Address, weight: u32)
    ensures CanLock(d, bank, p, voter, weight) <==>
            var pay := CheckedEscrow(d, p, weight);
            pay.Ok? && Transfer(bank, pay.value.asset, voter, d.self, pay.value.amount).Ok?
  {
  }

  lemma LockedIsEscrow<P>(d: Deployment<P>, p: Proposal, weight: u32, asset: Address)
    ensures Locked(d, p, weight, asset) == Share(VoteEscrow(d, p, weight), asset)
  {
  }

  lemma CastIff<P(!new)>(d: Deployment<P>, w: World<P>, ctx: Ctx, voter: Address, key: Key, num: nat, v: Vote<P>)
    requires Lawful(d.curve) && WorldOk(d, w)
    ensures var id := Id(key, num);
            DoCast(d, w, ctx, voter, key, num, v).Ok? <==>
            && !ctx.paused && voter in ctx.signers && Open(w, id) && Admits(d.curve, w.ballots[id], ctx, voter, v)
            && CanLock(d, w.bank, w.ballots[id].proposal, voter, v.weight)
  {
    var id := Id(key, num);
    LoadIff(d, w, key, num);
    if id in w.ballots {
      var b := w.ballots[id];
      assert SoundAt(d, w, id);
      CheckVoteIff(d.curve, b, ctx, voter, v);
      ChargeIff(d, w.bank, b.proposal, voter, v.weight);
      CastVoteKeeps(d.curve, b, ctx.now, ctx.maxWeight, voter, v);
    }
  }

  lemma CastChanges<P>(d: Deployment<P>, w: World<P>, ctx: Ctx, voter: Address, key: Key, num: nat, v: Vote<P>)
    requires DoCast(d, w, ctx, voter, key, num, v).Ok?
    ensures var id, next := Id(key, num), DoCast(d, w, ctx, voter, key, num, v).value;
            && id in w.ballots && id in next.ballots
            && next == w.(ballots := w.ballots[id := next.ballots[id]], bank := next.bank)
            && next.ballots[id] == w.ballots[id].(votes := w.ballots[id].votes[voter := v],
                                   voters := w.ballots[id].voters + [voter], tallies := next.ballots[id].tallies)
            && var pay := VoteEscrow(d, w.ballots[id].proposal, v.weight);
            Transfer(w.bank, pay.asset, voter, d.self, pay.amount) == Ok(next.bank)
  {
  }

  /** `vote`: exactly when it is accepted, and all that it changes. */
  lemma CastRule<P(!new)>(d: Deployment<P>, w: World<P>, ctx: Ctx, voter: Address, key: Key, num: nat, v: Vote<P>,
                          asset: Address, who: Address)
    requires Lawful(d.curve) && WorldOk(d, w) && d.self !in ctx.signers
    ensures var r, id := DoCast(d, w, ctx, voter, key, num, v), Id(key, num);
            && (r.Ok? <==>
                && !ctx.paused && voter in ctx.signers && Open(w, id)
                && Admits(d.curve, w.ballots[id], ctx, voter, v)
                && CanLock(d, w.bank, w.ballots[id].proposal, voter, v.weight))
            && (r.Ok? ==>
                  var b, next := w.ballots[id], r.value;
                  && id in next.ballots
                  && next == w.(ballots := w.ballots[id := next.ballots[id]], bank := next.bank)
                  && next.ballots[id] == b.(votes := b.votes[voter := v], voters := b.voters + [voter],
                                         tallies := next.ballots[id].tallies)
                  && Moves(w.bank, next.bank, asset, who, voter, d.self, Locked(d, b.proposal, v.weight, asset)))
  {
    CastIff(d, w, ctx, voter, key, num, v);
    if DoCast(d, w, ctx, voter, key, num, v).Ok? {
      CastChanges(d, w, ctx, voter, key, num, v);
      var p := w.ballots[Id(key, num)].proposal;
      var pay := VoteEscrow(d, p, v.weight);
      LockedIsEscrow(d, p, v.weight, asset);
      TransferMoves(w.bank, pay.asset, voter, d.self, pay.amount, asset, who);
    }
  }

  lemma RemoveIff<P(!new)>(d: Deployment<P>, w: World<P>, ctx: Ctx, maintainer: Address, key: Key, num: nat,
                           voter: Address)
    requires Lawful(d.curve) && WorldOk(d, w)
    ensures DoRemove(d, w, ctx, maintainer, key, num, voter).Ok? <==>
            && ByMaintainer(w, ctx, maintainer, key) && Open(w, Id(key, num))
            && voter in w.ballots[Id(key, num)].votes
  {
    LoadIff(d, w, key, num);
    if Id(key, num) in w.ballots {
      assert SoundAt(d, w, Id(key, num));
      RemoveVoteKeeps(d.curve, w.ballots[Id(key, num)], voter);
    }
  }

  lemma RemoveChanges<P>(d: Deployment<P>, w: World<P>, ctx: Ctx, maintainer: Address, key: Key, num: nat,
                         voter: Address)
    requires DoRemove(d, w, ctx, maintainer, key, num, voter).Ok?
    ensures var id, next := Id(key, num), DoRemove(d, w, ctx, maintainer, key, num, voter).value;
            && id in w.ballots && id in next.ballots && voter in w.ballots[id].votes
            && var b := w.ballots[id];
            && next.ballots[id] == b.(votes := b.votes - {voter}, voters := Without(b.voters, voter),
                                   tallies := next.ballots[id].tallies)
            && var pay := VoteEscrow(d, b.proposal, b.votes[voter].weight);
            next == w.(ballots := w.ballots[id := next.ballots[id]], slashed := Plus(w.slashed, pay.asset, pay.amount))
  {
  }

  /** `remove_vote`: for maintainers, on an active proposal, if there is such a vote.  The voter's name is taken out
      of the list, the rest keeps its order, no money moves, and what the vote had locked counts as slashed. */
  lemma RemoveRule<P(!new)>(d: Deployment<P>, w: World<P>, ctx: Ctx, maintainer: Address, key: Key, num: nat,
                            voter: Address, asset: Address)
    returns (k: nat)
    requires Lawful(d.curve) && WorldOk(d, w)
    ensures var r, id := DoRemove(d, w, ctx, maintainer, key, num, voter), Id(key, num);
            && (r.Ok? <==> ByMaintainer(w, ctx, maintainer, key) && Open(w, id) && voter in w.ballots[id].votes)
            && (r.Ok? ==>
                  var b, next := w.ballots[id], r.value;
                  && id in next.ballots
                  && next == w.(ballots := w.ballots[id := next.ballots[id]], slashed := next.slashed)
                  && next.ballots[id] == b.(votes := b.votes - {voter}, voters := next.ballots[id].voters,
                                         tallies := next.ballots[id].tallies)
                  && k <= |next.ballots[id].voters|
                  && b.voters == next.ballots[id].voters[..k] + [voter] + next.ballots[id].voters[k..]
                  && Amount(next.slashed, asset)
                     == Amount(w.slashed, asset) + Locked(d, b.proposal, b.votes[voter].weight, asset))
  {
    RemoveIff(d, w, ctx, maintainer, key, num, voter);
    k := 0;
    if DoRemove(d, w, ctx, maintainer, key, num, voter).Ok? {
      var b := w.ballots[Id(key, num)];
      RemoveChanges(d, w, ctx, maintainer, key, num, voter);
      LockedIsEscrow(d, b.proposal, b.votes[voter].weight, asset);
      assert SoundAt(d, w, Id(key, num));
      k := Position(b.voters, voter);
      CutOut(b.voters, voter, k);
    }
  }

  lemma CutOut(list: seq<Address>, a: Address, k: nat)
    requires Distinct(list) && a in list && k == Position(list, a)
    ensures k <= |Without(list, a)| && list == Without(list, a)[..k] + [a] + Without(list, a)[k..]
  {
    PositionFound(list, a);
    CutAt(list, k, Without(list, a));
  }

  lemma CutAt<T>(list: seq<T>, k: nat, left: seq<T>)
    requires k < |list| && left == list[..k] + list[k + 1..]
    ensures list == left[..k] + [list[k]] + left[k..]
  {
    assert left[..k] == list[..k];
    assert left[k..] == list[k + 1..];
  }

  /******* Maintaining proposals *******/

  /** `revoke_proposal`: administrators may do it too; title and content link are blotted out, and that is all. */
  lemma RevokeRule<P(!new)>(d: Deployment<P>, w: World<P>, ctx: Ctx, maintainer: Address, key: Key, num: nat)
    requires WorldOk(d, w)
    ensures var r, id := DoRevoke(w, ctx, maintainer, key, num), Id(key, num);
            && (r.Ok? <==> Open(w, id) && (ByMaintainer(w, ctx, maintainer, key)
                                           || (!ctx.paused && maintainer in ctx.signers && maintainer in ctx.admins)))
            && (r.Ok? ==>
                  var b := w.ballots[id];
                  var p := b.proposal.(title := "REDACTED", ipfs := "NONE", status := Malicious);
                  r.value == w.(ballots := w.ballots[id := b.(proposal := p)]))
  {
    LoadIff(d, w, key, num);
  }

  /** Adding to the conflict list: for maintainers, on an active proposal; the list grows by those missing. */
  lemma AddConflictsRule<P(!new)>(d: Deployment<P>, w: World<P>, ctx: Ctx, maintainer: Address, key: Key, num: nat,
                                  addresses: seq<Address>, a: Address)
    requires WorldOk(d, w)
    ensures var r, id := DoAddConflicts(w, ctx, maintainer, key, num, addresses), Id(key, num);
            && (r.Ok? <==> ByMaintainer(w, ctx, maintainer, key) && Open(w, id))
            && (r.Ok? ==>
                  id in r.value.ballots
                  && var b, list := w.ballots[id], r.value.ballots[id].conflicts;
                  && r.value == w.(ballots := w.ballots[id := b.(conflicts := list)])
                  && b.conflicts <= list && (a in list <==> a in b.conflicts || a in addresses)
                  && (Distinct(b.conflicts) ==> Distinct(list)))
  {
    LoadIff(d, w, key, num);
    if Id(key, num) in w.ballots {
      BarredMeaning(w.ballots[Id(key, num)].conflicts, addresses, a);
    }
  }

  /** Removing from the conflict list: exactly the addresses given go, and the others keep their order. */
  lemma RemoveConflictsRule<P(!new)>(d: Deployment<P>, w: World<P>, ctx: Ctx, maintainer: Address, key: Key, num: nat,
                                     addresses: seq<Address>)
    returns (at: seq<nat>)
    requires WorldOk(d, w)
    ensures var r, id := DoRemoveConflicts(w, ctx, maintainer, key, num, addresses), Id(key, num);
            && (r.Ok? <==> ByMaintainer(w, ctx, maintainer, key) && Open(w, id))
            && (r.Ok? ==>
                  id in r.value.ballots
                  && var b, list := w.ballots[id], r.value.ballots[id].conflicts;
                  && r.value == w.(ballots := w.ballots[id := b.(conflicts := list)])
                  && Places(b.conflicts, list, at)
                  && forall k: nat :: k < |b.conflicts| ==> KeptAt(b.conflicts, addresses, at, k))
  {
    at := [];
    LoadIff(d, w, key, num);
    if Id(key, num) in w.ballots {
      at := UnbarredOrder(w.ballots[Id(key, num)].conflicts, addresses);
    }
  }

  /******* Projects *******/

  predicate Alphanumeric(c: char) {
    'a' <= c <= 'z' || 'A' <= c <= 'Z' || '0' <= c <= '9'
  }

  lemma NameOkIff(name: string)
    ensures NameOk(name) <==> |name| <= 30 && forall c :: c in name ==> Alphanumeric(c)
  {
    assert forall i :: 0 <= i < |name| ==> name[i] in name;
  }

  /** `register`: the name is new, short and alphanumeric, the caller is among the maintainers and pays 5 units. */
  lemma RegisterRule<P>(d: Deployment<P>, w: World<P>, ctx: Ctx, maintainer: Address, project: Project, asset: Address,
                        who: Address)
    requires d.self !in ctx.signers
    ensures var r, key := DoRegister(d, w, ctx, maintainer, project), d.keyOf(project.name);
            && (r.Ok? <==>
                && !ctx.paused && maintainer in ctx.signers && maintainer in project.maintainers
                && key !in w.projects
                && |project.name| <= 30 && (forall c :: c in project.name ==> Alphanumeric(c))
                && 50_000_000 <= Balance(w.bank, d.collateral, maintainer))
            && (r.Ok? ==>
                  && r.value == w.(projects := w.projects[key := project], registry := w.registry + [key],
                                bank := r.value.bank)
                  && Moves(w.bank, r.value.bank, asset, who, maintainer, d.self,
                           if asset == d.collateral then 50_000_000 else 0))
  {
    NameOkIff(project.name);
    if DoRegister(d, w, ctx, maintainer, project).Ok? {
      TransferMoves(w.bank, d.collateral, maintainer, d.self, 50_000_000, asset, who);
    }
  }

  /** `update_config`: for maintainers; the name stays, and there is always a maintainer. */
  lemma UpdateRule<P>(w: World<P>, ctx: Ctx, maintainer: Address, key: Key, maintainers: seq<Address>, url: string,
                      ipfs: string)
    ensures var r := DoUpdateConfig(w, ctx, maintainer, key, maintainers, url, ipfs);
            && (r.Ok? <==> ByMaintainer(w, ctx, maintainer, key) && |maintainers| > 0)
            && (r.Ok? ==>
                  var project := Project(w.projects[key].name, maintainers, url, ipfs);
                  r.value == w.(projects := w.projects[key := project]))
  {
  }

  /** `anonymous_voting_setup`: for maintainers. */
  lemma SetupRule<P>(w: World<P>, ctx: Ctx, maintainer: Address, key: Key, publicKey: string)
    ensures var r := DoSetup(w, ctx, maintainer, key, publicKey);
            && (r.Ok? <==> ByMaintainer(w, ctx, maintainer, key))
            && (r.Ok? ==> r.value == w.(anonymous := w.anonymous[key := publicKey]))
  {
  }

  /** What the proposer of a new proposal deposits: 5 units, and 2 more if votes lock collateral. */
  function Deposit(token: Option<Address>): nat {
    if token == None then 70_000_000 else 50_000_000
  }

  /** The ballot of a new proposal: its proposer abstains with weight 0, and nothing is counted yet. */
  predicate Unvoted<P(==)>(c: Group<P>, b: Ballot<P>, p: Proposal) {
    && b.proposal == p && b.voters == [p.proposer] && b.votes.Keys == {p.proposer} && b.conflicts == []
    && var v := b.votes[p.proposer];
    && v.address == p.proposer && v.weight == 0
    && if p.publicVoting then v == PublicVote(p.proposer, 0, Abstain) && b.tallies == PublicTallies([0, 0, 0])
       else
         && v.AnonymousVote? && v.encryptedSeeds == ["0", "0", "0"] && v.encryptedVotes == ["0", "0", "1"]
         && v.commitments == [c.zero, c.zero, c.voteGenerator]
         && b.tallies == AnonymousTallies([c.zero, c.zero, c.zero])
  }

  /** `create_proposal`: a voting period of 1 to 30 days, title and link of a decent length, a project with
      fewer than 9000 proposals, set up for anonymous voting if the proposal asks for it, and the deposit. */
  lemma CreateRule<P(!new)>(d: Deployment<P>, w: World<P>, ctx: Ctx, proposer: Address, key: Key, title: string,
                            ipfs: string, votingEndsAt: u64, publicVoting: bool, token: Option<Address>,
                            outcomes: Option<nat>, asset: Address, who: Address)
    requires Lawful(d.curve) && d.self !in ctx.signers
    ensures var r := DoCreate(d, w, ctx, proposer, key, title, ipfs, votingEndsAt, publicVoting, token, outcomes);
            var num := if key in w.totals then w.totals[key] else 0;
            && (r.Ok? <==>
                && !ctx.paused && proposer in ctx.signers && key in w.projects && num < 9000
                && (publicVoting || key in w.anonymous)
                && ctx.now + 2_592_000 < 0x1_0000_0000_0000_0000
                && ctx.now + 86_400 <= votingEndsAt <= ctx.now + 2_592_000
                && 10 <= |title| <= 256 && 32 <= |ipfs| <= 64
                && Deposit(token) <= Balance(w.bank, d.collateral, proposer))
            && (r.Ok? ==>
                  var next, id := r.value, Id(key, num);
                  var p := Proposal(num, title, proposer, ipfs, votingEndsAt, publicVoting, token, outcomes, Active);
                  && id in next.ballots
                  && next == w.(totals := w.totals[key := num + 1], ballots := w.ballots[id := next.ballots[id]],
                             bank := next.bank)
                  && Unvoted(d.curve, next.ballots[id], p)
                  && Moves(w.bank, next.bank, asset, who, proposer, d.self,
                           if asset == d.collateral then Deposit(token) else 0))
  {
    var r := DoCreate(d, w, ctx, proposer, key, title, ipfs, votingEndsAt, publicVoting, token, outcomes);
    if r.Ok? {
      var num := Total(w, key);
      var p := Proposal(num, title, proposer, ipfs, votingEndsAt, publicVoting, token, outcomes, Active);
      TransferMoves(w.bank, d.collateral, proposer, d.self, Deposit(token), asset, who);
      NewBallotUnvoted(d.curve, p);
    }
  }

  lemma NewBallotUnvoted<P(!new)>(c: Group<P>, p: Proposal)
    requires Lawful(c)
    ensures Unvoted(c, NewBallot(c, p), p)
  {
    var b := NewBallot(c, p);
    if !p.publicVoting {
      CommitPlain(c, 0, 0);
      CommitPlain(c, 1, 0);
      AddZeroLeft(c, c.zero);
      TimesOne(c, c.voteGenerator);
      AddZeroLeft(c, c.voteGenerator);
      var v := b.votes[p.proposer];
      assert v.commitments == [c.zero, c.zero, c.voteGenerator];
      assert b.tallies.points == [c.zero, c.zero, c.zero];
    }
  }
}
