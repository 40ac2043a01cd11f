/** The contract object: keyed storage updated in place by its entry points.  Each entry point is proved to
    do to the represented state exactly what its step function says, and nothing when it fails. */
module DaoContract {
  import opened Curve
  import opened Wrappers
  import opened DaoTypes
  import opened Ledger
  import opened Ballot
  import opened BallotProofs
  import opened Removal
  import opened Dao
  import opened DaoProofs
  import opened Storage

  /** The proposal is stored under this number. */
  ghost predicate Listed<P>(w: World<P>, key: Key, num: nat, p: Proposal) {
    Id(key, num) in w.ballots && w.ballots[Id(key, num)].proposal == p
  }

  class Tansu<P(==, !new)> {
    const d: Deployment<P>

    var projects: map<Key, Project>
    var totalProjects: nat
    var projectPages: map<nat, seq<Key>>
    var anonymousConfig: map<Key, string>
    var totals: map<Key, nat>
    var pages: map<PageId, seq<Proposal>>
    var votes: map<VoteId, Vote<P>>
    var voters: map<Id, seq<Address>>
    var tallies: map<Id, Tallies<P>>
    var conflicts: map<Id, seq<Address>>
    var bank: Bank

    /** The state that the storage represents. */
    ghost var world: World<P>

    ghost function Contents(): Stored<P>
      reads this
    {
      Stored(projects, totalProjects, projectPages, anonymousConfig, totals, pages, votes, voters, tallies, conflicts,
             bank)
    }

    ghost predicate Valid()
      reads this
    {
      Lawful(d.curve) && WorldOk(d, world) && Represents(Contents(), world)
    }

    /** A freshly deployed contract, on a ledger where it holds nothing yet. */
    constructor (d: Deployment<P>, bank: Bank)
      requires Lawful(d.curve) && forall asset :: Balance(bank, asset, d.self) == 0
      ensures Valid() && this.d == d && Initial(d, world) && this.bank == bank
    {
      this.d := d;
      projects, totalProjects, projectPages, anonymousConfig := map[], 0, map[], map[];
      totals, pages, votes, voters, tallies, conflicts := map[], map[], map[], map[], map[], map[];
      this.bank := bank;
      world := World(map[], [], map[], map[], map[], bank, map[], map[]);
      new;
      InitialOk(d, world);
    }

    /******* Reads *******/

    method AuthMaintainers(ctx: Ctx, maintainer: Address, key: Key) returns (r: Result<()>)
      requires Valid()
      ensures r == AuthMaintainer(world, ctx, maintainer, key)
    {
      if maintainer !in ctx.signers {
        return Err(Unauthorized);
      }
      if key !in projects {
        return Err(InvalidKey);
      }
      if maintainer !in projects[key].maintainers {
        return Err(UnauthorizedSigner);
      }
      return Ok(());
    }

    /** `get_dao`: a page of proposals. */
    method GetDao(key: Key, page: nat) returns (r: Result<seq<Proposal>>)
      requires Valid()
      ensures r.Err? <==> page >= 1000 || key !in world.projects
      ensures r.Err? ==> r.error == if page >= 1000 then NoProposalOrPageFound else InvalidKey
      ensures r.Ok? ==> r.value == Page(pages, key, page)
      ensures var left := Total(world, key) - 9 * page;
              r.Ok? ==> |r.value| == if left <= 0 then 0 else if left < 9 then left else 9
      ensures r.Ok? ==> forall slot :: 0 <= slot < |r.value| ==> Listed(world, key, page * 9 + slot, r.value[slot])
    {
      if page >= MAX_PAGES {
        return Err(NoProposalOrPageFound);
      }
      if key !in projects {
        return Err(InvalidKey);
      }
      var proposals := Page(pages, key, page);
      assert PageAt(pages, world.totals, key, page);
      forall slot | 0 <= slot < |proposals|
        ensures Listed(world, key, page * MAX_PROPOSALS_PER_PAGE + slot, proposals[slot])
      {
        PageEntry(pages, world, key, page, slot);
      }
      return Ok(proposals);
    }

    /** The lookup at the head of every call on a proposal. */
    method Fetch(key: Key, num: nat) returns (r: Result<Proposal>)
      requires Valid()
      ensures Load(world, key, num).Ok? ==> r == Ok(Load(world, key, num).value.proposal)
      ensures Load(world, key, num).Err? ==> r == Err(Load(world, key, num).error)
    {
      var dao := GetDao(key, PageOf(num));
      if dao.Err? {
        return Err(dao.error);
      }
      LoadThroughPage(pages, world, key, num);
      if SlotOf(num) >= |dao.value| {
        return Err(NoProposalOrPageFound);
      }
      return Ok(dao.value[SlotOf(num)]);
    }

    /** `get_all_votes`: the stored votes in voter order. */
    method GetAllVotes(id: Id) returns (all: seq<Vote<P>>)
      requires Valid()
      ensures all == if id in world.ballots then Recorded(world.ballots[id]) else []
    {
      ghost var book := if id in world.ballots then world.ballots[id].votes else map[];
      BookLookup(votes, world.ballots, id, book);
      assert ListsAt(voters, tallies, world.ballots, id);
      all := Collect(Addresses(voters, id), id, votes, book);
    }

    static method Collect(list: seq<Address>, id: Id, votes: map<VoteId, Vote<P>>, ghost book: map<Address, Vote<P>>)
      returns (all: seq<Vote<P>>)
      requires forall a :: VoteId(id, a) in votes <==> a in book
      requires forall a :: a in book ==> votes[VoteId(id, a)] == book[a]
      ensures all == AllVotes(list, book)
    {
      all := [];
      var i := 0;
      while i < |list|
        invariant 0 <= i <= |list|
        invariant all + AllVotes(list[i..], book) == AllVotes(list, book)
      {
        var key := VoteId(id, list[i]);
        assert list[i..][1..] == list[i + 1..];
        ghost var rest := AllVotes(list[i + 1..], book);
        if key in votes {
          Reassociate(all, [votes[key]], rest);
          all := all + [votes[key]];
        } else {
          assert AllVotes(list[i..], book) == rest;
        }
        i := i + 1;
      }
    }

    /******* Tallies *******/

    /** `update_proposal_tallies` */
    method UpdateTallies(t: Tallies<P>, v: Vote<P>) returns (r: Result<Tallies<P>>)
      ensures r == AddTally(d.curve, t, v)
    {
      if t.PublicTallies? && v.PublicVote? && Index(v.choice) < |t.sums| {
        var current := t.sums[Index(v.choice)];
        if current + v.weight >= U128_LIMIT {
          return Err(ArithmeticTrap);
        }
        return Ok(t.(sums := t.sums[Index(v.choice) := current + v.weight]));
      }
      if t.AnonymousTallies? && v.AnonymousVote? && |v.commitments| <= |t.points| {
        var aggregate := t.points;
        var i := 0;
        while i < |v.commitments|
          invariant 0 <= i <= |v.commitments| && |aggregate| == |t.points|
          invariant forall k :: 0 <= k < i ==> aggregate[k] == Weigh(d.curve, t.points[k], v, k)
          invariant forall k :: i <= k < |aggregate| ==> aggregate[k] == t.points[k]
        {
          var weighted := G1Mul(d.curve, v.commitments[i], v.weight);
          aggregate := aggregate[i := d.curve.add(aggregate[i], weighted)];
          i := i + 1;
        }
        assert aggregate == AddTally(d.curve, t, v).value.points;
        return Ok(AnonymousTallies(aggregate));
      }
      return Err(WrongVoteType);
    }

    /** The reversal inside `remove_vote`. */
    method ReverseTallies(t: Tallies<P>, v: Vote<P>) returns (r: Result<Tallies<P>>)
      ensures r == SubtractTally(d.curve, t, v)
    {
      if t.PublicTallies? && v.PublicVote? && Index(v.choice) < |t.sums| {
        var current := t.sums[Index(v.choice)];
        var left := if current < v.weight then 0 else current - v.weight;
        return Ok(t.(sums := t.sums[Index(v.choice) := left]));
      }
      if t.AnonymousTallies? && v.AnonymousVote? && |v.commitments| <= |t.points| {
        var negWeight := FrSub(d.curve, 0, v.weight);
        var aggregate := t.points;
        var i := 0;
        while i < |v.commitments|
          invariant 0 <= i <= |v.commitments| && |aggregate| == |t.points|
          invariant forall k :: 0 <= k < i ==>
                                  aggregate[k] == d.curve.add(t.points[k], G1Mul(d.curve, v.commitments[k], negWeight))
          invariant forall k :: i <= k < |aggregate| ==> aggregate[k] == t.points[k]
        {
          var negWeighted := G1Mul(d.curve, v.commitments[i], negWeight);
          aggregate := aggregate[i := d.curve.add(aggregate[i], negWeighted)];
          i := i + 1;
        }
        assert aggregate == SubtractTally(d.curve, t, v).value.points;
        return Ok(AnonymousTallies(aggregate));
      }
      return Err(WrongVoteType);
    }

    /** `commitment_checks_from_tallies_and_seeds` */
    method CommitmentChecks(claimed: seq<u128>, seeds: seq<u128>) returns (checks: seq<P>)
      ensures |checks| == Min(|claimed|, |seeds|)
      ensures forall i :: 0 <= i < |checks| ==> checks[i] == Commit(d.curve, claimed[i], seeds[i])
    {
      checks := [];
      while |checks| < |claimed| && |checks| < |seeds|
        invariant |checks| <= Min(|claimed|, |seeds|)
        invariant forall i :: 0 <= i < |checks| ==> checks[i] == Commit(d.curve, claimed[i], seeds[i])
        decreases |claimed| - |checks|
      {
        var i := |checks|;
        checks := checks + [Commit(d.curve, claimed[i], seeds[i])];
      }
    }

    /** The comparison loop shared by `proof` and `proof_from_aggregates`. */
    method CheckOpening(claimed: seq<u128>, seeds: seq<u128>, points: seq<P>) returns (accepted: bool)
      ensures accepted <==> Opens(d.curve, claimed, seeds, points)
    {
      var checks := CommitmentChecks(claimed, seeds);
      var i := 0;
      while i < |checks| && i < |points|
        invariant 0 <= i <= Min(|checks|, |points|)
        invariant forall k :: 0 <= k < i ==> checks[k] == points[k]
        decreases |checks| - i
      {
        if checks[i] != points[i] {
          return false;
        }
        i := i + 1;
      }
      return true;
    }

    /** The aggregation loop of `proof`, over the votes in order. */
    method Aggregate(all: seq<Vote<P>>) returns (sums: seq<P>)
      ensures sums == Recomputed(d.curve, all)
    {
      sums := [d.curve.zero, d.curve.zero, d.curve.zero];
      var i := 0;
      assert all[..0] == [];
      while i < |all|
        invariant 0 <= i <= |all|
        invariant sums == Recomputed(d.curve, all[..i])
      {
        assert all[..i + 1][..i] == all[..i];
        var v := all[i];
        sums := [Weigh(d.curve, sums[0], v, 0), Weigh(d.curve, sums[1], v, 1), Weigh(d.curve, sums[2], v, 2)];
        i := i + 1;
      }
      assert all[..i] == all;
    }

    /** `proof`, on whatever proposal value the caller hands in: its number selects the votes. */
    method CheckProof(key: Key, p: Proposal, claimed: seq<u128>, seeds: seq<u128>) returns (r: Result<bool>)
      requires Valid()
      ensures var id := Id(key, p.id);
              var vs := if id in world.ballots then Recorded(world.ballots[id]) else [];
              r == ProofOf(d.curve, p, vs, key in world.anonymous, claimed, seeds)
    {
      if p.status != Active {
        return Err(ProposalActive);
      }
      if p.publicVoting {
        return Err(WrongVoteType);
      }
      if key !in anonymousConfig {
        return Err(NoAnonymousVotingConfig);
      }
      var all := GetAllVotes(Id(key, p.id));
      var sums := Aggregate(all);
      var accepted := CheckOpening(claimed, seeds, sums);
      return Ok(accepted);
    }

    /******* Projects *******/

    /** The checks and the transfer of `register`. */
    method ChargeRegistration(ctx: Ctx, maintainer: Address, project: Project) returns (r: Result<Bank>)
      requires Valid()
      ensures var s, key := DoRegister(d, world, ctx, maintainer, project), d.keyOf(project.name);
              if r.Err? then s == Err(r.error)
              else s == Ok(world.(projects := world.projects[key := project], registry := world.registry + [key],
                           bank := r.value))
    {
      if ctx.paused {
        return Err(ContractPaused);
      }
      if !NameOk(project.name) {
        return Err(InvalidProjectName);
      }
      if d.keyOf(project.name) in projects {
        return Err(ProjectAlreadyExist);
      }
      if maintainer !in ctx.signers {
        return Err(Unauthorized);
      }
      if maintainer !in project.maintainers {
        return Err(UnauthorizedSigner);
      }
      r := Transfer(bank, d.collateral, maintainer, d.self, REGISTER_COLLATERAL);
    }

    method RegisterProject(ctx: Ctx, maintainer: Address, project: Project) returns (r: Result<()>)
      requires Valid() && d.self !in ctx.signers
      modifies this
      ensures Valid()
      ensures var s := DoRegister(d, old(world), ctx, maintainer, project);
              world == Settled(old(world), s) && r == Verdict(s)
      ensures r.Err? ==> Contents() == old(Contents())
    {
      var charged := ChargeRegistration(ctx, maintainer, project);
      if charged.Err? {
        return Err(charged.error);
      }
      RegisterKeeps(d, world, ctx, maintainer, project);
      StoreProject(d.keyOf(project.name), project, charged.value);
      return Ok(());
    }

    /** The writes of `register`. */
    method StoreProject(key: Key, project: Project, balances: Bank)
      requires Lawful(d.curve) && Represents(Contents(), world)
      requires WorldOk(d, world.(projects := world.projects[key := project], registry := world.registry + [key],
                       bank := balances))
      modifies this
      ensures Valid()
      ensures world == old(world.(projects := world.projects[key := project], registry := world.registry + [key],
                           bank := balances))
    {
      var page := totalProjects / MAX_PROJECTS_PER_PAGE;
      var after := projectPages[page := KeyPage(projectPages, page) + [key]];
      ghost var longer := world.registry + [key];
      AppendKey(projectPages, totalProjects, world.registry, key, after, longer);
      WriteProject(projects[key := project], after, totalProjects + 1);
      bank := balances;
      world := world.(projects := projects, registry := longer, bank := bank);
    }

    method WriteProject(known: map<Key, Project>, after: map<nat, seq<Key>>, total: nat)
      modifies this
      ensures Contents() == old(Contents()).(projects := known, projectPages := after, totalProjects := total)
      ensures world == old(world)
    {
      projects, projectPages, totalProjects := known, after, total;
    }

    /** `get_projects`: every key on a page names a registered project, so the lookups never fail. */
    method GetProjects(page: nat) returns (r: Option<seq<Project>>)
      requires Valid()
      ensures r.None? <==> page * 10 >= |world.registry| && page !in projectPages
      ensures var left := |world.registry| - 10 * page;
              r.Some? ==> |r.value| == if left <= 0 then 0 else if left < 10 then left else 10
      ensures r.Some? ==> forall i :: 0 <= i < |r.value| ==>
                                        var k := page * 10 + i;
                                        k < |world.registry| && world.registry[k] in world.projects
                                        && r.value[i] == world.projects[world.registry[k]]
    {
      assert KeyPageAt(projectPages, totalProjects, page);
      if page !in projectPages {
        return None;
      }
      var keys := projectPages[page];
      assert keys == KeyPage(projectPages, page);
      var found: seq<Project> := [];
      var i := 0;
      while i < |keys|
        invariant 0 <= i <= |keys| && |found| == i
        invariant forall j :: 0 <= j < i ==>
                                var k := page * MAX_PROJECTS_PER_PAGE + j;
                                k < |world.registry| && world.registry[k] in world.projects
                                && found[j] == world.projects[world.registry[k]]
      {
        KeyEntry(projectPages, totalProjects, world.registry, page, i);
        assert keys[i] in world.registry;
        found := found + [projects[keys[i]]];
        i := i + 1;
      }
      return Some(found);
    }

    method UpdateProjectConfig(ctx: Ctx, maintainer: Address, key: Key, maintainers: seq<Address>, url: string,
                               ipfs: string)
      returns (r: Result<()>)
      requires Valid() && d.self !in ctx.signers
      modifies this
      ensures Valid()
      ensures var s := DoUpdateConfig(old(world), ctx, maintainer, key, maintainers, url, ipfs);
              world == Settled(old(world), s) && r == Verdict(s)
      ensures r.Err? ==> Contents() == old(Contents())
    {
      if ctx.paused {
        return Err(ContractPaused);
      }
      var auth := AuthMaintainers(ctx, maintainer, key);
      if auth.Err? {
        return auth;
      }
      if maintainers == [] {
        return Err(MissingMaintainer);
      }
      var project := projects[key].(maintainers := maintainers, url := url, ipfs := ipfs);
      AccessKeeps(d, world, world.(projects := projects[key := project]));
      projects := projects[key := project];
      world := world.(projects := projects);
      return Ok(());
    }

    method SetupAnonymousVoting(ctx: Ctx, maintainer: Address, key: Key, publicKey: string) returns (r: Result<()>)
      requires Valid() && d.self !in ctx.signers
      modifies this
      ensures Valid()
      ensures var s := DoSetup(old(world), ctx, maintainer, key, publicKey);
              world == Settled(old(world), s) && r == Verdict(s)
      ensures r.Err? ==> Contents() == old(Contents())
    {
      if ctx.paused {
        return Err(ContractPaused);
      }
      var auth := AuthMaintainers(ctx, maintainer, key);
      if auth.Err? {
        return auth;
      }
      AccessKeeps(d, world, world.(anonymous := anonymousConfig[key := publicKey]));
      anonymousConfig := anonymousConfig[key := publicKey];
      world := world.(anonymous := anonymousConfig);
      return Ok(());
    }

    /******* Proposals *******/

    /** The checks and the transfer of `create_proposal`. */
    method ChargeProposal(ctx: Ctx, proposer: Address, key: Key, title: string, ipfs: string, votingEndsAt: u64,
                          publicVoting: bool,
                          token: Option<Address>, outcomes: Option<nat>) returns (r: Result<Bank>)
      requires Valid()
      ensures var s := DoCreate(d, world, ctx, proposer, key, title, ipfs, votingEndsAt, publicVoting, token, outcomes);
              var num := Total(world, key);
              var p := Proposal(num, title, proposer, ipfs, votingEndsAt, publicVoting, token, outcomes, Active);
              if r.Err? then s == Err(r.error)
              else s == Ok(world.(totals := world.totals[key := num + 1],
                           ballots := world.ballots[Id(key, num) := NewBallot(d.curve, p)],
                           bank := r.value))
    {
      if ctx.paused {
        return Err(ContractPaused);
      }
      if ctx.now + MAX_VOTING_PERIOD >= U64_LIMIT {
        return Err(ArithmeticTrap);
      }
      if !(ctx.now + MIN_VOTING_PERIOD <= votingEndsAt <= ctx.now + MAX_VOTING_PERIOD
           && 10 <= |title| <= MAX_TITLE_LENGTH && 32 <= |ipfs| <= 64) {
        return Err(ProposalInputValidation);
      }
      if proposer !in ctx.signers {
        return Err(Unauthorized);
      }
      var collateral := if token.Some? then PROPOSAL_COLLATERAL else PROPOSAL_COLLATERAL + VOTE_COLLATERAL;
      var transfer := Transfer(bank, d.collateral, proposer, d.self, collateral);
      if transfer.Err? {
        return transfer;
      }
      if !publicVoting && key !in anonymousConfig {
        return Err(NoAnonymousVotingConfig);
      }
      var num := if key in totals then totals[key] else 0;
      if num / MAX_PROPOSALS_PER_PAGE >= MAX_PAGES {
        return Err(NoProposalOrPageFound);
      }
      if key !in projects {
        return Err(InvalidKey);
      }
      return transfer;
    }

    method CreateProposal(ctx: Ctx, proposer: Address, key: Key, title: string, ipfs: string, votingEndsAt: u64,
                          publicVoting: bool,
                          token: Option<Address>, outcomes: Option<nat>) returns (r: Result<nat>)
      requires Valid() && d.self !in ctx.signers
      modifies this
      ensures Valid()
      ensures var s := DoCreate(d, old(world), ctx, proposer, key, title, ipfs, votingEndsAt, publicVoting, token,
                                outcomes);
              && world == Settled(old(world), s)
              && (s.Ok? ==> r == Ok(Total(old(world), key)))
              && (s.Err? ==> r == Err(s.error))
      ensures r.Err? ==> Contents() == old(Contents())
    {
      var charged := ChargeProposal(ctx, proposer, key, title, ipfs, votingEndsAt, publicVoting, token, outcomes);
      if charged.Err? {
        return Err(charged.error);
      }
      var num := if key in totals then totals[key] else 0;
      var id := Id(key, num);
      var p := Proposal(num, title, proposer, ipfs, votingEndsAt, publicVoting, token, outcomes, Active);
      var v := Abstention(d.curve, proposer, publicVoting);
      var b := NewBallot(d.curve, p);
      CreateKeeps(d, world, ctx, proposer, key, title, ipfs, votingEndsAt, publicVoting, token, outcomes);
      FreshNumber(d, world, key);
      BelowTotals(d, world);
      var counts, after := totals[key := num + 1], Appended(pages, key, num, p);
      AppendedMatch(pages, totals, world.ballots, key, b, after, counts, world.ballots[id := b]);
      StoreNew(id, b, v, counts, after, charged.value,
               world.(totals := counts, ballots := world.ballots[id := b], bank := charged.value));
      return Ok(num);
    }

    method WriteProposal(counts: map<Key, nat>, after: map<PageId, seq<Proposal>>, balances: Bank)
      modifies this
      ensures Contents() == old(Contents()).(totals := counts, pages := after, bank := balances) && world == old(world)
    {
      totals, pages, bank := counts, after, balances;
    }

    method WriteBook(votes': map<VoteId, Vote<P>>, voters': map<Id, seq<Address>>, tallies': map<Id, Tallies<P>>)
      modifies this
      ensures Contents() == old(Contents()).(votes := votes', voters := voters', tallies := tallies')
              && world == old(world)
    {
      votes, voters, tallies := votes', voters', tallies';
    }

    /** The writes of `create_proposal`. */
    method StoreNew(id: Id, b: Ballot<P>, v: Vote<P>, counts: map<Key, nat>, after: map<PageId, seq<Proposal>>,
                    balances: Bank,
                    ghost next: World<P>)
      requires Lawful(d.curve) && Represents(Contents(), world) && id !in world.ballots
      requires b.votes == map[b.proposal.proposer := v] && b.voters == [b.proposal.proposer] && b.conflicts == []
      requires next == world.(totals := counts, ballots := world.ballots[id := b], bank := balances)
      requires PagesMatch(after, counts, next.ballots) && WorldOk(d, next)
      modifies this
      ensures Valid() && world == next
    {
      ghost var before, was := Contents(), world;
      WriteProposal(counts, after, balances);
      WriteBook(votes[VoteId(id, b.proposal.proposer) := v], voters[id := b.voters], tallies[id := b.tallies]);
      world := next;
      StoredNew(before, was, id, b, v, Contents(), next);
    }

    /** The checks and the transfer of `vote`. */
    method ChargeVote(ctx: Ctx, voter: Address, key: Key, num: nat, v: Vote<P>) returns (r: Result<Bank>)
      requires Valid()
      ensures Load(world, key, num).Ok? || r.Err?
      ensures var s := DoCast(d, world, ctx, voter, key, num, v);
              if r.Err? then s == Err(r.error)
              else
                var e := RecordVote(d.curve, Load(world, key, num).value, voter, v);
                && CheckVote(d.curve, Load(world, key, num).value, ctx.now, ctx.maxWeight, voter, v).Ok?
                && s == if e.Err? then Err(e.error) else Ok(Store(world, key, num, e.value).(bank := r.value))
    {
      if ctx.paused {
        return Err(ContractPaused);
      }
      if voter !in ctx.signers {
        return Err(Unauthorized);
      }
      var fetched := Fetch(key, num);
      if fetched.Err? {
        return Err(fetched.error);
      }
      var p, id := fetched.value, Id(key, num);
      BookLookup(votes, world.ballots, id, world.ballots[id].votes);
      assert ListsAt(voters, tallies, world.ballots, id) && ConflictsAt(conflicts, world.ballots, id);
      var checked := CheckBallot(ctx, voter, p, Addresses(voters, id), VoteId(id, voter) in votes,
                                 Addresses(conflicts, id), v,
                                 world.ballots[id]);
      if checked.Err? {
        return Err(checked.error);
      }
      var pay := CheckedEscrow(d, p, v.weight);
      if pay.Err? {
        return Err(pay.error);
      }
      r := Transfer(bank, pay.value.asset, voter, d.self, pay.value.amount);
    }

    /** The checks of `vote` that concern the proposal, on the values read from storage. */
    method CheckBallot(ctx: Ctx, voter: Address, p: Proposal, list: seq<Address>, voted: bool, barred: seq<Address>,
                       v: Vote<P>,
                       ghost b: Ballot<P>) returns (r: Result<()>)
      requires p == b.proposal && list == b.voters && (voted <==> voter in b.votes) && barred == b.conflicts
      ensures r == CheckVote(d.curve, b, ctx.now, ctx.maxWeight, voter, v)
    {
      if p.status != Active {
        return Err(ProposalActive);
      }
      if ctx.now >= p.votingEndsAt {
        return Err(ProposalVotingTime);
      }
      if |list| >= MAX_VOTES_PER_PROPOSAL {
        return Err(VoteLimitExceeded);
      }
      if voted {
        return Err(AlreadyVoted);
      }
      if voter in barred {
        return Err(VoterConflicted);
      }
      if v.PublicVote? != p.publicVoting {
        return Err(WrongVoteType);
      }
      if v.AnonymousVote? {
        if |v.commitments| != 3 || |v.encryptedVotes| != 3 || |v.encryptedSeeds| != 3 {
          return Err(BadCommitment);
        }
        var i := 0;
        while i < |v.commitments|
          invariant 0 <= i <= |v.commitments|
          invariant forall k :: 0 <= k < i ==> InSubgroup(d.curve, v.commitments[k])
        {
          if !InSubgroup(d.curve, v.commitments[i]) {
            return Err(BadCommitment);
          }
          i := i + 1;
        }
      }
      if v.address != voter {
        return Err(WrongVoter);
      }
      if p.token.None? && v.weight > ctx.maxWeight {
        return Err(VoterWeight);
      }
      if v.weight == 0 {
        return Err(VoterWeight);
      }
      return Ok(());
    }

    method CastVote(ctx: Ctx, voter: Address, key: Key, num: nat, v: Vote<P>) returns (r: Result<()>)
      requires Valid() && d.self !in ctx.signers
      modifies this
      ensures Valid()
      ensures var s := DoCast(d, old(world), ctx, voter, key, num, v);
              world == Settled(old(world), s) && r == Verdict(s)
      ensures r.Err? ==> Contents() == old(Contents())
    {
      var charged := ChargeVote(ctx, voter, key, num, v);
      if charged.Err? {
        return Err(charged.error);
      }
      var id := Id(key, num);
      ghost var b := world.ballots[id];
      LoadedSound(d, world, key, num);
      CastVoteKeeps(d.curve, b, ctx.now, ctx.maxWeight, voter, v);
      CastKeeps(d, world, ctx, voter, key, num, v);
      assert ListsAt(voters, tallies, world.ballots, id);
      var updated := UpdateTallies(tallies[id], v);
      ghost var next := world.ballots[id := RecordVote(d.curve, b, voter, v).value];
      CastVotes(votes, world.ballots, id, voter, v, next[id], votes[VoteId(id, voter) := v], next);
      Rewrite(id, votes[VoteId(id, voter) := v], voters[id] + [voter], updated.value, charged.value, next[id],
              DoCast(d, world, ctx, voter, key, num, v).value);
      return Ok(());
    }

    /** Write back the vote book of one proposal. */
    method Rewrite(id: Id, votes': map<VoteId, Vote<P>>, list: seq<Address>, t: Tallies<P>, balances: Bank,
                   ghost e: Ballot<P>, ghost next: World<P>)
      requires Lawful(d.curve) && Represents(Contents(), world) && id in world.ballots
      requires e.proposal == world.ballots[id].proposal && e.conflicts == world.ballots[id].conflicts
      requires list == e.voters && t == e.tallies
      requires next == world.(ballots := world.ballots[id := e], bank := balances, slashed := next.slashed)
      requires VotesMatch(votes', next.ballots) && WorldOk(d, next)
      modifies this
      ensures Valid() && world == next
    {
      var voters', tallies' := voters[id := list], tallies[id := t];
      SameProposal(pages, totals, world.ballots, id, e, next.ballots);
      RewrittenLists(voters, tallies, world.ballots, id, e, voters', tallies', next.ballots);
      ConflictsUpdate(conflicts, world.ballots, id, e, conflicts, next.ballots);
      WriteBook(votes', voters', tallies');
      bank, world := balances, next;
    }

    /** The position search and removal inside `remove_vote`. */
    static method RemoveFrom(list: seq<Address>, voter: Address) returns (left: seq<Address>)
      ensures left == Without(list, voter)
    {
      var pos := 0;
      while pos < |list| && list[pos] != voter
        invariant 0 <= pos <= |list|
        invariant voter !in list[..pos]
      {
        pos := pos + 1;
      }
      PositionIs(list, voter, pos);
      left := if pos < |list| then list[..pos] + list[pos + 1..] else list;
    }

    method RemoveVoteOf(ctx: Ctx, maintainer: Address, key: Key, num: nat, voter: Address) returns (r: Result<()>)
      requires Valid() && d.self !in ctx.signers
      modifies this
      ensures Valid()
      ensures var s := DoRemove(d, old(world), ctx, maintainer, key, num, voter);
              world == Settled(old(world), s) && r == Verdict(s)
      ensures r.Err? ==> Contents() == old(Contents())
    {
      var fetched := FetchActive(ctx, maintainer, key, num, false);
      if fetched.Err? {
        return Err(fetched.error);
      }
      var id := Id(key, num);
      ghost var b := world.ballots[id];
      BookLookup(votes, world.ballots, id, b.votes);
      assert ListsAt(voters, tallies, world.ballots, id);
      if VoteId(id, voter) !in votes {
        return Err(VoteNotFound);
      }
      LoadedSound(d, world, key, num);
      RemoveVoteKeeps(d.curve, b, voter);
      RemoveShape(d.curve, b, voter);
      RemoveKeeps(d, world, ctx, maintainer, key, num, voter);
      var reversed := ReverseTallies(tallies[id], votes[VoteId(id, voter)]);
      var left := RemoveFrom(voters[id], voter);
      ghost var next := world.ballots[id := RemoveVote(d.curve, b, voter).value];
      RemovedVotes(votes, world.ballots, id, voter, next[id], votes - {VoteId(id, voter)}, next);
      Rewrite(id, votes - {VoteId(id, voter)}, left, reversed.value, bank, next[id],
              DoRemove(d, world, ctx, maintainer, key, num, voter).value);
      return Ok(());
    }

    /** The common head of the maintainer calls: authorisation, lookup, and the proposal must be active.
        For `revoke_proposal` an admin may take the maintainer's place. */
    method FetchActive(ctx: Ctx, maintainer: Address, key: Key, num: nat, adminsToo: bool) returns (r: Result<Proposal>)
      requires Valid()
      ensures r == ActiveProposal(world, ctx, maintainer, key, num, adminsToo)
    {
      if ctx.paused {
        return Err(ContractPaused);
      }
      if adminsToo && maintainer in ctx.admins {
        if maintainer !in ctx.signers {
          return Err(Unauthorized);
        }
      } else {
        var auth := AuthMaintainers(ctx, maintainer, key);
        if auth.Err? {
          return Err(auth.error);
        }
      }
      r := Fetch(key, num);
      if r.Ok? && r.value.status != Active {
        return Err(ProposalActive);
      }
    }

    method RevokeProposal(ctx: Ctx, maintainer: Address, key: Key, num: nat) returns (r: Result<()>)
      requires Valid() && d.self !in ctx.signers
      modifies this
      ensures Valid()
      ensures var s := DoRevoke(old(world), ctx, maintainer, key, num);
              world == Settled(old(world), s) && r == Verdict(s)
      ensures r.Err? ==> Contents() == old(Contents())
    {
      var fetched := FetchActive(ctx, maintainer, key, num, true);
      if fetched.Err? {
        return Err(fetched.error);
      }
      var p := fetched.value.(title := "REDACTED", ipfs := "NONE", status := Malicious);
      RevokeRelabels(world, ctx, maintainer, key, num);
      RelabelKeeps(d, world, Id(key, num), DoRevoke(world, ctx, maintainer, key, num).value);
      Overwrite(key, num, p, bank);
      return Ok(());
    }

    /** Write a changed proposal back into its page. */
    method Overwrite(key: Key, num: nat, p: Proposal, balances: Bank)
      requires Lawful(d.curve) && Represents(Contents(), world) && Id(key, num) in world.ballots
      requires var b := world.ballots[Id(key, num)];
               WorldOk(d, world.(ballots := world.ballots[Id(key, num) := b.(proposal := p)], bank := balances))
      modifies this
      ensures Valid()
      ensures world == old(var b := world.ballots[Id(key, num)];
                           world.(ballots := world.ballots[Id(key, num) := b.(proposal := p)], bank := balances))
    {
      var id := Id(key, num);
      ghost var b := world.ballots[id].(proposal := p);
      ghost var next := world.ballots[id := b];
      assert SlotAt(pages, world.ballots, id);
      OverwrittenMatch(pages, totals, world.ballots, id, b, Overwritten(pages, id, p), next);
      SameLists(voters, tallies, votes, world.ballots, id, b, next);
      ConflictsUpdate(conflicts, world.ballots, id, b, conflicts, next);
      pages := Overwritten(pages, id, p);
      bank := balances;
      world := world.(ballots := next, bank := balances);
    }

    /** The payout loop of `execute`; on failure the host rolls it back. */
    method PayBack(p: Proposal, all: seq<Vote<P>>) returns (r: Result<Bank>)
      ensures r == (var paid := Transfer(bank, d.collateral, d.self, p.proposer, PROPOSAL_COLLATERAL);
                    if paid.Err? then paid else PayVotes(d, paid.value, p, all))
    {
      var first := Transfer(bank, d.collateral, d.self, p.proposer, PROPOSAL_COLLATERAL);
      if first.Err? {
        return first;
      }
      var balances := first.value;
      var i := 0;
      while i < |all|
        invariant 0 <= i <= |all|
        invariant PayVotes(d, first.value, p, all) == PayVotes(d, balances, p, all[i..])
      {
        assert all[i..][1..] == all[i + 1..];
        var pay := CheckedEscrow(d, p, all[i].weight);
        if pay.Err? {
          return Err(pay.error);
        }
        var transfer := Transfer(balances, pay.value.asset, d.self, all[i].address, pay.value.amount);
        if transfer.Err? {
          return transfer;
        }
        balances := transfer.value;
        i := i + 1;
      }
      return Ok(balances);
    }

    /** The result part of `execute`. */
    method Tally(key: Key, id: Id, p: Proposal, claimed: Option<seq<u128>>, seeds: Option<seq<u128>>)
      returns (r: Result<DaoTypes.Status>)
      requires Valid() && id in world.ballots && p == world.ballots[id].proposal
      ensures r == Decide(d.curve, world.ballots[id], key in world.anonymous, claimed, seeds)
    {
      assert ListsAt(voters, tallies, world.ballots, id);
      var t := tallies[id];
      assert t == world.ballots[id].tallies;
      if p.publicVoting {
        if claimed.Some? || seeds.Some? {
          return Err(TallySeedError);
        }
        if !(t.PublicTallies? && |t.sums| == 3) {
          return Err(NoProposalOrPageFound);
        }
        return TalliesToResult(t.sums[0], t.sums[1], t.sums[2]);
      }
      if claimed.None? || seeds.None? || |claimed.value| != 3 || |seeds.value| != 3 {
        return Err(TallySeedError);
      }
      if key !in anonymousConfig {
        return Err(NoAnonymousVotingConfig);
      }
      if !t.AnonymousTallies? {
        return Err(InvalidProof);
      }
      var accepted := CheckOpening(claimed.value, seeds.value, t.points);
      if !accepted {
        return Err(InvalidProof);
      }
      return TalliesToResult(claimed.value[0], claimed.value[1], claimed.value[2]);
    }

    /** The checks, the payout and the result of `execute`: the proposal and the balances to store. */
    method Close(ctx: Ctx, maintainer: Address, key: Key, num: nat, claimed: Option<seq<u128>>,
                 seeds: Option<seq<u128>>)
      returns (r: Result<(Proposal, Bank)>)
      requires Valid()
      ensures var s := DoExecute(d, world, ctx, maintainer, key, num, claimed, seeds);
              if r.Err? then s == Err(r.error)
              else
                && Load(world, key, num).Ok?
                && var b := Load(world, key, num).value;
                s == Ok(Store(world, key, num, b.(proposal := r.value.0)).(bank := r.value.1))
    {
      var fetched := FetchActive(ctx, maintainer, key, num, false);
      if fetched.Err? {
        return Err(fetched.error);
      }
      var p, id := fetched.value, Id(key, num);
      if p.votingEndsAt + TIMELOCK_DELAY >= U64_LIMIT {
        return Err(ArithmeticTrap);
      }
      if ctx.now < p.votingEndsAt + TIMELOCK_DELAY {
        return Err(ProposalVotingTime);
      }
      var all := GetAllVotes(id);
      var paid := PayBack(p, all);
      if paid.Err? {
        return Err(paid.error);
      }
      var status := Tally(key, id, p, claimed, seeds);
      if status.Err? {
        return Err(status.error);
      }
      if p.outcomes.Some? && OutcomeIndex(status.value) < p.outcomes.value && !ctx.outcomeOk {
        return Err(OutcomeError);
      }
      return Ok((p.(status := status.value), paid.value));
    }

    method ExecuteProposal(ctx: Ctx, maintainer: Address, key: Key, num: nat, claimed: Option<seq<u128>>,
                           seeds: Option<seq<u128>>)
      returns (r: Result<DaoTypes.Status>)
      requires Valid() && d.self !in ctx.signers
      modifies this
      ensures Valid()
      ensures var s := DoExecute(d, old(world), ctx, maintainer, key, num, claimed, seeds);
              && world == Settled(old(world), s)
              && (s.Ok? ==> Id(key, num) in world.ballots && r == Ok(world.ballots[Id(key, num)].proposal.status))
              && (s.Err? ==> r == Err(s.error))
      ensures r.Err? ==> Contents() == old(Contents())
    {
      var closed := Close(ctx, maintainer, key, num, claimed, seeds);
      if closed.Err? {
        return Err(closed.error);
      }
      ExecuteSettles(d, world, ctx, maintainer, key, num, claimed, seeds);
      SettledKeeps(d, world, Id(key, num), DoExecute(d, world, ctx, maintainer, key, num, claimed, seeds).value);
      Overwrite(key, num, closed.value.0, closed.value.1);
      return Ok(closed.value.0.status);
    }

    /******* Conflicts of interest *******/

    static method Extend(original: seq<Address>, addresses: seq<Address>) returns (list: seq<Address>)
      ensures list == Barred(original, addresses)
    {
      list := original;
      var i := 0;
      while i < |addresses|
        invariant 0 <= i <= |addresses|
        invariant Barred(original, addresses) == Barred(list, addresses[i..])
      {
        assert addresses[i..][1..] == addresses[i + 1..];
        if addresses[i] !in list {
          list := list + [addresses[i]];
        }
        i := i + 1;
      }
    }

    static method Filter(original: seq<Address>, addresses: seq<Address>) returns (list: seq<Address>)
      ensures list == Unbarred(original, addresses)
    {
      list := [];
      var i := 0;
      while i < |original|
        invariant 0 <= i <= |original|
        invariant list + Unbarred(original[i..], addresses) == Unbarred(original, addresses)
      {
        assert original[i..][0] == original[i] && original[i..][1..] == original[i + 1..];
        ghost var rest := Unbarred(original[i + 1..], addresses);
        if original[i] !in addresses {
          Reassociate(list, [original[i]], rest);
          list := list + [original[i]];
        } else {
          assert Unbarred(original[i..], addresses) == [] + rest == rest;
        }
        i := i + 1;
      }
      assert original[i..] == [] && list + [] == list;
    }

    method AddConflictsOfInterest(ctx: Ctx, maintainer: Address, key: Key, num: nat, addresses: seq<Address>)
      returns (r: Result<()>)
      requires Valid() && d.self !in ctx.signers
      modifies this
      ensures Valid()
      ensures var s := DoAddConflicts(old(world), ctx, maintainer, key, num, addresses);
              world == Settled(old(world), s) && r == Verdict(s)
      ensures r.Err? ==> Contents() == old(Contents())
    {
      var fetched := FetchActive(ctx, maintainer, key, num, false);
      if fetched.Err? {
        return Err(fetched.error);
      }
      var id := Id(key, num);
      assert ConflictsAt(conflicts, world.ballots, id);
      var list := Extend(Addresses(conflicts, id), addresses);
      ConflictsRelabel(world, ctx, maintainer, key, num, addresses);
      RelabelKeeps(d, world, id, DoAddConflicts(world, ctx, maintainer, key, num, addresses).value);
      SetConflicts(id, list);
      return Ok(());
    }

    method RemoveConflictsOfInterest(ctx: Ctx, maintainer: Address, key: Key, num: nat, addresses: seq<Address>)
      returns (r: Result<()>)
      requires Valid() && d.self !in ctx.signers
      modifies this
      ensures Valid()
      ensures var s := DoRemoveConflicts(old(world), ctx, maintainer, key, num, addresses);
              world == Settled(old(world), s) && r == Verdict(s)
      ensures r.Err? ==> Contents() == old(Contents())
    {
      var fetched := FetchActive(ctx, maintainer, key, num, false);
      if fetched.Err? {
        return Err(fetched.error);
      }
      var id := Id(key, num);
      assert ConflictsAt(conflicts, world.ballots, id);
      var list := Filter(Addresses(conflicts, id), addresses);
      ConflictsRelabel(world, ctx, maintainer, key, num, addresses);
      RelabelKeeps(d, world, id, DoRemoveConflicts(world, ctx, maintainer, key, num, addresses).value);
      SetConflicts(id, list);
      return Ok(());
    }

    method SetConflicts(id: Id, list: seq<Address>)
      requires Lawful(d.curve) && Represents(Contents(), world) && id in world.ballots
      requires WorldOk(d, world.(ballots := world.ballots[id := world.ballots[id].(conflicts := list)]))
      modifies this
      ensures Valid()
      ensures world == old(world.(ballots := world.ballots[id := world.ballots[id].(conflicts := list)]))
    {
      ghost var e := world.ballots[id].(conflicts := list);
      ghost var next := world.ballots[id := e];
      SameProposal(pages, totals, world.ballots, id, e, next);
      SameLists(voters, tallies, votes, world.ballots, id, e, next);
      ConflictsUpdate(conflicts, world.ballots, id, e, conflicts[id := list], next);
      conflicts := conflicts[id := list];
      world := world.(ballots := next);
    }
  }

  /** What the common head of the maintainer calls decides. */
  function ActiveProposal<P>(w: World<P>, ctx: Ctx, maintainer: Address, key: Key, num: nat, adminsToo: bool)
    : Result<Proposal> {
    var _ :- Need(!ctx.paused, ContractPaused);
    var _ :- if adminsToo && maintainer in ctx.admins then Need(maintainer in ctx.signers, Unauthorized)
             else AuthMaintainer(w, ctx, maintainer, key);
    var b :- Load(w, key, num);
    var _ :- Need(b.proposal.status == Active, ProposalActive);
    Ok(b.proposal)
  }

  lemma PositionIs(s: seq<Address>, a: Address, k: nat)
    requires k <= |s| && a !in s[..k] && (k < |s| ==> s[k] == a)
    ensures Position(s, a) == k
  {
    var p := Position(s, a);
    PositionFound(s, a);
    assert forall i :: 0 <= i < k ==> s[..k][i] == s[i];
    assert forall i :: 0 <= i < p ==> s[..p][i] == s[i];
  }

  lemma BelowTotals<P(!new)>(d: Deployment<P>, w: World<P>)
    requires BallotsSound(d, w)
    ensures forall id :: id in w.ballots ==> id.num < Total(w, id.key)
  {
    forall id | id in w.ballots
      ensures id.num < Total(w, id.key)
    {
      assert SoundAt(d, w, id);
    }
  }
}
