/** The contract's keyed storage, and the state it represents. */
module Storage {
  import opened DaoTypes
  import opened Ledger
  import opened Ballot
  import opened Dao
  import opened DaoProofs

  const MAX_PROJECTS_PER_PAGE: nat := 10

  datatype PageId = PageId(key: Key, page: nat)

  datatype VoteId = VoteId(id: Id, voter: Address)

  /** One map per kind of storage key. */
  datatype Stored<P> = Stored(
    projects: map<Key, Project>,
    totalProjects: nat,
    projectPages: map<nat, seq<Key>>,
    anonymousConfig: map<Key, string>,
    totals: map<Key, nat>,
    pages: map<PageId, seq<Proposal>>,
    votes: map<VoteId, Vote<P>>,
    voters: map<Id, seq<Address>>,
    tallies: map<Id, Tallies<P>>,
    conflicts: map<Id, seq<Address>>,
    bank: Bank)

  /** Storage reads with their defaults. */
  function Page(pages: map<PageId, seq<Proposal>>, key: Key, page: nat): seq<Proposal> {
    if PageId(key, page) in pages then pages[PageId(key, page)] else []
  }

  function Addresses(lists: map<Id, seq<Address>>, id: Id): seq<Address> {
    if id in lists then lists[id] else []
  }

  function KeyPage(pages: map<nat, seq<Key>>, page: nat): seq<Key> {
    if page in pages then pages[page] else []
  }

  function PageOf(num: nat): nat {
    num / MAX_PROPOSALS_PER_PAGE
  }

  function SlotOf(num: nat): nat {
    num % MAX_PROPOSALS_PER_PAGE
  }

  /** How many of `total` entries fall on a page of `size`. */
  function PageSize(total: nat, page: nat, size: nat): nat {
    if total <= page * size then 0 else if total - page * size < size then total - page * size else size
  }

  /******* Representation *******/

  // As in the invariant, each part is quantified over named instances.

  ghost predicate PageAt(pages: map<PageId, seq<Proposal>>, totals: map<Key, nat>, key: Key, page: nat) {
    |Page(pages, key, page)| == PageSize(Count(totals, key), page, MAX_PROPOSALS_PER_PAGE)
  }

  ghost predicate SlotAt<P>(pages: map<PageId, seq<Proposal>>, ballots: map<Id, Ballot<P>>, id: Id) {
    id in ballots ==>
      && SlotOf(id.num) < |Page(pages, id.key, PageOf(id.num))|
      && Page(pages, id.key, PageOf(id.num))[SlotOf(id.num)] == ballots[id].proposal
  }

  /** Proposal `num` is at page `num / 9`, slot `num % 9`; every page is full except the last. */
  ghost predicate PagesMatch<P>(pages: map<PageId, seq<Proposal>>, totals: map<Key, nat>, ballots: map<Id, Ballot<P>>) {
    (forall key, page: nat :: PageAt(pages, totals, key, page)) && (forall id :: SlotAt(pages, ballots, id))
  }

  ghost predicate VoteAt<P>(votes: map<VoteId, Vote<P>>, ballots: map<Id, Ballot<P>>, id: Id, a: Address) {
    && (VoteId(id, a) in votes <==> id in ballots && a in ballots[id].votes)
    && (VoteId(id, a) in votes ==> votes[VoteId(id, a)] == ballots[id].votes[a])
  }

  /** The votes stored are those of the existing proposals. */
  ghost predicate VotesMatch<P>(votes: map<VoteId, Vote<P>>, ballots: map<Id, Ballot<P>>) {
    forall id, a :: VoteAt(votes, ballots, id, a)
  }

  ghost predicate ListsAt<P>(voters: map<Id, seq<Address>>, tallies: map<Id, Tallies<P>>, ballots: map<Id, Ballot<P>>,
                             id: Id) {
    if id in ballots then
      && id in voters && voters[id] == ballots[id].voters
      && id in tallies && tallies[id] == ballots[id].tallies
    else
      id !in voters && id !in tallies
  }

  /** So are the voter lists and tallies. */
  ghost predicate ListsMatch<P>(voters: map<Id, seq<Address>>, tallies: map<Id, Tallies<P>>,
                                ballots: map<Id, Ballot<P>>) {
    forall id :: ListsAt(voters, tallies, ballots, id)
  }

  ghost predicate ConflictsAt<P>(conflicts: map<Id, seq<Address>>, ballots: map<Id, Ballot<P>>, id: Id) {
    if id in ballots then Addresses(conflicts, id) == ballots[id].conflicts else id !in conflicts
  }

  ghost predicate ConflictsMatch<P>(conflicts: map<Id, seq<Address>>, ballots: map<Id, Ballot<P>>) {
    forall id :: ConflictsAt(conflicts, ballots, id)
  }

  ghost predicate KeyPageAt(pages: map<nat, seq<Key>>, total: nat, page: nat) {
    |KeyPage(pages, page)| == PageSize(total, page, MAX_PROJECTS_PER_PAGE)
  }

  ghost predicate KeyAt(pages: map<nat, seq<Key>>, registry: seq<Key>, i: nat) {
    i < |registry| ==>
      && i % MAX_PROJECTS_PER_PAGE < |KeyPage(pages, i / MAX_PROJECTS_PER_PAGE)|
      && KeyPage(pages, i / MAX_PROJECTS_PER_PAGE)[i % MAX_PROJECTS_PER_PAGE] == registry[i]
  }

  /** The project keys in order of registration, ten to a page. */
  ghost predicate RegistryMatch(pages: map<nat, seq<Key>>, total: nat, registry: seq<Key>) {
    && total == |registry|
    && (forall page: nat :: KeyPageAt(pages, total, page))
    && (forall i: nat :: KeyAt(pages, registry, i))
  }

  ghost predicate Represents<P>(s: Stored<P>, w: World<P>) {
    && s.projects == w.projects && s.anonymousConfig == w.anonymous && s.totals == w.totals && s.bank == w.bank
    && RegistryMatch(s.projectPages, s.totalProjects, w.registry)
    && PagesMatch(s.pages, w.totals, w.ballots)
    && VotesMatch(s.votes, w.ballots)
    && ListsMatch(s.voters, s.tallies, w.ballots)
    && ConflictsMatch(s.conflicts, w.ballots)
  }

  lemma LoadThroughPage<P(!new)>(pages: map<PageId, seq<Proposal>>, w: World<P>, key: Key, num: nat)
    requires PagesMatch(pages, w.totals, w.ballots) && Numbered(w)
    ensures Id(key, num) in w.ballots <==> SlotOf(num) < |Page(pages, key, PageOf(num))|
    ensures Id(key, num) in w.ballots ==> Page(pages, key, PageOf(num))[SlotOf(num)] == w.ballots[Id(key, num)].proposal
  {
    assert PageAt(pages, w.totals, key, PageOf(num)) && SlotAt(pages, w.ballots, Id(key, num)) && NumberedAt(w, key);
  }

  /** Reading a page finds the proposals numbered from `9 * page`. */
  lemma PageEntry<P(!new)>(pages: map<PageId, seq<Proposal>>, w: World<P>, key: Key, page: nat, slot: nat)
    requires PagesMatch(pages, w.totals, w.ballots) && Numbered(w) && slot < |Page(pages, key, page)|
    ensures var id := Id(key, page * MAX_PROPOSALS_PER_PAGE + slot);
            id in w.ballots && w.ballots[id].proposal == Page(pages, key, page)[slot]
  {
    var num := page * MAX_PROPOSALS_PER_PAGE + slot;
    assert PageAt(pages, w.totals, key, page) && SlotAt(pages, w.ballots, Id(key, num)) && NumberedAt(w, key);
    assert num < Total(w, key);
  }


  lemma KeyEntry(pages: map<nat, seq<Key>>, total: nat, registry: seq<Key>, page: nat, slot: nat)
    requires RegistryMatch(pages, total, registry) && slot < |KeyPage(pages, page)|
    ensures page * MAX_PROJECTS_PER_PAGE + slot < |registry|
    ensures registry[page * MAX_PROJECTS_PER_PAGE + slot] == KeyPage(pages, page)[slot]
  {
    var i := page * MAX_PROJECTS_PER_PAGE + slot;
    assert KeyPageAt(pages, total, page) && KeyAt(pages, registry, i);
    assert i / MAX_PROJECTS_PER_PAGE == page && i % MAX_PROJECTS_PER_PAGE == slot;
  }

  /** The vote book of one proposal, read through its keys. */
  lemma BookLookup<P>(votes: map<VoteId, Vote<P>>, ballots: map<Id, Ballot<P>>, id: Id, book: map<Address, Vote<P>>)
    requires VotesMatch(votes, ballots) && book == if id in ballots then ballots[id].votes else map[]
    ensures forall a :: VoteId(id, a) in votes <==> a in book
    ensures forall a :: a in book ==> votes[VoteId(id, a)] == book[a]
  {
    forall a
      ensures VoteId(id, a) in votes <==> a in book
      ensures a in book ==> votes[VoteId(id, a)] == book[a]
    {
      assert VoteAt(votes, ballots, id, a);
    }
  }

  /******* Updates *******/

  function Overwritten(pages: map<PageId, seq<Proposal>>, id: Id, p: Proposal): map<PageId, seq<Proposal>>
    requires SlotOf(id.num) < |Page(pages, id.key, PageOf(id.num))|
  {
    pages[PageId(id.key, PageOf(id.num)) := Page(pages, id.key, PageOf(id.num))[SlotOf(id.num) := p]]
  }

  /** Overwriting a proposal in its slot. */
  lemma OverwrittenMatch<P>(pages: map<PageId, seq<Proposal>>, totals: map<Key, nat>, ballots: map<Id, Ballot<P>>,
                            id: Id, b: Ballot<P>,
                            after: map<PageId, seq<Proposal>>, next: map<Id, Ballot<P>>)
    requires PagesMatch(pages, totals, ballots) && id in ballots && next == ballots[id := b]
    requires SlotOf(id.num) < |Page(pages, id.key, PageOf(id.num))| && after == Overwritten(pages, id, b.proposal)
    ensures PagesMatch(after, totals, next)
  {
    forall key, page: nat
      ensures PageAt(after, totals, key, page)
    {
      assert PageAt(pages, totals, key, page);
    }
    forall i
      ensures SlotAt(after, next, i)
    {
      assert SlotAt(pages, ballots, i);
      if i.key == id.key && PageOf(i.num) == PageOf(id.num) && SlotOf(i.num) == SlotOf(id.num) {
        assert i == id;
      }
    }
  }

  lemma SameProposal<P>(pages: map<PageId, seq<Proposal>>, totals: map<Key, nat>, ballots: map<Id, Ballot<P>>, id: Id,
                        b: Ballot<P>,
                        next: map<Id, Ballot<P>>)
    requires PagesMatch(pages, totals, ballots) && id in ballots && next == ballots[id := b]
             && b.proposal == ballots[id].proposal
    ensures PagesMatch(pages, totals, next)
  {
    forall i
      ensures SlotAt(pages, next, i)
    {
      assert SlotAt(pages, ballots, i);
    }
  }

  function Appended(pages: map<PageId, seq<Proposal>>, key: Key, num: nat, p: Proposal): map<PageId, seq<Proposal>> {
    pages[PageId(key, PageOf(num)) := Page(pages, key, PageOf(num)) + [p]]
  }

  lemma AppendedMatch<P(!new)>(pages: map<PageId, seq<Proposal>>, totals: map<Key, nat>, ballots: map<Id, Ballot<P>>,
                               key: Key, b: Ballot<P>,
                               after: map<PageId, seq<Proposal>>, counts: map<Key, nat>, next: map<Id, Ballot<P>>)
    requires PagesMatch(pages, totals, ballots) && Id(key, Count(totals, key)) !in ballots
    requires forall id :: id in ballots ==> id.num < Count(totals, id.key)
    requires after == Appended(pages, key, Count(totals, key), b.proposal)
    requires counts == totals[key := Count(totals, key) + 1] && next == ballots[Id(key, Count(totals, key)) := b]
    ensures PagesMatch(after, counts, next)
  {
    var num := Count(totals, key);
    assert PageAt(pages, totals, key, PageOf(num));
    assert |Page(pages, key, PageOf(num))| == SlotOf(num);
    forall k, page: nat
      ensures PageAt(after, counts, k, page)
    {
      assert PageAt(pages, totals, k, page);
    }
    forall i
      ensures SlotAt(after, next, i)
    {
      assert SlotAt(pages, ballots, i);
    }
  }

  lemma AppendKey(pages: map<nat, seq<Key>>, total: nat, registry: seq<Key>, key: Key, after: map<nat, seq<Key>>,
                  longer: seq<Key>)
    requires RegistryMatch(pages, total, registry)
    requires var page := total / MAX_PROJECTS_PER_PAGE; after == pages[page := KeyPage(pages, page) + [key]]
    requires longer == registry + [key]
    ensures RegistryMatch(after, total + 1, longer)
  {
    var more := |longer|;
    assert KeyPageAt(pages, total, total / MAX_PROJECTS_PER_PAGE);
    assert |KeyPage(pages, total / MAX_PROJECTS_PER_PAGE)| == total % MAX_PROJECTS_PER_PAGE;
    forall p: nat
      ensures KeyPageAt(after, more, p)
    {
      assert KeyPageAt(pages, total, p);
    }
    forall i: nat
      ensures KeyAt(after, longer, i)
    {
      assert KeyAt(pages, registry, i);
    }
  }

  /** Voter list and tallies of one proposal are rewritten. */
  lemma RewrittenLists<P>(voters: map<Id, seq<Address>>, tallies: map<Id, Tallies<P>>, ballots: map<Id, Ballot<P>>,
                          id: Id, b: Ballot<P>,
                          voters': map<Id, seq<Address>>, tallies': map<Id, Tallies<P>>, next: map<Id, Ballot<P>>)
    requires ListsMatch(voters, tallies, ballots) && next == ballots[id := b]
    requires voters' == voters[id := b.voters] && tallies' == tallies[id := b.tallies]
    ensures ListsMatch(voters', tallies', next)
  {
    forall i
      ensures ListsAt(voters', tallies', next, i)
    {
      assert ListsAt(voters, tallies, ballots, i);
    }
  }

  lemma SameLists<P>(voters: map<Id, seq<Address>>, tallies: map<Id, Tallies<P>>, votes: map<VoteId, Vote<P>>,
                     ballots: map<Id, Ballot<P>>,
                     id: Id, b: Ballot<P>, next: map<Id, Ballot<P>>)
    requires ListsMatch(voters, tallies, ballots) && VotesMatch(votes, ballots) && id in ballots
             && next == ballots[id := b]
    requires b.votes == ballots[id].votes && b.voters == ballots[id].voters && b.tallies == ballots[id].tallies
    ensures ListsMatch(voters, tallies, next) && VotesMatch(votes, next)
  {
    forall i
      ensures ListsAt(voters, tallies, next, i)
    {
      assert ListsAt(voters, tallies, ballots, i);
    }
    forall i, x
      ensures VoteAt(votes, next, i, x)
    {
      assert VoteAt(votes, ballots, i, x);
    }
  }

  lemma CastVotes<P>(votes: map<VoteId, Vote<P>>, ballots: map<Id, Ballot<P>>, id: Id, a: Address, v: Vote<P>,
                     b: Ballot<P>,
                     votes': map<VoteId, Vote<P>>, next: map<Id, Ballot<P>>)
    requires VotesMatch(votes, ballots) && next == ballots[id := b] && votes' == votes[VoteId(id, a) := v]
    requires b.votes == (if id in ballots then ballots[id].votes else map[])[a := v]
    ensures VotesMatch(votes', next)
  {
    forall i, x
      ensures VoteAt(votes', next, i, x)
    {
      assert VoteAt(votes, ballots, i, x);
    }
  }

  lemma RemovedVotes<P>(votes: map<VoteId, Vote<P>>, ballots: map<Id, Ballot<P>>, id: Id, a: Address, b: Ballot<P>,
                        votes': map<VoteId, Vote<P>>, next: map<Id, Ballot<P>>)
    requires VotesMatch(votes, ballots) && id in ballots && next == ballots[id := b]
             && votes' == votes - {VoteId(id, a)}
    requires b.votes == ballots[id].votes - {a}
    ensures VotesMatch(votes', next)
  {
    forall i, x
      ensures VoteAt(votes', next, i, x)
    {
      assert VoteAt(votes, ballots, i, x);
    }
  }

  lemma ConflictsUpdate<P>(conflicts: map<Id, seq<Address>>, ballots: map<Id, Ballot<P>>, id: Id, b: Ballot<P>,
                           conflicts': map<Id, seq<Address>>, next: map<Id, Ballot<P>>)
    requires ConflictsMatch(conflicts, ballots) && next == ballots[id := b]
    requires conflicts' == conflicts[id := b.conflicts]
             || (conflicts' == conflicts && b.conflicts == if id in ballots then ballots[id].conflicts else [])
    ensures ConflictsMatch(conflicts', next)
  {
    forall i
      ensures ConflictsAt(conflicts', next, i)
    {
      assert ConflictsAt(conflicts, ballots, i);
    }
  }

  lemma NewBooks<P>(votes: map<VoteId, Vote<P>>, voters: map<Id, seq<Address>>, tallies: map<Id, Tallies<P>>,
                    conflicts: map<Id, seq<Address>>,
                    ballots: map<Id, Ballot<P>>, id: Id, b: Ballot<P>, v: Vote<P>,
                    votes': map<VoteId, Vote<P>>, voters': map<Id, seq<Address>>, tallies': map<Id, Tallies<P>>,
                    next: map<Id, Ballot<P>>)
    requires VotesMatch(votes, ballots) && ListsMatch(voters, tallies, ballots) && ConflictsMatch(conflicts, ballots)
             && id !in ballots
    requires b.votes == map[b.proposal.proposer := v] && b.conflicts == [] && next == ballots[id := b]
    requires votes' == votes[VoteId(id, b.proposal.proposer) := v]
    requires voters' == voters[id := b.voters] && tallies' == tallies[id := b.tallies]
    ensures VotesMatch(votes', next) && ListsMatch(voters', tallies', next) && ConflictsMatch(conflicts, next)
  {
    assert map[][b.proposal.proposer := v] == map[b.proposal.proposer := v];
    CastVotes(votes, ballots, id, b.proposal.proposer, v, b, votes', next);
    RewrittenLists(voters, tallies, ballots, id, b, voters', tallies', next);
    ConflictsUpdate(conflicts, ballots, id, b, conflicts, next);
  }

  /** The keyed writes of a new proposal. */
  lemma StoredNew<P>(s: Stored<P>, w: World<P>, id: Id, b: Ballot<P>, v: Vote<P>, s': Stored<P>, w': World<P>)
    requires Represents(s, w) && id !in w.ballots
    requires b.votes == map[b.proposal.proposer := v] && b.conflicts == []
    requires s' == s.(totals := w'.totals, pages := s'.pages, votes := s.votes[VoteId(id, b.proposal.proposer) := v],
                   voters := s.voters[id := b.voters], tallies := s.tallies[id := b.tallies], bank := w'.bank)
    requires w' == w.(totals := w'.totals, ballots := w.ballots[id := b], bank := w'.bank)
    requires PagesMatch(s'.pages, w'.totals, w'.ballots)
    ensures Represents(s', w')
  {
    NewBooks(s.votes, s.voters, s.tallies, s.conflicts, w.ballots, id, b, v, s'.votes, s'.voters, s'.tallies,
             w'.ballots);
  }
}
