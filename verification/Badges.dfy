/** Members, their badges per project, and the lists of holders each project keeps of them. */
module Badges {
  import opened Wrappers
  import opened DaoTypes

  /******* State *******/

  datatype Badge = Developer | Triage | Community | Verified | Default

  /** The kinds a project keeps a list of. */
  const KINDS: seq<Badge> := [Developer, Triage, Community, Verified]

  function Weight(badge: Badge): nat {
    match badge
    case Developer => 10_000_000
    case Triage => 5_000_000
    case Community => 1_000_000
    case Verified => 500_000
    case Default => 1
  }

  datatype ProjectBadges = ProjectBadges(project: Key, badges: seq<Badge>)

  datatype Member = Member(projects: seq<ProjectBadges>, about: string)

  datatype Holders = Holders(developer: seq<Address>, triage: seq<Address>, community: seq<Address>,
                             verified: seq<Address>) {
    /** `Default` has no list. */
    function Of(kind: Badge): seq<Address> {
      match kind
      case Developer => developer
      case Triage => triage
      case Community => community
      case Verified => verified
      case Default => []
    }

    function Set(kind: Badge, list: seq<Address>): Holders {
      match kind
      case Developer => this.(developer := list)
      case Triage => this.(triage := list)
      case Community => this.(community := list)
      case Verified => this.(verified := list)
      case Default => this
    }
  }

  datatype Registry = Registry(members: map<Address, Member>, holders: map<Key, Holders>)

  const NOBODY := Registry(map[], map[])

  /** What a call finds around it. */
  datatype Setting = Setting(paused: bool, signers: set<Address>, maintainers: map<Key, seq<Address>>)

  datatype Call =
    | AddMember(member: Address, about: string)
    | UpdateMember(member: Address, about: string)
    | SetBadges(maintainer: Address, key: Key, member: Address, badges: seq<Badge>)

  datatype Event = Event(setting: Setting, call: Call)

  /******* Steps *******/

  function HoldersOf(holders: map<Key, Holders>, key: Key): Holders {
    if key in holders then holders[key] else Holders([], [], [], [])
  }

  /** The badges of the first entry for the project. */
  function EntryOf(projects: seq<ProjectBadges>, key: Key): Option<seq<Badge>> {
    if projects == [] then None
    else if projects[0].project == key then Some(projects[0].badges)
    else EntryOf(projects[1..], key)
  }

  function BadgesOf(members: map<Address, Member>, a: Address, key: Key): seq<Badge> {
    if a !in members then []
    else
      var entry := EntryOf(members[a].projects, key);
      if entry.Some? then entry.value else []
  }

  /** The entry for the project replaced, or added at the end. */
  function WithEntry(projects: seq<ProjectBadges>, key: Key, badges: seq<Badge>): seq<ProjectBadges> {
    if projects == [] then [ProjectBadges(key, badges)]
    else if projects[0].project == key then [ProjectBadges(key, badges)] + projects[1..]
    else [projects[0]] + WithEntry(projects[1..], key, badges)
  }

  function Others(list: seq<Address>, a: Address): seq<Address> {
    if list == [] then [] else (if list[0] == a then [] else [list[0]]) + Others(list[1..], a)
  }

  function Relisted(list: seq<Address>, a: Address, holds: bool): seq<Address> {
    Others(list, a) + if holds then [a] else []
  }

  function RelistedAll(h: Holders, a: Address, badges: seq<Badge>): Holders {
    Holders(Relisted(h.developer, a, Developer in badges), Relisted(h.triage, a, Triage in badges),
            Relisted(h.community, a, Community in badges), Relisted(h.verified, a, Verified in badges))
  }

  function DoSetBadges(w: Registry, s: Setting, maintainer: Address, key: Key, member: Address, badges: seq<Badge>)
    : Result<Registry> {
    var _ :- Need(!s.paused, ContractPaused);
    var _ :- Need(maintainer in s.signers, Unauthorized);
    var _ :- Need(key in s.maintainers, InvalidKey);
    var _ :- Need(maintainer in s.maintainers[key], UnauthorizedSigner);
    var _ :- Need(member in w.members, UnknownMember);
    var m := w.members[member];
    Ok(Registry(w.members[member := m.(projects := WithEntry(m.projects, key, badges))],
                w.holders[key := RelistedAll(HoldersOf(w.holders, key), member, badges)]))
  }

  function Step(w: Registry, s: Setting, call: Call): Result<Registry> {
    match call
    case AddMember(a, about) =>
      var _ :- Need(!s.paused, ContractPaused);
      var _ :- Need(a in s.signers, Unauthorized);
      var _ :- Need(a !in w.members, MemberAlreadyExist);
      Ok(w.(members := w.members[a := Member([], about)]))
    case UpdateMember(a, about) =>
      var _ :- Need(!s.paused, ContractPaused);
      var _ :- Need(a in s.signers, Unauthorized);
      var _ :- Need(a in w.members, UnknownMember);
      Ok(w.(members := w.members[a := w.members[a].(about := about)]))
    case SetBadges(maintainer, key, member, badges) => DoSetBadges(w, s, maintainer, key, member, badges)
  }

  function Run(w: Registry, trace: seq<Event>): Registry
    decreases |trace|
  {
    if trace == [] then w
    else
      var before := Run(w, trace[..|trace| - 1]);
      var e := trace[|trace| - 1];
      Settled(before, Step(before, e.setting, e.call))
  }

  /** The exact sum; `MaxWeight` says when the checked `u32` sum of the contract traps. */
  function SumOfWeights(badges: seq<Badge>): nat {
    if badges == [] then 0 else Weight(badges[0]) + SumOfWeights(badges[1..])
  }

  /** `get_max_weight`, for a project that weighs votes by badges. */
  function MaxWeight(members: map<Address, Member>, a: Address, key: Key): Result<nat> {
    var badges := BadgesOf(members, a, key);
    if badges == [] then Ok(Weight(Default))
    else if SumOfWeights(badges) < 0x1_0000_0000 then Ok(SumOfWeights(badges))
    else Err(ArithmeticTrap)
  }

  /** The entry is replaced at the first place that has the project. */
  lemma {:induction false} WithEntryAt(projects: seq<ProjectBadges>, i: nat, key: Key, badges: seq<Badge>)
    requires i <= |projects| && forall j :: 0 <= j < i ==> projects[j].project != key
    requires i < |projects| ==> projects[i].project == key
    ensures WithEntry(projects, key, badges) ==
            if i < |projects| then projects[i := ProjectBadges(key, badges)]
            else projects + [ProjectBadges(key, badges)]
  {
    if i > 0 {
      WithEntryAt(projects[1..], i - 1, key, badges);
    }
  }

  lemma OnlyThisKind(lists: Holders, k: nat, list: seq<Address>)
    requires k < |KINDS|
    ensures lists.Set(KINDS[k], list).Of(KINDS[k]) == list
    ensures forall j :: 0 <= j < |KINDS| && j != k ==> lists.Set(KINDS[k], list).Of(KINDS[j]) == lists.Of(KINDS[j])
  {
  }

  lemma EachKindRelisted(start: Holders, lists: Holders, member: Address, badges: seq<Badge>)
    requires forall j :: 0 <= j < |KINDS| ==>
                           lists.Of(KINDS[j]) == Relisted(start.Of(KINDS[j]), member, KINDS[j] in badges)
    ensures lists == RelistedAll(start, member, badges)
  {
    assert KINDS[0] == Developer && KINDS[1] == Triage && KINDS[2] == Community && KINDS[3] == Verified;
  }

  /******* The contract *******/

  class Membership {
    var members: map<Address, Member>
    var holders: map<Key, Holders>

    ghost function Contents(): Registry
      reads this
    {
      Registry(members, holders)
    }

    constructor ()
      ensures Contents() == NOBODY
    {
      members, holders := map[], map[];
    }

    /** `add_member` */
    method AddMember(s: Setting, member: Address, about: string) returns (r: Result<()>)
      modifies this
      ensures var after := Step(old(Contents()), s, Call.AddMember(member, about));
              Contents() == Settled(old(Contents()), after) && r == Verdict(after)
    {
      var _ :- Need(!s.paused, ContractPaused);
      var _ :- Need(member in s.signers, Unauthorized);
      if member in members {
        return Err(MemberAlreadyExist);
      }
      members := members[member := Member([], about)];
      return Ok(());
    }

    /** `update_member` */
    method UpdateMember(s: Setting, member: Address, about: string) returns (r: Result<()>)
      modifies this
      ensures var after := Step(old(Contents()), s, Call.UpdateMember(member, about));
              Contents() == Settled(old(Contents()), after) && r == Verdict(after)
    {
      var _ :- Need(!s.paused, ContractPaused);
      var _ :- Need(member in s.signers, Unauthorized);
      if member !in members {
        return Err(UnknownMember);
      }
      members := members[member := members[member].(about := about)];
      return Ok(());
    }

    /** The loop that replaces the badges of one project. */
    method ReplaceEntry(projects: seq<ProjectBadges>, key: Key, badges: seq<Badge>) returns (next: seq<ProjectBadges>)
      ensures next == WithEntry(projects, key, badges)
    {
      for i := 0 to |projects|
        invariant forall j :: 0 <= j < i ==> projects[j].project != key
      {
        if projects[i].project == key {
          WithEntryAt(projects, i, key, badges);
          return projects[i := projects[i].(badges := badges)];
        }
      }
      WithEntryAt(projects, |projects|, key, badges);
      next := projects + [ProjectBadges(key, badges)];
    }

    /** The cleaned-up copy of a list, and the member again if they hold the badge now. */
    method Relist(list: seq<Address>, member: Address, holds: bool) returns (newVec: seq<Address>)
      ensures newVec == Relisted(list, member, holds)
    {
      newVec := [];
      for i := 0 to |list|
        invariant Others(list, member) == newVec + Others(list[i..], member)
      {
        assert list[i..][0] == list[i] && list[i..][1..] == list[i + 1..];
        ghost var kept := if list[i] != member then [list[i]] else [];
        Reassociate(newVec, kept, Others(list[i + 1..], member));
        if list[i] != member {
          newVec := newVec + [list[i]];
        } else {
          assert newVec + kept == newVec;
        }
      }
      assert list[|list|..] == [];
      if holds {
        newVec := newVec + [member];
      }
    }

    /** The loop over the kinds of badges. */
    method RelistAll(start: Holders, member: Address, badges: seq<Badge>) returns (lists: Holders)
      ensures lists == RelistedAll(start, member, badges)
    {
      lists := start;
      for k := 0 to |KINDS|
        invariant forall j :: 0 <= j < k ==>
                                lists.Of(KINDS[j]) == Relisted(start.Of(KINDS[j]), member, KINDS[j] in badges)
        invariant forall j :: k <= j < |KINDS| ==> lists.Of(KINDS[j]) == start.Of(KINDS[j])
      {
        var newVec := Relist(lists.Of(KINDS[k]), member, KINDS[k] in badges);
        OnlyThisKind(lists, k, newVec);
        lists := lists.Set(KINDS[k], newVec);
      }
      EachKindRelisted(start, lists, member, badges);
    }

    /** `set_badges` */
    method SetBadges(s: Setting, maintainer: Address, key: Key, member: Address, badges: seq<Badge>)
      returns (r: Result<()>)
      modifies this
      ensures var after := DoSetBadges(old(Contents()), s, maintainer, key, member, badges);
              Contents() == Settled(old(Contents()), after) && r == Verdict(after)
    {
      var _ :- Need(!s.paused, ContractPaused);
      var _ :- Need(maintainer in s.signers, Unauthorized);
      var _ :- Need(key in s.maintainers, InvalidKey);
      var _ :- Need(maintainer in s.maintainers[key], UnauthorizedSigner);
      if member !in members {
        return Err(UnknownMember);
      }
      var m := members[member];
      var projects := ReplaceEntry(m.projects, key, badges);
      m := m.(projects := projects);

      var lists := RelistAll(HoldersOf(holders, key), member, badges);
      holders := holders[key := lists];
      members := members[member := m];
      return Ok(());
    }
  }

  /******* The two indexes agree *******/

  predicate OneEntryEach(projects: seq<ProjectBadges>) {
    forall i, j :: 0 <= i < j < |projects| ==> projects[i].project != projects[j].project
  }

  predicate IndexAt(w: Registry, a: Address, key: Key, kind: Badge) {
    kind != Default ==> (a in HoldersOf(w.holders, key).Of(kind) <==> kind in BadgesOf(w.members, a, key))
  }

  ghost predicate ListAt(w: Registry, key: Key, kind: Badge) {
    Distinct(HoldersOf(w.holders, key).Of(kind))
  }

  predicate EntriesAt(w: Registry, a: Address) {
    a in w.members ==> OneEntryEach(w.members[a].projects)
  }

  /** An address is listed under a kind exactly when its entry for the project has that badge; no list names
      anybody twice; no member has two entries for a project. */
  ghost predicate IndexOk(w: Registry) {
    && (forall a, key, kind :: IndexAt(w, a, key, kind))
    && (forall key, kind :: ListAt(w, key, kind))
    && (forall a :: EntriesAt(w, a))
  }

  lemma {:induction false} OthersEffect(list: seq<Address>, a: Address, x: Address)
    ensures x in Others(list, a) <==> x in list && x != a
    ensures Distinct(list) ==> Distinct(Others(list, a))
  {
    if list != [] {
      OthersEffect(list[1..], a, x);
      OthersEffect(list[1..], a, list[0]);
    }
  }

  lemma RelistedEffect(list: seq<Address>, a: Address, holds: bool, x: Address)
    ensures x in Relisted(list, a, holds) <==> if x == a then holds else x in list
    ensures Distinct(list) ==> Distinct(Relisted(list, a, holds))
  {
    OthersEffect(list, a, x);
    OthersEffect(list, a, a);
  }

  lemma {:induction false} WithEntryEffect(projects: seq<ProjectBadges>, key: Key, badges: seq<Badge>, other: Key)
    ensures var next := WithEntry(projects, key, badges);
            && EntryOf(next, other) == (if other == key then Some(badges) else EntryOf(projects, other))
            && (OneEntryEach(projects) ==> OneEntryEach(next))
            && (forall e :: e in next ==> e.project == key || e in projects)
  {
    if projects != [] {
      WithEntryEffect(projects[1..], key, badges, other);
    }
  }

  lemma ListedAfter(h: Holders, member: Address, badges: seq<Badge>, a: Address, kind: Badge)
    ensures var list := RelistedAll(h, member, badges).Of(kind);
            && (kind != Default ==> (a in list <==> if a == member then kind in badges else a in h.Of(kind)))
            && (Distinct(h.Of(kind)) ==> Distinct(list))
  {
    if kind != Default {
      RelistedEffect(h.Of(kind), member, kind in badges, a);
    }
  }

  lemma SetBadgesIndex(w: Registry, key: Key, member: Address, badges: seq<Badge>, next: Registry, a: Address,
                       other: Key, kind: Badge)
    requires member in w.members && IndexAt(w, a, other, kind) && ListAt(w, other, kind) && EntriesAt(w, a)
    requires var m := w.members[member];
             next == Registry(w.members[member := m.(projects := WithEntry(m.projects, key, badges))],
                              w.holders[key := RelistedAll(HoldersOf(w.holders, key), member, badges)])
    ensures IndexAt(next, a, other, kind) && ListAt(next, other, kind) && EntriesAt(next, a)
  {
    WithEntryEffect(w.members[member].projects, key, badges, other);
    ListedAfter(HoldersOf(w.holders, key), member, badges, a, kind);
    var h, h' := HoldersOf(w.holders, other), HoldersOf(next.holders, other);
    assert h' == if other == key then RelistedAll(h, member, badges) else h;
    assert BadgesOf(next.members, a, other)
        == if a == member && other == key then badges else BadgesOf(w.members, a, other);
  }

  lemma StepIndex(w: Registry, s: Setting, call: Call, next: Registry, a: Address, key: Key, kind: Badge)
    requires IndexOk(w) && Step(w, s, call) == Ok(next)
    ensures IndexAt(next, a, key, kind) && ListAt(next, key, kind) && EntriesAt(next, a)
  {
    assert IndexAt(w, a, key, kind) && ListAt(w, key, kind) && EntriesAt(w, a);
    match call
    case AddMember(member, about) =>
    case UpdateMember(member, about) =>
    case SetBadges(maintainer, project, member, badges) =>
      SetBadgesIndex(w, project, member, badges, next, a, key, kind);
  }

  /** The indexes agree after every run. */
  lemma {:induction false} RunIndex(trace: seq<Event>)
    ensures IndexOk(Run(NOBODY, trace))
    decreases |trace|
  {
    if trace != [] {
      var e := trace[|trace| - 1];
      var before := Run(NOBODY, trace[..|trace| - 1]);
      RunIndex(trace[..|trace| - 1]);
      var after := Step(before, e.setting, e.call);
      if after.Ok? {
        forall a, key, kind ensures IndexAt(after.value, a, key, kind) && ListAt(after.value, key, kind)
                                    && EntriesAt(after.value, a) {
          StepIndex(before, e.setting, e.call, after.value, a, key, kind);
        }
        forall key, kind ensures ListAt(after.value, key, kind) {
          assert IndexAt(after.value, Address(0), key, kind);
        }
        forall a ensures EntriesAt(after.value, a) {
          assert IndexAt(after.value, a, Key(0), Default);
        }
      }
    }
  }

  /** Exactly when each call goes through: members speak for themselves, badges are given by a maintainer of the
      project to a member; and what changes in the book of members. */
  lemma StepRule(w: Registry, s: Setting, call: Call)
    ensures var r := Step(w, s, call);
            match call
            case AddMember(a, about) =>
              && (r.Ok? <==> !s.paused && a in s.signers && a !in w.members)
              && (r.Ok? ==> r.value == Registry(w.members[a := Member([], about)], w.holders))
            case UpdateMember(a, about) =>
              && (r.Ok? <==> !s.paused && a in s.signers && a in w.members)
              && (r.Ok? ==>
                    r.value == Registry(w.members[a := Member(w.members[a].projects, about)], w.holders))
            case SetBadges(maintainer, key, a, badges) =>
              && (r.Ok? <==>
                  && !s.paused && maintainer in s.signers && a in w.members
                  && key in s.maintainers && maintainer in s.maintainers[key])
              && (r.Ok? ==>
                    && r.value.members.Keys == w.members.Keys && r.value.members[a].about == w.members[a].about
                    && r.value.members - {a} == w.members - {a})
  {
  }

  /** Setting badges gives the member those badges in that project, and changes no other member, no other
      project and no order among the other holders. */
  lemma SetBadgesEffect(w: Registry, s: Setting, maintainer: Address, key: Key, member: Address, badges: seq<Badge>,
                        next: Registry,
                        a: Address, other: Key, kind: Badge)
    requires DoSetBadges(w, s, maintainer, key, member, badges) == Ok(next)
    ensures BadgesOf(next.members, a, other) ==
            if a == member && other == key then badges else BadgesOf(w.members, a, other)
    ensures Others(HoldersOf(next.holders, other).Of(kind), member)
         == Others(HoldersOf(w.holders, other).Of(kind), member)
    ensures other != key ==> HoldersOf(next.holders, other) == HoldersOf(w.holders, other)
  {
    WithEntryEffect(w.members[member].projects, key, badges, other);
    OthersKept(HoldersOf(w.holders, key), member, badges, kind);
  }

  /** Behind them comes the member, under exactly the kinds given. */
  lemma ListedLast(w: Registry, s: Setting, maintainer: Address, key: Key, member: Address, badges: seq<Badge>,
                   next: Registry, kind: Badge)
    requires DoSetBadges(w, s, maintainer, key, member, badges) == Ok(next) && kind != Default
    ensures var before, after := HoldersOf(w.holders, key).Of(kind), HoldersOf(next.holders, key).Of(kind);
            after == Others(before, member) + if kind in badges then [member] else []
  {
  }

  lemma OthersKept(h: Holders, a: Address, badges: seq<Badge>, kind: Badge)
    ensures Others(RelistedAll(h, a, badges).Of(kind), a) == Others(h.Of(kind), a)
  {
    if kind != Default {
      OthersOfRelisted(h.Of(kind), a, kind in badges);
    }
  }

  lemma {:induction false} OthersOfSum(x: seq<Address>, y: seq<Address>, a: Address)
    ensures Others(x + y, a) == Others(x, a) + Others(y, a)
  {
    if x == [] {
      assert x + y == y;
    } else {
      OthersOfSum(x[1..], y, a);
      assert (x + y)[0] == x[0] && (x + y)[1..] == x[1..] + y;
      var kept := if x[0] == a then [] else [x[0]];
      Reassociate(kept, Others(x[1..], a), Others(y, a));
    }
  }

  lemma {:induction false} OthersTwice(list: seq<Address>, a: Address)
    ensures Others(Others(list, a), a) == Others(list, a)
  {
    if list != [] {
      OthersTwice(list[1..], a);
      var rest := Others(list[1..], a);
      if list[0] == a {
        assert Others(list, a) == [] + rest == rest;
      } else {
        assert ([list[0]] + rest)[1..] == rest;
      }
    }
  }

  lemma OthersOfRelisted(list: seq<Address>, a: Address, holds: bool)
    ensures Others(Relisted(list, a, holds), a) == Others(list, a)
  {
    var added := if holds then [a] else [];
    OthersOfSum(Others(list, a), added, a);
    OthersTwice(list, a);
    assert Others(added, a) == [];
  }

  /******* Voting weight *******/

  lemma {:induction false} WeightsBounded(badges: seq<Badge>)
    ensures |badges| <= SumOfWeights(badges) <= 10_000_000 * |badges|
    ensures forall b :: b in badges ==> Weight(b) <= SumOfWeights(badges)
  {
    if badges != [] {
      WeightsBounded(badges[1..]);
    }
  }

  /** A list of at most 429 badges always has a weight, and a longer one may have none. */
  lemma WeightFits(members: map<Address, Member>, a: Address, key: Key)
    ensures |BadgesOf(members, a, key)| <= 429 ==> MaxWeight(members, a, key).Ok?
    ensures MaxWeight(members, a, key).Ok? ==> MaxWeight(members, a, key).value >= 1
  {
    WeightsBounded(BadgesOf(members, a, key));
  }

  lemma {:induction false} SumOfDevelopers(badges: seq<Badge>)
    requires forall i :: 0 <= i < |badges| ==> badges[i] == Developer
    ensures SumOfWeights(badges) == 10_000_000 * |badges|
  {
    if badges != [] {
      SumOfDevelopers(badges[1..]);
    }
  }

  /** 430 developer badges overflow: `set_badges` takes repeated badges, and then the weight does not fit.  The
      member has only to sign up, and a maintainer to set the badges. */
  lemma ManyDevelopersOverflow(key: Key, member: Address, maintainer: Address, about: string)
    returns (trace: seq<Event>)
    ensures |trace| == 2 && trace[0].call == Call.AddMember(member, about)
    ensures trace[1].call == Call.SetBadges(maintainer, key, member, seq(430, _ => Developer))
    ensures BadgesOf(Run(NOBODY, trace).members, member, key) == seq(430, _ => Developer)
    ensures MaxWeight(Run(NOBODY, trace).members, member, key) == Err(ArithmeticTrap)
  {
    var badges: seq<Badge> := seq(430, _ => Developer);
    var setting := Setting(false, {member, maintainer}, map[key := [maintainer]]);
    var first, second := Event(setting, Call.AddMember(member, about)),
                         Event(setting, Call.SetBadges(maintainer, key, member, badges));
    trace := [first, second];
    assert trace[..1] == [first] && trace[..1][..0] == [];
    var w := Run(NOBODY, trace[..1]);
    assert Run(NOBODY, trace[..1][..0]) == NOBODY;
    assert w == NOBODY.(members := map[member := Member([], about)]);
    assert Run(NOBODY, trace) == Settled(w, Step(w, setting, second.call));
    assert DoSetBadges(w, setting, maintainer, key, member, badges).Ok?;
    SumOfDevelopers(badges);
  }

  predicate NoRepeats(badges: seq<Badge>) {
    forall i, j :: 0 <= i < j < |badges| ==> badges[i] != badges[j]
  }

  /** What a list of badges weighs, by kind; nobody weighs less than 1, and a weight beyond `u32` traps. */
  lemma WeightByKind(members: map<Address, Member>, a: Address, key: Key)
    ensures var badges := BadgesOf(members, a, key);
            var n := multiset(badges);
            var total := 10_000_000 * n[Developer] + 5_000_000 * n[Triage] + 1_000_000 * n[Community]
                         + 500_000 * n[Verified] + n[Default];
            MaxWeight(members, a, key) ==
            if badges == [] then Ok(1) else if total < 0x1_0000_0000 then Ok(total) else Err(ArithmeticTrap)
  {
    SumByCount(BadgesOf(members, a, key));
  }

  lemma {:induction false} SumByCount(badges: seq<Badge>)
    ensures var n := multiset(badges);
            SumOfWeights(badges) == 10_000_000 * n[Developer] + 5_000_000 * n[Triage] + 1_000_000 * n[Community]
            + 500_000 * n[Verified] + n[Default]
  {
    if badges != [] {
      SumByCount(badges[1..]);
      assert badges == [badges[0]] + badges[1..];
    }
  }

  /** In a reachable state the weight of a member whose badges do not repeat can be read off the lists of the
      project. */
  lemma WeightFromLists(trace: seq<Event>, a: Address, key: Key)
    requires var badges := BadgesOf(Run(NOBODY, trace).members, a, key);
             badges != [] && NoRepeats(badges) && Default !in badges
    ensures var w := Run(NOBODY, trace);
            var h := HoldersOf(w.holders, key);
            MaxWeight(w.members, a, key)
            == Ok((if a in h.developer then 10_000_000 else 0) + (if a in h.triage then 5_000_000 else 0)
                  + (if a in h.community then 1_000_000 else 0) + (if a in h.verified then 500_000 else 0))
  {
    var w := Run(NOBODY, trace);
    var badges := BadgesOf(w.members, a, key);
    RunIndex(trace);
    WeightByKind(w.members, a, key);
    OneOfEach(badges);
    assert IndexAt(w, a, key, Developer) && IndexAt(w, a, key, Triage) && IndexAt(w, a, key, Community)
           && IndexAt(w, a, key, Verified);
  }

  lemma {:induction false} OneOfEach(badges: seq<Badge>)
    requires NoRepeats(badges)
    ensures forall b :: multiset(badges)[b] == if b in badges then 1 else 0
  {
    if badges != [] {
      assert badges[0] !in badges[1..];
      OneOfEach(badges[1..]);
      assert badges == [badges[0]] + badges[1..];
    }
  }
}
