/** The administrators: pausing, and upgrades that need several signatures and a day of waiting. */
module Upgrade {
  import opened Curve
  import opened Wrappers
  import opened DaoTypes

  /******* State *******/

  datatype AdminsConfig = AdminsConfig(threshold: nat, admins: seq<Address>)

  datatype UpgradeProposal = UpgradeProposal(wasmHash: nat, executableAt: nat, approvals: seq<Address>,
                                             adminsConfig: AdminsConfig)

  /** The instance storage, and the code it runs. */
  datatype Machine = Machine(paused: bool, config: AdminsConfig, pending: Option<UpgradeProposal>, wasmHash: nat)

  datatype Call =
    | Pause(admin: Address, paused: bool)
    | Propose(admin: Address, newWasmHash: nat, newConfig: Option<AdminsConfig>)
    | Approve(admin: Address)
    | Finalize(admin: Address, accept: bool)

  datatype Event = Event(now: nat, signers: set<Address>, call: Call)

  /******* Steps *******/

  predicate Reasonable(config: AdminsConfig) {
    1 <= config.threshold <= |config.admins|
  }

  function AuthAdmin(m: Machine, signers: set<Address>, admin: Address): Result<()> {
    var _ :- Need(admin in signers, Unauthorized);
    Need(admin in m.config.admins, UnauthorizedSigner)
  }

  function DoPropose(m: Machine, now: nat, admin: Address, newWasmHash: nat, newConfig: Option<AdminsConfig>)
    : Result<Machine> {
    var _ :- Need(m.pending.None?, UpgradeError);
    var _ :- Need(now + TIMELOCK_DELAY < U64_LIMIT, ArithmeticTrap);
    var config := if newConfig.Some? then newConfig.value else m.config;
    var _ :- Need(Reasonable(config), UpgradeError);
    Ok(m.(pending := Some(UpgradeProposal(newWasmHash, now + TIMELOCK_DELAY, [admin], config))))
  }

  function DoApprove(m: Machine, admin: Address): Result<Machine> {
    var _ :- Need(m.pending.Some?, UpgradeError);
    var p := m.pending.value;
    var _ :- Need(admin !in p.approvals, AlreadyVoted);
    Ok(m.(pending := Some(p.(approvals := p.approvals + [admin]))))
  }

  function DoFinalize(m: Machine, now: nat, accept: bool): Result<Machine> {
    var _ :- Need(m.pending.Some?, UpgradeError);
    var p := m.pending.value;
    if accept then
      var _ :- Need(|p.approvals| >= m.config.threshold, UpgradeError);
      var _ :- Need(now >= p.executableAt, ProposalVotingTime);
      Ok(m.(config := p.adminsConfig, pending := None, wasmHash := p.wasmHash))
    else
      Ok(m.(pending := None))
  }

  function Step(m: Machine, e: Event): Result<Machine> {
    var _ :- AuthAdmin(m, e.signers, e.call.admin);
    match e.call
    case Pause(admin, paused) => Ok(m.(paused := paused))
    case Propose(admin, newWasmHash, newConfig) => DoPropose(m, e.now, admin, newWasmHash, newConfig)
    case Approve(admin) => DoApprove(m, admin)
    case Finalize(admin, accept) => DoFinalize(m, e.now, accept)
  }

  function Deployed(admin: Address, wasmHash: nat): Machine {
    Machine(true, AdminsConfig(1, [admin]), None, wasmHash)
  }

  /** The state after the first `n` events. */
  function StateAt(start: Machine, trace: seq<Event>, n: nat): Machine
    requires n <= |trace|
  {
    if n == 0 then start
    else
      var before := StateAt(start, trace, n - 1);
      Settled(before, Step(before, trace[n - 1]))
  }

  predicate Succeeds(start: Machine, trace: seq<Event>, n: nat)
    requires n < |trace|
  {
    Step(StateAt(start, trace, n), trace[n]).Ok?
  }

  /** Event `n` carries an upgrade out. */
  predicate Upgrades(start: Machine, trace: seq<Event>, n: nat)
    requires n < |trace|
  {
    trace[n].call.Finalize? && trace[n].call.accept && Succeeds(start, trace, n)
  }

  /******* The contract *******/

  class Contract {
    var paused: bool
    var config: AdminsConfig
    var pending: Option<UpgradeProposal>
    var wasmHash: nat

    ghost function Contents(): Machine
      reads this
    {
      Machine(paused, config, pending, wasmHash)
    }

    constructor (admin: Address, wasmHash: nat)
      ensures Contents() == Deployed(admin, wasmHash)
    {
      paused, config := true, AdminsConfig(1, [admin]);
      pending := None;
      this.wasmHash := wasmHash;
    }

    /** `pause` */
    method Pause(now: nat, signers: set<Address>, admin: Address, paused: bool) returns (r: Result<()>)
      modifies this
      ensures var after := Step(old(Contents()), Event(now, signers, Call.Pause(admin, paused)));
              Contents() == Settled(old(Contents()), after) && r == Verdict(after)
    {
      var _ :- CheckAdmin(signers, admin);
      if paused == this.paused {
        return Ok(());
      }
      this.paused := paused;
      return Ok(());
    }

    /** `auth_admin` */
    method CheckAdmin(signers: set<Address>, admin: Address) returns (r: Result<()>)
      ensures r == AuthAdmin(Contents(), signers, admin)
    {
      var _ :- Need(admin in signers, Unauthorized);
      if admin !in config.admins {
        return Err(UnauthorizedSigner);
      }
      return Ok(());
    }

    /** `propose_upgrade` */
    method ProposeUpgrade(now: nat, signers: set<Address>, admin: Address, newWasmHash: nat,
                          newAdminsConfig: Option<AdminsConfig>)
      returns (r: Result<()>)
      modifies this
      ensures var after := Step(old(Contents()),
                                Event(now, signers, Call.Propose(admin, newWasmHash, newAdminsConfig)));
              Contents() == Settled(old(Contents()), after) && r == Verdict(after)
    {
      var _ :- CheckAdmin(signers, admin);
      if pending.Some? {
        return Err(UpgradeError);
      }
      var _ :- Need(now + TIMELOCK_DELAY < U64_LIMIT, ArithmeticTrap);
      var executableAt := now + TIMELOCK_DELAY;
      var approvals := [admin];
      var adminsConfig := if newAdminsConfig.Some? then newAdminsConfig.value else config;
      if adminsConfig.threshold == 0 || adminsConfig.threshold > |adminsConfig.admins| {
        return Err(UpgradeError);
      }
      pending := Some(UpgradeProposal(newWasmHash, executableAt, approvals, adminsConfig));
      return Ok(());
    }

    /** `approve_upgrade` */
    method ApproveUpgrade(now: nat, signers: set<Address>, admin: Address) returns (r: Result<()>)
      modifies this
      ensures var after := Step(old(Contents()), Event(now, signers, Call.Approve(admin)));
              Contents() == Settled(old(Contents()), after) && r == Verdict(after)
    {
      var _ :- CheckAdmin(signers, admin);
      if pending.None? {
        return Err(UpgradeError);
      }
      var p := pending.value;
      if admin in p.approvals {
        return Err(AlreadyVoted);
      }
      pending := Some(p.(approvals := p.approvals + [admin]));
      return Ok(());
    }

    /** `finalize_upgrade` */
    method FinalizeUpgrade(now: nat, signers: set<Address>, admin: Address, accept: bool) returns (r: Result<()>)
      modifies this
      ensures var after := Step(old(Contents()), Event(now, signers, Call.Finalize(admin, accept)));
              Contents() == Settled(old(Contents()), after) && r == Verdict(after)
    {
      var _ :- CheckAdmin(signers, admin);
      if pending.None? {
        return Err(UpgradeError);
      }
      var p := pending.value;
      if accept {
        if |p.approvals| < config.threshold {
          return Err(UpgradeError);
        }
        if now < p.executableAt {
          return Err(ProposalVotingTime);
        }
        config := p.adminsConfig;
        pending := None;
        wasmHash := p.wasmHash;
      } else {
        pending := None;
      }
      return Ok(());
    }
  }

  /******* The rules of the calls *******/

  predicate ByAdmin(m: Machine, signers: set<Address>, admin: Address) {
    admin in signers && admin in m.config.admins
  }

  /** Exactly when an administrator's call goes through, and the whole next state. */
  lemma StepRule(m: Machine, e: Event)
    ensures var r, auth := Step(m, e), ByAdmin(m, e.signers, e.call.admin);
            match e.call
            case Pause(_, paused) => (r.Ok? <==> auth) && (r.Ok? ==> r.value == m.(paused := paused))
            case Propose(admin, newWasmHash, newConfig) =>
              var config := if newConfig.Some? then newConfig.value else m.config;
              && (r.Ok? <==> auth && m.pending == None && e.now + 86_400 < 0x1_0000_0000_0000_0000
                             && 1 <= config.threshold <= |config.admins|)
              && (r.Ok? ==>
                    r.value == m.(pending := Some(UpgradeProposal(newWasmHash, e.now + 86_400, [admin], config))))
            case Approve(admin) =>
              && (r.Ok? <==> auth && m.pending.Some? && admin !in m.pending.value.approvals)
              && (r.Ok? ==>
                    var p := m.pending.value;
                    r.value == m.(pending := Some(p.(approvals := p.approvals + [admin]))))
            case Finalize(_, accept) =>
              && (r.Ok? <==> auth && m.pending.Some?
                             && (accept ==> |m.pending.value.approvals| >= m.config.threshold
                                            && m.pending.value.executableAt <= e.now))
              && (r.Ok? ==>
                    r.value == if accept then Machine(m.paused, m.pending.value.adminsConfig, None,
                                                      m.pending.value.wasmHash)
                    else m.(pending := None))
  {
  }

  /** The pause flag is what the last successful `pause` said; a new contract is paused. */
  lemma {:induction false} FlagIsLastPause(admin: Address, wasmHash: nat, trace: seq<Event>, n: nat)
    returns (last: Option<nat>)
    requires n <= |trace|
    ensures var start := Deployed(admin, wasmHash);
            var flag := StateAt(start, trace, n).paused;
            match last
            case None => flag && forall k :: 0 <= k < n && trace[k].call.Pause? ==> !Succeeds(start, trace, k)
            case Some(i) => i < n && trace[i].call.Pause? && Succeeds(start, trace, i) && flag == trace[i].call.paused
                            && forall k :: i < k < n && trace[k].call.Pause? ==> !Succeeds(start, trace, k)
  {
    last := None;
    if n > 0 {
      var start := Deployed(admin, wasmHash);
      StepRule(StateAt(start, trace, n - 1), trace[n - 1]);
      if trace[n - 1].call.Pause? && Succeeds(start, trace, n - 1) {
        last := Some(n - 1);
      } else {
        last := FlagIsLastPause(admin, wasmHash, trace, n - 1);
      }
    }
  }

  /******* What every state keeps *******/

  /** The threshold can be met by the list of administrators as long as it is; approvals are by distinct
      administrators, and there is at least one. */
  ghost predicate Sound(m: Machine) {
    && Reasonable(m.config)
    && (m.pending.Some? ==>
          var p := m.pending.value;
          && Reasonable(p.adminsConfig) && |p.approvals| > 0 && Distinct(p.approvals)
          && forall a :: a in p.approvals ==> a in m.config.admins)
  }

  lemma {:induction false} AlwaysSound(admin: Address, wasmHash: nat, trace: seq<Event>, n: nat)
    requires n <= |trace|
    ensures Sound(StateAt(Deployed(admin, wasmHash), trace, n))
  {
    if n > 0 {
      AlwaysSound(admin, wasmHash, trace, n - 1);
      StepSound(StateAt(Deployed(admin, wasmHash), trace, n - 1), trace[n - 1]);
    }
  }

  /******* Where an upgrade comes from *******/

  /** Event `k` is a call by `a`, signed by `a`, that went through. */
  predicate SignedAt(start: Machine, trace: seq<Event>, k: nat, a: Address)
    requires k < |trace|
  {
    (trace[k].call.Propose? || trace[k].call.Approve?) && trace[k].call.admin == a && a in trace[k].signers
    && Succeeds(start, trace, k)
  }

  /** The pending proposal was made at event `i`, the administrators have not changed since, and approval `j`
      was given at event `signed[j]`. */
  ghost predicate Traced(start: Machine, trace: seq<Event>, n: nat, i: nat, signed: seq<nat>)
    requires n <= |trace|
  {
    var m := StateAt(start, trace, n);
    && i < n && m.pending.Some? && trace[i].call.Propose?
    && m.pending.value.wasmHash == trace[i].call.newWasmHash
    && m.pending.value.executableAt == trace[i].now + TIMELOCK_DELAY
    && m.pending.value.adminsConfig
       == (if trace[i].call.newConfig.Some? then trace[i].call.newConfig.value else m.config)
    && |signed| == |m.pending.value.approvals| > 0 && signed[0] == i
    && (forall j :: 0 <= j < |signed| ==>
                      signed[j] < n && SignedAt(start, trace, signed[j], m.pending.value.approvals[j]))
    && (forall j, k :: 0 <= j < k < |signed| ==> signed[j] < signed[k])
    && (forall k :: i <= k <= n ==> StateAt(start, trace, k).config == m.config)
  }

  lemma {:induction false} TracePending(start: Machine, trace: seq<Event>, n: nat) returns (i: nat, signed: seq<nat>)
    requires start.pending.None? && n <= |trace| && StateAt(start, trace, n).pending.Some?
    ensures Traced(start, trace, n, i, signed)
  {
    var before := StateAt(start, trace, n - 1);
    if before.pending.None? {
      i, signed := n - 1, [n - 1];
    } else {
      i, signed := TracePending(start, trace, n - 1);
      signed := TraceOn(start, trace, n, i, signed);
    }
  }

  lemma TraceOn(start: Machine, trace: seq<Event>, n: nat, i: nat, before: seq<nat>) returns (signed: seq<nat>)
    requires 0 < n <= |trace| && Traced(start, trace, n - 1, i, before) && StateAt(start, trace, n).pending.Some?
    ensures Traced(start, trace, n, i, signed)
  {
    var m, next := StateAt(start, trace, n - 1), StateAt(start, trace, n);
    assert next.config == m.config;
    if trace[n - 1].call.Approve? && Succeeds(start, trace, n - 1) {
      signed := before + [n - 1];
      assert next.pending.value.approvals == m.pending.value.approvals + [trace[n - 1].call.admin];
    } else {
      signed := before;
      assert next.pending == m.pending;
    }
  }

  /** Every upgrade that is carried out was proposed at least a day earlier, and signed in separate calls, the
      proposal among them, by at least `threshold` different administrators of the configuration in force,
      which did not change in between. */
  lemma UpgradesAreSigned(admin: Address, wasmHash: nat, trace: seq<Event>, n: nat)
    returns (i: nat, signed: seq<nat>, approvers: seq<Address>)
    requires n < |trace| && Upgrades(Deployed(admin, wasmHash), trace, n)
    ensures var start := Deployed(admin, wasmHash);
            var config := StateAt(start, trace, n).config;
            && i < n && trace[i].call.Propose? && trace[i].now + 86_400 <= trace[n].now
            && StateAt(start, trace, n + 1).wasmHash == trace[i].call.newWasmHash
            && StateAt(start, trace, n + 1).config
               == (if trace[i].call.newConfig.Some? then trace[i].call.newConfig.value else config)
            && |approvers| == |signed| >= config.threshold >= 1 && Distinct(approvers) && signed[0] == i
            && (forall j :: 0 <= j < |approvers| ==>
                              approvers[j] in config.admins && signed[j] < n
                              && SignedAt(start, trace, signed[j], approvers[j]))
            && (forall j, k :: 0 <= j < k < |signed| ==> signed[j] < signed[k])
            && (forall k :: i <= k <= n ==> StateAt(start, trace, k).config == config)
  {
    var start := Deployed(admin, wasmHash);
    AlwaysSound(admin, wasmHash, trace, n);
    i, signed := TracePending(start, trace, n);
    approvers := StateAt(start, trace, n).pending.value.approvals;
  }

  /******* Who can still upgrade *******/

  function SetOf(list: seq<Address>): set<Address> {
    if list == [] then {} else {list[0]} + SetOf(list[1..])
  }

  lemma {:induction false} SetOfEffect(list: seq<Address>)
    ensures |SetOf(list)| <= |list| && (Distinct(list) ==> |SetOf(list)| == |list|)
    ensures forall a :: a in SetOf(list) <==> a in list
  {
    if list != [] {
      SetOfEffect(list[1..]);
    }
  }

  lemma Subset(a: set<Address>, b: set<Address>)
    requires a <= b
    ensures |a| <= |b|
  {
    assert b == a + (b - a);
  }

  /** The list may repeat an address; what counts is how many different ones it holds. */
  predicate Quorate(config: AdminsConfig) {
    |SetOf(config.admins)| >= config.threshold
  }

  /** Without enough different administrators no upgrade is ever carried out, so the configuration stays. */
  lemma {:induction false} LockedOut(start: Machine, trace: seq<Event>, n: nat)
    requires Sound(start) && !Quorate(start.config) && n <= |trace|
    ensures var m := StateAt(start, trace, n); Sound(m) && m.config == start.config && m.wasmHash == start.wasmHash
    ensures n < |trace| ==> !Upgrades(start, trace, n)
  {
    if n > 0 {
      LockedOut(start, trace, n - 1);
      StepSound(StateAt(start, trace, n - 1), trace[n - 1]);
    }
    if n < |trace| && trace[n].call.Finalize? && trace[n].call.accept {
      NoQuorumNoUpgrade(StateAt(start, trace, n), trace[n]);
    }
  }

  lemma StepSound(m: Machine, e: Event)
    requires Sound(m)
    ensures Sound(Settled(m, Step(m, e)))
    ensures !(e.call.Finalize? && e.call.accept && Step(m, e).Ok?) ==>
              Settled(m, Step(m, e)).config == m.config && Settled(m, Step(m, e)).wasmHash == m.wasmHash
  {
  }

  lemma NoQuorumNoUpgrade(m: Machine, e: Event)
    requires Sound(m) && !Quorate(m.config) && e.call.Finalize? && e.call.accept
    ensures Step(m, e).Err?
  {
    if m.pending.Some? {
      FewApprovals(m.pending.value.approvals, m.config.admins);
    }
  }

  lemma FewApprovals(approvers: seq<Address>, admins: seq<Address>)
    requires Distinct(approvers) && forall a :: a in approvers ==> a in admins
    ensures |approvers| <= |SetOf(admins)|
  {
    SetOfEffect(approvers);
    SetOfEffect(admins);
    Subset(SetOf(approvers), SetOf(admins));
  }

  function Deduplicated(list: seq<Address>): (d: seq<Address>)
    ensures forall a :: a in d <==> a in list
    ensures Distinct(d) && SetOf(d) == SetOf(list)
  {
    if list == [] then []
    else
      var rest := Deduplicated(list[1..]);
      if list[0] in list[1..] then InSetOf(list[1..], list[0]); rest
      else [list[0]] + rest
  }

  lemma InSetOf(list: seq<Address>, a: Address)
    requires a in list
    ensures {a} + SetOf(list) == SetOf(list)
  {
    SetOfEffect(list);
  }

  lemma {:induction false} StateOfPrefix(start: Machine, trace: seq<Event>, more: seq<Event>, n: nat)
    requires n <= |trace|
    ensures StateAt(start, trace + more, n) == StateAt(start, trace, n)
  {
    if n > 0 {
      StateOfPrefix(start, trace, more, n - 1);
    }
  }

  lemma StateAfter(start: Machine, trace: seq<Event>, e: Event)
    ensures var before := StateAt(start, trace, |trace|);
            StateAt(start, trace + [e], |trace|) == before
            && StateAt(start, trace + [e], |trace| + 1) == Settled(before, Step(before, e))
  {
    StateOfPrefix(start, trace, [e], |trace|);
  }

  /** Calls at one instant that leave a proposal approved by the first `k` of `admins`. */
  lemma {:induction false} Collect(start: Machine, now: nat, wasmHash: nat, admins: seq<Address>, k: nat)
    returns (trace: seq<Event>)
    requires Reasonable(start.config) && now + TIMELOCK_DELAY < U64_LIMIT
    requires Distinct(admins) && 1 <= k <= |admins| && forall a :: a in admins ==> a in start.config.admins
    ensures forall e :: e in trace ==> e.now == now
    ensures StateAt(start, trace, |trace|) ==
            start.(pending := Some(UpgradeProposal(wasmHash, now + TIMELOCK_DELAY, admins[..k], start.config)))
  {
    var admin := admins[k - 1];
    if k == 1 {
      var cancel := Event(now, {admin}, Finalize(admin, false));
      var before := if start.pending.Some? then [cancel] else [];
      assert start.pending.Some? ==> before == [] + [cancel];
      StateAfter(start, [], cancel);
      assert StateAt(start, before, |before|) == start.(pending := None);
      var e := Event(now, {admin}, Propose(admin, wasmHash, None));
      trace := before + [e];
      StateAfter(start, before, e);
      assert admins[..1] == [admin];
    } else {
      var before := Collect(start, now, wasmHash, admins, k - 1);
      var e := Event(now, {admin}, Call.Approve(admin));
      trace := before + [e];
      StateAfter(start, before, e);
      assert admins[..k] == admins[..k - 1] + [admin];
    }
  }

  lemma DifferentAdmins(config: AdminsConfig) returns (admins: seq<Address>)
    requires Quorate(config) && Reasonable(config)
    ensures Distinct(admins) && |admins| >= config.threshold
    ensures admins[0] in config.admins && forall a :: a in admins ==> a in config.admins
  {
    admins := Deduplicated(config.admins);
    SetOfEffect(admins);
    assert admins[0] in admins;
  }

  /** With enough different administrators an upgrade can be carried out a day from any instant. */
  lemma QuorumCanUpgrade(start: Machine, now: nat, wasmHash: nat) returns (trace: seq<Event>)
    requires Sound(start) && Quorate(start.config) && now + TIMELOCK_DELAY < U64_LIMIT
    ensures |trace| > 0 && Upgrades(start, trace, |trace| - 1)
    ensures StateAt(start, trace, |trace|).wasmHash == wasmHash
    ensures forall i :: 0 <= i < |trace| - 1 ==> trace[i].now == now
    ensures trace[|trace| - 1].now == now + TIMELOCK_DELAY
  {
    var admins := DifferentAdmins(start.config);
    var before := Collect(start, now, wasmHash, admins, |admins|);
    assert admins[..|admins|] == admins;
    var m := StateAt(start, before, |before|);
    var e := Event(now + TIMELOCK_DELAY, {admins[0]}, Finalize(admins[0], true));
    trace := before + [e];
    AcceptAfter(start, before, m, e, trace);
    forall i | 0 <= i < |before| ensures trace[i].now == now {
      assert before[i] in before;
    }
  }

  lemma AcceptAfter(start: Machine, before: seq<Event>, m: Machine, e: Event, trace: seq<Event>)
    requires m == StateAt(start, before, |before|) && trace == before + [e]
    requires m.pending.Some? && |m.pending.value.approvals| >= m.config.threshold
             && e.now >= m.pending.value.executableAt
    requires e.call.Finalize? && e.call.accept && e.call.admin in m.config.admins && e.call.admin in e.signers
    ensures Upgrades(start, trace, |before|) && StateAt(start, trace, |before| + 1).wasmHash == m.pending.value.wasmHash
  {
    StateAfter(start, before, e);
  }

  /** From a sound state an upgrade is possible exactly when the list holds `threshold` different addresses. */
  lemma CanUpgradeIff(start: Machine)
    requires Sound(start)
    ensures (exists trace, n: nat :: n < |trace| && Upgrades(start, trace, n)) <==> Quorate(start.config)
  {
    if Quorate(start.config) {
      var trace := QuorumCanUpgrade(start, 0, 0);
    } else {
      forall trace, n: nat | n < |trace| ensures !Upgrades(start, trace, n) {
        LockedOut(start, trace, n);
      }
    }
  }

  /** Such a list can be voted in: the check on a new configuration counts repeated addresses. */
  lemma RepeatedAdminLocksOut(a: Address, now: nat)
    requires now + TIMELOCK_DELAY < U64_LIMIT
    ensures var twice := AdminsConfig(2, [a, a]);
            var trace := [Event(now, {a}, Propose(a, 1, Some(twice))),
                          Event(now + TIMELOCK_DELAY, {a}, Finalize(a, true))];
            Upgrades(Deployed(a, 0), trace, 1) && StateAt(Deployed(a, 0), trace, 2).config == twice && !Quorate(twice)
  {
    var start := Deployed(a, 0);
    var twice := AdminsConfig(2, [a, a]);
    var first, second := Event(now, {a}, Propose(a, 1, Some(twice))),
                         Event(now + TIMELOCK_DELAY, {a}, Finalize(a, true));
    assert [first] == [] + [first] && [first, second] == [first] + [second];
    StateAfter(start, [], first);
    StateAfter(start, [first], second);
    SetOfEffect([a, a]);
    assert SetOf([a, a]) == {a};
  }
}
