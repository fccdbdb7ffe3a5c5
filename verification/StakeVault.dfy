/** Time-locked stakes and the payout multiplier they earn. */
module StakeVault {
  import opened Outcomes
  import opened Sums
  import opened Soroban

  datatype StakeInfo = StakeInfo(amount: i128, lockTimestamp: u64)

  /** `initialize` writes the admin and the token together, so one option stands for both. */
  datatype Storage = Storage(admin: Option<Address>, stakes: map<Address, StakeInfo>)

  datatype Call =
    | Initialize(admin: Address)
    | Stake(user: Address, amount: i128)
    | Unstake(user: Address)

  const LOCK_PERIOD: u64 := 604800

  function InitializeEffect(s: Storage, e: Env, auth: set<Address>, admin: Address): (r: Outcome<(Storage, Env)>)
  {
    if s.admin.Some? then Panic(AlreadyInitialized) else
    :- Need(admin in auth, NotAuthorized);
    Ok((s.(admin := Some(admin)), Publish(e, StakeVaultInitialized(admin))))
  }

  function StakeOf(s: Storage, user: Address, now: u64): StakeInfo {
    if user in s.stakes then s.stakes[user] else StakeInfo(0, now)
  }

  function StakeEffect(s: Storage, e: Env, auth: set<Address>, user: Address, amount: int): (r: Outcome<(Storage, Env)>)
  {
    if user !in auth then Panic(NotAuthorized) else
    :- Need(amount > 0, AmountNotPositive);
    :- Need(s.admin.Some?, NotInitialized);
    var e1 :- TransferEffect(e, user, VaultId, amount);
    var total := StakeOf(s, user, e.now).amount + amount;
    :- Need(FitsI128(total), Overflow);
    Ok((s.(stakes := s.stakes[user := StakeInfo(total, e.now)]), Publish(e1, Staked(user, amount, total, e.now))))
  }

  function UnstakeEffect(s: Storage, e: Env, auth: set<Address>, user: Address): (r: Outcome<(Storage, Env)>)
  {
    if user !in auth then Panic(NotAuthorized) else
    :- Need(user in s.stakes, NoStakeFound);
    var stake := s.stakes[user];
    :- Need(stake.lockTimestamp + LOCK_PERIOD <= U64_MAX, Overflow);
    :- Need(e.now >= stake.lockTimestamp + LOCK_PERIOD, LockPeriodActive);
    :- Need(s.admin.Some?, NotInitialized);
    var e1 :- TransferEffect(e, VaultId, user, stake.amount);
    Ok((s.(stakes := s.stakes - {user}), Publish(e1, Unstaked(user, stake.amount))))
  }

  function Multiplier(s: Storage, user: Address): (bps: u32)
    ensures bps == 100 || bps == 120 || bps == 200
  {
    var amount := if user in s.stakes then s.stakes[user].amount else 0;
    if amount >= 500 then 200 else if amount >= 100 then 120 else 100
  }

  function Exec(s: Storage, e: Env, auth: set<Address>, c: Call): (r: Outcome<(Storage, Env)>)
  {
    match c
    case Initialize(admin) => InitializeEffect(s, e, auth, admin)
    case Stake(user, amount) => StakeEffect(s, e, auth, user, amount)
    case Unstake(user) => UnstakeEffect(s, e, auth, user)
  }

  lemma InitializeOutcome(s: Storage, e: Env, auth: set<Address>, admin: Address)
    ensures var r := Exec(s, e, auth, Initialize(admin));
      && (r.Ok? <==> s.admin.None? && admin in auth)
      && (r.Ok? ==> r.value.0 == s.(admin := Some(admin)) && Logs(e, r.value.1, [StakeVaultInitialized(admin)]))
  {
  }

  /** A stake adds the amount to the user's record, restarts its lock now, and takes the amount from the user alone. */
  lemma StakeOutcome(s: Storage, e: Env, auth: set<Address>, user: Address, amount: i128)
    ensures var r := Exec(s, e, auth, Stake(user, amount));
      var total := (if user in s.stakes then s.stakes[user].amount else 0) + amount;
      && (r.Ok? <==> user in auth && s.admin.Some? && 0 < amount <= BalanceOf(e, user) && FitsI128(total))
      && (r.Ok? ==>
            && r.value.0 == s.(stakes := s.stakes[user := StakeInfo(total, e.now)])
            && Moves(e, r.value.1, user, VaultId, amount)
            && r.value.1.events == e.events + [Transferred(user, VaultId, amount), Staked(user, amount, total, e.now)])
  {
    TransferOutcome(e, user, VaultId, amount);
  }

  /** An unstake removes the user's record alone and moves all of it to the user alone, a week after the lock began. */
  lemma UnstakeOutcome(s: Storage, e: Env, auth: set<Address>, user: Address)
    requires user in s.stakes ==> 0 <= s.stakes[user].amount
    ensures var r := Exec(s, e, auth, Unstake(user));
      && (r.Ok? <==>
            && user in auth && user in s.stakes && s.admin.Some?
            && s.stakes[user].lockTimestamp + 604800 <= e.now
            && s.stakes[user].amount <= BalanceOf(e, VaultId))
      && (r.Ok? ==>
            var amount := s.stakes[user].amount;
            && r.value.0 == s.(stakes := s.stakes - {user})
            && Moves(e, r.value.1, VaultId, user, amount)
            && r.value.1.events == e.events + [Transferred(VaultId, user, amount), Unstaked(user, amount)])
  {
    if user in s.stakes {
      TransferOutcome(e, VaultId, user, s.stakes[user].amount);
    }
  }

  // ---------------------------------------------------------------- solvency and the lock

  ghost function Amounts(stakes: map<Address, StakeInfo>): map<Address, int> {
    map u | u in stakes :: stakes[u].amount
  }

  ghost predicate Solvent(s: Storage, e: Env) {
    && (forall u :: u in s.stakes ==> s.stakes[u].amount > 0)
    && Sum(Amounts(s.stakes)) <= BalanceOf(e, VaultId)
  }

  ghost function Total(deposits: seq<Deposit>): int {
    if deposits == [] then 0 else Total(deposits[..|deposits| - 1]) + deposits[|deposits| - 1].amount
  }

  /** A stake record is exactly the deposits since the latest unstake, locked from the newest one on. */
  ghost predicate Records(s: Storage, e: Env, user: Address) {
    var open := OpenDeposits(e.events, user);
    && (user in s.stakes <==> open != [])
    && (user in s.stakes ==>
      && s.stakes[user].amount == Total(open)
      && s.stakes[user].lockTimestamp == open[|open| - 1].time <= e.now
      && forall i :: 0 <= i < |open| ==> open[i].time <= s.stakes[user].lockTimestamp)
  }

  ghost predicate Inv(s: Storage, e: Env) {
    && Solvent(s, e)
    && (s.stakes != map[] ==> s.admin.Some?)
    && forall u :: Records(s, e, u)
  }

  lemma RecordKept(s: Storage, s': Storage, e: Env, e': Env, user: Address)
    requires Records(s, e, user) && e.now <= e'.now
    requires OpenDeposits(e'.events, user) == OpenDeposits(e.events, user)
    requires user in s.stakes <==> user in s'.stakes
    requires user in s.stakes ==> s'.stakes[user] == s.stakes[user]
    ensures Records(s', e', user)
  {
  }

  lemma RecordExtended(s: Storage, s': Storage, e: Env, e': Env, user: Address, amount: int)
    requires Records(s, e, user) && e'.now == e.now
    requires OpenDeposits(e'.events, user) == OpenDeposits(e.events, user) + [Deposit(amount, e.now)]
    requires user in s'.stakes && s'.stakes[user].lockTimestamp == e.now
    requires s'.stakes[user].amount == amount + (if user in s.stakes then s.stakes[user].amount else 0)
    ensures Records(s', e', user)
  {
    var open := OpenDeposits(e.events, user);
    assert (open + [Deposit(amount, e.now)])[..|open|] == open;
  }

  lemma StakeRecorded(s: Storage, s': Storage, e: Env, e': Env, user: Address, amount: int, total: i128)
    requires forall u :: Records(s, e, u)
    requires e'.now == e.now
    requires total == StakeOf(s, user, e.now).amount + amount
    requires s'.stakes == s.stakes[user := StakeInfo(total, e.now)]
    requires forall u :: OpenDeposits(e'.events, u) ==
                         DepositsAfter(OpenDeposits(e.events, u), u, Staked(user, amount, total, e.now))
    ensures forall u :: Records(s', e', u)
  {
    forall u ensures Records(s', e', u) {
      assert Records(s, e, u);
      if u == user {
        RecordExtended(s, s', e, e', u, amount);
      } else {
        RecordKept(s, s', e, e', u);
      }
    }
  }

  lemma UnstakeRecorded(s: Storage, s': Storage, e: Env, e': Env, user: Address, amount: int)
    requires forall u :: Records(s, e, u)
    requires e'.now == e.now && s'.stakes == s.stakes - {user}
    requires forall u :: OpenDeposits(e'.events, u) == DepositsAfter(OpenDeposits(e.events, u), u, Unstaked(user, amount))
    ensures forall u :: Records(s', e', u)
  {
    forall u ensures Records(s', e', u) {
      assert Records(s, e, u);
      if u != user {
        RecordKept(s, s', e, e', u);
      }
    }
  }

  lemma StakeSolvent(s: Storage, e: Env, e': Env, user: Address, info: StakeInfo)
    requires Solvent(s, e) && info.amount > 0
    requires BalanceOf(e', VaultId) == BalanceOf(e, VaultId) + info.amount - StakeOf(s, user, e.now).amount
    ensures Solvent(s.(stakes := s.stakes[user := info]), e')
  {
    var s' := s.(stakes := s.stakes[user := info]);
    assert Amounts(s'.stakes) == Amounts(s.stakes)[user := info.amount];
    SumPut(Amounts(s.stakes), user, info.amount);
  }

  lemma UnstakeSolvent(s: Storage, e: Env, e': Env, user: Address)
    requires Solvent(s, e) && user in s.stakes
    requires BalanceOf(e', VaultId) == BalanceOf(e, VaultId) - s.stakes[user].amount
    ensures Solvent(s.(stakes := s.stakes - {user}), e')
  {
    assert Amounts(s.stakes - {user}) == Amounts(s.stakes) - {user};
    SumDrop(Amounts(s.stakes), user);
  }

  lemma StakeKeeps(s: Storage, e: Env, auth: set<Address>, user: Address, amount: int)
    requires Inv(s, e) && VaultId !in auth
    requires StakeEffect(s, e, auth, user, amount).Ok?
    ensures var (s', e') := StakeEffect(s, e, auth, user, amount).value; Inv(s', e')
  {
    var total := StakeOf(s, user, e.now).amount + amount;
    var ev := Staked(user, amount, total, e.now);
    var (s', e') := StakeEffect(s, e, auth, user, amount).value;
    assert e' == Publish(TransferEffect(e, user, VaultId, amount).value, ev);
    TransferThenPublish(e, user, VaultId, amount, ev, {user, VaultId});
    StakeSolvent(s, e, e', user, StakeInfo(total, e.now));
    StakeRecorded(s, s', e, e', user, amount, total);
  }

  lemma UnstakeKeeps(s: Storage, e: Env, auth: set<Address>, user: Address)
    requires Inv(s, e) && VaultId !in auth
    requires UnstakeEffect(s, e, auth, user).Ok?
    ensures var (s', e') := UnstakeEffect(s, e, auth, user).value; Inv(s', e')
  {
    var amount := s.stakes[user].amount;
    TransferThenPublish(e, VaultId, user, amount, Unstaked(user, amount), {VaultId});
    var (s', e') := UnstakeEffect(s, e, auth, user).value;
    UnstakeSolvent(s, e, e', user);
    UnstakeRecorded(s, s', e, e', user, amount);
  }

  lemma IdleKeeps(s: Storage, s': Storage, e: Env, e': Env)
    requires Inv(s, e) && s'.stakes == s.stakes && (s.admin.Some? ==> s'.admin.Some?)
    requires e.now <= e'.now && BalanceOf(e, VaultId) <= BalanceOf(e', VaultId)
    requires forall u :: OpenDeposits(e'.events, u) == OpenDeposits(e.events, u)
    ensures Inv(s', e')
  {
    forall u ensures Records(s', e', u) {
      assert Records(s, e, u);
      RecordKept(s, s', e, e', u);
    }
  }

  lemma InitializeKeeps(s: Storage, e: Env, auth: set<Address>, admin: Address)
    requires Inv(s, e)
    requires InitializeEffect(s, e, auth, admin).Ok?
    ensures var (s', e') := InitializeEffect(s, e, auth, admin).value; Inv(s', e')
  {
    AppendLogs(e.events, StakeVaultInitialized(admin));
    var (s', e') := InitializeEffect(s, e, auth, admin).value;
    IdleKeeps(s, s', e, e');
  }

  /** Every vault call keeps the vault solvent and its records exact. */
  lemma ExecKeeps(s: Storage, e: Env, auth: set<Address>, c: Call)
    requires Inv(s, e) && VaultId !in auth
    requires Exec(s, e, auth, c).Ok?
    ensures var (s', e') := Exec(s, e, auth, c).value; Inv(s', e')
  {
    match c
    case Initialize(admin) => InitializeKeeps(s, e, auth, admin);
    case Stake(user, amount) => StakeKeeps(s, e, auth, user, amount);
    case Unstake(user) => UnstakeKeeps(s, e, auth, user);
  }

  lemma ExecFrame(s: Storage, e: Env, auth: set<Address>, c: Call)
    requires Exec(s, e, auth, c).Ok?
    ensures Frame(e, Exec(s, e, auth, c).value.1, auth + {VaultId})
  {
    var actors := auth + {VaultId};
    match c
    case Initialize(admin) => Published(e, StakeVaultInitialized(admin), actors);
    case Stake(user, amount) =>
      var ev := Staked(user, amount, StakeOf(s, user, e.now).amount + amount, e.now);
      assert Exec(s, e, auth, c).value.1 == Publish(TransferEffect(e, user, VaultId, amount).value, ev);
      TransferThenPublish(e, user, VaultId, amount, ev, actors);
    case Unstake(user) =>
      var amount := s.stakes[user].amount;
      TransferThenPublish(e, VaultId, user, amount, Unstaked(user, amount), actors);
  }

  /** Steps in which the vault takes no part cannot touch what it holds for its users. */
  lemma OthersKeep(s: Storage, e: Env, e': Env, actors: set<Address>)
    requires Inv(s, e)
    requires Frame(e, e', actors) && VaultId !in actors
    ensures Inv(s, e')
  {
    assert Opening(e', VaultId) == Opening(e, VaultId);
    assert Tally(Sent(VaultId), e'.events) == Tally(Sent(VaultId), e.events);
    assert Tally(Received(VaultId), e'.events) >= Tally(Received(VaultId), e.events);
    IdleKeeps(s, s, e, e');
  }

  /** In every state the invariant describes, only authorisation, the record and the clock decide about an unstake. */
  lemma UnstakeExactly(s: Storage, e: Env, auth: set<Address>, user: Address)
    requires Inv(s, e)
    ensures UnstakeEffect(s, e, auth, user).Ok? <==>
      user in auth && user in s.stakes && s.stakes[user].lockTimestamp + LOCK_PERIOD <= e.now
  {
    if user in s.stakes {
      SumSplit(Amounts(s.stakes), user);
      SumNonNegative(Amounts(s.stakes) - {user});
    }
  }

  /** While the token supply fits the amount type, a stake can only fail for want of authorisation or funds. */
  lemma StakeExactly(s: Storage, e: Env, auth: set<Address>, user: Address, amount: int)
    requires Inv(s, e) && s.admin.Some? && user != VaultId
    requires FitsI128(Sum(e.balances))
    ensures StakeEffect(s, e, auth, user, amount).Ok? <==> user in auth && 0 < amount <= BalanceOf(e, user)
  {
    if user in s.stakes {
      SumSplit(Amounts(s.stakes), user);
      SumNonNegative(Amounts(s.stakes) - {user});
    }
    SumDrop(e.balances, user);
    SumDrop(e.balances - {user}, VaultId);
    SumNonNegative(e.balances - {user} - {VaultId});
    SumNonNegative(Amounts(s.stakes));
  }

  /** What a successful unstake pays, and how old everything in it is. */
  lemma UnstakePays(s: Storage, e: Env, auth: set<Address>, user: Address)
    requires Inv(s, e) && user.Outside?
    requires UnstakeEffect(s, e, auth, user).Ok?
    ensures var (s', e') := UnstakeEffect(s, e, auth, user).value;
      var open := OpenDeposits(e.events, user);
      && open != []
      && BalanceOf(e', user) == BalanceOf(e, user) + Total(open)
      && BalanceOf(e', VaultId) == BalanceOf(e, VaultId) - Total(open)
      && (forall i :: 0 <= i < |open| ==> e.now - open[i].time >= 604800)
      && user !in s'.stakes
      && OpenDeposits(e'.events, user) == []
      && (forall u :: u != user ==> (u in s'.stakes <==> u in s.stakes))
      && (forall u :: u != user && u in s.stakes ==> s'.stakes[u] == s.stakes[u])
  {
    assert Records(s, e, user);
    var amount := s.stakes[user].amount;
    TransferThenPublish(e, VaultId, user, amount, Unstaked(user, amount), {VaultId});
  }

  /** The tier follows what the user has deposited since the latest unstake. */
  lemma TierByDeposits(s: Storage, e: Env, user: Address)
    requires Inv(s, e)
    ensures var deposited := Total(OpenDeposits(e.events, user));
      && (Multiplier(s, user) == 200 <==> deposited >= 500)
      && (Multiplier(s, user) == 120 <==> 100 <= deposited < 500)
      && (Multiplier(s, user) == 100 <==> deposited < 100)
  {
    assert Records(s, e, user);
  }

  class Contract {
    const host: Host
    var admin: Option<Address>
    var stakes: map<Address, StakeInfo>

    constructor (host: Host)
      ensures this.host == host && State() == Storage(None, map[])
    {
      this.host, admin, stakes := host, None, map[];
    }

    function State(): Storage
      reads this
    {
      Storage(admin, stakes)
    }

    method Initialize(auth: set<Address>, admin: Address) returns (r: Outcome<()>)
      modifies this`admin, host`events
      ensures r == InitializeEffect(old(State()), old(host.View()), auth, admin).Verdict()
      ensures (State(), host.View()) ==
        After(InitializeEffect(old(State()), old(host.View()), auth, admin), old((State(), host.View())))
    {
      if this.admin.Some? {
        return Panic(AlreadyInitialized);
      }
      if admin !in auth {
        return Panic(NotAuthorized);
      }
      this.admin := Some(admin);
      host.Emit(StakeVaultInitialized(admin));
      r := Ok(());
    }

    method Stake(auth: set<Address>, user: Address, amount: int) returns (r: Outcome<()>)
      modifies this`stakes, host`balances, host`events
      ensures r == StakeEffect(old(State()), old(host.View()), auth, user, amount).Verdict()
      ensures (State(), host.View()) ==
        After(StakeEffect(old(State()), old(host.View()), auth, user, amount), old((State(), host.View())))
    {
      if user !in auth {
        return Panic(NotAuthorized);
      }
      if amount <= 0 {
        return Panic(AmountNotPositive);
      }
      if admin.None? {
        return Panic(NotInitialized);
      }
      var frame := host.View();
      r := host.Transfer(user, VaultId, amount);
      if r.Panic? {
        return;
      }
      var now := host.now;
      var stake := if user in stakes then stakes[user] else StakeInfo(0, now);
      if !FitsI128(stake.amount + amount) {
        host.Revert(frame);
        return Panic(Overflow);
      }
      stake := stake.(amount := stake.amount + amount);
      stake := stake.(lockTimestamp := now);
      stakes := stakes[user := stake];
      host.Emit(Staked(user, amount, stake.amount, stake.lockTimestamp));
      r := Ok(());
    }

    method Unstake(auth: set<Address>, user: Address) returns (r: Outcome<()>)
      modifies this`stakes, host`balances, host`events
      ensures r == UnstakeEffect(old(State()), old(host.View()), auth, user).Verdict()
      ensures (State(), host.View()) ==
        After(UnstakeEffect(old(State()), old(host.View()), auth, user), old((State(), host.View())))
    {
      if user !in auth {
        return Panic(NotAuthorized);
      }
      if user !in stakes {
        return Panic(NoStakeFound);
      }
      var stake := stakes[user];
      if stake.lockTimestamp + LOCK_PERIOD > U64_MAX {
        return Panic(Overflow);
      }
      if host.now < stake.lockTimestamp + LOCK_PERIOD {
        return Panic(LockPeriodActive);
      }
      if admin.None? {
        return Panic(NotInitialized);
      }
      r := host.Transfer(VaultId, user, stake.amount);
      if r.Ok? {
        stakes := stakes - {user};
        host.Emit(Unstaked(user, stake.amount));
      }
    }

    method GetMultiplier(user: Address) returns (bps: u32)
      ensures bps == Multiplier(State(), user)
    {
      var stake := if user in stakes then stakes[user] else StakeInfo(0, 0);
      if stake.amount >= 500 {
        bps := 200;
      } else if stake.amount >= 100 {
        bps := 120;
      } else {
        bps := 100;
      }
    }
  }
}
