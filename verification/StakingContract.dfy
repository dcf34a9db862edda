/** PRM staking: locked stakes, an index of everyone who ever staked, the mining boost,
    and a loop that shares revenue pro rata. */
module StakingContract {
  import opened Basics
  import opened Evm
  import opened PrimToken

  const PRM: nat := 1_000_000_000_000_000_000
  const DAY: nat := 86_400
  const MAX_BOOST_BPS: nat := 4_000
  const MULT_SCALE: nat := 100

  datatype StakingError =
    | NotContractOwner
    | BelowMinimumStake(provided: nat, minimum: nat)
    | AlreadyStaking
    | NotStaking
    | StillLocked(unlockAt: nat, currentTime: nat)
    | ZeroAmount
    | ArithmeticOverflow
    | DivisionByZero
    | TransferFailed(cause: TokenError)

  datatype LockPeriod = Days30 | Days90 | Days180

  function LockDuration(period: LockPeriod): nat {
    match period
    case Days30 => 30 * DAY
    case Days90 => 90 * DAY
    case Days180 => 180 * DAY
  }

  function LockMultiplier(period: LockPeriod): nat {
    match period
    case Days30 => 100
    case Days90 => 130
    case Days180 => 160
  }

  function BaseBoostBps(amount: nat): nat {
    if amount >= 500_000 * PRM then 2_500
    else if amount >= 100_000 * PRM then 1_800
    else if amount >= 50_000 * PRM then 1_000
    else if amount >= 10_000 * PRM then 500
    else 0
  }

  datatype StakeInfo = StakeInfo(amount: nat, lockPeriod: LockPeriod, stakedAt: nat, unlockAt: nat, active: bool)

  const NO_STAKE := StakeInfo(0, Days30, 0, 0, false)

  datatype Storage = Storage(
    owner: Address,
    minStake: nat,
    lockRequired: bool,
    totalStaked: nat,
    stakes: map<Address, StakeInfo>,
    stakers: seq<Address>,
    isStaker: set<Address>)
  {
    function Stake(user: Address): StakeInfo {
      At(stakes, user, NO_STAKE)
    }

    function EffectiveBoostBps(user: Address): nat {
      var info := Stake(user);
      if !info.active then 0
      else
        var effective := BaseBoostBps(info.amount) * LockMultiplier(info.lockPeriod) / MULT_SCALE;
        if effective > MAX_BOOST_BPS then MAX_BOOST_BPS else effective
    }
  }

  function Initial(owner: Address, minStake: nat, lockRequired: bool): Storage {
    Storage(owner, minStake, lockRequired, 0, map[], [], {})
  }

  // ----- The calls, as functions of the storage and the ledger -----

  function Stake(s: Storage, l: Ledger, self: Address, env: Env, amount: nat, period: LockPeriod)
    : Outcome<(Storage, Ledger), StakingError>
  {
    if amount < s.minStake then Reverted(BelowMinimumStake(amount, s.minStake))
    else if s.Stake(env.sender).active then Reverted(AlreadyStaking)
    else
      match l.TransferFrom(self, env.sender, self, amount)
      case Reverted(e) => Reverted(TransferFailed(e))
      case Returned(l') =>
        var info := if s.lockRequired
                    then StakeInfo(amount, period, env.timestamp, env.timestamp + LockDuration(period), true)
                    else StakeInfo(amount, Days30, env.timestamp, env.timestamp, true);
        Returned((s.(stakes := s.stakes[env.sender := info],
                     isStaker := s.isStaker + {env.sender},
                     stakers := if env.sender in s.isStaker then s.stakers else s.stakers + [env.sender],
                     totalStaked := s.totalStaked + amount), l'))
  }

  function Unstake(s: Storage, l: Ledger, self: Address, env: Env): Outcome<(Storage, Ledger), StakingError> {
    var info := s.Stake(env.sender);
    if !info.active then Reverted(NotStaking)
    else if env.timestamp < info.unlockAt then Reverted(StillLocked(info.unlockAt, env.timestamp))
    else if s.totalStaked < info.amount then Reverted(ArithmeticOverflow)
    else
      match l.Transfer(self, env.sender, info.amount)
      case Reverted(e) => Reverted(TransferFailed(e))
      case Returned(l') =>
        Returned((s.(stakes := s.stakes[env.sender := info.(active := false, amount := 0)],
                     totalStaked := s.totalStaked - info.amount), l'))
  }

  /** The payments to the stakers from index `i` on. */
  function PayFrom(s: Storage, reward: Ledger, self: Address, total: nat, i: nat): Outcome<Ledger, StakingError>
    requires i <= |s.stakers|
    decreases |s.stakers| - i
  {
    if i == |s.stakers| then Returned(reward)
    else
      var user := s.stakers[i];
      var info := s.Stake(user);
      if !info.active then PayFrom(s, reward, self, total, i + 1)
      else if total * info.amount > MAX_UINT256 then Reverted(ArithmeticOverflow)
      else if s.totalStaked == 0 then Reverted(DivisionByZero)
      else
        var share := total * info.amount / s.totalStaked;
        if share == 0 then PayFrom(s, reward, self, total, i + 1)
        else
          match reward.Transfer(self, user, share)
          case Reverted(e) => Reverted(TransferFailed(e))
          case Returned(reward') => PayFrom(s, reward', self, total, i + 1)
  }

  function Distribution(s: Storage, reward: Ledger, self: Address, env: Env, total: nat)
    : Outcome<Ledger, StakingError>
  {
    if env.sender != s.owner then Reverted(NotContractOwner)
    else if total == 0 then Reverted(ZeroAmount)
    else
      match reward.TransferFrom(self, env.sender, self, total)
      case Reverted(e) => Reverted(TransferFailed(e))
      case Returned(pulled) => PayFrom(s, pulled, self, total, 0)
  }

  // ----- The invariant -----

  ghost function Amounts(s: Storage): map<Address, nat> {
    map u | u in s.stakes :: s.stakes[u].amount
  }

  ghost predicate StakeInv(s: Storage, u: Address) {
    var info := s.Stake(u);
    && (!info.active ==> info.amount == 0)
    && (info.active ==> u in s.isStaker && info.amount >= s.minStake)
    && (info.active ==> info.unlockAt == info.stakedAt + if s.lockRequired then LockDuration(info.lockPeriod) else 0)
    && (!s.lockRequired ==> info.lockPeriod == Days30)
  }

  ghost predicate Inv(self: Address, s: Storage) {
    && s.totalStaked == Sum(Amounts(s))
    && Distinct(s.stakers)
    && (forall u :: u in s.stakers <==> u in s.isStaker)
    && ZERO_ADDRESS !in s.isStaker && self !in s.isStaker
    && (forall u :: StakeInv(s, u))
  }

  lemma InitialInv(self: Address, owner: Address, minStake: nat, lockRequired: bool)
    ensures Inv(self, Initial(owner, minStake, lockRequired))
  {
    assert Amounts(Initial(owner, minStake, lockRequired)) == map[];
  }

  lemma AmountsWrite(s: Storage, s': Storage, u: Address, info: StakeInfo)
    requires s'.stakes == s.stakes[u := info]
    ensures Sum(Amounts(s')) == Sum(Amounts(s)) - s.Stake(u).amount + info.amount
    ensures s.Stake(u).amount <= Sum(Amounts(s))
  {
    assert Amounts(s') == Amounts(s)[u := info.amount];
    SumWrite(Amounts(s), u, info.amount);
    SumBoundsEntry(Amounts(s), u);
  }

  lemma StakeKeepsInv(
    self: Address, s: Storage, l: Ledger, env: Env, amount: nat, period: LockPeriod, s': Storage, l': Ledger)
    requires Inv(self, s) && env.sender != self && Stake(s, l, self, env, amount, period) == Returned((s', l'))
    ensures Inv(self, s')
  {
    var u := env.sender;
    PulledFromSomeone(l, self, u, self, amount);
    assert StakeInv(s, u);
    AmountsWrite(s, s', u, s'.Stake(u));
    forall v ensures StakeInv(s', v) {
      assert StakeInv(s, v);
    }
  }

  lemma UnstakeKeepsInv(self: Address, s: Storage, l: Ledger, env: Env, s': Storage, l': Ledger)
    requires Inv(self, s) && Unstake(s, l, self, env) == Returned((s', l'))
    ensures Inv(self, s')
  {
    AmountsWrite(s, s', env.sender, s'.Stake(env.sender));
    forall v ensures StakeInv(s', v) {
      assert StakeInv(s, v);
    }
  }

  // ----- The revenue loop -----

  /** What one address is due of a distribution: the floor of its pro-rata part. */
  function Due(s: Storage, total: nat, u: Address): nat {
    if s.Stake(u).active && s.totalStaked > 0 then total * s.Stake(u).amount / s.totalStaked else 0
  }

  /** Over the stakers from index `i` on: how many are active, what they staked, what they are due. */
  function ActiveFrom(s: Storage, i: nat): nat
    requires i <= |s.stakers|
    decreases |s.stakers| - i
  {
    if i == |s.stakers| then 0 else ActiveFrom(s, i + 1) + if s.Stake(s.stakers[i]).active then 1 else 0
  }

  function StakedFrom(s: Storage, i: nat): nat
    requires i <= |s.stakers|
    decreases |s.stakers| - i
  {
    if i == |s.stakers| then 0 else StakedFrom(s, i + 1) + s.Stake(s.stakers[i]).amount
  }

  function DueFrom(s: Storage, total: nat, i: nat): nat
    requires i <= |s.stakers|
    decreases |s.stakers| - i
  {
    if i == |s.stakers| then 0 else DueFrom(s, total, i + 1) + Due(s, total, s.stakers[i])
  }

  ghost predicate AnyActive(s: Storage, i: nat)
    requires i <= |s.stakers|
  {
    exists k :: i <= k < |s.stakers| && s.Stake(s.stakers[k]).active
  }

  /** No pro-rata product overflows its word. */
  ghost predicate Fits(s: Storage, total: nat, i: nat)
    requires i <= |s.stakers|
  {
    forall k :: i <= k < |s.stakers| && s.Stake(s.stakers[k]).active
      ==> total * s.Stake(s.stakers[k]).amount <= MAX_UINT256
  }

  /** Sums over the index and over the mapping agree when the index lists, once each,
      everyone with a nonzero amount. */
  lemma {:induction false} IndexSum(s: Storage, i: nat, m: map<Address, nat>)
    requires i <= |s.stakers| && Distinct(s.stakers)
    requires forall k :: i <= k < |s.stakers| ==> At(m, s.stakers[k], 0) == s.Stake(s.stakers[k]).amount
    requires forall u :: u in m && m[u] != 0 ==> u in s.stakers[i..]
    ensures StakedFrom(s, i) == Sum(m)
    decreases |s.stakers| - i
  {
    if i == |s.stakers| {
      AllZeroSum(m);
    } else {
      var u := s.stakers[i];
      var m' := m - {u};
      assert forall v :: v in s.stakers[i..] && v != u ==> v in s.stakers[i + 1..];
      IndexSum(s, i + 1, m');
      if u in m {
        SumTakeOut(m, u);
      } else {
        assert m' == m;
      }
    }
  }

  lemma {:induction false} AllZeroSum(m: map<Address, nat>)
    requires forall u :: u in m ==> m[u] == 0
    ensures Sum(m) == 0
    decreases |m|
  {
    if m == map[] {
    } else {
      var u :| u in m;
      SumTakeOut(m, u);
      AllZeroSum(m - {u});
    }
  }

  /** The index accounts for everything staked. */
  lemma IndexStaked(self: Address, s: Storage)
    requires Inv(self, s)
    ensures StakedFrom(s, 0) == s.totalStaked
  {
    assert s.stakers[0..] == s.stakers;
    forall u | u in Amounts(s) && Amounts(s)[u] != 0 ensures u in s.stakers {
      assert StakeInv(s, u);
    }
    IndexSum(s, 0, Amounts(s));
  }

  lemma FloorBounds(x: nat, d: nat)
    requires d > 0
    ensures d * (x / d) <= x <= d * (x / d) + (d - 1)
  {
  }

  lemma ShareAdded(S: nat, T: nat, A: nat, D: nat, n: nat, a: nat, d: nat, k: nat)
    requires S > 0 && S * D <= T * A <= S * D + n * (S - 1)
    requires S * d <= T * a <= S * d + k * (S - 1)
    ensures S * (D + d) <= T * (A + a) <= S * (D + d) + (n + k) * (S - 1)
  {
    assert S * (D + d) == S * D + S * d;
    assert T * (A + a) == T * A + T * a;
    assert (n + k) * (S - 1) == n * (S - 1) + k * (S - 1);
  }

  lemma Dust(S: nat, T: nat, d: nat, n: nat)
    requires S > 0 && n > 0 && S * d <= T * S <= S * d + n * (S - 1)
    ensures d <= T < d + n
  {
    assert S * (T - d) == T * S - S * d;
    FactorSign(S, T - d);
    assert S * (d + n - 1 - T) == S * d + n * (S - 1) - T * S + n - S;
    FactorSign(S, d + n - 1 - T);
  }

  /** Floors lose less than one unit of `totalStaked` per active staker. */
  lemma {:induction false} DueBounds(self: Address, s: Storage, total: nat, i: nat)
    requires Inv(self, s) && s.totalStaked > 0 && i <= |s.stakers|
    ensures s.totalStaked * DueFrom(s, total, i) <= total * StakedFrom(s, i)
            <= s.totalStaked * DueFrom(s, total, i) + ActiveFrom(s, i) * (s.totalStaked - 1)
    decreases |s.stakers| - i
  {
    if i < |s.stakers| {
      DueBounds(self, s, total, i + 1);
      var u := s.stakers[i];
      var a, d, k := s.Stake(u).amount, Due(s, total, u), if s.Stake(u).active then 1 else 0;
      assert StakeInv(s, u);
      assert s.totalStaked * d <= total * a <= s.totalStaked * d + k * (s.totalStaked - 1) by {
        FloorBounds(total * a, s.totalStaked);
      }
      ShareAdded(s.totalStaked, total, StakedFrom(s, i + 1), DueFrom(s, total, i + 1), ActiveFrom(s, i + 1), a, d, k);
    }
  }

  /** Everything due together is within the total, and short of it by less than the number
      of active stakers. */
  lemma DustBound(self: Address, s: Storage, total: nat)
    requires Inv(self, s) && s.totalStaked > 0
    ensures DueFrom(s, total, 0) <= total < DueFrom(s, total, 0) + ActiveFrom(s, 0)
  {
    DueBounds(self, s, total, 0);
    IndexStaked(self, s);
    NoneActiveNoneStaked(self, s, 0);
    Dust(s.totalStaked, total, DueFrom(s, total, 0), ActiveFrom(s, 0));
  }

  lemma {:induction false} NoneActiveNoneStaked(self: Address, s: Storage, i: nat)
    requires Inv(self, s) && i <= |s.stakers|
    ensures ActiveFrom(s, i) == 0 ==> StakedFrom(s, i) == 0
    ensures ActiveFrom(s, i) > 0 <==> AnyActive(s, i)
    decreases |s.stakers| - i
  {
    if i < |s.stakers| {
      assert StakeInv(s, s.stakers[i]);
      NoneActiveNoneStaked(self, s, i + 1);
    }
  }

  /** The balances after the payments from index `i` on. */
  ghost predicate PaidOut(s: Storage, self: Address, total: nat, i: nat, l: Ledger, l': Ledger)
    requires i <= |s.stakers|
  {
    && l' == l.(balances := l'.balances)
    && (l.Balanced() ==> l'.Balanced())
    && (forall a: Address :: l'.BalanceOf(a) + (if a == self then DueFrom(s, total, i) else 0)
                             == l.BalanceOf(a) + (if a in s.stakers[i..] then Due(s, total, a) else 0))
  }

  /** Given funds, the loop pays every staker what it is due, once, and nobody else; it
      fails exactly when a product overflows or there is an active staker but no stake. */
  lemma {:induction false} PayFromEffect(s: Storage, l: Ledger, self: Address, total: nat, i: nat)
    requires Inv(self, s) && self != ZERO_ADDRESS && i <= |s.stakers| && DueFrom(s, total, i) <= l.BalanceOf(self)
    ensures PayFrom(s, l, self, total, i).Returned? <==> Fits(s, total, i) && (AnyActive(s, i) ==> s.totalStaked > 0)
    ensures PayFrom(s, l, self, total, i).Returned?
            ==> PaidOut(s, self, total, i, l, PayFrom(s, l, self, total, i).value)
    decreases |s.stakers| - i
  {
    if i < |s.stakers| {
      var u := s.stakers[i];
      var info := s.Stake(u);
      assert u in s.stakers && u != self && u != ZERO_ADDRESS;
      assert s.stakers[i..] == [u] + s.stakers[i + 1..];
      assert u !in s.stakers[i + 1..];
      if !info.active || (total * info.amount <= MAX_UINT256 && s.totalStaked > 0) {
        var mid := if Due(s, total, u) == 0 then l else l.Transfer(self, u, Due(s, total, u)).value;
        if Due(s, total, u) > 0 {
          TransferEffect(l, self, u, Due(s, total, u), mid);
        }
        PayFromEffect(s, mid, self, total, i + 1);
        StepConditions(s, total, i);
      }
    }
  }

  lemma StepConditions(s: Storage, total: nat, i: nat)
    requires i < |s.stakers|
    ensures AnyActive(s, i) <==> s.Stake(s.stakers[i]).active || AnyActive(s, i + 1)
    ensures Fits(s, total, i) <==>
            && Fits(s, total, i + 1)
            && (s.Stake(s.stakers[i]).active ==> total * s.Stake(s.stakers[i]).amount <= MAX_UINT256)
  {
  }

  /** A distribution in full. It goes through exactly when the owner calls it with a
      positive amount it can pull, no product overflows, and no staker is active without
      any stake. It then moves the total from the owner, pays each active staker the floor
      of its share, and keeps the rest, which is less than one unit per active staker. */
  lemma DistributionExact(s: Storage, l: Ledger, self: Address, env: Env, total: nat)
    requires Inv(self, s) && self != ZERO_ADDRESS && env.sender != self
    ensures Distribution(s, l, self, env, total).Returned? <==>
            && env.sender == s.owner && total > 0 && l.TransferFrom(self, env.sender, self, total).Returned?
            && Fits(s, total, 0) && (AnyActive(s, 0) ==> s.totalStaked > 0)
    ensures Distribution(s, l, self, env, total).Returned? ==>
              var l', paid := Distribution(s, l, self, env, total).value, DueFrom(s, total, 0);
              && paid <= total
              && (AnyActive(s, 0) ==> total - paid < ActiveFrom(s, 0))
              && (forall a: Address ::
                    l'.BalanceOf(a) + (if a == env.sender then total else 0)
                    == l.BalanceOf(a) + (if a in s.stakers then Due(s, total, a) else 0)
                      + (if a == self then total - paid else 0))
              && (l.Balanced() ==> l'.Balanced())
              && l'.supply == l.supply && l'.minter == l.minter && l'.burner == l.burner
              && (forall h: Address, p: Address :: (h, p) != (env.sender, self) ==>
                                                     l'.Allowance(h, p) == l.Allowance(h, p))
  {
    assert s.stakers[0..] == s.stakers;
    if env.sender == s.owner && total > 0 && l.TransferFrom(self, env.sender, self, total).Returned? {
      var pulled := l.TransferFrom(self, env.sender, self, total).value;
      TransferFromEffect(l, self, env.sender, self, total, pulled);
      NoneActiveNoneStaked(self, s, 0);
      if s.totalStaked > 0 {
        DustBound(self, s, total);
      } else {
        NothingDue(s, total, 0);
      }
      PayFromEffect(s, pulled, self, total, 0);
    }
  }

  lemma {:induction false} NothingDue(s: Storage, total: nat, i: nat)
    requires i <= |s.stakers| && s.totalStaked == 0
    ensures DueFrom(s, total, i) == 0
    decreases |s.stakers| - i
  {
    if i < |s.stakers| {
      NothingDue(s, total, i + 1);
    }
  }

  /** With a positive minimum stake the loop never divides by zero. */
  lemma NeverDividesByZero(self: Address, s: Storage)
    requires Inv(self, s) && s.minStake > 0
    ensures AnyActive(s, 0) ==> s.totalStaked > 0
  {
    if AnyActive(s, 0) {
      var k :| 0 <= k < |s.stakers| && s.Stake(s.stakers[k]).active;
      assert StakeInv(s, s.stakers[k]);
      SumBoundsEntry(Amounts(s), s.stakers[k]);
    }
  }

  /** Without one it can: an empty stake alone makes every distribution fail. */
  lemma ZeroMinimumCanDivideByZero(self: Address, user: Address, owner: Address, l: Ledger)
    requires user != self && user != ZERO_ADDRESS && self != ZERO_ADDRESS && owner != self
    requires l.Allowance(user, self) == 0
    ensures var staked := Stake(Initial(owner, 0, true), l, self, Env(user, 0, 0), 0, Days30);
            && staked.Returned?
            && forall total, reward, now ::
                 Distribution(staked.value.0, reward, self, Env(owner, now, 0), total).Reverted?
  {
    var s0 := Initial(owner, 0, true);
    var s := Stake(s0, l, self, Env(user, 0, 0), 0, Days30).value.0;
    InitialInv(self, owner, 0, true);
    StakeKeepsInv(self, s0, l, Env(user, 0, 0), 0, Days30, s, Stake(s0, l, self, Env(user, 0, 0), 0, Days30).value.1);
    assert s.Stake(s.stakers[0]).active;
    forall total: nat, reward: Ledger, now: nat
      ensures Distribution(s, reward, self, Env(owner, now, 0), total).Reverted?
    {
      DistributionExact(s, reward, self, Env(owner, now, 0), total);
    }
  }

  // ----- Whole runs -----

  datatype Call =
    | CallStake(amount: nat, period: LockPeriod)
    | CallUnstake
    | CallDistribute(total: nat)

  /** The distribution of this call is in PRM itself. */
  function Perform(s: Storage, l: Ledger, self: Address, env: Env, call: Call)
    : Outcome<(Storage, Ledger), StakingError>
  {
    match call
    case CallStake(amount, period) => Stake(s, l, self, env, amount, period)
    case CallUnstake => Unstake(s, l, self, env)
    case CallDistribute(total) =>
      match Distribution(s, l, self, env, total)
      case Reverted(e) => Reverted(e)
      case Returned(l') => Returned((s, l'))
  }

  lemma PerformKeepsInv(self: Address, s: Storage, l: Ledger, env: Env, call: Call, s': Storage, l': Ledger)
    requires Inv(self, s) && env.sender != self && Perform(s, l, self, env, call) == Returned((s', l'))
    ensures Inv(self, s') && s'.owner == s.owner && s'.minStake == s.minStake && s'.lockRequired == s.lockRequired
  {
    match call
    case CallStake(amount, period) => StakeKeepsInv(self, s, l, env, amount, period, s', l');
    case CallUnstake => UnstakeKeepsInv(self, s, l, env, s', l');
    case CallDistribute(_) =>
  }

  datatype Step = Step(env: Env, ledger: Ledger, call: Call)

  function Run(s: Storage, self: Address, steps: seq<Step>): Storage {
    if steps == [] then s else
    var last, mid := steps[|steps| - 1], Run(s, self, steps[..|steps| - 1]);
    match Perform(mid, last.ledger, self, last.env, last.call)
    case Reverted(_) => mid
    case Returned(next) => next.0
  }

  lemma {:induction false} RunKeepsInv(s: Storage, self: Address, steps: seq<Step>)
    requires Inv(self, s) && forall step :: step in steps ==> step.env.sender != self
    ensures Inv(self, Run(s, self, steps))
    ensures var s' := Run(s, self, steps);
            s'.owner == s.owner && s'.minStake == s.minStake && s'.lockRequired == s.lockRequired
  {
    if steps == [] {
    } else {
      var last := steps[|steps| - 1];
      RunKeepsInv(s, self, steps[..|steps| - 1]);
      var mid := Run(s, self, steps[..|steps| - 1]);
      assert last in steps;
      match Perform(mid, last.ledger, self, last.env, last.call)
      case Reverted(_) =>
      case Returned(next) => PerformKeepsInv(self, mid, last.ledger, last.env, last.call, next.0, next.1);
    }
  }

  /** In every run: the total is the sum of the stakes, inactive ones are empty, and the
      index lists every staker, in particular every active one, exactly once. */
  lemma IndexAgrees(owner: Address, minStake: nat, lockRequired: bool, self: Address, steps: seq<Step>, u: Address)
    requires forall step :: step in steps ==> step.env.sender != self
    ensures var s := Run(Initial(owner, minStake, lockRequired), self, steps);
            && s.totalStaked == Sum(Amounts(s)) == StakedFrom(s, 0)
            && Distinct(s.stakers)
            && (u in s.stakers <==> u in s.isStaker)
            && (s.Stake(u).active ==> u in s.stakers && s.Stake(u).amount >= minStake)
            && (!s.Stake(u).active ==> s.Stake(u).amount == 0)
  {
    InitialInv(self, owner, minStake, lockRequired);
    RunKeepsInv(Initial(owner, minStake, lockRequired), self, steps);
    var s := Run(Initial(owner, minStake, lockRequired), self, steps);
    IndexStaked(self, s);
    assert StakeInv(s, u);
  }

  /** In every run a stake leaves only after the lock it was made with, which a chain
      without locks records as 30 days and does not enforce. */
  lemma LocksHold(
    owner: Address, minStake: nat, lockRequired: bool, self: Address, steps: seq<Step>, l: Ledger, env: Env)
    requires forall step :: step in steps ==> step.env.sender != self
    ensures var s := Run(Initial(owner, minStake, lockRequired), self, steps);
            && (Unstake(s, l, self, env).Returned? ==>
                  && s.Stake(env.sender).active
                  && env.timestamp >= s.Stake(env.sender).stakedAt +
                                      if lockRequired then LockDuration(s.Stake(env.sender).lockPeriod) else 0)
            && (!lockRequired ==> s.Stake(env.sender).lockPeriod == Days30)
  {
    InitialInv(self, owner, minStake, lockRequired);
    RunKeepsInv(Initial(owner, minStake, lockRequired), self, steps);
    assert StakeInv(Run(Initial(owner, minStake, lockRequired), self, steps), env.sender);
  }

  lemma LockedStep(s: Storage, l: Ledger, self: Address, env: Env, call: Call, u: Address)
    requires s.Stake(u).active && env.timestamp < s.Stake(u).unlockAt
    ensures var r := Perform(s, l, self, env, call); r.Returned? ==> r.value.0.Stake(u) == s.Stake(u)
  {
  }

  /** No run can touch a stake before its lock is over, which on a chain with locks is the
      chosen period after staking. */
  lemma {:induction false} LockedUntil(
    s: Storage, l: Ledger, self: Address, env: Env, amount: nat, period: LockPeriod, s': Storage, l': Ledger,
    steps: seq<Step>)
    requires Stake(s, l, self, env, amount, period) == Returned((s', l'))
    requires var end := env.timestamp + if s.lockRequired then LockDuration(period) else 0;
             forall step :: step in steps ==> step.env.timestamp < end
    ensures var info := Run(s', self, steps).Stake(env.sender);
            && info.active && info.amount == amount && info.stakedAt == env.timestamp
            && info.unlockAt == env.timestamp + (if s.lockRequired then LockDuration(period) else 0)
            && info == s'.Stake(env.sender)
  {
    if steps == [] {
    } else {
      var n := |steps| - 1;
      LockedUntil(s, l, self, env, amount, period, s', l', steps[..n]);
      assert steps[n] in steps;
      LockedStep(Run(s', self, steps[..n]), steps[n].ledger, self, steps[n].env, steps[n].call, env.sender);
    }
  }

  /** Staking and, once unlocked, unstaking undo each other: the user gets exactly its tokens
      back, the total is as before, and nobody else's balance moves. */
  lemma StakeRoundTrip(
    s: Storage, l: Ledger, self: Address, env: Env, env': Env, amount: nat, period: LockPeriod, s': Storage, l': Ledger)
    requires self != ZERO_ADDRESS && env.sender != self && env'.sender == env.sender
    requires Stake(s, l, self, env, amount, period) == Returned((s', l'))
    requires env'.timestamp >= env.timestamp + if s.lockRequired then LockDuration(period) else 0
    ensures var back := Unstake(s', l', self, env');
            && back.Returned? && back.value.0.totalStaked == s.totalStaked && !back.value.0.Stake(env.sender).active
            && forall a: Address :: back.value.1.BalanceOf(a) == l.BalanceOf(a)
  {
    TransferFromEffect(l, self, env.sender, self, amount, l');
    var back := Unstake(s', l', self, env');
    assert l'.BalanceOf(self) >= amount;
    TransferEffect(l', self, env.sender, amount, back.value.1);
  }

  // ----- Each user's position, from its own calls alone -----

  /** 30, 90 or 180 days in seconds, where locks are required. */
  function LockSeconds(lockRequired: bool, period: LockPeriod): nat {
    if !lockRequired then 0
    else
      match period
      case Days30 => 2_592_000
      case Days90 => 7_776_000
      case Days180 => 15_552_000
  }

  /** What staking must answer a user in a position: the error, if there is one. */
  function StakeError(minStake: nat, p: StakeInfo, amount: nat): Option<StakingError> {
    if amount < minStake then Some(BelowMinimumStake(amount, minStake))
    else if p.active then Some(AlreadyStaking)
    else None
  }

  function UnstakeError(p: StakeInfo, now: nat): Option<StakingError> {
    if !p.active then Some(NotStaking)
    else if now < p.unlockAt then Some(StillLocked(p.unlockAt, now))
    else None
  }

  /** A user's stake as its own calls and the token make it. Nobody else's calls, and no
      totals or index, play a part. */
  function Position(minStake: nat, lockRequired: bool, self: Address, steps: seq<Step>, u: Address): StakeInfo {
    if steps == [] then NO_STAKE else
    var p, last := Position(minStake, lockRequired, self, steps[..|steps| - 1], u), steps[|steps| - 1];
    if last.env.sender != u then p
    else
      match last.call
      case CallStake(amount, period) =>
        if StakeError(minStake, p, amount).Some? || last.ledger.TransferFrom(self, u, self, amount).Reverted? then p
        else
          StakeInfo(amount, if lockRequired then period else Days30, last.env.timestamp,
                    last.env.timestamp + LockSeconds(lockRequired, period), true)
      case CallUnstake =>
        if UnstakeError(p, last.env.timestamp).Some? || last.ledger.Transfer(self, u, p.amount).Reverted? then p
        else p.(active := false, amount := 0)
      case CallDistribute(_) => p
  }

  /** A call answers as the caller's position demands: with that error, with the token's, or
      by moving exactly those tokens. */
  ghost predicate Obeys(s: Storage, l: Ledger, self: Address, env: Env, call: Call, p: StakeInfo) {
    var r := Perform(s, l, self, env, call);
    match call
    case CallStake(amount, period) =>
      Follows(r, StakeError(s.minStake, p, amount), l.TransferFrom(self, env.sender, self, amount))
    case CallUnstake => Follows(r, UnstakeError(p, env.timestamp), l.Transfer(self, env.sender, p.amount))
    case CallDistribute(_) => r.Returned? ==> r.value.0 == s
  }

  ghost predicate Follows(
    r: Outcome<(Storage, Ledger), StakingError>, error: Option<StakingError>, moved: Outcome<Ledger, TokenError>)
  {
    if error.Some? then r == Reverted(error.value)
    else if moved.Reverted? then r == Reverted(TransferFailed(moved.error))
    else r.Returned? && r.value.1 == moved.value
  }

  lemma PositionObeyed(s: Storage, l: Ledger, self: Address, env: Env, call: Call)
    requires Inv(self, s)
    ensures Obeys(s, l, self, env, call, s.Stake(env.sender))
  {
    SumBoundsEntry(Amounts(s), env.sender);
  }

  /** In every run every user's stake is its position: what it staked and when, with the lock
      it chose, until it left. */
  lemma {:induction false} PositionsExact(
    owner: Address, minStake: nat, lockRequired: bool, self: Address, steps: seq<Step>, u: Address)
    requires forall step :: step in steps ==> step.env.sender != self
    ensures var s := Run(Initial(owner, minStake, lockRequired), self, steps);
            s.Stake(u) == Position(minStake, lockRequired, self, steps, u)
  {
    if steps == [] {
    } else {
      var before, last := steps[..|steps| - 1], steps[|steps| - 1];
      PositionsExact(owner, minStake, lockRequired, self, before, u);
      InitialInv(self, owner, minStake, lockRequired);
      RunKeepsInv(Initial(owner, minStake, lockRequired), self, before);
      PositionObeyed(Run(Initial(owner, minStake, lockRequired), self, before), last.ledger, self, last.env, last.call);
    }
  }

  /** And in every run every call answers by the caller's position, error by error. */
  lemma FollowsPositions(
    owner: Address, minStake: nat, lockRequired: bool, self: Address, steps: seq<Step>, l: Ledger, env: Env, call: Call)
    requires forall step :: step in steps ==> step.env.sender != self
    ensures var s := Run(Initial(owner, minStake, lockRequired), self, steps);
            s.minStake == minStake
            && Obeys(s, l, self, env, call, Position(minStake, lockRequired, self, steps, env.sender))
  {
    InitialInv(self, owner, minStake, lockRequired);
    RunKeepsInv(Initial(owner, minStake, lockRequired), self, steps);
    PositionsExact(owner, minStake, lockRequired, self, steps, env.sender);
    PositionObeyed(Run(Initial(owner, minStake, lockRequired), self, steps), l, self, env, call);
  }

  /** Whether a user had a stake after any of the calls. */
  predicate EverStaked(s: Storage, self: Address, steps: seq<Step>, u: Address) {
    steps != [] && (EverStaked(s, self, steps[..|steps| - 1], u) || Run(s, self, steps).Stake(u).active)
  }

  /** Who is on the index: exactly those who ever had a stake. */
  lemma {:induction false} IndexedIffStaked(s: Storage, self: Address, steps: seq<Step>, u: Address)
    requires s.stakes == map[] && s.isStaker == {}
    ensures u in Run(s, self, steps).isStaker <==> EverStaked(s, self, steps, u)
    ensures Run(s, self, steps).Stake(u).active ==> EverStaked(s, self, steps, u)
  {
    if steps == [] {
    } else {
      var before, last := steps[..|steps| - 1], steps[|steps| - 1];
      IndexedIffStaked(s, self, before, u);
      IndexedStep(Run(s, self, before), last.ledger, self, last.env, last.call, u);
    }
  }

  lemma IndexedStep(s: Storage, l: Ledger, self: Address, env: Env, call: Call, u: Address)
    ensures var r := Perform(s, l, self, env, call);
            r.Returned? ==>
              (u in r.value.0.isStaker <==> u in s.isStaker || (r.value.0.Stake(u).active && !s.Stake(u).active))
  {
  }

  /** The boosts in numbers, by stake and lock, 40% at most. */
  lemma BoostsInNumbers(s: Storage, user: Address)
    ensures var info, boost := s.Stake(user), s.EffectiveBoostBps(user);
            && boost <= 4_000
            && (!info.active ==> boost == 0)
            && (info.active ==>
                  var (plain, longer, longest) :=
                    if info.amount >= 500_000 * PRM then (2_500, 3_250, 4_000)
                    else if info.amount >= 100_000 * PRM then (1_800, 2_340, 2_880)
                    else if info.amount >= 50_000 * PRM then (1_000, 1_300, 1_600)
                    else if info.amount >= 10_000 * PRM then (500, 650, 800)
                    else (0, 0, 0);
                  boost == match info.lockPeriod { case Days30 => plain case Days90 => longer case Days180 => longest })
  {
  }

  // ----- The contract -----

  /** The deployed contract: storage that the calls update in place. A call either goes
      through completely or leaves both this storage and the token's as they were. */
  class Staking {
    const self: Address
    const token: Token
    var owner: Address
    var minStake: nat
    var lockRequired: bool
    var totalStaked: nat
    var stakes: map<Address, StakeInfo>
    var stakers: seq<Address>
    var isStaker: set<Address>

    ghost function State(): Storage
      reads this
    {
      Storage(owner, minStake, lockRequired, totalStaked, stakes, stakers, isStaker)
    }

    ghost function Both(): (Storage, Ledger)
      reads this, token
    {
      (State(), token.State())
    }

    constructor (self: Address, token: Token, initialOwner: Address, minStake: nat, lockRequired: bool)
      ensures this.self == self && this.token == token
      ensures State() == Initial(initialOwner, minStake, lockRequired) && Inv(self, State())
    {
      this.self, this.token := self, token;
      owner, this.minStake, this.lockRequired := initialOwner, minStake, lockRequired;
      totalStaked, stakes, stakers, isStaker := 0, map[], [], {};
      new;
      InitialInv(self, initialOwner, minStake, lockRequired);
    }

    method Stake(env: Env, amount: nat, lockPeriod: LockPeriod) returns (r: Outcome<(), StakingError>)
      requires Inv(self, State()) && env.sender != self
      modifies this, token
      ensures Agrees(r, Perform(old(State()), old(token.State()), self, env, CallStake(amount, lockPeriod)),
                     old(Both()), Both())
      ensures Inv(self, State())
    {
      if amount < minStake { return Reverted(BelowMinimumStake(amount, minStake)); }
      if At(stakes, env.sender, NO_STAKE).active { return Reverted(AlreadyStaking); }
      var storedPeriod, unlockAt := Days30, env.timestamp;
      if lockRequired {
        storedPeriod, unlockAt := lockPeriod, env.timestamp + LockDuration(lockPeriod);
      }
      var pulled := token.TransferFrom(self, env.sender, self, amount);
      if pulled.Reverted? { return Reverted(TransferFailed(pulled.error)); }
      stakes := stakes[env.sender := StakeInfo(amount, storedPeriod, env.timestamp, unlockAt, true)];
      if env.sender !in isStaker {
        isStaker := isStaker + {env.sender};
        stakers := stakers + [env.sender];
      }
      totalStaked := totalStaked + amount;
      assert State().isStaker == old(isStaker) + {env.sender};
      PerformKeepsInv(self, old(State()), old(token.State()), env, CallStake(amount, lockPeriod),
                      State(), token.State());
      return Returned(());
    }

    method Unstake(env: Env) returns (r: Outcome<(), StakingError>)
      requires Inv(self, State()) && env.sender != self
      modifies this, token
      ensures Agrees(r, Perform(old(State()), old(token.State()), self, env, CallUnstake), old(Both()), Both())
      ensures Inv(self, State())
    {
      var info := At(stakes, env.sender, NO_STAKE);
      if !info.active { return Reverted(NotStaking); }
      if env.timestamp < info.unlockAt { return Reverted(StillLocked(info.unlockAt, env.timestamp)); }
      var amount := info.amount;
      AmountsWrite(State(), State().(stakes := stakes[env.sender := NO_STAKE]), env.sender, NO_STAKE);
      var paid := token.Transfer(self, env.sender, amount);
      if paid.Reverted? { return Reverted(TransferFailed(paid.error)); }
      stakes := stakes[env.sender := info.(active := false, amount := 0)];
      totalStaked := totalStaked - amount;
      PerformKeepsInv(self, old(State()), old(token.State()), env, CallUnstake, State(), token.State());
      return Returned(());
    }

    /** The reward token may be the staked token itself. */
    method DistributeRevenue(env: Env, rewardToken: Token, totalAmount: nat)
      returns (r: Outcome<(), StakingError>, activeStakerCount: nat)
      modifies rewardToken
      ensures Agrees(r, Distribution(State(), old(rewardToken.State()), self, env, totalAmount),
                     old(rewardToken.State()), rewardToken.State())
      ensures r.Returned? ==> activeStakerCount == ActiveFrom(State(), 0)
    {
      activeStakerCount := 0;
      if env.sender != owner { return Reverted(NotContractOwner), 0; }
      if totalAmount == 0 { return Reverted(ZeroAmount), 0; }
      var balances, allowances := rewardToken.balances, rewardToken.allowances;
      var pulled := rewardToken.TransferFrom(self, env.sender, self, totalAmount);
      if pulled.Reverted? { return Reverted(TransferFailed(pulled.error)), 0; }
      r, activeStakerCount := PayStakers(rewardToken, totalAmount);
      if r.Reverted? {
        rewardToken.Restore(balances, allowances);
      }
    }

    /** The loop over the index. A failure leaves payments behind for the caller to undo. */
    method PayStakers(rewardToken: Token, totalAmount: nat)
      returns (r: Outcome<(), StakingError>, activeStakerCount: nat)
      modifies rewardToken
      ensures match PayFrom(State(), old(rewardToken.State()), self, totalAmount, 0)
              case Returned(l) => r.Returned? && rewardToken.State() == l && activeStakerCount == ActiveFrom(State(), 0)
              case Reverted(e) => r == Reverted(e)
      ensures rewardToken.State() == old(rewardToken.State()).(balances := rewardToken.balances)
    {
      activeStakerCount := 0;
      var staked, i := totalStaked, 0;
      ghost var s, before := State(), rewardToken.State();
      ghost var spec, active := PayFrom(s, before, self, totalAmount, 0), ActiveFrom(s, 0);
      while i < |stakers|
        invariant State() == s && 0 <= i <= |s.stakers|
        invariant spec == PayFrom(s, rewardToken.State(), self, totalAmount, i)
        invariant activeStakerCount + ActiveFrom(s, i) == active
        invariant rewardToken.State() == before.(balances := rewardToken.balances)
      {
        var user := stakers[i];
        var info := At(stakes, user, NO_STAKE);
        i := i + 1;
        if !info.active { continue; }
        activeStakerCount := activeStakerCount + 1;
        if totalAmount * info.amount > MAX_UINT256 { return Reverted(ArithmeticOverflow), 0; }
        if staked == 0 { return Reverted(DivisionByZero), 0; }
        var reward := totalAmount * info.amount / staked;
        if reward > 0 {
          ghost var here := rewardToken.State();
          var paid := rewardToken.Transfer(self, user, reward);
          if paid.Reverted? { return Reverted(TransferFailed(paid.error)), 0; }
          assert here.Transfer(self, user, reward) == Returned(rewardToken.State());
        }
      }
      r := Returned(());
    }
  }
}
