/** The backend's staking boost over two chains, against the boost that the contracts compute. */
module Boost {
  import opened Basics
  import opened Evm
  import opened PrimToken
  import Staking = StakingContract
  import Payout

  /** A stake as read from a chain, its lock period as the enum ordinal. */
  datatype StakeRead = StakeRead(amount: nat, lockPeriod: nat, active: bool)

  /** A configured chain answers, or its read fails. */
  datatype ReadResult = Read(stake: StakeRead) | ReadFailed

  datatype ChainStake = ChainStake(chain: Chain, amount: nat, lockPeriod: nat, active: bool)

  datatype Summary = Summary(chains: seq<ChainStake>, totalStaked: nat, effectiveBoostBps: nat)

  function BaseBoostBps(totalStaked: nat): nat {
    if totalStaked >= 500_000 * Staking.PRM then 2_500
    else if totalStaked >= 100_000 * Staking.PRM then 1_800
    else if totalStaked >= 50_000 * Staking.PRM then 1_000
    else if totalStaked >= 10_000 * Staking.PRM then 500
    else 0
  }

  function LockMultiplierScaled(lockPeriod: nat): nat {
    if lockPeriod == 1 then 130 else if lockPeriod == 2 then 160 else 100
  }

  /** The tier of the combined total, with Ethereum's lock multiplier only. */
  function CombinedBoostBps(ethereum: Option<(nat, nat)>, polygon: Option<nat>): nat {
    var ethereumAmount := if ethereum.Some? then ethereum.value.0 else 0;
    var polygonAmount := if polygon.Some? then polygon.value else 0;
    var lockMult := if ethereum.Some? then LockMultiplierScaled(ethereum.value.1) else 100;
    var effective := BaseBoostBps(SaturatingAdd(ethereumAmount, polygonAmount, MAX_U128)) * lockMult / 100;
    if effective <= Payout.MAX_BOOST_BPS then effective else Payout.MAX_BOOST_BPS
  }

  /** An active stake that was read; anything else counts as none. */
  function Active(result: Option<ReadResult>): Option<(nat, nat)> {
    if result.Some? && result.value.Read? && result.value.stake.active
    then Some((result.value.stake.amount, result.value.stake.lockPeriod))
    else None
  }

  /** What a chain contributes to the listing: nothing when not configured. */
  function Listed(chain: Chain, result: Option<ReadResult>): seq<ChainStake> {
    match result
    case None => []
    case Some(ReadFailed) => [ChainStake(chain, 0, 0, false)]
    case Some(Read(stake)) => [ChainStake(chain, stake.amount, stake.lockPeriod, stake.active)]
  }

  /** Appends the chain's entry and returns its active stake. */
  method ResolveChainStake(chain: Chain, result: Option<ReadResult>, chains: seq<ChainStake>)
    returns (stake: Option<(nat, nat)>, chains': seq<ChainStake>)
    ensures chains' == chains + Listed(chain, result)
    ensures stake == Active(result)
    ensures result.Some? ==> |chains'| == |chains| + 1 && chains'[|chains|].chain == chain
    ensures result == Some(ReadFailed) ==> chains' == chains + [ChainStake(chain, 0, 0, false)] && stake.None?
    ensures result.Some? && result.value.Read? ==>
              var listed, read := chains'[|chains|], result.value.stake;
              && (listed.amount, listed.lockPeriod, listed.active) == (read.amount, read.lockPeriod, read.active)
              && stake == if read.active then Some((read.amount, read.lockPeriod)) else None
    ensures result.None? ==> chains' == chains && stake.None?
  {
    match result
    case None => return None, chains;
    case Some(ReadFailed) => return None, chains + [ChainStake(chain, 0, 0, false)];
    case Some(Read(s)) =>
      chains' := chains + [ChainStake(chain, s.amount, s.lockPeriod, s.active)];
      stake := if s.active then Some((s.amount, s.lockPeriod)) else None;
  }

  /** The one place where stakes become a boost: never above 40%, and the listing shows
      each configured chain once, Ethereum first. */
  method BuildSummary(ethereum: Option<ReadResult>, polygon: Option<ReadResult>) returns (summary: Summary)
    ensures summary.chains == Listed(Ethereum, ethereum) + Listed(Polygon, polygon)
    ensures summary.effectiveBoostBps <= Payout.MAX_BOOST_BPS
    ensures var e, p := Active(ethereum), Active(polygon);
            && summary.effectiveBoostBps == CombinedBoostBps(e, if p.Some? then Some(p.value.0) else None)
            && summary.totalStaked ==
               SaturatingAdd(if e.Some? then e.value.0 else 0, if p.Some? then p.value.0 else 0, MAX_U128)
  {
    var ethereumStake, chains := ResolveChainStake(Ethereum, ethereum, []);
    var polygonStake, chains' := ResolveChainStake(Polygon, polygon, chains);
    var polygonAmount := if polygonStake.Some? then Some(polygonStake.value.0) else None;
    var ethereumAmount := if ethereumStake.Some? then ethereumStake.value.0 else 0;
    summary := Summary(chains',
                       SaturatingAdd(ethereumAmount, if polygonAmount.Some? then polygonAmount.value else 0, MAX_U128),
                       CombinedBoostBps(ethereumStake, polygonAmount));
  }

  // ----- Agreement with the contracts -----

  function Ordinal(period: Staking.LockPeriod): nat {
    match period
    case Days30 => 0
    case Days90 => 1
    case Days180 => 2
  }

  /** Reads a user's stake; an amount beyond 128 bits fails. */
  function ReadStake(s: Staking.Storage, user: Address): ReadResult {
    var info := s.Stake(user);
    if info.amount > MAX_U128 then ReadFailed
    else Read(StakeRead(info.amount, Ordinal(info.lockPeriod), info.active))
  }

  function PolygonOnly(result: Option<ReadResult>): Option<nat> {
    var p := Active(result);
    if p.Some? then Some(p.value.0) else None
  }

  lemma BaseMonotone(a: nat, b: nat)
    requires a <= b
    ensures BaseBoostBps(a) <= BaseBoostBps(b) && BaseBoostBps(a) == Staking.BaseBoostBps(a)
  {
  }

  /** A second stake never lowers the boost. */
  lemma SecondStakeHelps(ethereum: Option<(nat, nat)>, polygon: Option<nat>)
    requires ethereum.Some? ==> ethereum.value.0 <= MAX_U128
    requires polygon.Some? ==> polygon.value <= MAX_U128
    ensures CombinedBoostBps(ethereum, None) <= CombinedBoostBps(ethereum, polygon)
    ensures CombinedBoostBps(None, polygon) <= CombinedBoostBps(ethereum, polygon) <= Payout.MAX_BOOST_BPS
  {
    var a := if ethereum.Some? then ethereum.value.0 else 0;
    var b := if polygon.Some? then polygon.value else 0;
    BaseMonotone(SaturatingAdd(a, 0, MAX_U128), SaturatingAdd(a, b, MAX_U128));
    BaseMonotone(SaturatingAdd(0, b, MAX_U128), SaturatingAdd(a, b, MAX_U128));
  }

  /** For any stake that fits 128 bits, the backend's boost from an Ethereum stake alone is
      the contract's own. */
  lemma EthereumAgrees(s: Staking.Storage, user: Address)
    requires s.Stake(user).amount <= MAX_U128
    ensures CombinedBoostBps(Active(Some(ReadStake(s, user))), None) == s.EffectiveBoostBps(user)
  {
  }

  /** From a Polygon stake alone it is the contract's own exactly when there is no boost to
      multiply or the recorded lock is the 30-day one. */
  lemma PolygonAgreesIff(s: Staking.Storage, user: Address)
    requires s.Stake(user).amount <= MAX_U128 && s.Stake(user).active
    ensures CombinedBoostBps(None, PolygonOnly(Some(ReadStake(s, user)))) == s.EffectiveBoostBps(user) <==>
            BaseBoostBps(s.Stake(user).amount) == 0 || s.Stake(user).lockPeriod == Staking.Days30
  {
  }

  /** Which it always is in every run of a contract that requires no lock. */
  lemma PolygonAgrees(owner: Address, minStake: nat, self: Address, steps: seq<Staking.Step>, user: Address)
    requires forall step :: step in steps ==> step.env.sender != self
    requires Staking.Run(Staking.Initial(owner, minStake, false), self, steps).Stake(user).amount <= MAX_U128
    ensures var s := Staking.Run(Staking.Initial(owner, minStake, false), self, steps);
            CombinedBoostBps(None, PolygonOnly(Some(ReadStake(s, user)))) == s.EffectiveBoostBps(user)
  {
    var s := Staking.Run(Staking.Initial(owner, minStake, false), self, steps);
    Staking.LocksHold(owner, minStake, false, self, steps, Genesis(owner), Env(user, 0, 0));
    if s.Stake(user).active {
      PolygonAgreesIff(s, user);
    }
  }

  /** Stakes on both chains count as one stake of their sum on Ethereum: the backend grants
      what the contract would grant to it. A missing chain, a failed read and an inactive
      stake count as nothing, and without an Ethereum stake the sum counts as unlocked. */
  lemma BothChainsCount(
    ethereum: Option<ReadResult>, polygon: Option<ReadResult>, whole: Staking.Storage, user: Address)
    requires whole.Stake(user).active && whole.Stake(user).amount == Total(ethereum, polygon)
    requires Ordinal(whole.Stake(user).lockPeriod) == LockOf(ethereum)
    ensures CombinedBoostBps(Active(ethereum), PolygonOnly(polygon)) == whole.EffectiveBoostBps(user)
  {
  }

  /** What a read contributes. */
  function AmountOf(result: Option<ReadResult>): nat {
    match result
    case Some(Read(StakeRead(amount, _, true))) => amount
    case _ => 0
  }

  /** The lock that counts, with an unknown one as the shortest. */
  function LockOf(result: Option<ReadResult>): nat {
    match result
    case Some(Read(StakeRead(_, lock, true))) => if lock <= 2 then lock else 0
    case _ => 0
  }

  function Total(ethereum: Option<ReadResult>, polygon: Option<ReadResult>): nat {
    SaturatingAdd(AmountOf(ethereum), AmountOf(polygon), MAX_U128)
  }

  /** The combined boost is at least what either contract alone grants, and at most 40%:
      for every Ethereum stake, and every Polygon stake in a run of its contract. */
  lemma CombinedDominates(
    eth: Staking.Storage, owner: Address, minStake: nat, self: Address, steps: seq<Staking.Step>, user: Address)
    requires forall step :: step in steps ==> step.env.sender != self
    requires eth.Stake(user).amount <= MAX_U128
    requires Staking.Run(Staking.Initial(owner, minStake, false), self, steps).Stake(user).amount <= MAX_U128
    ensures var pol := Staking.Run(Staking.Initial(owner, minStake, false), self, steps);
            var combined := CombinedBoostBps(Active(Some(ReadStake(eth, user))),
                                             PolygonOnly(Some(ReadStake(pol, user))));
            eth.EffectiveBoostBps(user) <= combined && pol.EffectiveBoostBps(user) <= combined <= Payout.MAX_BOOST_BPS
  {
    var pol := Staking.Run(Staking.Initial(owner, minStake, false), self, steps);
    EthereumAgrees(eth, user);
    PolygonAgrees(owner, minStake, self, steps, user);
    SecondStakeHelps(Active(Some(ReadStake(eth, user))), PolygonOnly(Some(ReadStake(pol, user))));
  }
}
