/** The contracts over one token, wired as deployed: the mint contract is the only minter,
    the node registry the only burner. A run is any sequence of calls by outside callers. */
module World {
  import opened Evm
  import opened PrimToken
  import Mining = MiningContract
  import Registry = NodeRegistry
  import Staking = StakingContract

  /** The three contracts' own addresses. */
  datatype Deployment = Deployment(mining: Address, registry: Address, staking: Address) {
    ghost predicate Valid() {
      && mining != ZERO_ADDRESS && registry != ZERO_ADDRESS && staking != ZERO_ADDRESS
      && mining != registry && mining != staking && registry != staking
    }

    /** Contracts only make the calls that their code makes: everyone else is outside. */
    predicate Outside(a: Address) {
      a != mining && a != registry && a != staking
    }
  }

  datatype System = System(token: Ledger, mining: Mining.Storage, registry: Registry.Storage, staking: Staking.Storage)

  datatype Call =
    | OnToken(tokenCall: TokenCall)
    | OnMining(miningCall: Mining.Call)
    | OnRegistry(registryCall: Registry.Call)
    | OnStaking(stakingCall: Staking.Call)

  datatype Step = Step(env: Env, call: Call)

  /** One call; a reverted one changes nothing. */
  function Next(d: Deployment, w: System, step: Step): System {
    match step.call
    case OnToken(call) => (
      match CallToken(w.token, step.env.sender, call)
      case Reverted(_) => w
      case Returned(l) => w.(token := l))
    case OnMining(call) => (
      match Mining.Perform(w.mining, w.token, d.mining, step.env, call)
      case Reverted(_) => w
      case Returned(r) => w.(mining := r.0, token := r.1))
    case OnRegistry(call) => (
      match Registry.Perform(w.registry, w.token, d.registry, step.env, call)
      case Reverted(_) => w
      case Returned(r) => w.(registry := r.0, token := r.1))
    case OnStaking(call) => (
      match Staking.Perform(w.staking, w.token, d.staking, step.env, call)
      case Reverted(_) => w
      case Returned(r) => w.(staking := r.0, token := r.1))
  }

  /** A call that goes through changes its own contract and the token together, and no other
      contract; one that reverts changes nothing. */
  lemma CallsTakeEffect(
    d: Deployment, w: System, env: Env, t: TokenCall, m: Mining.Call, r: Registry.Call, k: Staking.Call)
    ensures var w' := Next(d, w, Step(env, OnToken(t)));
            var o := CallToken(w.token, env.sender, t);
            && (w'.mining, w'.registry, w'.staking) == (w.mining, w.registry, w.staking)
            && w'.token == if o.Returned? then o.value else w.token
    ensures var w' := Next(d, w, Step(env, OnMining(m)));
            var o := Mining.Perform(w.mining, w.token, d.mining, env, m);
            && (w'.registry, w'.staking) == (w.registry, w.staking)
            && (w'.mining, w'.token) == if o.Returned? then o.value else (w.mining, w.token)
    ensures var w' := Next(d, w, Step(env, OnRegistry(r)));
            var o := Registry.Perform(w.registry, w.token, d.registry, env, r);
            && (w'.mining, w'.staking) == (w.mining, w.staking)
            && (w'.registry, w'.token) == if o.Returned? then o.value else (w.registry, w.token)
    ensures var w' := Next(d, w, Step(env, OnStaking(k)));
            var o := Staking.Perform(w.staking, w.token, d.staking, env, k);
            && (w'.mining, w'.registry) == (w.mining, w.registry)
            && (w'.staking, w'.token) == if o.Returned? then o.value else (w.staking, w.token)
  {
  }

  /** The system as the deployment script leaves it, before any signer is added. */
  function Deployed(d: Deployment, owner: Address, ceiling: nat, minStake: nat, lockRequired: bool): System {
    System(Genesis(owner).(minter := d.mining, burner := d.registry),
           Mining.Initial(owner, ceiling),
           Registry.Initial(owner),
           Staking.Initial(owner, minStake, lockRequired))
  }

  function Run(d: Deployment, w: System, steps: seq<Step>): System {
    if steps == [] then w else Next(d, Run(d, w, steps[..|steps| - 1]), steps[|steps| - 1])
  }

  // ----- The invariant -----

  /** What the ledger must look like for the registry holding `held` and the staking
      contract holding `staked`, after `minted` and `burned`. */
  ghost predicate LedgerInv(d: Deployment, l: Ledger, minted: int, burned: int, held: int, staked: int) {
    && l.Balanced()
    && l.minter == d.mining && l.burner == d.registry
    && l.supply == minted - burned
    && held <= l.BalanceOf(d.registry)
    && staked <= l.BalanceOf(d.staking)
    && (forall a: Address :: l.Allowance(d.registry, a) == 0 && l.Allowance(d.staking, a) == 0)
  }

  ghost predicate Inv(d: Deployment, ceiling: nat, w: System) {
    && d.Valid()
    && Mining.Inv(ceiling, w.mining)
    && Registry.Inv(w.registry)
    && Staking.Inv(d.staking, w.staking)
    && LedgerInv(d, w.token, Mining.MintedTotal(w.mining.log), Registry.Flows(w.registry.log).2,
                 Registry.Held(w.registry), w.staking.totalStaked)
  }

  /** Nobody may spend what the contracts hold, and no other call changes that. */
  lemma AllowancesKept(d: Deployment, l: Ledger, l': Ledger)
    requires forall h: Address, a: Address :: (h == d.registry || h == d.staking) ==>
                                                l'.Allowance(h, a) <= l.Allowance(h, a)
    requires forall a: Address :: l.Allowance(d.registry, a) == 0 && l.Allowance(d.staking, a) == 0
    ensures forall a: Address :: l'.Allowance(d.registry, a) == 0 && l'.Allowance(d.staking, a) == 0
  {
    forall a: Address ensures l'.Allowance(d.registry, a) == 0 && l'.Allowance(d.staking, a) == 0 {
      assert l.Allowance(d.registry, a) == 0 && l.Allowance(d.staking, a) == 0;
    }
  }

  lemma LedgerTransfer(
    d: Deployment, l: Ledger, from: Address, to: Address, amount: nat, l': Ledger, m: int, b: int, held: int,
    staked: int)
    requires d.Valid() && LedgerInv(d, l, m, b, held, staked) && l.Transfer(from, to, amount) == Returned(l')
    ensures LedgerInv(d, l', m, b, held - (if from == d.registry then amount else 0),
                      staked - (if from == d.staking then amount else 0))
  {
    TransferEffect(l, from, to, amount, l');
    AllowancesKept(d, l, l');
  }

  /** An outside holder's tokens reach a contract, or anyone else. */
  lemma LedgerPull(
    d: Deployment, l: Ledger, spender: Address, from: Address, to: Address, amount: nat, l': Ledger, m: int, b: int,
    held: int, staked: int)
    requires d.Valid() && LedgerInv(d, l, m, b, held, staked)
    requires l.TransferFrom(spender, from, to, amount) == Returned(l')
    ensures LedgerInv(d, l', m, b, held + (if to == d.registry && from != to then amount else 0),
                      staked + (if to == d.staking && from != to then amount else 0))
  {
    TransferFromEffect(l, spender, from, to, amount, l');
    assert l.Allowance(d.registry, spender) == 0 && l.Allowance(d.staking, spender) == 0;
    forall h: Address, a: Address | h == d.registry || h == d.staking ensures l'.Allowance(h, a) <= l.Allowance(h, a) {
      if (h, a) == (from, spender) {
        assert l.Allowance(h, a) == 0;
      }
    }
    AllowancesKept(d, l, l');
  }

  lemma LedgerMint(
    d: Deployment, l: Ledger, to: Address, amount: nat, l': Ledger, m: int, b: int, held: int, staked: int)
    requires d.Valid() && LedgerInv(d, l, m, b, held, staked) && l.Mint(d.mining, to, amount) == Returned(l')
    ensures LedgerInv(d, l', m + amount, b, held, staked)
  {
    MintEffect(l, d.mining, to, amount, l');
    AllowancesKept(d, l, l');
  }

  lemma LedgerBurn(d: Deployment, l: Ledger, amount: nat, l': Ledger, m: int, b: int, held: int, staked: int)
    requires d.Valid() && LedgerInv(d, l, m, b, held, staked) && l.Burn(d.registry, d.registry, amount) == Returned(l')
    ensures LedgerInv(d, l', m, b + amount, held - amount, staked)
  {
    BurnEffect(l, d.registry, d.registry, amount, l');
    AllowancesKept(d, l, l');
  }

  /** No outside token call can touch what the contracts hold, or the supply. */
  lemma TokenKeepsLedger(
    d: Deployment, l: Ledger, env: Env, call: TokenCall, l': Ledger, m: int, b: int, held: int, staked: int)
    requires d.Valid() && LedgerInv(d, l, m, b, held, staked) && d.Outside(env.sender)
    requires CallToken(l, env.sender, call) == Returned(l')
    ensures LedgerInv(d, l', m, b, held, staked)
  {
    match call
    case Transfer(to, amount) => LedgerTransfer(d, l, env.sender, to, amount, l', m, b, held, staked);
    case Approve(_, _) => AllowancesKept(d, l, l');
    case TransferFrom(from, to, amount) => LedgerPull(d, l, env.sender, from, to, amount, l', m, b, held, staked);
    case Mint(_, _) => assert false;
    case Burn(_, _) => assert false;
  }

  lemma MiningStep(d: Deployment, ceiling: nat, w: System, env: Env, call: Mining.Call, s: Mining.Storage, l: Ledger)
    requires Inv(d, ceiling, w) && Mining.Perform(w.mining, w.token, d.mining, env, call) == Returned((s, l))
    ensures Inv(d, ceiling, w.(mining := s, token := l))
  {
    Mining.PerformKeepsInv(ceiling, w.mining, w.token, d.mining, env, call, s, l);
    if call.CallExecuteMint? {
      var p := w.mining.Proposal(call.id);
      LedgerMint(d, w.token, p.recipient, p.amount, l, Mining.MintedTotal(w.mining.log),
                 Registry.Flows(w.registry.log).2,
                 Registry.Held(w.registry), w.staking.totalStaked);
    }
  }

  lemma RegisterStep(
    d: Deployment, ceiling: nat, w: System, env: Env, n: Bytes32, stake: nat, s: Registry.Storage, l: Ledger)
    requires Inv(d, ceiling, w) && d.Outside(env.sender)
    requires Registry.RegisterNode(w.registry, w.token, d.registry, env, n, stake) == Returned((s, l))
    ensures Inv(d, ceiling, w.(registry := s, token := l))
  {
    Registry.RegisterKeepsInv(w.registry, w.token, d.registry, env, n, stake, s, l);
    LedgerPull(d, w.token, d.registry, env.sender, d.registry, stake, l, Mining.MintedTotal(w.mining.log),
               Registry.Flows(w.registry.log).2, Registry.Held(w.registry), w.staking.totalStaked);
  }

  lemma DeregisterStep(d: Deployment, ceiling: nat, w: System, env: Env, n: Bytes32, s: Registry.Storage, l: Ledger)
    requires Inv(d, ceiling, w) && d.Outside(env.sender)
    requires Registry.DeregisterNode(w.registry, w.token, d.registry, env, n) == Returned((s, l))
    ensures Inv(d, ceiling, w.(registry := s, token := l))
  {
    Registry.DeregisterKeepsInv(w.registry, w.token, d.registry, env, n, s, l);
    LedgerTransfer(d, w.token, d.registry, env.sender, w.registry.Node(n).stakedAmount, l,
                   Mining.MintedTotal(w.mining.log),
                   Registry.Flows(w.registry.log).2, Registry.Held(w.registry), w.staking.totalStaked);
  }

  lemma SlashStep(d: Deployment, ceiling: nat, w: System, env: Env, id: Bytes32, s: Registry.Storage, l: Ledger)
    requires Inv(d, ceiling, w)
    requires Registry.ExecuteSlash(w.registry, w.token, d.registry, env, id) == Returned((s, l))
    ensures Inv(d, ceiling, w.(registry := s, token := l))
  {
    var burned := Registry.ExecuteKeepsInv(w.registry, w.token, d.registry, env, id, s, l);
    BurnStep(d, ceiling, w, burned, s, l);
  }

  lemma BurnStep(d: Deployment, ceiling: nat, w: System, burned: nat, s: Registry.Storage, l: Ledger)
    requires Inv(d, ceiling, w) && Registry.Inv(s) && Registry.Held(s) == Registry.Held(w.registry) - burned
    requires Registry.Flows(s.log).2 == Registry.Flows(w.registry.log).2 + burned
    requires w.token.Burn(d.registry, d.registry, burned) == Returned(l)
    ensures Inv(d, ceiling, w.(registry := s, token := l))
  {
    LedgerBurn(d, w.token, burned, l, Mining.MintedTotal(w.mining.log), Registry.Flows(w.registry.log).2,
               Registry.Held(w.registry), w.staking.totalStaked);
  }

  lemma RegistryStep(
    d: Deployment, ceiling: nat, w: System, env: Env, call: Registry.Call, s: Registry.Storage, l: Ledger)
    requires Inv(d, ceiling, w) && d.Outside(env.sender)
    requires Registry.Perform(w.registry, w.token, d.registry, env, call) == Returned((s, l))
    ensures Inv(d, ceiling, w.(registry := s, token := l))
  {
    match call
    case CallRegisterNode(n, stake) => RegisterStep(d, ceiling, w, env, n, stake, s, l);
    case CallDeregisterNode(n) => DeregisterStep(d, ceiling, w, env, n, s, l);
    case CallProposeSlash(id, target, observer, reason) =>
      Registry.ProposeKeepsInv(w.registry, env, id, target, observer, reason, s);
    case CallConfirmSlash(id, observer) => Registry.ConfirmKeepsInv(w.registry, env, id, observer, s);
    case CallVetoSlash(id) => Registry.VetoKeepsInv(w.registry, env, id, s);
    case CallExecuteSlash(id) => SlashStep(d, ceiling, w, env, id, s, l);
  }

  /** A distribution in PRM leaves the staking contract with everything staked, and more. */
  lemma LedgerDistribute(
    d: Deployment, s: Staking.Storage, l: Ledger, env: Env, total: nat, l': Ledger, m: int, b: int, held: int)
    requires d.Valid() && Staking.Inv(d.staking, s) && d.Outside(env.sender)
    requires LedgerInv(d, l, m, b, held, s.totalStaked)
    requires Staking.Distribution(s, l, d.staking, env, total) == Returned(l')
    ensures LedgerInv(d, l', m, b, held, s.totalStaked)
  {
    Staking.DistributionExact(s, l, d.staking, env, total);
    AllowancesKept(d, l, l');
  }

  lemma StakingStep(d: Deployment, ceiling: nat, w: System, env: Env, call: Staking.Call, s: Staking.Storage, l: Ledger)
    requires Inv(d, ceiling, w) && d.Outside(env.sender)
    requires Staking.Perform(w.staking, w.token, d.staking, env, call) == Returned((s, l))
    ensures Inv(d, ceiling, w.(staking := s, token := l))
  {
    Staking.PerformKeepsInv(d.staking, w.staking, w.token, env, call, s, l);
    var m, b, held, staked := Mining.MintedTotal(w.mining.log), Registry.Flows(w.registry.log).2,
      Registry.Held(w.registry), w.staking.totalStaked;
    match call
    case CallStake(amount, period) =>
      LedgerPull(d, w.token, d.staking, env.sender, d.staking, amount, l, m, b, held, staked);
    case CallUnstake =>
      LedgerTransfer(d, w.token, d.staking, env.sender, w.staking.Stake(env.sender).amount, l, m, b, held, staked);
    case CallDistribute(total) => LedgerDistribute(d, w.staking, w.token, env, total, l, m, b, held);
  }

  lemma DeployedInv(d: Deployment, owner: Address, ceiling: nat, minStake: nat, lockRequired: bool)
    requires d.Valid()
    ensures Inv(d, ceiling, Deployed(d, owner, ceiling, minStake, lockRequired))
  {
    Mining.InitialInv(owner, ceiling);
    Registry.InitialInv(owner);
    Staking.InitialInv(d.staking, owner, minStake, lockRequired);
  }

  lemma NextKeepsInv(d: Deployment, ceiling: nat, w: System, step: Step)
    requires Inv(d, ceiling, w) && d.Outside(step.env.sender)
    ensures Inv(d, ceiling, Next(d, w, step))
  {
    match step.call
    case OnToken(call) =>
      var r := CallToken(w.token, step.env.sender, call);
      if r.Returned? {
        TokenKeepsLedger(d, w.token, step.env, call, r.value, Mining.MintedTotal(w.mining.log),
                  Registry.Flows(w.registry.log).2,
                  Registry.Held(w.registry), w.staking.totalStaked);
      }
    case OnMining(call) =>
      var r := Mining.Perform(w.mining, w.token, d.mining, step.env, call);
      if r.Returned? {
        MiningStep(d, ceiling, w, step.env, call, r.value.0, r.value.1);
      }
    case OnRegistry(call) =>
      var r := Registry.Perform(w.registry, w.token, d.registry, step.env, call);
      if r.Returned? {
        RegistryStep(d, ceiling, w, step.env, call, r.value.0, r.value.1);
      }
    case OnStaking(call) =>
      var r := Staking.Perform(w.staking, w.token, d.staking, step.env, call);
      if r.Returned? {
        StakingStep(d, ceiling, w, step.env, call, r.value.0, r.value.1);
      }
  }

  lemma {:induction false} RunKeepsInv(d: Deployment, ceiling: nat, w: System, steps: seq<Step>)
    requires Inv(d, ceiling, w) && forall step :: step in steps ==> d.Outside(step.env.sender)
    ensures Inv(d, ceiling, Run(d, w, steps))
  {
    if steps == [] {
    } else {
      assert steps[|steps| - 1] in steps;
      RunKeepsInv(d, ceiling, w, steps[..|steps| - 1]);
      NextKeepsInv(d, ceiling, Run(d, w, steps[..|steps| - 1]), steps[|steps| - 1]);
    }
  }

  // ----- The results -----

  /** In every run of all contracts by outside callers, PRM rewards included: the supply is
      the sum of the balances and equals executed mints less slashed burns; the registry
      can cover every node's stake and the staking contract everything staked. */
  lemma SupplyAndCustody(
    d: Deployment, owner: Address, ceiling: nat, minStake: nat, lockRequired: bool, steps: seq<Step>)
    requires d.Valid() && forall step :: step in steps ==> d.Outside(step.env.sender)
    ensures var w := Run(d, Deployed(d, owner, ceiling, minStake, lockRequired), steps);
            && Sum(w.token.balances) == w.token.supply
            && w.token.supply == Mining.MintedTotal(w.mining.log) - Registry.Flows(w.registry.log).2
            && Registry.Held(w.registry) <= w.token.BalanceOf(d.registry)
            && w.staking.totalStaked == Sum(Staking.Amounts(w.staking)) <= w.token.BalanceOf(d.staking)
            && Registry.Held(w.registry) + w.staking.totalStaked <= w.token.supply <= MAX_UINT256
  {
    DeployedInv(d, owner, ceiling, minStake, lockRequired);
    RunKeepsInv(d, ceiling, Deployed(d, owner, ceiling, minStake, lockRequired), steps);
    var w := Run(d, Deployed(d, owner, ceiling, minStake, lockRequired), steps);
    SumBoundsPair(w.token.balances, d.registry, d.staking);
  }

  /** In every run an unlocked stake can be withdrawn in full: the call never fails for funds. */
  lemma UnstakeSolvent(
    d: Deployment, owner: Address, ceiling: nat, minStake: nat, lockRequired: bool, steps: seq<Step>, env: Env)
    requires d.Valid() && d.Outside(env.sender) && forall step :: step in steps ==> d.Outside(step.env.sender)
    ensures var w := Run(d, Deployed(d, owner, ceiling, minStake, lockRequired), steps);
            var r := Staking.Unstake(w.staking, w.token, d.staking, env);
            var info := w.staking.Stake(env.sender);
            && (r.Returned? <==> info.active && env.timestamp >= info.unlockAt)
            && (r.Returned? ==> r.value.1.BalanceOf(env.sender) == w.token.BalanceOf(env.sender) + info.amount)
  {
    DeployedInv(d, owner, ceiling, minStake, lockRequired);
    RunKeepsInv(d, ceiling, Deployed(d, owner, ceiling, minStake, lockRequired), steps);
    var w := Run(d, Deployed(d, owner, ceiling, minStake, lockRequired), steps);
    var info := w.staking.Stake(env.sender);
    SumBoundsEntry(Staking.Amounts(w.staking), env.sender);
    assert Staking.StakeInv(w.staking, env.sender);
    assert info.active ==> env.sender in w.staking.isStaker;
    var r := Staking.Unstake(w.staking, w.token, d.staking, env);
    if r.Returned? {
      TransferEffect(w.token, d.staking, env.sender, info.amount, r.value.1);
    }
  }

  /** In every run an operator other than the zero address gets the whole remaining stake
      of its node back: the call never fails for funds. */
  lemma DeregisterSolvent(
    d: Deployment, owner: Address, ceiling: nat, minStake: nat, lockRequired: bool, steps: seq<Step>, env: Env,
    n: Bytes32)
    requires d.Valid() && d.Outside(env.sender) && env.sender != ZERO_ADDRESS
    requires forall step :: step in steps ==> d.Outside(step.env.sender)
    ensures var w := Run(d, Deployed(d, owner, ceiling, minStake, lockRequired), steps);
            var r := Registry.DeregisterNode(w.registry, w.token, d.registry, env, n);
            var node := w.registry.Node(n);
            && (r.Returned? <==> node.active && node.operator == env.sender)
            && (r.Returned? ==> r.value.1.BalanceOf(env.sender) == w.token.BalanceOf(env.sender) + node.stakedAmount)
  {
    DeployedInv(d, owner, ceiling, minStake, lockRequired);
    RunKeepsInv(d, ceiling, Deployed(d, owner, ceiling, minStake, lockRequired), steps);
    var w := Run(d, Deployed(d, owner, ceiling, minStake, lockRequired), steps);
    SumBoundsEntry(Registry.Stakes(w.registry), n);
    var r := Registry.DeregisterNode(w.registry, w.token, d.registry, env, n);
    if r.Returned? {
      TransferEffect(w.token, d.registry, env.sender, w.registry.Node(n).stakedAmount, r.value.1);
    }
  }

  /** In every run a mint goes through exactly when the owner executes a stored proposal that
      is neither executed nor cancelled, has three approvals, is 48 hours old and of a session
      not yet minted, and fits under the block's ceiling and into the supply's word. The
      recipient then gets exactly the stored amount, and nobody else's balance moves. */
  lemma MintSolvent(
    d: Deployment, owner: Address, ceiling: nat, minStake: nat, lockRequired: bool, steps: seq<Step>, env: Env,
    id: Bytes32)
    requires d.Valid() && forall step :: step in steps ==> d.Outside(step.env.sender)
    ensures var w := Run(d, Deployed(d, owner, ceiling, minStake, lockRequired), steps);
            var p := w.mining.Proposal(id);
            var r := Mining.ExecuteMint(w.mining, w.token, d.mining, env, id);
            && (r.Returned? <==>
                && env.sender == w.mining.owner && p.proposedAt != 0 && !p.executed && !p.cancelled
                && p.approvals >= 3 && env.timestamp >= p.proposedAt + 172_800
                && p.sessionId !in w.mining.sessionMinted
                && At(w.mining.mintedInBlock, env.number, 0) + p.amount <= w.mining.ceiling
                && w.token.supply + p.amount <= MAX_UINT256)
            && (r.Returned? ==>
                  forall a: Address ::
                    r.value.1.BalanceOf(a) == w.token.BalanceOf(a) + if a == p.recipient then p.amount else 0)
  {
    DeployedInv(d, owner, ceiling, minStake, lockRequired);
    RunKeepsInv(d, ceiling, Deployed(d, owner, ceiling, minStake, lockRequired), steps);
    var w := Run(d, Deployed(d, owner, ceiling, minStake, lockRequired), steps);
    var p := w.mining.Proposal(id);
    if p.proposedAt != 0 {
      Mining.StoredRecipient(ceiling, w.mining, id);
    }
    CallsReturnIff(w.token, d.mining, 0, p.recipient, p.amount);
    var r := Mining.ExecuteMint(w.mining, w.token, d.mining, env, id);
    if r.Returned? {
      MintEffect(w.token, d.mining, p.recipient, p.amount, r.value.1);
    }
  }

  /** In every run a slash succeeds exactly when its own guards hold: the burn is always
      covered, and beyond the guards only the checked arithmetic can stop it, above all for
      a node already slashed 255 times. */
  lemma SlashSolvent(
    d: Deployment, owner: Address, ceiling: nat, minStake: nat, lockRequired: bool, steps: seq<Step>, env: Env,
    id: Bytes32)
    requires d.Valid() && forall step :: step in steps ==> d.Outside(step.env.sender)
    ensures var w := Run(d, Deployed(d, owner, ceiling, minStake, lockRequired), steps);
            var p := w.registry.Proposal(id);
            var node := w.registry.Node(p.nodeId);
            Registry.ExecuteSlash(w.registry, w.token, d.registry, env, id).Returned? <==>
            && env.sender == w.registry.owner
            && !p.executed && !p.vetoed && p.confirmations >= Registry.REQUIRED_CONFIRMATIONS
            && env.timestamp >= p.proposedAt + Registry.VETO_WINDOW
            && node.violationCount < MAX_UINT8
            && node.stakedAmount * Registry.SlashBps(p.reason, node.violationCount) <= MAX_UINT256
  {
    DeployedInv(d, owner, ceiling, minStake, lockRequired);
    RunKeepsInv(d, ceiling, Deployed(d, owner, ceiling, minStake, lockRequired), steps);
    var w := Run(d, Deployed(d, owner, ceiling, minStake, lockRequired), steps);
    var p := w.registry.Proposal(id);
    var node := w.registry.Node(p.nodeId);
    SumBoundsEntry(Registry.Stakes(w.registry), p.nodeId);
    SumBoundsEntry(w.token.balances, d.registry);
    Registry.SlashLeaves(node.stakedAmount, p.reason, node.violationCount);
  }
}
