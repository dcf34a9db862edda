/** Node stakes and consensus-gated slashing: registration, proposals confirmed by
    observers, a 4-hour veto window, and escalating burns of the custodied stake. */
module NodeRegistry {
  import opened Evm
  import opened PrimToken

  const MIN_STAKE: nat := 10_000 * 1_000_000_000_000_000_000
  const VETO_WINDOW: nat := 14_400
  const REQUIRED_CONFIRMATIONS: nat := 2

  datatype RegistryError =
    | NotContractOwner
    | InsufficientStake
    | NodeAlreadyRegistered
    | NodeNotFound
    | NodeNotActive
    | NotOperator
    | AlreadyConfirmed
    | AlreadyExecuted
    | AlreadyVetoed
    | InsufficientConfirmations
    | VetoWindowActive
    | VetoWindowExpired
    | ArithmeticOverflow
    | TransferFailed(cause: TokenError)

  datatype SlashReason = InvalidAttestation | Downtime

  datatype NodeInfo = NodeInfo(
    operator: Address,
    stakedAmount: nat,
    violationCount: nat,
    active: bool,
    registeredAt: nat)

  const NO_NODE := NodeInfo(ZERO_ADDRESS, 0, 0, false, 0)

  datatype SlashProposal = SlashProposal(
    nodeId: Bytes32,
    reason: SlashReason,
    confirmations: nat,
    confirmed: set<Bytes32>,
    proposedAt: nat,
    executed: bool,
    vetoed: bool)

  const NO_PROPOSAL := SlashProposal(0, InvalidAttestation, 0, {}, 0, false, false)

  /** The emitted events; a deregistration also records the stake handed back. */
  datatype Event =
    | NodeRegistered(node: Bytes32, operator: Address, stake: nat)
    | NodeDeregistered(node: Bytes32, operator: Address, returned: nat)
    | SlashProposed(id: Bytes32, node: Bytes32, reason: SlashReason)
    | SlashConfirmed(id: Bytes32, observer: Bytes32)
    | SlashExecuted(id: Bytes32, node: Bytes32, burned: nat)
    | SlashVetoed(id: Bytes32)

  datatype Entry = Entry(timestamp: nat, event: Event)
  type Log = seq<Entry>

  datatype Storage = Storage(
    owner: Address,
    nodes: map<Bytes32, NodeInfo>,
    proposals: map<Bytes32, SlashProposal>,
    log: Log)
  {
    function Node(id: Bytes32): NodeInfo {
      At(nodes, id, NO_NODE)
    }

    function Proposal(id: Bytes32): SlashProposal {
      At(proposals, id, NO_PROPOSAL)
    }

    function Emit(env: Env, event: Event): Storage {
      this.(log := log + [Entry(env.timestamp, event)])
    }
  }

  function Initial(owner: Address): Storage {
    Storage(owner, map[], map[], [])
  }

  /** 10% / 25% / 100% for invalid attestations, a flat 5% for downtime. */
  function SlashBps(reason: SlashReason, violations: nat): nat {
    if reason == Downtime then 500
    else if violations == 0 then 1_000
    else if violations == 1 then 2_500
    else 10_000
  }

  /** The part of a stake that a slash burns, rounded down. */
  function SlashAmount(stake: int, reason: SlashReason, violations: nat): int {
    stake * SlashBps(reason, violations) / 10_000
  }

  /** A slash takes the whole stake of a third invalid attestation and otherwise leaves some. */
  lemma SlashLeaves(stake: nat, reason: SlashReason, violations: nat)
    ensures 0 <= SlashAmount(stake, reason, violations) <= stake
    ensures SlashAmount(stake, reason, violations) == stake <==>
            stake == 0 || (reason == InvalidAttestation && violations >= 2)
  {
  }

  // ----- The calls, as functions of the storage and the ledger -----

  function RegisterNode(s: Storage, l: Ledger, self: Address, env: Env, id: Bytes32, stake: nat)
    : Outcome<(Storage, Ledger), RegistryError>
  {
    var node := s.Node(id);
    if stake < MIN_STAKE then Reverted(InsufficientStake)
    else if node.active then Reverted(NodeAlreadyRegistered)
    else
      match l.TransferFrom(self, env.sender, self, stake)
      case Reverted(e) => Reverted(TransferFailed(e))
      case Returned(l') =>
        // The violation count survives: only the other fields are written.
        var node' := NodeInfo(env.sender, stake, node.violationCount, true, env.timestamp);
        Returned((s.(nodes := s.nodes[id := node']).Emit(env, NodeRegistered(id, env.sender, stake)), l'))
  }

  function DeregisterNode(s: Storage, l: Ledger, self: Address, env: Env, id: Bytes32)
    : Outcome<(Storage, Ledger), RegistryError>
  {
    var node := s.Node(id);
    if !node.active then Reverted(NodeNotActive)
    else if node.operator != env.sender then Reverted(NotOperator)
    else
      match l.Transfer(self, node.operator, node.stakedAmount)
      case Reverted(e) => Reverted(TransferFailed(e))
      case Returned(l') =>
        Returned((s.(nodes := s.nodes[id := node.(active := false, stakedAmount := 0)])
                  .Emit(env, NodeDeregistered(id, node.operator, node.stakedAmount)), l'))
  }

  /** Rewrites the terms and the counter, but neither the confirmations on record nor
      the terminal flags. */
  function ProposeSlash(s: Storage, env: Env, id: Bytes32, target: Bytes32, observer: Bytes32, reason: SlashReason)
    : Outcome<Storage, RegistryError>
  {
    var node, p := s.Node(target), s.Proposal(id);
    if env.sender != s.owner then Reverted(NotContractOwner)
    else if node.operator == ZERO_ADDRESS then Reverted(NodeNotFound)
    else if !node.active then Reverted(NodeNotActive)
    else
      var p' := p.(nodeId := target, reason := reason, proposedAt := env.timestamp, confirmations := 1,
                   confirmed := p.confirmed + {observer});
      Returned(s.(proposals := s.proposals[id := p'])
               .Emit(env, SlashProposed(id, target, reason)).Emit(env, SlashConfirmed(id, observer)))
  }

  /** There is no existence check: an id never proposed can be confirmed. */
  function ConfirmSlash(s: Storage, env: Env, id: Bytes32, observer: Bytes32): Outcome<Storage, RegistryError> {
    var p := s.Proposal(id);
    if env.sender != s.owner then Reverted(NotContractOwner)
    else if p.executed then Reverted(AlreadyExecuted)
    else if p.vetoed then Reverted(AlreadyVetoed)
    else if observer in p.confirmed then Reverted(AlreadyConfirmed)
    else if p.confirmations >= MAX_UINT8 then Reverted(ArithmeticOverflow)
    else
      var p' := p.(confirmed := p.confirmed + {observer}, confirmations := p.confirmations + 1);
      Returned(s.(proposals := s.proposals[id := p']).Emit(env, SlashConfirmed(id, observer)))
  }

  function ExecuteSlash(s: Storage, l: Ledger, self: Address, env: Env, id: Bytes32)
    : Outcome<(Storage, Ledger), RegistryError>
  {
    var p := s.Proposal(id);
    var node := s.Node(p.nodeId);
    var burned := SlashAmount(node.stakedAmount, p.reason, node.violationCount);
    SlashLeaves(node.stakedAmount, p.reason, node.violationCount);
    if env.sender != s.owner then Reverted(NotContractOwner)
    else if p.executed then Reverted(AlreadyExecuted)
    else if p.vetoed then Reverted(AlreadyVetoed)
    else if p.confirmations < REQUIRED_CONFIRMATIONS then Reverted(InsufficientConfirmations)
    else if env.timestamp < p.proposedAt + VETO_WINDOW then Reverted(VetoWindowActive)
    else if node.stakedAmount * SlashBps(p.reason, node.violationCount) > MAX_UINT256 then Reverted(ArithmeticOverflow)
    else if node.violationCount >= MAX_UINT8 then Reverted(ArithmeticOverflow)
    else
      match l.Burn(self, self, burned)
      case Reverted(e) => Reverted(TransferFailed(e))
      case Returned(l') =>
        var out := p.reason == InvalidAttestation && node.violationCount >= 2;
        var node' := node.(stakedAmount := node.stakedAmount - burned, violationCount := node.violationCount + 1,
                           active := node.active && !out);
        var s' := s.(nodes := s.nodes[p.nodeId := node'], proposals := s.proposals[id := p.(executed := true)]);
        var s'' := if out then s'.Emit(env, NodeDeregistered(p.nodeId, node.operator, 0)) else s';
        Returned((s''.Emit(env, SlashExecuted(id, p.nodeId, burned)), l'))
  }

  function VetoSlash(s: Storage, env: Env, id: Bytes32): Outcome<Storage, RegistryError> {
    var p := s.Proposal(id);
    if env.sender != s.owner then Reverted(NotContractOwner)
    else if p.executed then Reverted(AlreadyExecuted)
    else if env.timestamp > p.proposedAt + VETO_WINDOW then Reverted(VetoWindowExpired)
    else Returned(s.(proposals := s.proposals[id := p.(vetoed := true)]).Emit(env, SlashVetoed(id)))
  }

  datatype Call =
    | CallRegisterNode(node: Bytes32, stake: nat)
    | CallDeregisterNode(node: Bytes32)
    | CallProposeSlash(id: Bytes32, target: Bytes32, observer: Bytes32, reason: SlashReason)
    | CallConfirmSlash(id: Bytes32, observer: Bytes32)
    | CallExecuteSlash(id: Bytes32)
    | CallVetoSlash(id: Bytes32)

  function Perform(s: Storage, l: Ledger, self: Address, env: Env, call: Call)
    : Outcome<(Storage, Ledger), RegistryError>
  {
    match call
    case CallRegisterNode(node, stake) => RegisterNode(s, l, self, env, node, stake)
    case CallDeregisterNode(node) => DeregisterNode(s, l, self, env, node)
    case CallProposeSlash(id, target, observer, reason) => Beside(ProposeSlash(s, env, id, target, observer, reason), l)
    case CallConfirmSlash(id, observer) => Beside(ConfirmSlash(s, env, id, observer), l)
    case CallExecuteSlash(id) => ExecuteSlash(s, l, self, env, id)
    case CallVetoSlash(id) => Beside(VetoSlash(s, env, id), l)
  }

  // ----- What the log alone says -----

  /** What the logged events leave staked for a node: deposits, less what was handed back
      and what was burned. */
  function StakeIn(log: Log, node: Bytes32): int {
    if log == [] then 0 else
    StakeIn(log[..|log| - 1], node) + StakeChange(log[|log| - 1].event, node)
  }

  function StakeChange(event: Event, node: Bytes32): int {
    if event.NodeRegistered? && event.node == node then event.stake
    else if event.NodeDeregistered? && event.node == node then 0 - event.returned
    else if event.SlashExecuted? && event.node == node then 0 - event.burned
    else 0
  }

  /** How often a node was slashed, over all its registrations. */
  function ViolationsIn(log: Log, node: Bytes32): nat {
    if log == [] then 0 else
    var last := log[|log| - 1].event;
    ViolationsIn(log[..|log| - 1], node) + if last.SlashExecuted? && last.node == node then 1 else 0
  }

  /** Everything deposited, handed back and burned. */
  function Flows(log: Log): (int, int, int) {
    if log == [] then (0, 0, 0) else
    var (deposited, returned, burned) := Flows(log[..|log| - 1]);
    match log[|log| - 1].event
    case NodeRegistered(_, _, x) => (deposited + x, returned, burned)
    case NodeDeregistered(_, _, x) => (deposited, returned + x, burned)
    case SlashExecuted(_, _, x) => (deposited, returned, burned + x)
    case _ => (deposited, returned, burned)
  }

  /** Where the terms of a proposal were last written, or -1. */
  function LastWrite(log: Log, id: Bytes32): (w: int)
    ensures -1 <= w < |log|
    ensures w >= 0 ==> log[w].event.SlashProposed? && log[w].event.id == id
    ensures forall k :: w < k < |log| && log[k].event.SlashProposed? ==> log[k].event.id != id
  {
    if log == [] then -1 else
    var last := log[|log| - 1].event;
    if last.SlashProposed? && last.id == id then |log| - 1
    else
      var before := log[..|log| - 1];
      assert forall k :: 0 <= k < |before| ==> before[k] == log[k];
      LastWrite(before, id)
  }

  ghost function ObserversAfter(log: Log, id: Bytes32, w: int): set<Bytes32> {
    set k | 0 <= k < |log| && w < k && log[k].event.SlashConfirmed? && log[k].event.id == id :: log[k].event.observer
  }

  ghost predicate ExecutedIn(log: Log, id: Bytes32) {
    exists k :: 0 <= k < |log| && log[k].event.SlashExecuted? && log[k].event.id == id
  }

  ghost predicate VetoedIn(log: Log, id: Bytes32) {
    exists k :: 0 <= k < |log| && log[k].event.SlashVetoed? && log[k].event.id == id
  }

  /** What a proposal id stands for: the last written terms, or the zero values of an id
      that was never proposed. */
  function Terms(log: Log, id: Bytes32): (Bytes32, SlashReason, nat) {
    var w := LastWrite(log, id);
    if w < 0 then (0, InvalidAttestation, 0)
    else (log[w].event.node, log[w].event.reason, log[w].timestamp)
  }

  /** What entitles an entry to follow a log. */
  ghost predicate Justified(log: Log, entry: Entry) {
    match entry.event
    case SlashExecuted(id, node, burned) =>
      var (target, reason, since) := Terms(log, id);
      && node == target
      && since + VETO_WINDOW <= entry.timestamp
      && |ObserversAfter(log, id, LastWrite(log, id))| >= REQUIRED_CONFIRMATIONS
      && !ExecutedIn(log, id) && !VetoedIn(log, id)
      && burned == SlashAmount(StakeIn(log, node), reason, ViolationsIn(log, node))
    case SlashVetoed(id) => !ExecutedIn(log, id) && entry.timestamp <= Terms(log, id).2 + VETO_WINDOW
    case NodeRegistered(node, _, _) => StakeIn(log, node) == 0
    case _ => true
  }

  ghost predicate History(log: Log) {
    log == [] || (History(log[..|log| - 1]) && Justified(log[..|log| - 1], log[|log| - 1]))
  }

  // ----- The invariant -----

  ghost function Stakes(s: Storage): map<Bytes32, nat> {
    map n | n in s.nodes :: s.nodes[n].stakedAmount
  }

  /** The stake of all nodes together. */
  ghost function Held(s: Storage): nat {
    Sum(Stakes(s))
  }

  ghost predicate NodeInv(s: Storage, n: Bytes32) {
    var node := s.Node(n);
    && (node.active <==> node.stakedAmount > 0)
    && node.stakedAmount == StakeIn(s.log, n)
    && node.violationCount == ViolationsIn(s.log, n) <= MAX_UINT8
  }

  ghost predicate ProposalInv(s: Storage, id: Bytes32) {
    var p, w := s.Proposal(id), LastWrite(s.log, id);
    && (p.nodeId, p.reason, p.proposedAt) == Terms(s.log, id)
    && ObserversAfter(s.log, id, w) <= p.confirmed
    && |ObserversAfter(s.log, id, w)| == p.confirmations
    && (p.executed <==> ExecutedIn(s.log, id))
    && (p.vetoed <==> VetoedIn(s.log, id))
  }

  ghost predicate Conserved(s: Storage) {
    var (deposited, returned, burned) := Flows(s.log);
    deposited == returned + burned + Held(s)
  }

  ghost predicate Inv(s: Storage) {
    && (forall n :: NodeInv(s, n))
    && (forall id :: ProposalInv(s, id))
    && Conserved(s)
    && History(s.log)
  }

  // ----- Every call keeps the invariant -----

  lemma Appended(log: Log, e: Entry)
    ensures Flows(log + [e]) == match e.event
                                case NodeRegistered(_, _, x) => (Flows(log).0 + x, Flows(log).1, Flows(log).2)
                                case NodeDeregistered(_, _, x) => (Flows(log).0, Flows(log).1 + x, Flows(log).2)
                                case SlashExecuted(_, _, x) => (Flows(log).0, Flows(log).1, Flows(log).2 + x)
                                case _ => Flows(log)
    ensures History(log + [e]) <==> History(log) && Justified(log, e)
  {
    assert (log + [e])[..|log|] == log;
  }

  /** An event about another node leaves a node's stake and violations. */
  lemma AppendedForNode(log: Log, e: Entry, n: Bytes32)
    ensures StakeIn(log + [e], n) == StakeIn(log, n) + StakeChange(e.event, n)
    ensures ViolationsIn(log + [e], n) ==
            ViolationsIn(log, n) + if e.event.SlashExecuted? && e.event.node == n then 1 else 0
  {
    assert (log + [e])[..|log|] == log;
  }

  lemma AppendedForProposal(log: Log, e: Entry, id: Bytes32)
    ensures e.event.SlashProposed? && e.event.id == id ==>
              && LastWrite(log + [e], id) == |log|
              && ObserversAfter(log + [e], id, |log|) == {}
              && Terms(log + [e], id) == (e.event.node, e.event.reason, e.timestamp)
    ensures !(e.event.SlashProposed? && e.event.id == id) ==>
              && LastWrite(log + [e], id) == LastWrite(log, id)
              && Terms(log + [e], id) == Terms(log, id)
              && ObserversAfter(log + [e], id, LastWrite(log, id)) ==
                 ObserversAfter(log, id, LastWrite(log, id)) +
                 if e.event.SlashConfirmed? && e.event.id == id then {e.event.observer} else {}
    ensures ExecutedIn(log + [e], id) <==> ExecutedIn(log, id) || (e.event.SlashExecuted? && e.event.id == id)
    ensures VetoedIn(log + [e], id) <==> VetoedIn(log, id) || (e.event.SlashVetoed? && e.event.id == id)
  {
    var log' := log + [e];
    assert log'[..|log|] == log && log'[|log|] == e;
    assert forall k :: 0 <= k < |log| ==> log'[k] == log[k];
    if ExecutedIn(log, id) {
      var k :| 0 <= k < |log| && log[k].event.SlashExecuted? && log[k].event.id == id;
      assert log'[k] == log[k];
    }
    if VetoedIn(log, id) {
      var k :| 0 <= k < |log| && log[k].event.SlashVetoed? && log[k].event.id == id;
      assert log'[k] == log[k];
    }
    if !(e.event.SlashProposed? && e.event.id == id) {
      var w := LastWrite(log, id);
      var extra := if e.event.SlashConfirmed? && e.event.id == id then {e.event.observer} else {};
      forall o ensures o in ObserversAfter(log', id, w) <==> o in ObserversAfter(log, id, w) + extra {
        if o in ObserversAfter(log, id, w) {
          var k :| 0 <= k < |log| && w < k && log[k].event.SlashConfirmed? && log[k].event.id == id
            && log[k].event.observer == o;
          assert log'[k] == log[k];
        }
      }
    }
  }

  /** Writing one node changes what is held by the change of its stake. */
  lemma HeldWrite(s: Storage, s': Storage, n: Bytes32, node: NodeInfo)
    requires s'.nodes == s.nodes[n := node]
    ensures Held(s') == Held(s) - s.Node(n).stakedAmount + node.stakedAmount
    ensures s.Node(n).stakedAmount <= Held(s)
  {
    assert Stakes(s') == Stakes(s)[n := node.stakedAmount];
    SumWrite(Stakes(s), n, node.stakedAmount);
    SumBoundsEntry(Stakes(s), n);
  }

  /** An event that moves no stake keeps every node. */
  lemma NodesKept(s: Storage, s': Storage, e: Entry)
    requires forall n :: NodeInv(s, n)
    requires s'.nodes == s.nodes && s'.log == s.log + [e]
    requires forall n :: StakeChange(e.event, n) == 0
    requires !e.event.SlashExecuted?
    ensures forall n :: NodeInv(s', n)
  {
    forall n ensures NodeInv(s', n) {
      assert NodeInv(s, n);
      AppendedForNode(s.log, e, n);
    }
  }

  /** Whether an event concerns a slash proposal. */
  predicate About(event: Event, id: Bytes32) {
    !event.NodeRegistered? && !event.NodeDeregistered? && event.id == id
  }

  /** An event about something else keeps a proposal. */
  lemma ProposalKept(s: Storage, s': Storage, e: Entry, id: Bytes32)
    requires ProposalInv(s, id) && !About(e.event, id)
    requires s'.Proposal(id) == s.Proposal(id) && s'.log == s.log + [e]
    ensures ProposalInv(s', id)
  {
    AppendedForProposal(s.log, e, id);
  }

  lemma RegisterKeepsInv(
    s: Storage, l: Ledger, self: Address, env: Env, n: Bytes32, stake: nat, s': Storage, l': Ledger)
    requires Inv(s) && RegisterNode(s, l, self, env, n, stake) == Returned((s', l'))
    ensures Inv(s') && Held(s') == Held(s) + stake && Flows(s'.log).2 == Flows(s.log).2
  {
    var e := Entry(env.timestamp, NodeRegistered(n, env.sender, stake));
    assert NodeInv(s, n);
    Appended(s.log, e);
    HeldWrite(s, s', n, s'.Node(n));
    forall m ensures NodeInv(s', m) {
      assert NodeInv(s, m);
      AppendedForNode(s.log, e, m);
    }
    forall id ensures ProposalInv(s', id) {
      ProposalKept(s, s', e, id);
    }
  }

  lemma DeregisterKeepsInv(s: Storage, l: Ledger, self: Address, env: Env, n: Bytes32, s': Storage, l': Ledger)
    requires Inv(s) && DeregisterNode(s, l, self, env, n) == Returned((s', l'))
    ensures Inv(s') && Held(s') == Held(s) - s.Node(n).stakedAmount && Flows(s'.log).2 == Flows(s.log).2
  {
    var e := Entry(env.timestamp, NodeDeregistered(n, s.Node(n).operator, s.Node(n).stakedAmount));
    assert NodeInv(s, n);
    Appended(s.log, e);
    HeldWrite(s, s', n, s'.Node(n));
    forall m ensures NodeInv(s', m) {
      assert NodeInv(s, m);
      AppendedForNode(s.log, e, m);
    }
    forall id ensures ProposalInv(s', id) {
      ProposalKept(s, s', e, id);
    }
  }

  /** A confirmation by an observer not on record counts one more observer. */
  lemma ConfirmationCounted(s: Storage, s': Storage, e: Entry, id: Bytes32)
    requires Inv(s) && e.event.SlashConfirmed? && e.event.id == id
    requires e.event.observer !in ObserversAfter(s.log, id, LastWrite(s.log, id))
    requires var p := s.Proposal(id);
             s' == s.(log := s.log + [e],
                      proposals := s.proposals[id := p.(confirmed := p.confirmed + {e.event.observer},
                                                        confirmations := p.confirmations + 1)])
    ensures Inv(s') && Held(s') == Held(s) && Flows(s'.log) == Flows(s.log)
  {
    Appended(s.log, e);
    NodesKept(s, s', e);
    assert Stakes(s') == Stakes(s);
    forall other ensures ProposalInv(s', other) {
      assert ProposalInv(s, other);
      if other == id {
        AppendedForProposal(s.log, e, id);
      } else {
        ProposalKept(s, s', e, other);
      }
    }
  }

  lemma ConfirmKeepsInv(s: Storage, env: Env, id: Bytes32, observer: Bytes32, s': Storage)
    requires Inv(s) && ConfirmSlash(s, env, id, observer) == Returned(s')
    ensures Inv(s') && Held(s') == Held(s) && Flows(s'.log) == Flows(s.log)
  {
    assert ProposalInv(s, id);
    ConfirmationCounted(s, s', Entry(env.timestamp, SlashConfirmed(id, observer)), id);
  }

  /** Rewriting the terms of a proposal leaves nobody confirming them. */
  lemma TermsRewritten(s: Storage, s': Storage, e: Entry, id: Bytes32)
    requires Inv(s) && e.event.SlashProposed? && e.event.id == id
    requires s' == s.(log := s.log + [e],
                      proposals := s.proposals[id := s.Proposal(id).(nodeId := e.event.node, reason := e.event.reason,
                                                                     proposedAt := e.timestamp, confirmations := 0)])
    ensures Inv(s') && Held(s') == Held(s) && Flows(s'.log) == Flows(s.log)
    ensures ObserversAfter(s'.log, id, LastWrite(s'.log, id)) == {}
  {
    Appended(s.log, e);
    NodesKept(s, s', e);
    assert Stakes(s') == Stakes(s);
    AppendedForProposal(s.log, e, id);
    forall other ensures ProposalInv(s', other) {
      assert ProposalInv(s, other);
      if other != id {
        ProposalKept(s, s', e, other);
      }
    }
  }

  lemma ProposeKeepsInv(
    s: Storage, env: Env, id: Bytes32, target: Bytes32, observer: Bytes32, reason: SlashReason, s': Storage)
    requires Inv(s) && ProposeSlash(s, env, id, target, observer, reason) == Returned(s')
    ensures Inv(s') && Held(s') == Held(s) && Flows(s'.log) == Flows(s.log)
  {
    var e := Entry(env.timestamp, SlashProposed(id, target, reason));
    var p := s.Proposal(id).(nodeId := target, reason := reason, proposedAt := env.timestamp, confirmations := 0);
    var mid := s.(log := s.log + [e], proposals := s.proposals[id := p]);
    TermsRewritten(s, mid, e, id);
    var p' := p.(confirmed := p.confirmed + {observer}, confirmations := 1);
    assert s'.proposals == mid.proposals[id := p'];
    ConfirmationCounted(mid, s', Entry(env.timestamp, SlashConfirmed(id, observer)), id);
  }

  lemma VetoKeepsInv(s: Storage, env: Env, id: Bytes32, s': Storage)
    requires Inv(s) && VetoSlash(s, env, id) == Returned(s')
    ensures Inv(s') && Held(s') == Held(s) && Flows(s'.log) == Flows(s.log)
  {
    var e := Entry(env.timestamp, SlashVetoed(id));
    assert ProposalInv(s, id);
    Appended(s.log, e);
    NodesKept(s, s', e);
    assert Stakes(s') == Stakes(s);
    forall other ensures ProposalInv(s', other) {
      assert ProposalInv(s, other);
      if other == id {
        AppendedForProposal(s.log, e, id);
      } else {
        ProposalKept(s, s', e, other);
      }
    }
  }

  /** A full slash also logs a deregistration that hands nothing back: it changes no reading. */
  lemma EmptyDeregistration(s: Storage, e: Entry)
    requires Inv(s) && e.event.NodeDeregistered? && e.event.returned == 0
    ensures Inv(s.(log := s.log + [e])) && Flows(s.log + [e]) == Flows(s.log)
  {
    var s' := s.(log := s.log + [e]);
    Appended(s.log, e);
    NodesKept(s, s', e);
    assert Stakes(s') == Stakes(s);
    forall id ensures ProposalInv(s', id) {
      ProposalKept(s, s', e, id);
    }
  }

  /** Burning part of a stake as the terms say keeps the invariant. */
  lemma SlashCounted(s: Storage, s': Storage, e: Entry, id: Bytes32)
    requires Inv(s) && e.event.SlashExecuted? && e.event.id == id && Justified(s.log, e)
    requires s.Node(e.event.node).violationCount < MAX_UINT8
    requires s'.log == s.log + [e] && s'.proposals == s.proposals[id := s.Proposal(id).(executed := true)]
    requires var n, node := e.event.node, s.Node(e.event.node);
             && e.event.burned <= node.stakedAmount
             && s'.nodes == s.nodes[n := node.(stakedAmount := node.stakedAmount - e.event.burned,
                                               violationCount := node.violationCount + 1,
                                               active := e.event.burned < node.stakedAmount)]
    ensures Inv(s') && Held(s') == Held(s) - e.event.burned
    ensures Flows(s'.log).2 == Flows(s.log).2 + e.event.burned
  {
    var n := e.event.node;
    Appended(s.log, e);
    HeldWrite(s, s', n, s'.Node(n));
    forall m ensures NodeInv(s', m) {
      assert NodeInv(s, m);
      AppendedForNode(s.log, e, m);
    }
    forall other ensures ProposalInv(s', other) {
      assert ProposalInv(s, other);
      if other == id {
        AppendedForProposal(s.log, e, id);
      } else {
        ProposalKept(s, s', e, other);
      }
    }
  }

  /** The guards of an execution are what entitles its event to the log. */
  lemma SlashJustified(s: Storage, e: Entry, id: Bytes32)
    requires ProposalInv(s, id) && NodeInv(s, s.Proposal(id).nodeId)
    requires var p := s.Proposal(id);
             var node := s.Node(p.nodeId);
             && !p.executed && !p.vetoed && p.confirmations >= REQUIRED_CONFIRMATIONS
             && p.proposedAt + VETO_WINDOW <= e.timestamp
             && SlashAmount(node.stakedAmount, p.reason, node.violationCount) >= 0
             && e.event == SlashExecuted(id, p.nodeId, SlashAmount(node.stakedAmount, p.reason, node.violationCount))
    ensures Justified(s.log, e)
  {
  }

  /** What a successful execution found and what it wrote. */
  ghost predicate Slashed(s: Storage, env: Env, id: Bytes32, burned: nat, s': Storage) {
    var p := s.Proposal(id);
    var node := s.Node(p.nodeId);
    && !p.executed && !p.vetoed && p.confirmations >= REQUIRED_CONFIRMATIONS
    && p.proposedAt + VETO_WINDOW <= env.timestamp && node.violationCount < MAX_UINT8
    && burned == SlashAmount(node.stakedAmount, p.reason, node.violationCount)
    && burned <= node.stakedAmount
    && s' == s.(nodes := s.nodes[p.nodeId := node.(stakedAmount := node.stakedAmount - burned,
                                                   violationCount := node.violationCount + 1,
                                                   active := burned < node.stakedAmount)],
                proposals := s.proposals[id := p.(executed := true)],
                log := LogBefore(s, env, id) + [Entry(env.timestamp, SlashExecuted(id, p.nodeId, burned))])
  }

  /** The log right before the execution event: a full slash logs a deregistration first. */
  ghost function LogBefore(s: Storage, env: Env, id: Bytes32): Log {
    var p := s.Proposal(id);
    var node := s.Node(p.nodeId);
    if p.reason == InvalidAttestation && node.violationCount >= 2
    then s.log + [Entry(env.timestamp, NodeDeregistered(p.nodeId, node.operator, 0))]
    else s.log
  }

  lemma ExecuteSlashes(s: Storage, l: Ledger, self: Address, env: Env, id: Bytes32, s': Storage, l': Ledger)
    returns (burned: nat)
    requires NodeInv(s, s.Proposal(id).nodeId) && ExecuteSlash(s, l, self, env, id) == Returned((s', l'))
    ensures Slashed(s, env, id, burned, s') && l.Burn(self, self, burned) == Returned(l')
  {
    var node := s.Node(s.Proposal(id).nodeId);
    SlashLeaves(node.stakedAmount, s.Proposal(id).reason, node.violationCount);
    burned := SlashAmount(node.stakedAmount, s.Proposal(id).reason, node.violationCount);
  }

  lemma LogBeforeKeepsInv(s: Storage, env: Env, id: Bytes32)
    requires Inv(s)
    ensures var s0 := s.(log := LogBefore(s, env, id));
            Inv(s0) && Held(s0) == Held(s) && Flows(s0.log) == Flows(s.log)
  {
    var p := s.Proposal(id);
    var node := s.Node(p.nodeId);
    assert Stakes(s.(log := LogBefore(s, env, id))) == Stakes(s);
    if p.reason == InvalidAttestation && node.violationCount >= 2 {
      EmptyDeregistration(s, Entry(env.timestamp, NodeDeregistered(p.nodeId, node.operator, 0)));
    }
  }

  lemma SlashedKeepsInv(s: Storage, env: Env, id: Bytes32, burned: nat, s': Storage)
    requires Inv(s) && Slashed(s, env, id, burned, s')
    ensures Inv(s') && Held(s') == Held(s) - burned && Flows(s'.log).2 == Flows(s.log).2 + burned
  {
    LogBeforeKeepsInv(s, env, id);
    var s0 := s.(log := LogBefore(s, env, id));
    var e := Entry(env.timestamp, SlashExecuted(id, s.Proposal(id).nodeId, burned));
    assert ProposalInv(s0, id) && NodeInv(s0, s.Proposal(id).nodeId);
    SlashJustified(s0, e, id);
    SlashCounted(s0, s', e, id);
  }

  lemma ExecuteKeepsInv(s: Storage, l: Ledger, self: Address, env: Env, id: Bytes32, s': Storage, l': Ledger)
    returns (burned: nat)
    requires Inv(s) && ExecuteSlash(s, l, self, env, id) == Returned((s', l'))
    ensures Inv(s') && Held(s') == Held(s) - burned && Flows(s'.log).2 == Flows(s.log).2 + burned
    ensures l.Burn(self, self, burned) == Returned(l')
  {
    assert NodeInv(s, s.Proposal(id).nodeId);
    burned := ExecuteSlashes(s, l, self, env, id, s', l');
    SlashedKeepsInv(s, env, id, burned, s');
  }

  lemma PerformKeepsInv(s: Storage, l: Ledger, self: Address, env: Env, call: Call, s': Storage, l': Ledger)
    requires Inv(s) && Perform(s, l, self, env, call) == Returned((s', l'))
    ensures Inv(s') && s'.owner == s.owner
  {
    match call
    case CallRegisterNode(n, stake) => RegisterKeepsInv(s, l, self, env, n, stake, s', l');
    case CallDeregisterNode(n) => DeregisterKeepsInv(s, l, self, env, n, s', l');
    case CallProposeSlash(id, target, observer, reason) => ProposeKeepsInv(s, env, id, target, observer, reason, s');
    case CallConfirmSlash(id, observer) => ConfirmKeepsInv(s, env, id, observer, s');
    case CallExecuteSlash(id) => var _ := ExecuteKeepsInv(s, l, self, env, id, s', l');
    case CallVetoSlash(id) => VetoKeepsInv(s, env, id, s');
  }

  lemma InitialInv(owner: Address)
    ensures Inv(Initial(owner)) && Held(Initial(owner)) == 0 && Flows(Initial(owner).log) == (0, 0, 0)
  {
    var s := Initial(owner);
    forall n ensures NodeInv(s, n) {
    }
    forall id ensures ProposalInv(s, id) {
    }
  }

  // ----- Whole runs -----

  /** One call with the block it runs in and the token ledger it finds there. */
  datatype Step = Step(env: Env, ledger: Ledger, call: Call)

  function Next(s: Storage, self: Address, step: Step): Storage {
    match Perform(s, step.ledger, self, step.env, step.call)
    case Reverted(_) => s
    case Returned(next) => next.0
  }

  function Run(owner: Address, self: Address, steps: seq<Step>): Storage {
    if steps == [] then Initial(owner) else Next(Run(owner, self, steps[..|steps| - 1]), self, steps[|steps| - 1])
  }

  lemma {:induction false} RunKeepsInv(owner: Address, self: Address, steps: seq<Step>)
    ensures Inv(Run(owner, self, steps))
  {
    if steps == [] {
      InitialInv(owner);
    } else {
      var step := steps[|steps| - 1];
      RunKeepsInv(owner, self, steps[..|steps| - 1]);
      var mid := Run(owner, self, steps[..|steps| - 1]);
      match Perform(mid, step.ledger, self, step.env, step.call)
      case Reverted(_) =>
      case Returned(next) => PerformKeepsInv(mid, step.ledger, self, step.env, step.call, next.0, next.1);
    }
  }

  lemma {:induction false} HistoryAt(log: Log, i: nat)
    requires History(log) && i < |log|
    ensures Justified(log[..i], log[i])
  {
    if i < |log| - 1 {
      HistoryAt(log[..|log| - 1], i);
      assert log[..|log| - 1][..i] == log[..i];
    }
  }

  /** Who confirmed a proposal between two positions. */
  ghost function ObserversBetween(log: Log, id: Bytes32, w: int, i: int): set<Bytes32>
    requires i <= |log|
  {
    set k | 0 <= k < i && w < k && log[k].event.SlashConfirmed? && log[k].event.id == id :: log[k].event.observer
  }

  /** The execution at `i` follows the terms written at `w` (-1 for terms never written),
      which nothing rewrote since, 4 hours later, confirmed by two distinct observers. */
  ghost predicate ConfirmedSince(log: Log, w: int, i: int)
    requires -1 <= w < i < |log| && log[i].event.SlashExecuted?
  {
    var x := log[i].event;
    && (w >= 0 ==> log[w].event.SlashProposed? && log[w].event.id == x.id && log[w].event.node == x.node)
    && (w == -1 ==> x.node == 0)
    && (forall k :: w < k < i && log[k].event.SlashProposed? ==> log[k].event.id != x.id)
    && (if w >= 0 then log[w].timestamp else 0) + VETO_WINDOW <= log[i].timestamp
    && |ObserversBetween(log, x.id, w, i)| >= REQUIRED_CONFIRMATIONS
  }

  /** In every run each executed slash had two distinct observers behind its current terms
      and waited out the veto window since they were written. */
  lemma EverySlashConfirmed(owner: Address, self: Address, steps: seq<Step>, i: nat)
    requires var log := Run(owner, self, steps).log; i < |log| && log[i].event.SlashExecuted?
    ensures var log := Run(owner, self, steps).log;
            exists w :: -1 <= w < i && ConfirmedSince(log, w, i)
  {
    RunKeepsInv(owner, self, steps);
    var log := Run(owner, self, steps).log;
    HistoryAt(log, i);
    var id, before := log[i].event.id, log[..i];
    var w := LastWrite(before, id);
    assert forall k :: 0 <= k < i ==> before[k] == log[k];
    forall o ensures o in ObserversAfter(before, id, w) ==> o in ObserversBetween(log, id, w, i) {
      if o in ObserversAfter(before, id, w) {
        var k :| 0 <= k < i && w < k && before[k].event.SlashConfirmed? && before[k].event.id == id
          && before[k].event.observer == o;
        assert log[k] == before[k];
      }
    }
    forall o ensures o in ObserversBetween(log, id, w, i) ==> o in ObserversAfter(before, id, w) {
      if o in ObserversBetween(log, id, w, i) {
        var k :| 0 <= k < i && w < k && log[k].event.SlashConfirmed? && log[k].event.id == id
          && log[k].event.observer == o;
        assert log[k] == before[k];
      }
    }
    assert ObserversAfter(before, id, w) == ObserversBetween(log, id, w, i);
    assert ConfirmedSince(log, w, i);
  }

  /** In every run no proposal id is executed twice, or both executed and vetoed, in
      either order and whatever is proposed under it again. */
  lemma SlashTerminal(owner: Address, self: Address, steps: seq<Step>, i: nat, j: nat)
    requires var log := Run(owner, self, steps).log;
             && i < |log| && j < |log| && i != j
             && log[i].event.SlashExecuted? && (log[j].event.SlashExecuted? || log[j].event.SlashVetoed?)
    ensures var log := Run(owner, self, steps).log; log[i].event.id != log[j].event.id
  {
    RunKeepsInv(owner, self, steps);
    var log := Run(owner, self, steps).log;
    if i < j {
      HistoryAt(log, j);
      assert log[..j][i] == log[i];
    } else {
      HistoryAt(log, i);
      assert log[..i][j] == log[j];
    }
  }

  /** In every run: stake is deposited = handed back + burned + held, for all nodes and for
      each; a node is active exactly while it holds stake; violations are never forgotten,
      and nothing is slashed more than 255 times. */
  lemma StakeConserved(owner: Address, self: Address, steps: seq<Step>, n: Bytes32)
    ensures var s := Run(owner, self, steps);
            var (deposited, returned, burned) := Flows(s.log);
            && deposited == returned + burned + Held(s)
            && s.Node(n).stakedAmount == StakeIn(s.log, n)
            && (s.Node(n).active <==> s.Node(n).stakedAmount > 0)
            && s.Node(n).violationCount == ViolationsIn(s.log, n) <= MAX_UINT8
  {
    RunKeepsInv(owner, self, steps);
    assert NodeInv(Run(owner, self, steps), n);
  }

  /** In every run a registration finds no live stake. An executed slash burns a twentieth of
      the stake for downtime, and for an invalid attestation a tenth, a quarter and then all
      of it, by the number of earlier slashes. */
  lemma SlashEscalates(owner: Address, self: Address, steps: seq<Step>, i: nat)
    requires i < |Run(owner, self, steps).log|
    ensures var log := Run(owner, self, steps).log;
            && (log[i].event.NodeRegistered? ==> StakeIn(log[..i], log[i].event.node) == 0)
            && (log[i].event.SlashExecuted? ==>
                  var (node, reason, _) := Terms(log[..i], log[i].event.id);
                  && node == log[i].event.node
                  && var x, earlier := StakeIn(log[..i], node), ViolationsIn(log[..i], node);
                  && log[i].event.burned == if reason == Downtime then x / 20
                                            else if earlier == 0 then x / 10
                                            else if earlier == 1 then x / 4
                                            else x)
  {
    RunKeepsInv(owner, self, steps);
    HistoryAt(Run(owner, self, steps).log, i);
  }

  /** Registering and deregistering undo each other: the same caller gets exactly its tokens
      back, and nobody else's balance moves. */
  lemma RegisterRoundTrip(
    s: Storage, l: Ledger, self: Address, env: Env, env': Env, n: Bytes32, stake: nat, s': Storage, l': Ledger)
    requires self != ZERO_ADDRESS && env.sender != self && env'.sender == env.sender
    requires RegisterNode(s, l, self, env, n, stake) == Returned((s', l'))
    ensures var back := DeregisterNode(s', l', self, env', n);
            && back.Returned? && !back.value.0.Node(n).active
            && forall a: Address :: back.value.1.BalanceOf(a) == l.BalanceOf(a)
  {
    TransferFromEffect(l, self, env.sender, self, stake, l');
    var back := DeregisterNode(s', l', self, env', n);
    assert l'.BalanceOf(self) >= stake;
    TransferEffect(l', self, env.sender, stake, back.value.1);
  }

  /** Not every executed slash was proposed: two confirmations of an untouched id are
      enough, and burn part of the stake of the node whose id is zero. */
  lemma UnproposedSlash(s: Storage, l: Ledger, self: Address, id: Bytes32, a: Bytes32, b: Bytes32, now: nat)
    requires id !in s.proposals && a != b && now >= VETO_WINDOW && s.Node(0).violationCount < MAX_UINT8
    requires s.Node(0).stakedAmount * 10_000 <= MAX_UINT256 && s.Node(0).stakedAmount <= l.BalanceOf(self)
    requires l.burner == self != ZERO_ADDRESS && l.BalanceOf(self) <= l.supply
    ensures var env := Env(s.owner, now, 0);
            var s1 := Next(s, self, Step(env, l, CallConfirmSlash(id, a)));
            var s2 := Next(s1, self, Step(env, l, CallConfirmSlash(id, b)));
            var s3 := Next(s2, self, Step(env, l, CallExecuteSlash(id)));
            && ExecutedIn(s3.log, id)
            && s3.Node(0).stakedAmount ==
               s.Node(0).stakedAmount -
               SlashAmount(s.Node(0).stakedAmount, InvalidAttestation, s.Node(0).violationCount)
            && s3.Node(0).violationCount == s.Node(0).violationCount + 1
            && s3.owner == s.owner && s3.proposals.Keys == s.proposals.Keys + {id}
            && (s.Node(0).violationCount == 0 ==>
                  s3.log == s.log + [Entry(now, SlashConfirmed(id, a))] + [Entry(now, SlashConfirmed(id, b))]
                            + [Entry(now, SlashExecuted(id, 0, s.Node(0).stakedAmount / 10))])
  {
    var env := Env(s.owner, now, 0);
    var s1 := ConfirmSlash(s, env, id, a).value;
    var s2 := ConfirmSlash(s1, env, id, b).value;
    assert s2.Proposal(id) == NO_PROPOSAL.(confirmed := {a, b}, confirmations := 2);
    assert s2.Node(0) == s.Node(0);
    SlashLeaves(s.Node(0).stakedAmount, InvalidAttestation, s.Node(0).violationCount);
    assert ExecuteSlash(s2, l, self, env, id).Returned?;
    var s3 := ExecuteSlash(s2, l, self, env, id).value.0;
    assert s3.log[|s3.log| - 1].event.SlashExecuted?;
  }

  /** Two confirmations of an id and its execution, all by the owner. */
  function SlashRound(owner: Address, l: Ledger, id: Bytes32): seq<Step> {
    var env := Env(owner, VETO_WINDOW, 0);
    [Step(env, l, CallConfirmSlash(id, 1)), Step(env, l, CallConfirmSlash(id, 2)), Step(env, l, CallExecuteSlash(id))]
  }

  lemma RunStep(owner: Address, self: Address, steps: seq<Step>, step: Step)
    ensures Run(owner, self, steps + [step]) == Next(Run(owner, self, steps), self, step)
  {
    assert (steps + [step])[..|steps|] == steps;
  }

  /** What a round makes of a storage. */
  function AfterRound(s: Storage, owner: Address, self: Address, l: Ledger, id: Bytes32): Storage {
    var round := SlashRound(owner, l, id);
    Next(Next(Next(s, self, round[0]), self, round[1]), self, round[2])
  }

  lemma RunRound(owner: Address, self: Address, steps: seq<Step>, l: Ledger, id: Bytes32)
    ensures Run(owner, self, steps + SlashRound(owner, l, id)) ==
            AfterRound(Run(owner, self, steps), owner, self, l, id)
  {
    var round := SlashRound(owner, l, id);
    RunStep(owner, self, steps, round[0]);
    RunStep(owner, self, steps + [round[0]], round[1]);
    RunStep(owner, self, steps + [round[0]] + [round[1]], round[2]);
    assert steps + round == steps + [round[0]] + [round[1]] + [round[2]];
  }

  /** A round on an untouched id slashes node zero. */
  lemma RoundSlashes(s: Storage, self: Address, l: Ledger, id: Bytes32) returns (s': Storage)
    requires id !in s.proposals && s.Node(0).violationCount < MAX_UINT8
    requires s.Node(0).stakedAmount * 10_000 <= MAX_UINT256 && s.Node(0).stakedAmount <= l.BalanceOf(self)
    requires l.burner == self != ZERO_ADDRESS && l.BalanceOf(self) <= l.supply
    ensures s' == AfterRound(s, s.owner, self, l, id)
    ensures s'.Node(0).stakedAmount ==
            s.Node(0).stakedAmount - SlashAmount(s.Node(0).stakedAmount, InvalidAttestation, s.Node(0).violationCount)
    ensures s'.Node(0).violationCount == s.Node(0).violationCount + 1
    ensures s'.owner == s.owner && s'.proposals.Keys == s.proposals.Keys + {id}
    ensures s.Node(0).violationCount == 0 ==>
              s'.log == s.log + [Entry(VETO_WINDOW, SlashConfirmed(id, 1))]
                        + [Entry(VETO_WINDOW, SlashConfirmed(id, 2))]
                        + [Entry(VETO_WINDOW, SlashExecuted(id, 0, s.Node(0).stakedAmount / 10))]
  {
    UnproposedSlash(s, l, self, id, 1, 2, VETO_WINDOW);
    s' := AfterRound(s, s.owner, self, l, id);
  }

  /** Tokens really burn that way: in this run node zero registers, nothing is ever proposed,
      and a tenth of the stake is gone. */
  lemma UnproposedBurn(owner: Address, self: Address, l: Ledger, l': Ledger, env: Env)
    requires l.TransferFrom(self, env.sender, self, MIN_STAKE) == Returned(l')
    requires l'.burner == self != ZERO_ADDRESS && MIN_STAKE <= l'.BalanceOf(self) <= l'.supply
    ensures var register := Step(env, l, CallRegisterNode(0, MIN_STAKE));
            var s := Run(owner, self, [register] + SlashRound(owner, l', 7));
            && Flows(s.log) == (MIN_STAKE, 0, MIN_STAKE / 10)
            && s.Node(0).stakedAmount == MIN_STAKE - MIN_STAKE / 10
            && LastWrite(s.log, 7) == -1
  {
    var start := FirstRegistration(owner, self, l, l', env);
    var s := RoundSlashes(start, self, l', 7);
    RunRound(owner, self, [Step(env, l, CallRegisterNode(0, MIN_STAKE))], l', 7);
    BurnLogged(env, start.log, s.log);
  }

  lemma FirstRegistration(owner: Address, self: Address, l: Ledger, l': Ledger, env: Env) returns (s: Storage)
    requires l.TransferFrom(self, env.sender, self, MIN_STAKE) == Returned(l')
    ensures s == Run(owner, self, [Step(env, l, CallRegisterNode(0, MIN_STAKE))])
    ensures s.owner == owner && s.proposals == map[]
    ensures s.Node(0) == NodeInfo(env.sender, MIN_STAKE, 0, true, env.timestamp)
    ensures s.log == [Entry(env.timestamp, NodeRegistered(0, env.sender, MIN_STAKE))]
  {
    var register := Step(env, l, CallRegisterNode(0, MIN_STAKE));
    s := Run(owner, self, [register]);
    RunStep(owner, self, [], register);
    assert [] + [register] == [register];
  }

  lemma BurnLogged(env: Env, start: Log, log: Log)
    requires start == [Entry(env.timestamp, NodeRegistered(0, env.sender, MIN_STAKE))]
    requires log == start + [Entry(VETO_WINDOW, SlashConfirmed(7, 1))] + [Entry(VETO_WINDOW, SlashConfirmed(7, 2))]
                    + [Entry(VETO_WINDOW, SlashExecuted(7, 0, MIN_STAKE / 10))]
    ensures Flows(log) == (MIN_STAKE, 0, MIN_STAKE / 10) && LastWrite(log, 7) == -1
  {
    var first, second := Entry(VETO_WINDOW, SlashConfirmed(7, 1)), Entry(VETO_WINDOW, SlashConfirmed(7, 2));
    assert [] + start == start;
    Appended([], start[0]);
    Appended(start, first);
    Appended(start + [first], second);
    Appended(start + [first] + [second], log[3]);
  }

  /** Rounds on the ids below `n`. */
  function SlashRounds(owner: Address, l: Ledger, n: nat): seq<Step> {
    if n == 0 then [] else SlashRounds(owner, l, n - 1) + SlashRound(owner, l, n - 1)
  }

  /** Node zero, never registered, has been slashed under the ids below `n`. */
  ghost predicate SlashedTimes(s: Storage, owner: Address, n: nat) {
    && s.owner == owner && s.Node(0).violationCount == n && s.Node(0).stakedAmount == 0
    && forall k :: k in s.proposals ==> k < n
  }

  lemma SlashedOnceMore(owner: Address, self: Address, l: Ledger, steps: seq<Step>, s: Storage, n: nat)
    requires s == Run(owner, self, steps) && SlashedTimes(s, owner, n) && n < MAX_UINT8
    requires l.burner == self != ZERO_ADDRESS && l.BalanceOf(self) <= l.supply
    ensures SlashedTimes(Run(owner, self, steps + SlashRound(owner, l, n)), owner, n + 1)
  {
    var s' := RoundSlashes(s, self, l, n);
    RunRound(owner, self, steps, l, n);
    forall k | k in s'.proposals ensures k < n + 1 {
      assert k in s'.proposals.Keys;
    }
  }

  lemma {:induction false} RoundsCount(owner: Address, self: Address, l: Ledger, n: nat)
    requires n <= MAX_UINT8 && l.burner == self != ZERO_ADDRESS && l.BalanceOf(self) <= l.supply
    ensures SlashedTimes(Run(owner, self, SlashRounds(owner, l, n)), owner, n)
  {
    if n == 0 {
    } else {
      var before := SlashRounds(owner, l, n - 1);
      RoundsCount(owner, self, l, n - 1);
      SlashedOnceMore(owner, self, l, before, Run(owner, self, before), n - 1);
    }
  }

  /** The violation counter can run out: a run reaches 255, and a further slash, confirmed
      and waited out like the others, reverts. */
  lemma SlashesRunOut(owner: Address, self: Address, l: Ledger)
    requires l.burner == self != ZERO_ADDRESS && l.BalanceOf(self) <= l.supply
    ensures var s := Run(owner, self, SlashRounds(owner, l, MAX_UINT8));
            var round := SlashRound(owner, l, MAX_UINT8);
            var s' := Next(Next(s, self, round[0]), self, round[1]);
            && s.Node(0).violationCount == MAX_UINT8
            && s'.Proposal(MAX_UINT8).confirmations == REQUIRED_CONFIRMATIONS
            && ExecuteSlash(s', l, self, round[2].env, MAX_UINT8) == Reverted(ArithmeticOverflow)
  {
    RoundsCount(owner, self, l, MAX_UINT8);
    var s := Run(owner, self, SlashRounds(owner, l, MAX_UINT8));
    var env := Env(owner, VETO_WINDOW, 0);
    var s1 := ConfirmSlash(s, env, MAX_UINT8, 1).value;
    var s2 := ConfirmSlash(s1, env, MAX_UINT8, 2).value;
    assert s2.Proposal(MAX_UINT8) == NO_PROPOSAL.(confirmed := {1, 2}, confirmations := 2);
  }

  lemma ViolationsKept(s: Storage, self: Address, step: Step, n: Bytes32)
    ensures Next(s, self, step).Node(n).violationCount >= s.Node(n).violationCount
  {
  }

  /** And then it has run out for good: whatever is called after a node's 255th slash, there
      is no other. */
  lemma {:induction false} NeverSlashedAgain(
    owner: Address, self: Address, steps: seq<Step>, more: seq<Step>, n: Bytes32)
    requires Run(owner, self, steps).Node(n).violationCount == MAX_UINT8
    ensures var s := Run(owner, self, steps + more);
            s.Node(n).violationCount == ViolationsIn(s.log, n) == MAX_UINT8
  {
    StakeConserved(owner, self, steps + more, n);
    if more == [] {
      assert steps + more == steps;
    } else {
      var before, last := more[..|more| - 1], more[|more| - 1];
      NeverSlashedAgain(owner, self, steps, before, n);
      assert steps + more == (steps + before) + [last];
      RunStep(owner, self, steps + before, last);
      ViolationsKept(Run(owner, self, steps + before), self, last, n);
    }
  }

  /** What tells the two apart: on chains with positive timestamps an id was proposed
      exactly when its stored proposal time is not zero. */
  lemma ProposedIffStamped(owner: Address, self: Address, steps: seq<Step>, id: Bytes32)
    requires forall step :: step in steps ==> step.env.timestamp > 0
    ensures var s := Run(owner, self, steps);
            s.Proposal(id).proposedAt != 0 <==>
            exists k :: 0 <= k < |s.log| && s.log[k].event.SlashProposed? && s.log[k].event.id == id
  {
    RunKeepsInv(owner, self, steps);
    var s := Run(owner, self, steps);
    assert ProposalInv(s, id);
    RunStamped(owner, self, steps);
    var w := LastWrite(s.log, id);
    if w >= 0 {
      assert s.log[w].timestamp > 0;
    }
  }

  ghost predicate Stamped(log: Log) {
    forall k :: 0 <= k < |log| ==> log[k].timestamp > 0
  }

  lemma NextStamped(s: Storage, self: Address, step: Step)
    requires Stamped(s.log) && step.env.timestamp > 0
    ensures Stamped(Next(s, self, step).log)
  {
  }

  lemma {:induction false} RunStamped(owner: Address, self: Address, steps: seq<Step>)
    requires forall step :: step in steps ==> step.env.timestamp > 0
    ensures Stamped(Run(owner, self, steps).log)
  {
    if steps == [] {
    } else {
      assert steps[|steps| - 1] in steps;
      RunStamped(owner, self, steps[..|steps| - 1]);
      NextStamped(Run(owner, self, steps[..|steps| - 1]), self, steps[|steps| - 1]);
    }
  }

  // ----- The contract as its history -----

  /** Who registered a node last. */
  function OperatorIn(log: Log, node: Bytes32): Address {
    if log == [] then ZERO_ADDRESS else
    var last := log[|log| - 1].event;
    if last.NodeRegistered? && last.node == node then last.operator else OperatorIn(log[..|log| - 1], node)
  }

  /** Who ever confirmed an id, whatever was written under it since. */
  ghost predicate ObservedIn(log: Log, id: Bytes32, observer: Bytes32) {
    exists k :: 0 <= k < |log| && log[k].event == SlashConfirmed(id, observer)
  }

  /** What a slash takes of a stake: a twentieth for downtime; for an invalid attestation a
      tenth, a quarter and then everything, by the number of earlier slashes. */
  function Penalty(stake: nat, reason: SlashReason, earlier: nat): nat {
    if reason == Downtime then stake / 20
    else if earlier == 0 then stake / 10
    else if earlier == 1 then stake / 4
    else stake
  }

  lemma PenaltyExact(stake: nat, reason: SlashReason, earlier: nat)
    ensures SlashAmount(stake, reason, earlier) == Penalty(stake, reason, earlier)
  {
  }

  /** What a call must answer, judged by the events before it alone: the events it emits, or
      the error it reverts with. Storage plays no part. */
  ghost function Answer(owner: Address, log: Log, env: Env, call: Call): Outcome<seq<Event>, RegistryError> {
    match call
    case CallRegisterNode(n, stake) =>
      if stake < 10_000 * 1_000_000_000_000_000_000 then Reverted(InsufficientStake)
      else if StakeIn(log, n) > 0 then Reverted(NodeAlreadyRegistered)
      else Returned([NodeRegistered(n, env.sender, stake)])
    case CallDeregisterNode(n) =>
      if StakeIn(log, n) <= 0 then Reverted(NodeNotActive)
      else if OperatorIn(log, n) != env.sender then Reverted(NotOperator)
      else Returned([NodeDeregistered(n, env.sender, StakeIn(log, n))])
    case CallProposeSlash(id, target, observer, reason) =>
      if env.sender != owner then Reverted(NotContractOwner)
      else if OperatorIn(log, target) == ZERO_ADDRESS then Reverted(NodeNotFound)
      else if StakeIn(log, target) <= 0 then Reverted(NodeNotActive)
      else Returned([SlashProposed(id, target, reason), SlashConfirmed(id, observer)])
    case CallConfirmSlash(id, observer) =>
      if env.sender != owner then Reverted(NotContractOwner)
      else if ExecutedIn(log, id) then Reverted(AlreadyExecuted)
      else if VetoedIn(log, id) then Reverted(AlreadyVetoed)
      else if ObservedIn(log, id, observer) then Reverted(AlreadyConfirmed)
      else if |ObserversAfter(log, id, LastWrite(log, id))| >= 255 then Reverted(ArithmeticOverflow)
      else Returned([SlashConfirmed(id, observer)])
    case CallExecuteSlash(id) =>
      if env.sender != owner then Reverted(NotContractOwner)
      else if ExecutedIn(log, id) then Reverted(AlreadyExecuted)
      else if VetoedIn(log, id) then Reverted(AlreadyVetoed)
      else if |ObserversAfter(log, id, LastWrite(log, id))| < 2 then Reverted(InsufficientConfirmations)
      else if env.timestamp < Terms(log, id).2 + 14_400 then Reverted(VetoWindowActive)
      else ExecuteAnswer(log, id)
    case CallVetoSlash(id) =>
      if env.sender != owner then Reverted(NotContractOwner)
      else if ExecutedIn(log, id) then Reverted(AlreadyExecuted)
      else if env.timestamp > Terms(log, id).2 + 14_400 then Reverted(VetoWindowExpired)
      else Returned([SlashVetoed(id)])
  }

  /** The checked arithmetic stops a stake whose scaled part leaves the word, and a 256th
      violation. The third invalid attestation also takes the node off the list. */
  ghost function ExecuteAnswer(log: Log, id: Bytes32): Outcome<seq<Event>, RegistryError> {
    var (node, reason, _) := Terms(log, id);
    var stake: nat, earlier := if StakeIn(log, node) > 0 then StakeIn(log, node) else 0, ViolationsIn(log, node);
    var bps := if reason == Downtime then 500
               else if earlier == 0 then 1_000 else if earlier == 1 then 2_500 else 10_000;
    if stake * bps > MAX_UINT256 || earlier >= 255 then Reverted(ArithmeticOverflow)
    else
      var slashed := [SlashExecuted(id, node, Penalty(stake, reason, earlier))];
      Returned(if reason == InvalidAttestation && earlier >= 2
               then [NodeDeregistered(node, OperatorIn(log, node), 0)] + slashed else slashed)
  }

  function Entries(env: Env, events: seq<Event>): Log {
    seq(|events|, i requires 0 <= i < |events| => Entry(env.timestamp, events[i]))
  }

  /** The token call that goes with the last event of an answer. */
  function TokenCall(l: Ledger, self: Address, event: Event): Outcome<Ledger, TokenError> {
    match event
    case NodeRegistered(_, operator, stake) => l.TransferFrom(self, operator, self, stake)
    case NodeDeregistered(_, operator, returned) => l.Transfer(self, operator, returned)
    case SlashExecuted(_, _, burned) => l.Burn(self, self, burned)
    case _ => Returned(l)
  }

  /** A call does what its answer says: it reverts with that error, or emits those events and
      nothing else, moving exactly their tokens. */
  ghost predicate Obeys(
    s: Storage, l: Ledger, self: Address, env: Env, call: Call, answer: Outcome<seq<Event>, RegistryError>)
  {
    var r := Perform(s, l, self, env, call);
    match answer
    case Reverted(e) => r == Reverted(e)
    case Returned(events) =>
      && events != []
      && match TokenCall(l, self, events[|events| - 1])
         case Reverted(e) => r == Reverted(TransferFailed(e))
         case Returned(l') => r.Returned? && r.value.1 == l' && r.value.0.log == s.log + Entries(env, events)
  }

  /** What the invariant leaves open: the owner, the operators, and whose confirmations are
      spent. */
  ghost predicate Recorded(owner: Address, s: Storage) {
    && s.owner == owner
    && (forall n :: s.Node(n).operator == OperatorIn(s.log, n))
    && forall id: Bytes32, o: Bytes32 :: o in s.Proposal(id).confirmed <==> ObservedIn(s.log, id, o)
  }

  lemma RecordAppended(log: Log, e: Entry, n: Bytes32, id: Bytes32, o: Bytes32)
    ensures OperatorIn(log + [e], n) ==
            if e.event.NodeRegistered? && e.event.node == n then e.event.operator else OperatorIn(log, n)
    ensures ObservedIn(log + [e], id, o) <==> ObservedIn(log, id, o) || e.event == SlashConfirmed(id, o)
  {
    var log' := log + [e];
    assert log'[..|log|] == log && log'[|log|] == e;
    if ObservedIn(log, id, o) {
      var k :| 0 <= k < |log| && log[k].event == SlashConfirmed(id, o);
      assert log'[k] == log[k];
    }
  }

  /** One entry, and what it writes to the records. */
  ghost predicate Appends(s: Storage, s': Storage, e: Entry) {
    && s'.owner == s.owner && s'.log == s.log + [e]
    && (forall n :: s'.Node(n).operator ==
                    if e.event.NodeRegistered? && e.event.node == n then e.event.operator else s.Node(n).operator)
    && (forall id :: s'.Proposal(id).confirmed ==
                     s.Proposal(id).confirmed +
                     if e.event.SlashConfirmed? && e.event.id == id then {e.event.observer} else {})
  }

  lemma AppendsRecorded(owner: Address, s: Storage, s': Storage, e: Entry)
    requires Recorded(owner, s) && Appends(s, s', e)
    ensures Recorded(owner, s')
  {
    forall n ensures s'.Node(n).operator == OperatorIn(s'.log, n) {
      RecordAppended(s.log, e, n, 0, 0);
    }
    forall id: Bytes32, o: Bytes32 ensures o in s'.Proposal(id).confirmed <==> ObservedIn(s'.log, id, o) {
      RecordAppended(s.log, e, 0, id, o);
      assert o in s.Proposal(id).confirmed <==> ObservedIn(s.log, id, o);
    }
  }

  lemma PerformRecorded(
    owner: Address, s: Storage, l: Ledger, self: Address, env: Env, call: Call, s': Storage, l': Ledger)
    requires Inv(s) && Recorded(owner, s) && Perform(s, l, self, env, call) == Returned((s', l'))
    ensures Recorded(owner, s')
  {
    match call
    case CallRegisterNode(n, stake) =>
      AppendsRecorded(owner, s, s', Entry(env.timestamp, NodeRegistered(n, env.sender, stake)));
    case CallDeregisterNode(n) => AppendsRecorded(owner, s, s', s'.log[|s.log|]);
    case CallProposeSlash(id, target, observer, reason) =>
      var e := Entry(env.timestamp, SlashProposed(id, target, reason));
      var mid := s.(log := s.log + [e]);
      AppendsRecorded(owner, s, mid, e);
      AppendsRecorded(owner, mid, s', Entry(env.timestamp, SlashConfirmed(id, observer)));
    case CallConfirmSlash(id, observer) =>
      AppendsRecorded(owner, s, s', Entry(env.timestamp, SlashConfirmed(id, observer)));
    case CallVetoSlash(id) => AppendsRecorded(owner, s, s', Entry(env.timestamp, SlashVetoed(id)));
    case CallExecuteSlash(id) => ExecuteRecorded(owner, s, l, self, env, id, s', l');
  }

  lemma ExecuteRecorded(
    owner: Address, s: Storage, l: Ledger, self: Address, env: Env, id: Bytes32, s': Storage, l': Ledger)
    requires Inv(s) && Recorded(owner, s) && ExecuteSlash(s, l, self, env, id) == Returned((s', l'))
    ensures Recorded(owner, s')
  {
    assert NodeInv(s, s.Proposal(id).nodeId);
    var burned := ExecuteSlashes(s, l, self, env, id, s', l');
    SlashedRecorded(owner, s, env, id, burned, s');
  }

  lemma SlashedRecorded(owner: Address, s: Storage, env: Env, id: Bytes32, burned: nat, s': Storage)
    requires Recorded(owner, s) && Slashed(s, env, id, burned, s')
    ensures Recorded(owner, s')
  {
    var mid := s.(log := LogBefore(s, env, id));
    if mid.log != s.log {
      AppendsRecorded(owner, s, mid, mid.log[|s.log|]);
    }
    AppendsRecorded(owner, mid, s', Entry(env.timestamp, SlashExecuted(id, s.Proposal(id).nodeId, burned)));
  }

  lemma {:induction false} RunRecorded(owner: Address, self: Address, steps: seq<Step>)
    ensures Recorded(owner, Run(owner, self, steps))
  {
    if steps == [] {
    } else {
      var step := steps[|steps| - 1];
      var mid := Run(owner, self, steps[..|steps| - 1]);
      RunRecorded(owner, self, steps[..|steps| - 1]);
      RunKeepsInv(owner, self, steps[..|steps| - 1]);
      match Perform(mid, step.ledger, self, step.env, step.call)
      case Reverted(_) =>
      case Returned(next) =>
        PerformRecorded(owner, mid, step.ledger, self, step.env, step.call, next.0, next.1);
    }
  }

  lemma NodeCallObeys(s: Storage, l: Ledger, self: Address, env: Env, call: Call)
    requires Inv(s) && Recorded(s.owner, s)
    requires call.CallRegisterNode? || call.CallDeregisterNode?
    ensures Obeys(s, l, self, env, call, Answer(s.owner, s.log, env, call))
  {
    assert NodeInv(s, call.node);
    assert s.Node(call.node).operator == OperatorIn(s.log, call.node);
  }

  lemma ProposeObeys(s: Storage, l: Ledger, self: Address, env: Env, call: Call)
    requires Inv(s) && Recorded(s.owner, s) && call.CallProposeSlash?
    ensures Obeys(s, l, self, env, call, Answer(s.owner, s.log, env, call))
  {
    assert NodeInv(s, call.target);
    assert s.Node(call.target).operator == OperatorIn(s.log, call.target);
  }

  lemma ProposalObeys(s: Storage, l: Ledger, self: Address, env: Env, call: Call)
    requires Inv(s) && Recorded(s.owner, s) && (call.CallConfirmSlash? || call.CallVetoSlash?)
    ensures Obeys(s, l, self, env, call, Answer(s.owner, s.log, env, call))
  {
    assert ProposalInv(s, call.id);
  }

  lemma ExecuteObeys(s: Storage, l: Ledger, self: Address, env: Env, id: Bytes32)
    requires Inv(s) && Recorded(s.owner, s)
    ensures Obeys(s, l, self, env, CallExecuteSlash(id), Answer(s.owner, s.log, env, CallExecuteSlash(id)))
  {
    var p := s.Proposal(id);
    var node := s.Node(p.nodeId);
    assert ProposalInv(s, id) && NodeInv(s, p.nodeId);
    assert node.operator == OperatorIn(s.log, p.nodeId);
    PenaltyExact(node.stakedAmount, p.reason, node.violationCount);
    SlashLeaves(node.stakedAmount, p.reason, node.violationCount);
  }

  /** In every run each call answers as the history of events demands, error by error, with
      the penalties in numbers, and in every case the storage that it leaves is again what
      its history says. */
  lemma FollowsHistory(owner: Address, self: Address, steps: seq<Step>, l: Ledger, env: Env, call: Call)
    ensures var s := Run(owner, self, steps); Obeys(s, l, self, env, call, Answer(owner, s.log, env, call))
  {
    var s := Run(owner, self, steps);
    RunKeepsInv(owner, self, steps);
    RunRecorded(owner, self, steps);
    match call
    case CallRegisterNode(_, _) => NodeCallObeys(s, l, self, env, call);
    case CallDeregisterNode(_) => NodeCallObeys(s, l, self, env, call);
    case CallProposeSlash(_, _, _, _) => ProposeObeys(s, l, self, env, call);
    case CallExecuteSlash(id) => ExecuteObeys(s, l, self, env, id);
    case _ => ProposalObeys(s, l, self, env, call);
  }

  // ----- The contract -----

  /** The deployed contract: storage that the calls update in place. A call either goes
      through completely or leaves both this storage and the token's as they were. */
  class Registry {
    const self: Address
    const token: Token
    var owner: Address
    var nodes: map<Bytes32, NodeInfo>
    var proposals: map<Bytes32, SlashProposal>
    var log: Log

    ghost function State(): Storage
      reads this
    {
      Storage(owner, nodes, proposals, log)
    }

    ghost function Both(): (Storage, Ledger)
      reads this, token
    {
      (State(), token.State())
    }

    constructor (self: Address, token: Token, initialOwner: Address)
      ensures this.self == self && this.token == token
      ensures State() == Initial(initialOwner) && Inv(State())
    {
      this.self, this.token := self, token;
      owner, nodes, proposals, log := initialOwner, map[], map[], [];
      new;
      InitialInv(initialOwner);
    }

    method RegisterNode(env: Env, id: Bytes32, stake: nat) returns (r: Outcome<(), RegistryError>)
      requires Inv(State())
      modifies this, token
      ensures Agrees(r, Perform(old(State()), old(token.State()), self, env, CallRegisterNode(id, stake)),
                     old(Both()), Both())
      ensures Inv(State())
    {
      if stake < MIN_STAKE { return Reverted(InsufficientStake); }
      var node := At(nodes, id, NO_NODE);
      if node.active { return Reverted(NodeAlreadyRegistered); }
      var pulled := token.TransferFrom(self, env.sender, self, stake);
      if pulled.Reverted? { return Reverted(TransferFailed(pulled.error)); }
      nodes := nodes[id := node.(operator := env.sender, stakedAmount := stake, active := true,
                                 registeredAt := env.timestamp)];
      Emit(env, NodeRegistered(id, env.sender, stake));
      PerformKeepsInv(old(State()), old(token.State()), self, env, CallRegisterNode(id, stake), State(), token.State());
      return Returned(());
    }

    method DeregisterNode(env: Env, id: Bytes32) returns (r: Outcome<(), RegistryError>)
      requires Inv(State())
      modifies this, token
      ensures Agrees(r, Perform(old(State()), old(token.State()), self, env, CallDeregisterNode(id)),
                     old(Both()), Both())
      ensures Inv(State())
    {
      var node := At(nodes, id, NO_NODE);
      if !node.active { return Reverted(NodeNotActive); }
      if node.operator != env.sender { return Reverted(NotOperator); }
      var amount := node.stakedAmount;
      var paid := token.Transfer(self, node.operator, amount);
      if paid.Reverted? { return Reverted(TransferFailed(paid.error)); }
      nodes := nodes[id := node.(active := false, stakedAmount := 0)];
      Emit(env, NodeDeregistered(id, node.operator, amount));
      PerformKeepsInv(old(State()), old(token.State()), self, env, CallDeregisterNode(id), State(), token.State());
      return Returned(());
    }

    method ProposeSlash(env: Env, id: Bytes32, target: Bytes32, observer: Bytes32, reason: SlashReason)
      returns (r: Outcome<(), RegistryError>)
      requires Inv(State())
      modifies this
      ensures Agrees(r, Perform(old(State()), old(token.State()), self, env,
                                CallProposeSlash(id, target, observer, reason)),
                     old(Both()), Both())
      ensures Inv(State())
    {
      if env.sender != owner { return Reverted(NotContractOwner); }
      var node := At(nodes, target, NO_NODE);
      if node.operator == ZERO_ADDRESS { return Reverted(NodeNotFound); }
      if !node.active { return Reverted(NodeNotActive); }
      var proposal := At(proposals, id, NO_PROPOSAL);
      proposals := proposals[id := proposal.(nodeId := target, reason := reason, proposedAt := env.timestamp,
                                             confirmations := 1, confirmed := proposal.confirmed + {observer})];
      Emit(env, SlashProposed(id, target, reason));
      Emit(env, SlashConfirmed(id, observer));
      PerformKeepsInv(old(State()), old(token.State()), self, env, CallProposeSlash(id, target, observer, reason),
                      State(), token.State());
      return Returned(());
    }

    method ConfirmSlash(env: Env, id: Bytes32, observer: Bytes32) returns (r: Outcome<(), RegistryError>)
      requires Inv(State())
      modifies this
      ensures Agrees(r, Perform(old(State()), old(token.State()), self, env, CallConfirmSlash(id, observer)),
                     old(Both()), Both())
      ensures Inv(State())
    {
      if env.sender != owner { return Reverted(NotContractOwner); }
      var proposal := At(proposals, id, NO_PROPOSAL);
      if proposal.executed { return Reverted(AlreadyExecuted); }
      if proposal.vetoed { return Reverted(AlreadyVetoed); }
      if observer in proposal.confirmed { return Reverted(AlreadyConfirmed); }
      if proposal.confirmations >= MAX_UINT8 { return Reverted(ArithmeticOverflow); }
      proposals := proposals[id := proposal.(confirmed := proposal.confirmed + {observer},
                                             confirmations := proposal.confirmations + 1)];
      Emit(env, SlashConfirmed(id, observer));
      PerformKeepsInv(old(State()), old(token.State()), self, env, CallConfirmSlash(id, observer),
                      State(), token.State());
      return Returned(());
    }

    method ExecuteSlash(env: Env, id: Bytes32) returns (r: Outcome<(), RegistryError>)
      requires Inv(State())
      modifies this, token
      ensures Agrees(r, Perform(old(State()), old(token.State()), self, env, CallExecuteSlash(id)), old(Both()), Both())
      ensures Inv(State())
    {
      if env.sender != owner { return Reverted(NotContractOwner); }
      var proposal := At(proposals, id, NO_PROPOSAL);
      if proposal.executed { return Reverted(AlreadyExecuted); }
      if proposal.vetoed { return Reverted(AlreadyVetoed); }
      if proposal.confirmations < REQUIRED_CONFIRMATIONS { return Reverted(InsufficientConfirmations); }
      if env.timestamp < proposal.proposedAt + VETO_WINDOW { return Reverted(VetoWindowActive); }
      var node := At(nodes, proposal.nodeId, NO_NODE);
      var violations := node.violationCount;
      var scaled := node.stakedAmount * SlashBps(proposal.reason, violations);
      if scaled > MAX_UINT256 || violations >= MAX_UINT8 { return Reverted(ArithmeticOverflow); }
      SlashLeaves(node.stakedAmount, proposal.reason, violations);
      var slashAmount: nat := scaled / 10_000;
      var burned := token.Burn(self, self, slashAmount);
      if burned.Reverted? { return Reverted(TransferFailed(burned.error)); }
      node := node.(stakedAmount := node.stakedAmount - slashAmount, violationCount := violations + 1);
      if proposal.reason == InvalidAttestation && violations >= 2 {
        node := node.(active := false);
        Emit(env, NodeDeregistered(proposal.nodeId, node.operator, 0));
      }
      nodes := nodes[proposal.nodeId := node];
      proposals := proposals[id := proposal.(executed := true)];
      Emit(env, SlashExecuted(id, proposal.nodeId, slashAmount));
      PerformKeepsInv(old(State()), old(token.State()), self, env, CallExecuteSlash(id), State(), token.State());
      return Returned(());
    }

    method VetoSlash(env: Env, id: Bytes32) returns (r: Outcome<(), RegistryError>)
      requires Inv(State())
      modifies this
      ensures Agrees(r, Perform(old(State()), old(token.State()), self, env, CallVetoSlash(id)), old(Both()), Both())
      ensures Inv(State())
    {
      if env.sender != owner { return Reverted(NotContractOwner); }
      var proposal := At(proposals, id, NO_PROPOSAL);
      if proposal.executed { return Reverted(AlreadyExecuted); }
      if env.timestamp > proposal.proposedAt + VETO_WINDOW { return Reverted(VetoWindowExpired); }
      proposals := proposals[id := proposal.(vetoed := true)];
      Emit(env, SlashVetoed(id));
      PerformKeepsInv(old(State()), old(token.State()), self, env, CallVetoSlash(id), State(), token.State());
      return Returned(());
    }

    method Emit(env: Env, event: Event)
      modifies this`log
      ensures log == old(log) + [Entry(env.timestamp, event)]
    {
      log := log + [Entry(env.timestamp, event)];
    }
  }
}
