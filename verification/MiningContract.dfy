/** The mint contract: 3-of-5 approval, a 48-hour timelock, a per-block ceiling and a
    per-session replay guard. What must hold over whole runs is stated on the log of
    emitted events. */
module MiningContract {
  import opened Basics
  import opened Evm
  import opened PrimToken

  const TIMELOCK_DELAY: nat := 172_800
  const REQUIRED_APPROVALS: nat := 3
  const TOTAL_SIGNERS: nat := 5

  datatype MiningError =
    | NotContractOwner
    | NotSigner
    | AlreadySigner
    | SignerLimitReached
    | ZeroRecipient
    | ZeroAmount
    | SessionAlreadyMinted
    | ProposalNotFound
    | AlreadyApproved
    | AlreadyExecuted
    | AlreadyCancelled
    | InsufficientApprovals(got: nat, required: nat)
    | TimelockNotExpired(executionTime: nat, currentTime: nat)
    | CeilingExceeded(attempted: nat, ceiling: nat)
    | ApprovalOverflow
    | MintFailed(cause: TokenError)

  datatype MintProposal = MintProposal(
    sessionId: Bytes32,
    recipient: Address,
    amount: nat,
    proposedAt: nat,
    approvals: nat,
    executed: bool,
    cancelled: bool)

  const NO_PROPOSAL := MintProposal(0, ZERO_ADDRESS, 0, 0, 0, false, false)

  datatype Event =
    | SignerAdded(signer: Address)
    | SignerRemoved(signer: Address)
    | MintProposed(id: Bytes32, sessionId: Bytes32, recipient: Address, amount: nat)
    | MintApproved(id: Bytes32, signer: Address, approvals: nat)
    | MintExecuted(id: Bytes32, sessionId: Bytes32, recipient: Address, amount: nat)
    | MintCancelled(id: Bytes32)
    | MintCeilingUpdated(oldCeiling: nat, newCeiling: nat)

  /** An emitted event with the block that carries it. */
  datatype Entry = Entry(timestamp: nat, number: nat, event: Event)
  type Log = seq<Entry>

  /** The contract's storage as a value. A mapping to `bool` is the set of its true keys. */
  datatype Storage = Storage(
    owner: Address,
    ceiling: nat,
    signers: set<Address>,
    signerCount: nat,
    sessionMinted: set<Bytes32>,
    proposals: map<Bytes32, MintProposal>,
    hasApproved: set<(Bytes32, Address)>,
    mintedInBlock: map<nat, nat>,
    log: Log)
  {
    function Proposal(id: Bytes32): MintProposal {
      At(proposals, id, NO_PROPOSAL)
    }

    function Emit(env: Env, event: Event): Storage {
      this.(log := log + [Entry(env.timestamp, env.number, event)])
    }
  }

  function Initial(owner: Address, ceiling: nat): Storage {
    Storage(owner, ceiling, {}, 0, {}, map[], {}, map[], [])
  }

  // ----- The calls, as functions of the storage -----

  function AddSigner(s: Storage, env: Env, signer: Address): Outcome<Storage, MiningError> {
    if env.sender != s.owner then Reverted(NotContractOwner)
    else if signer == ZERO_ADDRESS then Reverted(ZeroRecipient)
    else if signer in s.signers then Reverted(AlreadySigner)
    else if s.signerCount >= TOTAL_SIGNERS then Reverted(SignerLimitReached)
    else Returned(s.(signers := s.signers + {signer}, signerCount := s.signerCount + 1)
                  .Emit(env, SignerAdded(signer)))
  }

  function RemoveSigner(s: Storage, env: Env, signer: Address): Outcome<Storage, MiningError> {
    if env.sender != s.owner then Reverted(NotContractOwner)
    else if signer !in s.signers || s.signerCount == 0 then Reverted(NotSigner)
    else Returned(s.(signers := s.signers - {signer}, signerCount := s.signerCount - 1)
                  .Emit(env, SignerRemoved(signer)))
  }

  function SetMintCeiling(s: Storage, env: Env, ceiling: nat): Outcome<Storage, MiningError> {
    if env.sender != s.owner then Reverted(NotContractOwner)
    else Returned(s.(ceiling := ceiling).Emit(env, MintCeilingUpdated(s.ceiling, ceiling)))
  }

  /** Overwrites whatever is stored under the id; earlier approvals stay recorded. */
  function ProposeMint(s: Storage, env: Env, id: Bytes32, sessionId: Bytes32, recipient: Address, amount: nat)
    : Outcome<Storage, MiningError>
  {
    if env.sender != s.owner then Reverted(NotContractOwner)
    else if recipient == ZERO_ADDRESS then Reverted(ZeroRecipient)
    else if amount == 0 then Reverted(ZeroAmount)
    else if sessionId in s.sessionMinted then Reverted(SessionAlreadyMinted)
    else
      var p := MintProposal(sessionId, recipient, amount, env.timestamp, 0, false, false);
      Returned(s.(proposals := s.proposals[id := p]).Emit(env, MintProposed(id, sessionId, recipient, amount)))
  }

  function ApproveMint(s: Storage, env: Env, id: Bytes32): Outcome<Storage, MiningError> {
    var p := s.Proposal(id);
    if env.sender !in s.signers then Reverted(NotSigner)
    else if p.proposedAt == 0 then Reverted(ProposalNotFound)
    else if p.executed then Reverted(AlreadyExecuted)
    else if p.cancelled then Reverted(AlreadyCancelled)
    else if (id, env.sender) in s.hasApproved then Reverted(AlreadyApproved)
    else if p.approvals >= MAX_UINT8 then Reverted(ApprovalOverflow)
    else Returned(s.(hasApproved := s.hasApproved + {(id, env.sender)},
                     proposals := s.proposals[id := p.(approvals := p.approvals + 1)])
                  .Emit(env, MintApproved(id, env.sender, p.approvals + 1)))
  }

  function ExecuteMint(s: Storage, l: Ledger, self: Address, env: Env, id: Bytes32)
    : Outcome<(Storage, Ledger), MiningError>
  {
    var p := s.Proposal(id);
    var total := At(s.mintedInBlock, env.number, 0) + p.amount;
    if env.sender != s.owner then Reverted(NotContractOwner)
    else if p.proposedAt == 0 then Reverted(ProposalNotFound)
    else if p.executed then Reverted(AlreadyExecuted)
    else if p.cancelled then Reverted(AlreadyCancelled)
    else if p.approvals < REQUIRED_APPROVALS then Reverted(InsufficientApprovals(p.approvals, REQUIRED_APPROVALS))
    else if env.timestamp < p.proposedAt + TIMELOCK_DELAY then
      Reverted(TimelockNotExpired(p.proposedAt + TIMELOCK_DELAY, env.timestamp))
    else if p.sessionId in s.sessionMinted then Reverted(SessionAlreadyMinted)
    else if total > s.ceiling then Reverted(CeilingExceeded(total, s.ceiling))
    else
      match l.Mint(self, p.recipient, p.amount)
      case Reverted(e) => Reverted(MintFailed(e))
      case Returned(l') =>
        Returned((s.(mintedInBlock := s.mintedInBlock[env.number := total],
                     sessionMinted := s.sessionMinted + {p.sessionId},
                     proposals := s.proposals[id := p.(executed := true)])
                  .Emit(env, MintExecuted(id, p.sessionId, p.recipient, p.amount)),
                  l'))
  }

  /** There is no existence check: an id never proposed can be cancelled. */
  function CancelMint(s: Storage, env: Env, id: Bytes32): Outcome<Storage, MiningError> {
    var p := s.Proposal(id);
    if env.sender != s.owner then Reverted(NotContractOwner)
    else if p.executed then Reverted(AlreadyExecuted)
    else if p.cancelled then Reverted(AlreadyCancelled)
    else Returned(s.(proposals := s.proposals[id := p.(cancelled := true)]).Emit(env, MintCancelled(id)))
  }

  datatype Call =
    | CallAddSigner(signer: Address)
    | CallRemoveSigner(signer: Address)
    | CallSetMintCeiling(ceiling: nat)
    | CallProposeMint(id: Bytes32, sessionId: Bytes32, recipient: Address, amount: nat)
    | CallApproveMint(id: Bytes32)
    | CallExecuteMint(id: Bytes32)
    | CallCancelMint(id: Bytes32)

  function Perform(s: Storage, l: Ledger, self: Address, env: Env, call: Call)
    : Outcome<(Storage, Ledger), MiningError>
  {
    match call
    case CallAddSigner(signer) => Beside(AddSigner(s, env, signer), l)
    case CallRemoveSigner(signer) => Beside(RemoveSigner(s, env, signer), l)
    case CallSetMintCeiling(ceiling) => Beside(SetMintCeiling(s, env, ceiling), l)
    case CallProposeMint(id, sid, recipient, amount) => Beside(ProposeMint(s, env, id, sid, recipient, amount), l)
    case CallApproveMint(id) => Beside(ApproveMint(s, env, id), l)
    case CallExecuteMint(id) => ExecuteMint(s, l, self, env, id)
    case CallCancelMint(id) => Beside(CancelMint(s, env, id), l)
  }

  // ----- What the log alone says -----

  /** The signers after the logged additions and removals. */
  function SignersIn(log: Log): set<Address> {
    if log == [] then {} else
    var before := SignersIn(log[..|log| - 1]);
    match log[|log| - 1].event
    case SignerAdded(a) => before + {a}
    case SignerRemoved(a) => before - {a}
    case _ => before
  }

  /** The ceiling in force after the logged updates of an initial one. */
  function CeilingIn(initial: nat, log: Log): nat {
    if log == [] then initial else
    match log[|log| - 1].event
    case MintCeilingUpdated(_, c) => c
    case _ => CeilingIn(initial, log[..|log| - 1])
  }

  /** What the logged executions minted in one block. */
  function MintedIn(log: Log, number: nat): nat {
    if log == [] then 0 else
    var last := log[|log| - 1];
    MintedIn(log[..|log| - 1], number) +
    if last.event.MintExecuted? && last.number == number then last.event.amount else 0
  }

  /** What the logged executions minted altogether. */
  function MintedTotal(log: Log): nat {
    if log == [] then 0 else
    var last := log[|log| - 1];
    MintedTotal(log[..|log| - 1]) + if last.event.MintExecuted? then last.event.amount else 0
  }

  /** Where the terms of a proposal were last written, or -1. */
  function LastWrite(log: Log, id: Bytes32): (w: int)
    ensures -1 <= w < |log|
    ensures w >= 0 ==> log[w].event.MintProposed? && log[w].event.id == id
    ensures forall k :: w < k < |log| && log[k].event.MintProposed? ==> log[k].event.id != id
  {
    if log == [] then -1 else
    var last := log[|log| - 1].event;
    if last.MintProposed? && last.id == id then |log| - 1
    else
      var before := log[..|log| - 1];
      assert forall k :: 0 <= k < |before| ==> before[k] == log[k];
      LastWrite(before, id)
  }

  /** Who approved a proposal after position `w`. */
  ghost function ApproversAfter(log: Log, id: Bytes32, w: int): set<Address> {
    set k | 0 <= k < |log| && w < k && log[k].event.MintApproved? && log[k].event.id == id :: log[k].event.signer
  }

  /** Whether a proposal was cancelled, or executed, after position `w`. */
  ghost predicate CancelledAfter(log: Log, id: Bytes32, w: int) {
    exists k :: 0 <= k < |log| && w < k && log[k].event.MintCancelled? && log[k].event.id == id
  }

  ghost predicate ExecutedAfter(log: Log, id: Bytes32, w: int) {
    exists k :: 0 <= k < |log| && w < k && log[k].event.MintExecuted? && log[k].event.id == id
  }

  ghost predicate SessionIn(log: Log, sessionId: Bytes32) {
    exists k :: 0 <= k < |log| && log[k].event.MintExecuted? && log[k].event.sessionId == sessionId
  }

  /** What entitles an entry to follow a log. */
  ghost predicate Justified(initial: nat, log: Log, entry: Entry) {
    match entry.event
    case MintProposed(_, _, recipient, amount) => recipient != ZERO_ADDRESS && amount > 0
    case MintApproved(id, signer, _) => signer in SignersIn(log)
    case MintExecuted(id, sessionId, recipient, amount) =>
      var w := LastWrite(log, id);
      && w >= 0
      && log[w].event == MintProposed(id, sessionId, recipient, amount)
      && log[w].timestamp + TIMELOCK_DELAY <= entry.timestamp
      && |ApproversAfter(log, id, w)| >= REQUIRED_APPROVALS
      && !CancelledAfter(log, id, w) && !ExecutedAfter(log, id, w)
      && !SessionIn(log, sessionId)
      && MintedIn(log, entry.number) + amount <= CeilingIn(initial, log)
    case _ => true
  }

  ghost predicate History(initial: nat, log: Log) {
    log == [] || (History(initial, log[..|log| - 1]) && Justified(initial, log[..|log| - 1], log[|log| - 1]))
  }

  // ----- The invariant -----

  /** A stored proposal carries the last written terms; its counter is the number of distinct
      addresses that approved them, and its flags say what happened to them. */
  ghost predicate ProposalInv(s: Storage, id: Bytes32) {
    var p, w := s.Proposal(id), LastWrite(s.log, id);
    && (forall a :: a in ApproversAfter(s.log, id, w) ==> (id, a) in s.hasApproved)
    && (p.cancelled <==> CancelledAfter(s.log, id, w))
    && (p.executed <==> ExecutedAfter(s.log, id, w))
    && (w < 0 ==> p.proposedAt == 0)
    && (w >= 0 ==> Records(s.log[w], p, id) && |ApproversAfter(s.log, id, w)| == p.approvals)
  }

  ghost predicate Records(e: Entry, p: MintProposal, id: Bytes32) {
    e.timestamp == p.proposedAt && e.event == MintProposed(id, p.sessionId, p.recipient, p.amount)
  }

  ghost predicate Inv(initial: nat, s: Storage) {
    && s.signers == SignersIn(s.log)
    && s.signerCount == |s.signers| <= TOTAL_SIGNERS
    && s.ceiling == CeilingIn(initial, s.log)
    && (forall b :: At(s.mintedInBlock, b, 0) == MintedIn(s.log, b))
    && (forall sid :: sid in s.sessionMinted <==> SessionIn(s.log, sid))
    && (forall id :: ProposalInv(s, id))
    && History(initial, s.log)
  }

  // ----- Every call keeps the invariant -----

  /** How each reading of the log changes when one entry is appended. */
  lemma Appended(initial: nat, log: Log, e: Entry)
    ensures SignersIn(log + [e]) == match e.event
                                    case SignerAdded(a) => SignersIn(log) + {a}
                                    case SignerRemoved(a) => SignersIn(log) - {a}
                                    case _ => SignersIn(log)
    ensures CeilingIn(initial, log + [e]) ==
            if e.event.MintCeilingUpdated? then e.event.newCeiling else CeilingIn(initial, log)
    ensures MintedTotal(log + [e]) == MintedTotal(log) + if e.event.MintExecuted? then e.event.amount else 0
    ensures forall b :: MintedIn(log + [e], b) ==
                        MintedIn(log, b) + if e.event.MintExecuted? && e.number == b then e.event.amount else 0
    ensures forall sid :: SessionIn(log + [e], sid) <==>
                          SessionIn(log, sid) || (e.event.MintExecuted? && e.event.sessionId == sid)
    ensures History(initial, log + [e]) <==> History(initial, log) && Justified(initial, log, e)
  {
    var log' := log + [e];
    assert log'[..|log|] == log;
    assert log'[|log|] == e;
    forall sid
      ensures SessionIn(log', sid) <==> SessionIn(log, sid) || (e.event.MintExecuted? && e.event.sessionId == sid)
    {
      if SessionIn(log, sid) {
        var k :| 0 <= k < |log| && log[k].event.MintExecuted? && log[k].event.sessionId == sid;
        assert log'[k] == log[k];
      }
    }
  }

  /** How the standing of one proposal changes when one entry is appended: everything is
      forgotten by a rewrite, and otherwise remembered. */
  lemma AppendedFor(log: Log, e: Entry, id: Bytes32)
    ensures e.event.MintProposed? && e.event.id == id ==>
              && LastWrite(log + [e], id) == |log| && ApproversAfter(log + [e], id, |log|) == {}
              && !CancelledAfter(log + [e], id, |log|) && !ExecutedAfter(log + [e], id, |log|)
    ensures var w := LastWrite(log, id);
            !(e.event.MintProposed? && e.event.id == id) ==>
              && LastWrite(log + [e], id) == w
              && ApproversAfter(log + [e], id, w) ==
                 ApproversAfter(log, id, w)
                   + (if e.event.MintApproved? && e.event.id == id then {e.event.signer} else {})
              && (CancelledAfter(log + [e], id, w)
                  <==> CancelledAfter(log, id, w) || (e.event.MintCancelled? && e.event.id == id))
              && (ExecutedAfter(log + [e], id, w)
                  <==> ExecutedAfter(log, id, w) || (e.event.MintExecuted? && e.event.id == id))
  {
    var log' := log + [e];
    assert log'[..|log|] == log && log'[|log|] == e;
    if !(e.event.MintProposed? && e.event.id == id) {
      AppendedApprovers(log, e, id, LastWrite(log, id));
      AppendedFlags(log, e, id, LastWrite(log, id));
    }
  }

  lemma AppendedApprovers(log: Log, e: Entry, id: Bytes32, w: int)
    requires w < |log|
    ensures ApproversAfter(log + [e], id, w) ==
            ApproversAfter(log, id, w) + if e.event.MintApproved? && e.event.id == id then {e.event.signer} else {}
  {
    var log' := log + [e];
    var extra := if e.event.MintApproved? && e.event.id == id then {e.event.signer} else {};
    forall a ensures a in ApproversAfter(log', id, w) <==> a in ApproversAfter(log, id, w) + extra {
      if a in ApproversAfter(log, id, w) {
        var k :| 0 <= k < |log| && w < k && log[k].event.MintApproved? && log[k].event.id == id
          && log[k].event.signer == a;
        assert log'[k] == log[k];
      }
      if a in extra {
        assert log'[|log|] == e;
      }
    }
  }

  lemma AppendedFlags(log: Log, e: Entry, id: Bytes32, w: int)
    requires w < |log|
    ensures CancelledAfter(log + [e], id, w)
            <==> CancelledAfter(log, id, w) || (e.event.MintCancelled? && e.event.id == id)
    ensures ExecutedAfter(log + [e], id, w)
            <==> ExecutedAfter(log, id, w) || (e.event.MintExecuted? && e.event.id == id)
  {
    var log' := log + [e];
    assert log'[|log|] == e;
    if CancelledAfter(log, id, w) {
      var k :| 0 <= k < |log| && w < k && log[k].event.MintCancelled? && log[k].event.id == id;
      assert log'[k] == log[k];
    }
    if ExecutedAfter(log, id, w) {
      var k :| 0 <= k < |log| && w < k && log[k].event.MintExecuted? && log[k].event.id == id;
      assert log'[k] == log[k];
    }
  }

  /** Whether an event concerns a proposal. */
  predicate About(event: Event, id: Bytes32) {
    (event.MintProposed? || event.MintApproved? || event.MintExecuted? || event.MintCancelled?) && event.id == id
  }

  /** An event about something else leaves a proposal's standing. */
  lemma ProposalKept(s: Storage, s': Storage, e: Entry, id: Bytes32)
    requires ProposalInv(s, id) && !About(e.event, id)
    requires s'.log == s.log + [e] && s.hasApproved <= s'.hasApproved && s'.Proposal(id) == s.Proposal(id)
    ensures ProposalInv(s', id)
  {
    AppendedFor(s.log, e, id);
    var w := LastWrite(s.log, id);
    assert w >= 0 ==> s'.log[w] == s.log[w];
  }

  /** Cancelling or executing sets the flag that says so, and only that. */
  lemma FlagKept(s: Storage, s': Storage, e: Entry, id: Bytes32)
    requires ProposalInv(s, id) && s'.log == s.log + [e] && s'.hasApproved == s.hasApproved
    requires (e.event == MintCancelled(id) && s'.Proposal(id) == s.Proposal(id).(cancelled := true))
             || (e.event.MintExecuted? && e.event.id == id && s'.Proposal(id) == s.Proposal(id).(executed := true))
    ensures ProposalInv(s', id)
  {
    AppendedFor(s.log, e, id);
    var w := LastWrite(s.log, id);
    assert w >= 0 ==> s'.log[w] == s.log[w];
  }

  /** An administrative event leaves every proposal's standing. */
  lemma ProposalsKept(s: Storage, s': Storage, e: Entry)
    requires forall id :: ProposalInv(s, id)
    requires e.event.SignerAdded? || e.event.SignerRemoved? || e.event.MintCeilingUpdated?
    requires s'.log == s.log + [e] && s'.hasApproved == s.hasApproved && s'.proposals == s.proposals
    ensures forall id :: ProposalInv(s', id)
  {
    forall id ensures ProposalInv(s', id) {
      ProposalKept(s, s', e, id);
    }
  }

  lemma AddSignerKeepsInv(initial: nat, s: Storage, env: Env, a: Address, s': Storage)
    requires Inv(initial, s) && AddSigner(s, env, a) == Returned(s')
    ensures Inv(initial, s') && MintedTotal(s'.log) == MintedTotal(s.log)
  {
    var e := Entry(env.timestamp, env.number, SignerAdded(a));
    Appended(initial, s.log, e);
    ProposalsKept(s, s', e);
  }

  lemma RemoveSignerKeepsInv(initial: nat, s: Storage, env: Env, a: Address, s': Storage)
    requires Inv(initial, s) && RemoveSigner(s, env, a) == Returned(s')
    ensures Inv(initial, s') && MintedTotal(s'.log) == MintedTotal(s.log)
  {
    var e := Entry(env.timestamp, env.number, SignerRemoved(a));
    Appended(initial, s.log, e);
    ProposalsKept(s, s', e);
  }

  lemma SetCeilingKeepsInv(initial: nat, s: Storage, env: Env, c: nat, s': Storage)
    requires Inv(initial, s) && SetMintCeiling(s, env, c) == Returned(s')
    ensures Inv(initial, s') && MintedTotal(s'.log) == MintedTotal(s.log)
  {
    var e := Entry(env.timestamp, env.number, MintCeilingUpdated(s.ceiling, c));
    Appended(initial, s.log, e);
    ProposalsKept(s, s', e);
  }

  lemma CancelKeepsInv(initial: nat, s: Storage, env: Env, id: Bytes32, s': Storage)
    requires Inv(initial, s) && CancelMint(s, env, id) == Returned(s')
    ensures Inv(initial, s') && MintedTotal(s'.log) == MintedTotal(s.log)
  {
    var e := Entry(env.timestamp, env.number, MintCancelled(id));
    Appended(initial, s.log, e);
    forall other ensures ProposalInv(s', other) {
      assert ProposalInv(s, other);
      if other == id {
        FlagKept(s, s', e, id);
      } else {
        ProposalKept(s, s', e, other);
      }
    }
  }

  lemma ProposeKeepsInv(
    initial: nat, s: Storage, env: Env, id: Bytes32, sid: Bytes32, to: Address, amount: nat, s': Storage)
    requires Inv(initial, s) && ProposeMint(s, env, id, sid, to, amount) == Returned(s')
    ensures Inv(initial, s') && MintedTotal(s'.log) == MintedTotal(s.log)
  {
    var e := Entry(env.timestamp, env.number, MintProposed(id, sid, to, amount));
    Appended(initial, s.log, e);
    forall other ensures ProposalInv(s', other) {
      if other == id {
        AppendedFor(s.log, e, id);
      } else {
        ProposalKept(s, s', e, other);
      }
    }
  }

  /** One more address approves the current terms. */
  lemma ApprovalCounted(s: Storage, s': Storage, e: Entry, id: Bytes32)
    requires ProposalInv(s, id) && s.Proposal(id).proposedAt != 0
    requires e.event.MintApproved? && e.event.id == id && (id, e.event.signer) !in s.hasApproved
    requires s'.log == s.log + [e] && s'.hasApproved == s.hasApproved + {(id, e.event.signer)}
    requires s'.Proposal(id) == s.Proposal(id).(approvals := s.Proposal(id).approvals + 1)
    ensures ProposalInv(s', id)
  {
    AppendedFor(s.log, e, id);
    var w := LastWrite(s.log, id);
    assert s'.log[w] == s.log[w];
    assert e.event.signer !in ApproversAfter(s.log, id, w);
  }

  lemma ApproveKeepsInv(initial: nat, s: Storage, env: Env, id: Bytes32, s': Storage)
    requires Inv(initial, s) && ApproveMint(s, env, id) == Returned(s')
    ensures Inv(initial, s') && MintedTotal(s'.log) == MintedTotal(s.log)
  {
    var e := Entry(env.timestamp, env.number, MintApproved(id, env.sender, s.Proposal(id).approvals + 1));
    Appended(initial, s.log, e);
    forall other ensures ProposalInv(s', other) {
      assert ProposalInv(s, other);
      if other == id {
        ApprovalCounted(s, s', e, id);
      } else {
        ProposalKept(s, s', e, other);
      }
    }
  }

  lemma ExecuteKeepsInv(
    initial: nat, s: Storage, l: Ledger, self: Address, env: Env, id: Bytes32, s': Storage, l': Ledger)
    requires Inv(initial, s) && ExecuteMint(s, l, self, env, id) == Returned((s', l'))
    ensures Inv(initial, s') && MintedTotal(s'.log) == MintedTotal(s.log) + s.Proposal(id).amount
  {
    var p := s.Proposal(id);
    var e := Entry(env.timestamp, env.number, MintExecuted(id, p.sessionId, p.recipient, p.amount));
    Appended(initial, s.log, e);
    assert ProposalInv(s, id);
    assert Justified(initial, s.log, e);
    forall other ensures ProposalInv(s', other) {
      assert ProposalInv(s, other);
      if other == id {
        FlagKept(s, s', e, id);
      } else {
        ProposalKept(s, s', e, other);
      }
    }
  }

  lemma PerformKeepsInv(
    initial: nat, s: Storage, l: Ledger, self: Address, env: Env, call: Call, s': Storage, l': Ledger)
    requires Inv(initial, s) && Perform(s, l, self, env, call) == Returned((s', l'))
    ensures Inv(initial, s') && s'.owner == s.owner
    ensures if call.CallExecuteMint? then
              var p := s.Proposal(call.id);
              l.Mint(self, p.recipient, p.amount) == Returned(l')
                && MintedTotal(s'.log) == MintedTotal(s.log) + p.amount
            else l' == l && MintedTotal(s'.log) == MintedTotal(s.log)
  {
    match call
    case CallProposeMint(id, sid, to, amount) => ProposeKeepsInv(initial, s, env, id, sid, to, amount, s');
    case CallApproveMint(id) => ApproveKeepsInv(initial, s, env, id, s');
    case CallExecuteMint(id) => ExecuteKeepsInv(initial, s, l, self, env, id, s', l');
    case CallCancelMint(id) => CancelKeepsInv(initial, s, env, id, s');
    case CallAddSigner(a) => AddSignerKeepsInv(initial, s, env, a, s');
    case CallRemoveSigner(a) => RemoveSignerKeepsInv(initial, s, env, a, s');
    case CallSetMintCeiling(c) => SetCeilingKeepsInv(initial, s, env, c, s');
  }

  lemma InitialInv(owner: Address, ceiling: nat)
    ensures Inv(ceiling, Initial(owner, ceiling)) && MintedTotal(Initial(owner, ceiling).log) == 0
  {
    var s := Initial(owner, ceiling);
    forall id ensures ProposalInv(s, id) {
    }
  }

  // ----- Whole runs -----

  /** One call with the block it runs in and the token ledger it finds there. */
  datatype Step = Step(env: Env, ledger: Ledger, call: Call)

  function Next(s: Storage, self: Address, step: Step): Storage {
    match Perform(s, step.ledger, self, step.env, step.call)
    case Reverted(_) => s
    case Returned(next) => next.0
  }

  /** The storage after a run of calls by any callers, whatever the token does in between. */
  function Run(s: Storage, self: Address, steps: seq<Step>): Storage {
    if steps == [] then s else Next(Run(s, self, steps[..|steps| - 1]), self, steps[|steps| - 1])
  }

  lemma {:induction false} RunKeepsInv(initial: nat, s: Storage, self: Address, steps: seq<Step>)
    requires Inv(initial, s)
    ensures Inv(initial, Run(s, self, steps))
  {
    if steps == [] {
    } else {
      var step := steps[|steps| - 1];
      RunKeepsInv(initial, s, self, steps[..|steps| - 1]);
      var mid := Run(s, self, steps[..|steps| - 1]);
      match Perform(mid, step.ledger, self, step.env, step.call)
      case Reverted(_) =>
      case Returned(next) => PerformKeepsInv(initial, mid, step.ledger, self, step.env, step.call, next.0, next.1);
    }
  }

  lemma {:induction false} HistoryAt(initial: nat, log: Log, i: nat)
    requires History(initial, log) && i < |log|
    ensures Justified(initial, log[..i], log[i])
  {
    if i < |log| - 1 {
      HistoryAt(initial, log[..|log| - 1], i);
      assert log[..|log| - 1][..i] == log[..i];
    }
  }

  /** Who approved a proposal between two positions while being a signer. */
  ghost function SignersApproving(log: Log, id: Bytes32, w: int, i: int): set<Address>
    requires i <= |log|
  {
    set k | 0 <= k < i && w < k && log[k].event.MintApproved? && log[k].event.id == id
            && log[k].event.signer in SignersIn(log[..k]) :: log[k].event.signer
  }

  /** The execution at `i` carries the terms written at `w`, which nothing rewrote, cancelled
      or executed since, 48 hours later, after three distinct signers approved them. */
  ghost predicate QuorumSince(log: Log, w: int, i: int)
    requires 0 <= w < i < |log| && log[i].event.MintExecuted?
  {
    var x := log[i].event;
    && log[w].event == MintProposed(x.id, x.sessionId, x.recipient, x.amount)
    && (forall k :: w < k < i && About(log[k].event, x.id) ==> log[k].event.MintApproved?)
    && log[w].timestamp + TIMELOCK_DELAY <= log[i].timestamp
    && |SignersApproving(log, x.id, w, i)| >= REQUIRED_APPROVALS
  }

  lemma QuorumFromHistory(initial: nat, log: Log, i: nat)
    requires History(initial, log) && i < |log| && log[i].event.MintExecuted?
    ensures exists w :: 0 <= w < i && QuorumSince(log, w, i)
  {
    HistoryAt(initial, log, i);
    var x, before := log[i].event, log[..i];
    var w := LastWrite(before, x.id);
    forall a ensures a in ApproversAfter(before, x.id, w) <==> a in SignersApproving(log, x.id, w, i) {
      if a in ApproversAfter(before, x.id, w) {
        var k :| 0 <= k < i && w < k && before[k].event.MintApproved? && before[k].event.id == x.id
                 && before[k].event.signer == a;
        HistoryAt(initial, log, k);
        assert log[k] == before[k];
      }
      if a in SignersApproving(log, x.id, w, i) {
        var k :| 0 <= k < i && w < k && log[k].event.MintApproved? && log[k].event.id == x.id
                 && log[k].event.signer == a;
        assert log[k] == before[k];
      }
    }
    assert ApproversAfter(before, x.id, w) == SignersApproving(log, x.id, w, i);
    forall k | w < k < i && About(log[k].event, x.id) ensures log[k].event.MintApproved? {
      assert log[k] == before[k];
    }
    assert QuorumSince(log, w, i);
  }

  /** In every run, whatever is re-proposed, cancelled or rotated, each executed mint had
      three distinct signers behind exactly its terms, and waited 48 hours on them. */
  lemma EveryMintHasQuorum(owner: Address, ceiling: nat, self: Address, steps: seq<Step>, i: nat)
    requires var log := Run(Initial(owner, ceiling), self, steps).log; i < |log| && log[i].event.MintExecuted?
    ensures var log := Run(Initial(owner, ceiling), self, steps).log;
            exists w :: 0 <= w < i && QuorumSince(log, w, i)
  {
    InitialInv(owner, ceiling);
    RunKeepsInv(ceiling, Initial(owner, ceiling), self, steps);
    QuorumFromHistory(ceiling, Run(Initial(owner, ceiling), self, steps).log, i);
  }

  /** In every run a session is minted at most once, whichever proposals name it. */
  lemma SessionMintedOnce(owner: Address, ceiling: nat, self: Address, steps: seq<Step>, i: nat, j: nat)
    requires var log := Run(Initial(owner, ceiling), self, steps).log;
             i < j < |log| && log[i].event.MintExecuted? && log[j].event.MintExecuted?
    ensures var log := Run(Initial(owner, ceiling), self, steps).log;
            log[i].event.sessionId != log[j].event.sessionId
  {
    InitialInv(owner, ceiling);
    RunKeepsInv(ceiling, Initial(owner, ceiling), self, steps);
    var log := Run(Initial(owner, ceiling), self, steps).log;
    HistoryAt(ceiling, log, j);
    assert log[..j][i] == log[i];
  }

  lemma {:induction false} BlockTotalCovered(initial: nat, log: Log, number: nat)
    requires History(initial, log) && MintedIn(log, number) > 0
    ensures exists i :: 0 <= i < |log| && log[i].event.MintExecuted? && log[i].number == number
                        && MintedIn(log, number) <= CeilingIn(initial, log[..i])
  {
    var n := |log| - 1;
    if log[n].event.MintExecuted? && log[n].number == number {
      assert MintedIn(log, number) <= CeilingIn(initial, log[..n]);
    } else {
      BlockTotalCovered(initial, log[..n], number);
      var i :| 0 <= i < n && log[..n][i].event.MintExecuted? && log[..n][i].number == number
               && MintedIn(log[..n], number) <= CeilingIn(initial, log[..n][..i]);
      assert log[..n][..i] == log[..i];
    }
  }

  /** In every run the block counter is what was minted in the block, and that is within
      the ceiling in force at some execution in that block. */
  lemma BlockCeiling(owner: Address, ceiling: nat, self: Address, steps: seq<Step>, number: nat)
    ensures var s := Run(Initial(owner, ceiling), self, steps);
            && At(s.mintedInBlock, number, 0) == MintedIn(s.log, number)
            && (MintedIn(s.log, number) > 0 ==>
                  exists i :: 0 <= i < |s.log| && s.log[i].event.MintExecuted? && s.log[i].number == number
                              && MintedIn(s.log, number) <= CeilingIn(ceiling, s.log[..i]))
  {
    InitialInv(owner, ceiling);
    RunKeepsInv(ceiling, Initial(owner, ceiling), self, steps);
    var s := Run(Initial(owner, ceiling), self, steps);
    if MintedIn(s.log, number) > 0 {
      BlockTotalCovered(ceiling, s.log, number);
    }
  }

  /** In every run the signer counter is the size of the signer set, at most five. */
  lemma SignerCountExact(owner: Address, ceiling: nat, self: Address, steps: seq<Step>)
    ensures var s := Run(Initial(owner, ceiling), self, steps);
            s.signers == SignersIn(s.log) && s.signerCount == |s.signers| <= TOTAL_SIGNERS
  {
    InitialInv(owner, ceiling);
    RunKeepsInv(ceiling, Initial(owner, ceiling), self, steps);
  }

  // ----- When a rewritten proposal can still reach its quorum -----

  /** The signers that may still approve a proposal. */
  ghost function Unspent(s: Storage, id: Bytes32): set<Address> {
    set a | a in s.signers && (id, a) !in s.hasApproved
  }

  /** Neither adds a signer nor rewrites the proposal. */
  predicate Leaves(call: Call, id: Bytes32) {
    !call.CallAddSigner? && !(call.CallProposeMint? && call.id == id)
  }

  lemma UnspentOnlyShrinks(s: Storage, self: Address, step: Step, id: Bytes32)
    requires Leaves(step.call, id)
    ensures var s' := Next(s, self, step);
            s'.Proposal(id).approvals + |Unspent(s', id)| <= s.Proposal(id).approvals + |Unspent(s, id)|
  {
    var s' := Next(s, self, step);
    assert Unspent(s', id) <= Unspent(s, id);
    SubsetSize(Unspent(s', id), Unspent(s, id));
    if s'.Proposal(id).approvals != s.Proposal(id).approvals {
      assert step.call == CallApproveMint(id);
      assert Unspent(s', id) <= Unspent(s, id) - {step.env.sender};
      SubsetSize(Unspent(s', id), Unspent(s, id) - {step.env.sender});
    }
  }

  lemma {:induction false} UnspentBoundsRun(s: Storage, self: Address, steps: seq<Step>, id: Bytes32)
    requires forall step :: step in steps ==> Leaves(step.call, id)
    ensures Run(s, self, steps).Proposal(id).approvals <= s.Proposal(id).approvals + |Unspent(s, id)|
    ensures var s' := Run(s, self, steps);
            s'.Proposal(id).approvals + |Unspent(s', id)| <= s.Proposal(id).approvals + |Unspent(s, id)|
  {
    if steps == [] {
    } else {
      UnspentBoundsRun(s, self, steps[..|steps| - 1], id);
      UnspentOnlyShrinks(Run(s, self, steps[..|steps| - 1]), self, steps[|steps| - 1], id);
    }
  }

  ghost predicate Pending(s: Storage, id: Bytes32) {
    var p := s.Proposal(id);
    p.proposedAt != 0 && !p.executed && !p.cancelled
  }

  /** All remaining signers approving, one after the other, use up everything unspent. */
  lemma {:induction false} ApproveAll(s: Storage, self: Address, l: Ledger, id: Bytes32) returns (steps: seq<Step>)
    requires Pending(s, id) && s.Proposal(id).approvals + |Unspent(s, id)| <= MAX_UINT8
    ensures forall step :: step in steps ==> step.call == CallApproveMint(id)
    ensures Run(s, self, steps).Proposal(id).approvals == s.Proposal(id).approvals + |Unspent(s, id)|
    decreases |Unspent(s, id)|
  {
    if Unspent(s, id) == {} {
      return [];
    }
    var a :| a in Unspent(s, id);
    var step := Step(Env(a, 0, 0), l, CallApproveMint(id));
    var s' := Next(s, self, step);
    assert Unspent(s', id) == Unspent(s, id) - {a};
    var rest := ApproveAll(s', self, l, id);
    steps := [step] + rest;
    RunFirst(s, self, step, rest);
  }

  lemma {:induction false} RunFirst(s: Storage, self: Address, step: Step, rest: seq<Step>)
    ensures Run(s, self, [step] + rest) == Run(Next(s, self, step), self, rest)
  {
    var all := [step] + rest;
    if rest == [] {
      assert all[..0] == [];
      assert Run(s, self, all[..0]) == s;
    } else {
      assert all[..|all| - 1] == [step] + rest[..|rest| - 1];
      RunFirst(s, self, step, rest[..|rest| - 1]);
    }
  }

  /** Approvals of overwritten terms stay spent. A pending proposal can collect three
      approvals without new signers or another rewrite exactly when the approvals it has
      and the signers that never approved its id add up to three. */
  lemma QuorumReachable(initial: nat, s: Storage, self: Address, l: Ledger, id: Bytes32)
    requires Inv(initial, s) && Pending(s, id)
    ensures (exists steps: seq<Step> ::
               && (forall step :: step in steps ==> Leaves(step.call, id))
               && Run(s, self, steps).Proposal(id).approvals >= REQUIRED_APPROVALS)
            <==> s.Proposal(id).approvals + |Unspent(s, id)| >= REQUIRED_APPROVALS
  {
    forall other: seq<Step> | forall step :: step in other ==> Leaves(step.call, id)
      ensures Run(s, self, other).Proposal(id).approvals <= s.Proposal(id).approvals + |Unspent(s, id)|
    {
      UnspentBoundsRun(s, self, other, id);
    }
    var steps: seq<Step> := [];
    if s.Proposal(id).approvals < REQUIRED_APPROVALS {
      SubsetSize(Unspent(s, id), s.signers);
      steps := ApproveAll(s, self, l, id);
    }
    assert forall step :: step in steps ==> Leaves(step.call, id);
    assert s.Proposal(id).approvals >= REQUIRED_APPROVALS ==> Run(s, self, []) == s;
  }

  /** Three signers join and approve proposal 9, which is then proposed again. */
  function SpentRun(owner: Address, l: Ledger): seq<Step> {
    var byOwner := Env(owner, 1, 1);
    [Step(byOwner, l, CallAddSigner(1)), Step(byOwner, l, CallAddSigner(2)), Step(byOwner, l, CallAddSigner(3)),
     Step(byOwner, l, CallProposeMint(9, 7, 8, 1)),
     Step(Env(1, 1, 1), l, CallApproveMint(9)), Step(Env(2, 1, 1), l, CallApproveMint(9)),
     Step(Env(3, 1, 1), l, CallApproveMint(9)),
     Step(byOwner, l, CallProposeMint(9, 7, 8, 2))]
  }

  /** A quorum can be lost: after this run all signers are spent, and whatever is called
      next, short of a new signer or a third proposal, the mint stays without approvals. */
  lemma QuorumLost(owner: Address, ceiling: nat, self: Address, l: Ledger, more: seq<Step>)
    requires forall step :: step in more ==> Leaves(step.call, 9)
    ensures var s := Run(Initial(owner, ceiling), self, SpentRun(owner, l));
            Pending(s, 9) && s.signerCount == 3 && Run(s, self, more).Proposal(9).approvals == 0
  {
    var s := Run(Initial(owner, ceiling), self, SpentRun(owner, l));
    SpentState(owner, ceiling, self, l);
    assert Unspent(s, 9) == {};
    UnspentBoundsRun(s, self, more, 9);
  }

  lemma SpentState(owner: Address, ceiling: nat, self: Address, l: Ledger)
    ensures var s := Run(Initial(owner, ceiling), self, SpentRun(owner, l));
            && s.Proposal(9) == MintProposal(7, 8, 2, 1, 0, false, false)
            && s.signers == {1, 2, 3} && s.signerCount == 3 && s.hasApproved == {(9, 1), (9, 2), (9, 3)}
  {
    var s, all := Initial(owner, ceiling), SpentRun(owner, l);
    SpentProposed(owner, ceiling, self, l);
    SpentApproval(owner, ceiling, self, l, 1);
    SpentApproval(owner, ceiling, self, l, 2);
    SpentApproval(owner, ceiling, self, l, 3);
    RunPrefix(s, self, all, 7);
    assert all[..8] == all;
  }

  /** The first proposal, with three signers in place. */
  lemma SpentProposed(owner: Address, ceiling: nat, self: Address, l: Ledger)
    ensures Spent(owner, Run(Initial(owner, ceiling), self, SpentRun(owner, l)[..4]), 0)
  {
    var s, all := Initial(owner, ceiling), SpentRun(owner, l);
    assert all[..0] == [];
    RunPrefix(s, self, all, 0);
    RunPrefix(s, self, all, 1);
    RunPrefix(s, self, all, 2);
    RunPrefix(s, self, all, 3);
    assert Run(s, self, all[..1]).signers == {1} && Run(s, self, all[..2]).signers == {1, 2};
  }

  /** Three signers, the first of which have approved proposal 9. */
  ghost predicate Spent(owner: Address, s: Storage, approvals: nat) {
    && s.owner == owner && s.signers == {1, 2, 3} && s.signerCount == 3 && s.sessionMinted == {}
    && s.Proposal(9) == MintProposal(7, 8, 1, 1, approvals, false, false)
    && s.hasApproved == set a: Address | 1 <= a <= approvals :: (9, a)
  }

  lemma SpentApproval(owner: Address, ceiling: nat, self: Address, l: Ledger, a: Address)
    requires 1 <= a <= 3 && Spent(owner, Run(Initial(owner, ceiling), self, SpentRun(owner, l)[..a + 3]), a - 1)
    ensures Spent(owner, Run(Initial(owner, ceiling), self, SpentRun(owner, l)[..a + 4]), a)
  {
    RunPrefix(Initial(owner, ceiling), self, SpentRun(owner, l), a + 3);
    SpentOnce(owner, Run(Initial(owner, ceiling), self, SpentRun(owner, l)[..a + 3]), self, l, a);
    assert SpentRun(owner, l)[a + 3] == Step(Env(a, 1, 1), l, CallApproveMint(9));
  }

  lemma SpentOnce(owner: Address, s: Storage, self: Address, l: Ledger, a: Address)
    requires 1 <= a <= 3 && Spent(owner, s, a - 1)
    ensures Spent(owner, Next(s, self, Step(Env(a, 1, 1), l, CallApproveMint(9))), a)
  {
    assert (9, a) !in s.hasApproved;
  }

  lemma RunPrefix(s: Storage, self: Address, steps: seq<Step>, k: nat)
    requires k < |steps|
    ensures Run(s, self, steps[..k + 1]) == Next(Run(s, self, steps[..k]), self, steps[k])
  {
    assert steps[..k + 1][..k] == steps[..k];
  }

  /** An amount that fits under the ceiling with what its block minted before is never turned
      away for the ceiling. */
  lemma FittingNotRefused(s: Storage, l: Ledger, self: Address, env: Env, id: Bytes32)
    requires At(s.mintedInBlock, env.number, 0) + s.Proposal(id).amount <= s.ceiling
    ensures var r := ExecuteMint(s, l, self, env, id); r.Reverted? ==> !r.error.CeilingExceeded?
  {
  }

  /** A stored proposal always has somebody to mint to, and something. */
  lemma StoredRecipient(initial: nat, s: Storage, id: Bytes32)
    requires Inv(initial, s) && s.Proposal(id).proposedAt != 0
    ensures s.Proposal(id).recipient != ZERO_ADDRESS && s.Proposal(id).amount > 0
  {
    assert ProposalInv(s, id);
    HistoryAt(initial, s.log, LastWrite(s.log, id));
  }

  // ----- The contract as its history -----

  /** Who ever approved an id, whatever was written under it since. */
  ghost predicate ApprovedIn(log: Log, id: Bytes32, a: Address) {
    exists k :: 0 <= k < |log| && log[k].event.MintApproved? && log[k].event.id == id && log[k].event.signer == a
  }

  /** What a call must answer, judged by the events before it alone: the event it emits, or
      the error it reverts with. Storage plays no part. */
  ghost function Answer(owner: Address, initial: nat, log: Log, env: Env, call: Call): Outcome<Event, MiningError> {
    match call
    case CallAddSigner(a) =>
      if env.sender != owner then Reverted(NotContractOwner)
      else if a == ZERO_ADDRESS then Reverted(ZeroRecipient)
      else if a in SignersIn(log) then Reverted(AlreadySigner)
      else if |SignersIn(log)| >= 5 then Reverted(SignerLimitReached)
      else Returned(SignerAdded(a))
    case CallRemoveSigner(a) =>
      if env.sender != owner then Reverted(NotContractOwner)
      else if a !in SignersIn(log) then Reverted(NotSigner)
      else Returned(SignerRemoved(a))
    case CallSetMintCeiling(c) =>
      if env.sender != owner then Reverted(NotContractOwner)
      else Returned(MintCeilingUpdated(CeilingIn(initial, log), c))
    case CallProposeMint(id, sid, to, amount) =>
      if env.sender != owner then Reverted(NotContractOwner)
      else if to == ZERO_ADDRESS then Reverted(ZeroRecipient)
      else if amount == 0 then Reverted(ZeroAmount)
      else if SessionIn(log, sid) then Reverted(SessionAlreadyMinted)
      else Returned(MintProposed(id, sid, to, amount))
    case CallApproveMint(id) =>
      if env.sender !in SignersIn(log) then Reverted(NotSigner)
      else (
        match Standing(log, id)
        case Reverted(e) => Reverted(e)
        case Returned(w) =>
          var n := |ApproversAfter(log, id, w)|;
          if ApprovedIn(log, id, env.sender) then Reverted(AlreadyApproved)
          else if n >= 255 then Reverted(ApprovalOverflow)
          else Returned(MintApproved(id, env.sender, n + 1)))
    case CallExecuteMint(id) =>
      if env.sender != owner then Reverted(NotContractOwner)
      else (
        match Standing(log, id)
        case Reverted(e) => Reverted(e)
        case Returned(w) => ExecuteAnswer(initial, log, env, id, w))
    case CallCancelMint(id) =>
      var w := LastWrite(log, id);
      if env.sender != owner then Reverted(NotContractOwner)
      else if ExecutedAfter(log, id, w) then Reverted(AlreadyExecuted)
      else if CancelledAfter(log, id, w) then Reverted(AlreadyCancelled)
      else Returned(MintCancelled(id))
  }

  /** Where the terms in force were written, unless there are none or they are closed. */
  ghost function Standing(log: Log, id: Bytes32): (r: Outcome<int, MiningError>)
    ensures r.Returned? ==> 0 <= r.value < |log| && log[r.value].event.MintProposed?
  {
    var w := LastWrite(log, id);
    if w < 0 || log[w].timestamp == 0 then Reverted(ProposalNotFound)
    else if ExecutedAfter(log, id, w) then Reverted(AlreadyExecuted)
    else if CancelledAfter(log, id, w) then Reverted(AlreadyCancelled)
    else Returned(w)
  }

  /** Three approvals, 48 hours, a session not minted, room in the block: in this order. */
  ghost function ExecuteAnswer(initial: nat, log: Log, env: Env, id: Bytes32, w: int): Outcome<Event, MiningError>
    requires 0 <= w < |log| && log[w].event.MintProposed?
  {
    var MintProposed(_, sid, to, amount) := log[w].event;
    var n, due := |ApproversAfter(log, id, w)|, log[w].timestamp + 172_800;
    var total := MintedIn(log, env.number) + amount;
    if n < 3 then Reverted(InsufficientApprovals(n, 3))
    else if env.timestamp < due then Reverted(TimelockNotExpired(due, env.timestamp))
    else if SessionIn(log, sid) then Reverted(SessionAlreadyMinted)
    else if total > CeilingIn(initial, log) then Reverted(CeilingExceeded(total, CeilingIn(initial, log)))
    else Returned(MintExecuted(id, sid, to, amount))
  }

  /** What the event log alone does not give back: the owner, and whose approvals are spent. */
  ghost predicate Recorded(owner: Address, s: Storage) {
    && s.owner == owner
    && forall id: Bytes32, a: Address :: (id, a) in s.hasApproved <==> ApprovedIn(s.log, id, a)
  }

  lemma ApprovedAppended(log: Log, e: Entry, id: Bytes32, a: Address)
    ensures ApprovedIn(log + [e], id, a) <==>
            ApprovedIn(log, id, a) || (e.event.MintApproved? && e.event.id == id && e.event.signer == a)
  {
    var log' := log + [e];
    if ApprovedIn(log, id, a) {
      var k :| 0 <= k < |log| && log[k].event.MintApproved? && log[k].event.id == id && log[k].event.signer == a;
      assert log'[k] == log[k];
    }
    if e.event.MintApproved? && e.event.id == id && e.event.signer == a {
      assert log'[|log|] == e;
    }
  }

  /** Every effective call appends one entry, and an approval goes on record. */
  ghost predicate Appends(s: Storage, s': Storage, e: Entry) {
    && s'.owner == s.owner && s'.log == s.log + [e]
    && s'.hasApproved == s.hasApproved + if e.event.MintApproved? then {(e.event.id, e.event.signer)} else {}
  }

  lemma NextAppends(s: Storage, self: Address, step: Step)
    requires Perform(s, step.ledger, self, step.env, step.call).Returned?
    ensures |Next(s, self, step).log| == |s.log| + 1
    ensures Appends(s, Next(s, self, step), Next(s, self, step).log[|s.log|])
  {
  }

  lemma AppendsRecorded(owner: Address, s: Storage, s': Storage, e: Entry)
    requires Recorded(owner, s) && Appends(s, s', e)
    ensures Recorded(owner, s')
  {
    forall id: Bytes32, a: Address ensures (id, a) in s'.hasApproved <==> ApprovedIn(s'.log, id, a) {
      ApprovedAppended(s.log, e, id, a);
      assert (id, a) in s.hasApproved <==> ApprovedIn(s.log, id, a);
    }
  }

  lemma NextRecorded(owner: Address, s: Storage, self: Address, step: Step)
    requires Recorded(owner, s)
    ensures Recorded(owner, Next(s, self, step))
  {
    if Perform(s, step.ledger, self, step.env, step.call).Returned? {
      NextAppends(s, self, step);
      AppendsRecorded(owner, s, Next(s, self, step), Next(s, self, step).log[|s.log|]);
    }
  }

  lemma {:induction false} RunRecorded(s: Storage, self: Address, steps: seq<Step>)
    requires Recorded(s.owner, s)
    ensures Recorded(s.owner, Run(s, self, steps))
  {
    if steps == [] {
    } else {
      RunRecorded(s, self, steps[..|steps| - 1]);
      NextRecorded(s.owner, Run(s, self, steps[..|steps| - 1]), self, steps[|steps| - 1]);
    }
  }

  /** A call does what its answer says: it reverts with that error, or emits that event and
      nothing else, minting exactly for an executed mint. */
  ghost predicate Obeys(
    s: Storage, l: Ledger, self: Address, env: Env, call: Call, answer: Outcome<Event, MiningError>)
  {
    var r := Perform(s, l, self, env, call);
    match answer
    case Reverted(e) => r == Reverted(e)
    case Returned(event) =>
      var minted := if event.MintExecuted? then l.Mint(self, event.recipient, event.amount) else Returned(l);
      match minted
      case Reverted(e) => r == Reverted(MintFailed(e))
      case Returned(l') =>
        r.Returned? && r.value.1 == l' && r.value.0.log == s.log + [Entry(env.timestamp, env.number, event)]
  }

  lemma ProposalObeys(initial: nat, s: Storage, l: Ledger, self: Address, env: Env, call: Call)
    requires Inv(initial, s) && Recorded(s.owner, s)
    requires call.CallApproveMint? || call.CallExecuteMint? || call.CallCancelMint?
    ensures Obeys(s, l, self, env, call, Answer(s.owner, initial, s.log, env, call))
  {
    assert ProposalInv(s, call.id);
    assert (call.id, env.sender) in s.hasApproved <==> ApprovedIn(s.log, call.id, env.sender);
    StandingStored(s, call.id);
  }

  /** Terms in force are the stored ones. */
  lemma StandingStored(s: Storage, id: Bytes32)
    requires ProposalInv(s, id)
    ensures var p := s.Proposal(id);
            Standing(s.log, id) == if p.proposedAt == 0 then Reverted(ProposalNotFound)
                                   else if p.executed then Reverted(AlreadyExecuted)
                                   else if p.cancelled then Reverted(AlreadyCancelled)
                                   else Returned(LastWrite(s.log, id))
  {
  }

  /** In every run each call answers as the history of events demands, error by error, and
      in every case the storage that it leaves is again what its history says. */
  lemma FollowsHistory(
    owner: Address, initial: nat, self: Address, steps: seq<Step>, l: Ledger, env: Env, call: Call)
    ensures var s := Run(Initial(owner, initial), self, steps);
            Obeys(s, l, self, env, call, Answer(owner, initial, s.log, env, call))
  {
    var s := Run(Initial(owner, initial), self, steps);
    InitialInv(owner, initial);
    RunKeepsInv(initial, Initial(owner, initial), self, steps);
    RunRecorded(Initial(owner, initial), self, steps);
    if call.CallApproveMint? || call.CallExecuteMint? || call.CallCancelMint? {
      ProposalObeys(initial, s, l, self, env, call);
    }
  }

  // ----- The contract -----

  /** The deployed contract: storage that the calls update in place. A call either goes
      through completely or leaves both this storage and the token's as they were. */
  class Mining {
    const self: Address
    const token: Token
    var owner: Address
    var ceiling: nat
    var signers: set<Address>
    var signerCount: nat
    var sessionMinted: set<Bytes32>
    var proposals: map<Bytes32, MintProposal>
    var hasApproved: set<(Bytes32, Address)>
    var mintedInBlock: map<nat, nat>
    var log: Log

    ghost function State(): Storage
      reads this
    {
      Storage(owner, ceiling, signers, signerCount, sessionMinted, proposals, hasApproved, mintedInBlock, log)
    }

    ghost function Both(): (Storage, Ledger)
      reads this, token
    {
      (State(), token.State())
    }

    constructor (self: Address, token: Token, initialOwner: Address, initialCeiling: nat)
      ensures this.self == self && this.token == token
      ensures State() == Initial(initialOwner, initialCeiling) && Inv(initialCeiling, State())
    {
      this.self, this.token := self, token;
      owner, ceiling := initialOwner, initialCeiling;
      signers, signerCount, sessionMinted := {}, 0, {};
      proposals, hasApproved, mintedInBlock, log := map[], {}, map[], [];
      new;
      InitialInv(initialOwner, initialCeiling);
    }

    method AddSigner(ghost initial: nat, env: Env, signer: Address) returns (r: Outcome<(), MiningError>)
      requires Inv(initial, State())
      modifies this
      ensures Agrees(r, Perform(old(State()), old(token.State()), self, env, CallAddSigner(signer)),
                     old(Both()), Both())
      ensures Inv(initial, State())
    {
      if env.sender != owner { return Reverted(NotContractOwner); }
      if signer == ZERO_ADDRESS { return Reverted(ZeroRecipient); }
      if signer in signers { return Reverted(AlreadySigner); }
      if signerCount >= TOTAL_SIGNERS { return Reverted(SignerLimitReached); }
      signers := signers + {signer};
      signerCount := signerCount + 1;
      Emit(env, SignerAdded(signer));
      PerformKeepsInv(initial, old(State()), old(token.State()), self, env, CallAddSigner(signer),
                      State(), token.State());
      return Returned(());
    }

    method RemoveSigner(ghost initial: nat, env: Env, signer: Address) returns (r: Outcome<(), MiningError>)
      requires Inv(initial, State())
      modifies this
      ensures Agrees(r, Perform(old(State()), old(token.State()), self, env, CallRemoveSigner(signer)),
                     old(Both()), Both())
      ensures Inv(initial, State())
    {
      if env.sender != owner { return Reverted(NotContractOwner); }
      if signer !in signers { return Reverted(NotSigner); }
      signers := signers - {signer};
      signerCount := signerCount - 1;
      Emit(env, SignerRemoved(signer));
      PerformKeepsInv(initial, old(State()), old(token.State()), self, env, CallRemoveSigner(signer),
                      State(), token.State());
      return Returned(());
    }

    method SetMintCeiling(ghost initial: nat, env: Env, newCeiling: nat) returns (r: Outcome<(), MiningError>)
      requires Inv(initial, State())
      modifies this
      ensures Agrees(r, Perform(old(State()), old(token.State()), self, env, CallSetMintCeiling(newCeiling)),
                     old(Both()), Both())
      ensures Inv(initial, State())
    {
      if env.sender != owner { return Reverted(NotContractOwner); }
      Emit(env, MintCeilingUpdated(ceiling, newCeiling));
      ceiling := newCeiling;
      PerformKeepsInv(initial, old(State()), old(token.State()), self, env, CallSetMintCeiling(newCeiling),
                      State(), token.State());
      return Returned(());
    }

    method ProposeMint(ghost initial: nat, env: Env, id: Bytes32, sessionId: Bytes32, recipient: Address, amount: nat)
      returns (r: Outcome<(), MiningError>)
      requires Inv(initial, State())
      modifies this
      ensures Agrees(r, Perform(old(State()), old(token.State()), self, env,
                                CallProposeMint(id, sessionId, recipient, amount)),
                     old(Both()), Both())
      ensures Inv(initial, State())
    {
      if env.sender != owner { return Reverted(NotContractOwner); }
      if recipient == ZERO_ADDRESS { return Reverted(ZeroRecipient); }
      if amount == 0 { return Reverted(ZeroAmount); }
      if sessionId in sessionMinted { return Reverted(SessionAlreadyMinted); }
      proposals := proposals[id := MintProposal(sessionId, recipient, amount, env.timestamp, 0, false, false)];
      Emit(env, MintProposed(id, sessionId, recipient, amount));
      PerformKeepsInv(initial, old(State()), old(token.State()), self, env,
                      CallProposeMint(id, sessionId, recipient, amount), State(), token.State());
      return Returned(());
    }

    method ApproveMint(ghost initial: nat, env: Env, id: Bytes32) returns (r: Outcome<(), MiningError>)
      requires Inv(initial, State())
      modifies this
      ensures Agrees(r, Perform(old(State()), old(token.State()), self, env, CallApproveMint(id)), old(Both()), Both())
      ensures Inv(initial, State())
    {
      if env.sender !in signers { return Reverted(NotSigner); }
      var proposal := At(proposals, id, NO_PROPOSAL);
      if proposal.proposedAt == 0 { return Reverted(ProposalNotFound); }
      if proposal.executed { return Reverted(AlreadyExecuted); }
      if proposal.cancelled { return Reverted(AlreadyCancelled); }
      if (id, env.sender) in hasApproved { return Reverted(AlreadyApproved); }
      if proposal.approvals >= MAX_UINT8 { return Reverted(ApprovalOverflow); }
      hasApproved := hasApproved + {(id, env.sender)};
      proposals := proposals[id := proposal.(approvals := proposal.approvals + 1)];
      Emit(env, MintApproved(id, env.sender, proposal.approvals + 1));
      PerformKeepsInv(initial, old(State()), old(token.State()), self, env, CallApproveMint(id),
                      State(), token.State());
      return Returned(());
    }

    method ExecuteMint(ghost initial: nat, env: Env, id: Bytes32) returns (r: Outcome<(), MiningError>)
      requires Inv(initial, State())
      modifies this, token
      ensures Agrees(r, Perform(old(State()), old(token.State()), self, env, CallExecuteMint(id)), old(Both()), Both())
      ensures Inv(initial, State())
    {
      if env.sender != owner { return Reverted(NotContractOwner); }
      var proposal := At(proposals, id, NO_PROPOSAL);
      if proposal.proposedAt == 0 { return Reverted(ProposalNotFound); }
      if proposal.executed { return Reverted(AlreadyExecuted); }
      if proposal.cancelled { return Reverted(AlreadyCancelled); }
      if proposal.approvals < REQUIRED_APPROVALS {
        return Reverted(InsufficientApprovals(proposal.approvals, REQUIRED_APPROVALS));
      }
      var executionTime := proposal.proposedAt + TIMELOCK_DELAY;
      if env.timestamp < executionTime { return Reverted(TimelockNotExpired(executionTime, env.timestamp)); }
      if proposal.sessionId in sessionMinted { return Reverted(SessionAlreadyMinted); }
      var newBlockTotal := At(mintedInBlock, env.number, 0) + proposal.amount;
      if newBlockTotal > ceiling { return Reverted(CeilingExceeded(newBlockTotal, ceiling)); }
      // The token call comes first here: a failing one must undo nothing.
      var minted := token.Mint(self, proposal.recipient, proposal.amount);
      if minted.Reverted? { return Reverted(MintFailed(minted.error)); }
      mintedInBlock := mintedInBlock[env.number := newBlockTotal];
      sessionMinted := sessionMinted + {proposal.sessionId};
      proposals := proposals[id := proposal.(executed := true)];
      Emit(env, MintExecuted(id, proposal.sessionId, proposal.recipient, proposal.amount));
      PerformKeepsInv(initial, old(State()), old(token.State()), self, env, CallExecuteMint(id),
                      State(), token.State());
      return Returned(());
    }

    method CancelMint(ghost initial: nat, env: Env, id: Bytes32) returns (r: Outcome<(), MiningError>)
      requires Inv(initial, State())
      modifies this
      ensures Agrees(r, Perform(old(State()), old(token.State()), self, env, CallCancelMint(id)), old(Both()), Both())
      ensures Inv(initial, State())
    {
      if env.sender != owner { return Reverted(NotContractOwner); }
      var proposal := At(proposals, id, NO_PROPOSAL);
      if proposal.executed { return Reverted(AlreadyExecuted); }
      if proposal.cancelled { return Reverted(AlreadyCancelled); }
      proposals := proposals[id := proposal.(cancelled := true)];
      Emit(env, MintCancelled(id));
      PerformKeepsInv(initial, old(State()), old(token.State()), self, env, CallCancelMint(id), State(), token.State());
      return Returned(());
    }

    method Emit(env: Env, event: Event)
      modifies this`log
      ensures log == old(log) + [Entry(env.timestamp, env.number, event)]
    {
      log := log + [Entry(env.timestamp, env.number, event)];
    }
  }
}
