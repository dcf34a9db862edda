/** Creating and ending sessions as interleaved steps of concurrent handlers over the shared
    store, price map and proposal table. */
module EndSession {
  import opened Basics
  import Attestation
  import Boost
  import Oracle
  import Payout
  import SessionHashrate
  import Staking = StakingContract

  type SessionId = nat
  type HandlerId = nat
  type Wallet = nat

  const PRM_WEI: nat := 1_000_000_000_000_000_000
  const SAFETY_MULTIPLIER: nat := 3

  /** What is fixed when a session is created. */
  datatype Context = Context(
    wallet: Wallet,
    client: SessionHashrate.ClientType,
    lead: Option<Attestation.NodeId>,
    commodity: Payout.Commodity,
    chain: Chain)

  /** A session's price samples and start. */
  datatype Calculator = Calculator(samples: seq<Oracle.Sample>, start: int)

  /** Who took a calculator, what it held, and when. */
  datatype Taking = Taking(handler: HandlerId, calculator: Calculator, now: int) {
    function Twap(): nat
      requires calculator.samples != []
    {
      Oracle.Average(calculator.samples).value
    }

    function Duration(): nat {
      if now > calculator.start then now - calculator.start else 0
    }
  }

  /** The attestation network, configured at start-up: the nodes' registered keys, the pool
      to select from, and how a signature over a message turns into an address. */
  datatype Network = Network(
    signers: map<Attestation.NodeId, Attestation.Address>,
    eligible: seq<Attestation.NodeId>,
    recover: (Attestation.Signature, Attestation.Message) -> Option<Attestation.Address>)
  {
    function Result(round: Round, lead: Attestation.NodeId): Attestation.Result {
      Attestation.Collected(Attestation.Setting(signers, round.message, recover, round.answer),
                            Attestation.Targets(eligible, round.seed, lead))
    }
  }

  /** One attestation: the message to be signed, the seed, and what the nodes answer. */
  datatype Round = Round(
    message: Option<Attestation.Message>,
    seed: Attestation.Seed,
    answer: (nat, Attestation.NodeId) -> Option<Attestation.Signature>)

  /** What the handler reads to price a session: its accepted proofs, unless that read
      fails, the wallet's stakes on the configured chains, and the edge. */
  datatype Inputs = Inputs(
    proofs: Option<seq<SessionHashrate.Proof>>,
    ethereum: Option<Boost.ReadResult>,
    polygon: Option<Boost.ReadResult>,
    houseEdgeBps: nat)

  /** Everything that an amount rests on. */
  datatype Grounds = Grounds(lead: Attestation.NodeId, round: Round, inputs: Inputs, twap: nat, duration: nat)

  datatype Proposal = Proposal(
    session: SessionId,
    wallet: Wallet,
    commodity: Payout.Commodity,
    chain: Chain,
    amount: nat,
    cents: Option<nat>,
    attestation: Attestation.Result)

  /** What stood behind a proposal: its grounds and the figures of its check. */
  datatype Audit = Audit(grounds: Grounds, minted24h: nat, ceiling: nat)

  datatype Status =
    | NotFound | Rejected | NoAssignedNode | NoSamples | AttestationFailed | PayoutOverflow
    | CeilingUnverified | CeilingExceeded | SigningFailed | Completed

  /** How far a handler has got. Everything from `Taken` on owns the session's calculator. */
  datatype Phase =
    | Started
    | Loaded(ctx: Context)
    | Revealed(ctx: Context, lead: Attestation.NodeId)
    | Taken(ctx: Context, lead: Attestation.NodeId, twap: nat, duration: nat)
    | Attested(ctx: Context, lead: Attestation.NodeId, twap: nat, duration: nat, round: Round)
    | Priced(ctx: Context, grounds: Grounds, amount: nat, cents: Option<nat>)
    | Cleared(ctx: Context, grounds: Grounds, amount: nat, cents: Option<nat>, minted24h: nat, ceiling: nat)
    | Stored(ctx: Context)
    | Finished(status: Status)

  datatype Handler = Handler(session: SessionId, phase: Phase)

  /** The shared state, with a record of the past: what each session was created with, which
      proofs were accepted and which hashes stored for it, which handler took its calculator, and who stored each
      proposal on what grounds. */
  datatype State = State(
    net: Network,
    contexts: map<SessionId, Context>,
    calculators: map<SessionId, Calculator>,
    handlers: map<HandlerId, Handler>,
    proposals: seq<Proposal>,
    created: map<SessionId, Context>,
    tracked: set<SessionId>,
    proofs: map<SessionId, seq<SessionHashrate.Proof>>,
    hashes: map<SessionId, seq<Attestation.Message>>,
    takenBy: map<SessionId, Taking>,
    proposedBy: seq<HandlerId>,
    audits: seq<Audit>)
  {
    function ProofsOf(id: SessionId): seq<SessionHashrate.Proof> {
      if id in proofs then proofs[id] else []
    }

    function HashesOf(id: SessionId): seq<Attestation.Message> {
      if id in hashes then hashes[id] else []
    }
  }

  function Initial(net: Network): State {
    State(net, map[], map[], map[], [], map[], {}, map[], map[], map[], [], [])
  }

  // ----- Pieces of the handler -----

  /** The daily ceiling in wei: users times average times three, each step saturating. */
  function DailyCeilingWei(activeUsers: nat, averagePrm: nat): nat {
    var prm := SaturatingMul(SaturatingMul(activeUsers, averagePrm, MAX_U64), SAFETY_MULTIPLIER, MAX_U64);
    SaturatingMul(prm, PRM_WEI, MAX_U128)
  }

  /** The terms of a session's payout: the server-derived hashrate, zero if its read failed,
      the price average, the boost from the wallet's stakes, and the live edge. */
  function RateFor(ctx: Context, twap: nat, inputs: Inputs): Payout.Rate {
    var hashrate :=
      if inputs.proofs.Some? then SessionHashrate.Hashrate(SessionHashrate.AfterProofs(inputs.proofs.value), ctx.client)
      else 0;
    var boostBps := Boost.CombinedBoostBps(Boost.Active(inputs.ethereum), Boost.PolygonOnly(inputs.polygon));
    Payout.Rate(hashrate, twap, ctx.commodity, boostBps, Payout.DEFAULT_CONFIG.(houseEdgeBps := inputs.houseEdgeBps))
  }

  // ----- Steps -----

  datatype Step =
    // Session creation: the stored context, then the price calculator.
    | CreateContext(session: SessionId, ctx: Context)
    | OpenCalculator(session: SessionId, start: int)
    | AddSample(session: SessionId, sample: Oracle.Sample)
    // A submitted proof counts towards the rate if accepted; its hash is stored in any case.
    | AcceptProof(session: SessionId, proof: SessionHashrate.Proof)
    | StoreHash(session: SessionId, hash: Attestation.Message)
    | Expire(session: SessionId)
    // One handler of an end request.
    | Begin(handler: HandlerId, session: SessionId)
    | Load(handler: HandlerId)
    | Reveal(handler: HandlerId, nonceMatches: bool)
    | Take(handler: HandlerId, now: int)
    | Attest(
        handler: HandlerId,
        hashesFound: bool,
        seed: Attestation.Seed,
        answer: (nat, Attestation.NodeId) -> Option<Attestation.Signature>)
    | Price(
        handler: HandlerId,
        proofsRead: bool,
        ethereum: Option<Boost.ReadResult>,
        polygon: Option<Boost.ReadResult>,
        houseEdgeBps: nat)
    | CheckCeiling(handler: HandlerId, minted24h: Option<nat>, activeUsers: nat, averagePrm: nat)
    | Store(handler: HandlerId, signed: bool)
    | Delete(handler: HandlerId)

  /** Not a step of a running handler. */
  predicate Outer(step: Step) {
    || step.CreateContext? || step.OpenCalculator? || step.AddSample? || step.AcceptProof? || step.StoreHash?
    || step.Expire? || step.Begin?
  }

  function At(s: State, handler: HandlerId, phase: Phase): (s': State)
    requires handler in s.handlers
    ensures s' == s.(handlers := s'.handlers)
    ensures handler in s'.handlers && s'.handlers == s.handlers[handler := s'.handlers[handler]]
  {
    s.(handlers := s.handlers[handler := s.handlers[handler].(phase := phase)])
  }

  /** One step; a step that does not apply changes nothing. */
  function Next(s: State, step: Step): (s': State)
    ensures s'.net == s.net && (!step.Take? ==> s'.takenBy == s.takenBy)
  {
    if Outer(step) then Arrive(s, step)
    else if step.handler in s.handlers then Advance(s, step, step.handler)
    else s
  }

  /** What happens around the handlers. New sessions and handlers have new ids. */
  function Arrive(s: State, step: Step): (s': State)
    requires Outer(step)
    ensures s'.net == s.net && s'.takenBy == s.takenBy
  {
    match step
    case CreateContext(id, ctx) =>
      if id in s.created then s
      else s.(contexts := s.contexts[id := ctx], created := s.created[id := ctx])
    case OpenCalculator(id, start) =>
      if id !in s.created || id in s.tracked then s
      else s.(calculators := s.calculators[id := Calculator([], start)], tracked := s.tracked + {id})
    case AddSample(id, sample) =>
      if id !in s.calculators || sample.sampledAt < s.calculators[id].start then s
      else
        var calculator := s.calculators[id];
        s.(calculators := s.calculators[id := calculator.(samples := calculator.samples + [sample])])
    case AcceptProof(id, proof) => s.(proofs := s.proofs[id := s.ProofsOf(id) + [proof]])
    case StoreHash(id, hash) => s.(hashes := s.hashes[id := s.HashesOf(id) + [hash]])
    case Expire(id) => s.(contexts := s.contexts - {id})
    case Begin(h, id) => if h in s.handlers then s else s.(handlers := s.handlers[h := Handler(id, Started)])
  }

  /** A handler runs its steps in order; one out of order changes nothing. */
  function Advance(s: State, step: Step, h: HandlerId): (s': State)
    requires h in s.handlers
    ensures h in s'.handlers && s'.handlers == s.handlers[h := s'.handlers[h]]
    ensures s'.net == s.net && s'.created == s.created && s'.tracked == s.tracked
    ensures s'.proofs == s.proofs && s'.hashes == s.hashes
    ensures !step.Take? ==> s'.takenBy == s.takenBy && s'.calculators == s.calculators
  {
    match step
    case Take(_, now) => TakeCalculator(s, h, now)
    case Store(_, signed) => StoreProposal(s, h, signed)
    case Delete(_) =>
      if s.handlers[h].phase.Stored?
      then At(s.(contexts := s.contexts - {s.handlers[h].session}), h, Finished(Completed)) else s
    case _ => At(s, h, Moved(s, step, h))
  }

  /** The steps that only move the handler itself. */
  function Moved(s: State, step: Step, h: HandlerId): Phase
    requires h in s.handlers
  {
    var id, phase := s.handlers[h].session, s.handlers[h].phase;
    match step
    case Load(_) =>
      if !phase.Started? then phase
      else if id in s.contexts then Loaded(s.contexts[id])
      else Finished(NotFound)
    case Reveal(_, matches) =>
      if !phase.Loaded? then phase
      else if !matches then Finished(Rejected)
      else if phase.ctx.lead.None? then Finished(NoAssignedNode)
      else Revealed(phase.ctx, phase.ctx.lead.value)
    case Attest(_, hashesFound, seed, answer) =>
      if !phase.Taken? then phase
      else AttestedPhase(s.net, phase, Round(FirstHash(s, id, hashesFound), seed, answer))
    case Price(_, proofsRead, ethereum, polygon, edge) =>
      if !phase.Attested? then phase
      else PricedPhase(phase, Inputs(if proofsRead then Some(s.ProofsOf(id)) else None, ethereum, polygon, edge))
    case CheckCeiling(_, minted, users, average) =>
      if !phase.Priced? then phase else CheckedPhase(phase, minted, DailyCeilingWei(users, average))
    case _ => phase
  }

  /** The message to attest: the hash of the first stored proof, if the list is still there. */
  function FirstHash(s: State, id: SessionId, found: bool): Option<Attestation.Message> {
    if found && s.HashesOf(id) != [] then Some(s.HashesOf(id)[0]) else None
  }

  function AttestedPhase(net: Network, phase: Phase, round: Round): Phase
    requires phase.Taken?
  {
    if !net.Result(round, phase.lead).IsSufficient() then Finished(AttestationFailed)
    else Attested(phase.ctx, phase.lead, phase.twap, phase.duration, round)
  }

  /** The mint amount and the cents figure, absent when it leaves 64 signed bits. */
  function PricedPhase(phase: Phase, inputs: Inputs): Phase
    requires phase.Attested?
  {
    match Payout.Settle(RateFor(phase.ctx, phase.twap, inputs), phase.duration)
    case Overflow => Finished(PayoutOverflow)
    case Value(settled) =>
      Priced(phase.ctx, Grounds(phase.lead, phase.round, inputs, phase.twap, phase.duration), settled.wei,
             if settled.cents <= MAX_I64 then Some(settled.cents) else None)
  }

  function CheckedPhase(phase: Phase, minted24h: Option<nat>, ceiling: nat): Phase
    requires phase.Priced?
  {
    if minted24h.None? then Finished(CeilingUnverified)
    else if SaturatingAdd(minted24h.value, phase.amount, MAX_U128) > ceiling then Finished(CeilingExceeded)
    else Cleared(phase.ctx, phase.grounds, phase.amount, phase.cents, minted24h.value, ceiling)
  }

  /** Removes the session's calculator from the shared map, in one atomic step. */
  function TakeCalculator(s: State, h: HandlerId, now: int): (s': State)
    requires h in s.handlers
    ensures s' == s.(handlers := s'.handlers, calculators := s'.calculators, takenBy := s'.takenBy)
    ensures h in s'.handlers && s'.handlers == s.handlers[h := s'.handlers[h]]
  {
    var id, phase := s.handlers[h].session, s.handlers[h].phase;
    if !phase.Revealed? then s
    else if id !in s.calculators then At(s, h, Finished(NoSamples))
    else
      var taking := Taking(h, s.calculators[id], now);
      At(s.(calculators := s.calculators - {id}, takenBy := s.takenBy[id := taking]), h,
         TakenPhase(phase.ctx, phase.lead, taking))
  }

  function TakenPhase(ctx: Context, lead: Attestation.NodeId, taking: Taking): Phase {
    if taking.calculator.samples == [] then Finished(NoSamples)
    else Taken(ctx, lead, taking.Twap(), taking.Duration())
  }

  function StoreProposal(s: State, h: HandlerId, signed: bool): (s': State)
    requires h in s.handlers
    ensures s' == s.(handlers := s'.handlers, proposals := s'.proposals,
                     proposedBy := s'.proposedBy, audits := s'.audits)
    ensures h in s'.handlers && s'.handlers == s.handlers[h := s'.handlers[h]]
  {
    var id, phase := s.handlers[h].session, s.handlers[h].phase;
    if !phase.Cleared? then s
    else if !signed then At(s, h, Finished(SigningFailed))
    else
      var p := Proposal(id, phase.ctx.wallet, phase.ctx.commodity, phase.ctx.chain, phase.amount, phase.cents,
                        s.net.Result(phase.grounds.round, phase.grounds.lead));
      At(s.(proposals := s.proposals + [p], proposedBy := s.proposedBy + [h],
            audits := s.audits + [Audit(phase.grounds, phase.minted24h, phase.ceiling)]),
         h, Stored(phase.ctx))
  }

  function Run(net: Network, steps: seq<Step>): State {
    if steps == [] then Initial(net) else Next(Run(net, steps[..|steps| - 1]), steps[|steps| - 1])
  }

  // ----- The invariant -----

  predicate Owns(phase: Phase) {
    phase.Taken? || phase.Attested? || phase.Priced? || phase.Cleared? || phase.Stored?
  }

  /** The amount and cents are what the payout chain settles for on the grounds. */
  ghost predicate Settled(ctx: Context, grounds: Grounds, amount: nat, cents: Option<nat>) {
    var settled := Payout.Settle(RateFor(ctx, grounds.twap, grounds.inputs), grounds.duration);
    && settled.Value? && amount == settled.value.wei
    && cents == if settled.value.cents <= MAX_I64 then Some(settled.value.cents) else None
  }

  /** The session's calculator was taken, not empty, and gave this average and duration. */
  ghost predicate TakenAs(s: State, id: SessionId, twap: nat, duration: nat) {
    && id in s.takenBy && s.takenBy[id].calculator.samples != []
    && (twap, duration) == (s.takenBy[id].Twap(), s.takenBy[id].Duration())
  }

  /** A sufficient round over the hash of the session's first stored proof. */
  ghost predicate RoundOf(s: State, id: SessionId, lead: Attestation.NodeId, round: Round) {
    && s.net.Result(round, lead).IsSufficient()
    && s.HashesOf(id) != [] && round.message == Some(s.HashesOf(id)[0])
  }

  /** The grounds are the session's own: its assigned node in a sufficient round, the average
      and duration of its calculator, and proofs accepted for it. */
  ghost predicate Grounded(s: State, id: SessionId, ctx: Context, grounds: Grounds) {
    && ctx.lead == Some(grounds.lead) && RoundOf(s, id, grounds.lead, grounds.round)
    && TakenAs(s, id, grounds.twap, grounds.duration)
    && (grounds.inputs.proofs.Some? ==> grounds.inputs.proofs.value <= s.ProofsOf(id))
  }

  ghost predicate CreatedAs(s: State, id: SessionId, ctx: Context) {
    id in s.created && s.created[id] == ctx
  }

  ghost predicate TakenFor(s: State, id: SessionId, h: HandlerId) {
    id in s.takenBy && s.takenBy[id].handler == h
  }

  /** What a handler in a phase knows about its session. */
  ghost predicate Knows(s: State, h: HandlerId, id: SessionId, phase: Phase) {
    match phase
    case Started => true
    case Loaded(ctx) => CreatedAs(s, id, ctx)
    case Revealed(ctx, lead) => CreatedAs(s, id, ctx) && ctx.lead == Some(lead)
    case Taken(ctx, lead, twap, duration) =>
      CreatedAs(s, id, ctx) && ctx.lead == Some(lead) && TakenFor(s, id, h) && TakenAs(s, id, twap, duration)
    case Attested(ctx, lead, twap, duration, round) =>
      && CreatedAs(s, id, ctx) && ctx.lead == Some(lead) && TakenFor(s, id, h) && TakenAs(s, id, twap, duration)
      && RoundOf(s, id, lead, round)
    case Priced(ctx, grounds, amount, cents) =>
      && CreatedAs(s, id, ctx) && TakenFor(s, id, h)
      && Grounded(s, id, ctx, grounds) && Settled(ctx, grounds, amount, cents)
    case Cleared(ctx, grounds, amount, cents, minted24h, ceiling) =>
      && CreatedAs(s, id, ctx) && TakenFor(s, id, h)
      && Grounded(s, id, ctx, grounds) && Settled(ctx, grounds, amount, cents)
      && minted24h + amount <= ceiling
    case Stored(ctx) => CreatedAs(s, id, ctx) && TakenFor(s, id, h)
    case Finished(_) => true
  }

  ghost predicate HandlerInv(s: State, h: HandlerId)
    requires h in s.handlers
  {
    var id, phase := s.handlers[h].session, s.handlers[h].phase;
    && Knows(s, h, id, phase)
    && (!phase.Stored? && !phase.Finished? ==> h !in s.proposedBy)
  }

  ghost predicate ProposalInv(s: State, k: nat)
    requires k < |s.proposals| == |s.proposedBy| == |s.audits|
  {
    var p, h, audit := s.proposals[k], s.proposedBy[k], s.audits[k];
    && p.session in s.created
    && var ctx := s.created[p.session];
    && (p.wallet, p.commodity, p.chain) == (ctx.wallet, ctx.commodity, ctx.chain)
    && p.attestation == s.net.Result(audit.grounds.round, audit.grounds.lead)
    && Grounded(s, p.session, ctx, audit.grounds)
    && Settled(ctx, audit.grounds, p.amount, p.cents)
    && audit.minted24h + p.amount <= audit.ceiling
    && s.takenBy[p.session].handler == h && h in s.handlers
  }

  /** The maps of contexts and calculators on their own. */
  ghost predicate MapsInv(s: State) {
    && (forall id :: id in s.contexts ==> id in s.created && s.contexts[id] == s.created[id])
    && s.calculators.Keys <= s.tracked && s.takenBy.Keys <= s.tracked && s.calculators.Keys !! s.takenBy.Keys
  }

  ghost predicate Inv(s: State) {
    && |s.proposals| == |s.proposedBy| == |s.audits|
    && MapsInv(s)
    && (forall h :: h in s.handlers ==> HandlerInv(s, h))
    && (forall k :: 0 <= k < |s.proposals| ==> ProposalInv(s, k))
    && (forall i, j :: 0 <= i < j < |s.proposals| ==> s.proposedBy[i] != s.proposedBy[j])
  }

  /** The ceiling is three times users times average, in wei, where the count of tokens
      saturates 64 bits. It never saturates 128 bits, so the saturating check hides no excess. */
  lemma CeilingCheckExact(minted24h: nat, amount: nat, activeUsers: nat, averagePrm: nat)
    ensures DailyCeilingWei(activeUsers, averagePrm) < MAX_U128
    ensures var prm := activeUsers * averagePrm * 3;
            DailyCeilingWei(activeUsers, averagePrm) ==
            (if prm <= MAX_U64 then prm else MAX_U64) * 1_000_000_000_000_000_000
    ensures SaturatingAdd(minted24h, amount, MAX_U128) <= DailyCeilingWei(activeUsers, averagePrm) <==>
            minted24h + amount <= DailyCeilingWei(activeUsers, averagePrm)
  {
    var prm := SaturatingMul(SaturatingMul(activeUsers, averagePrm, MAX_U64), SAFETY_MULTIPLIER, MAX_U64);
    assert prm <= MAX_U64;
    assert prm * PRM_WEI <= MAX_U64 * PRM_WEI;
  }

  /** The records of the past only grow. */
  ghost predicate Extends(s: State, s': State) {
    && (forall id :: id in s.created ==> id in s'.created && s'.created[id] == s.created[id])
    && (forall id :: id in s.takenBy ==> id in s'.takenBy && s'.takenBy[id] == s.takenBy[id])
    && (forall id :: s.ProofsOf(id) <= s'.ProofsOf(id))
    && (forall id :: s.HashesOf(id) <= s'.HashesOf(id))
    && s'.net == s.net
  }

  lemma KnowsKept(s: State, s': State, h: HandlerId, id: SessionId, phase: Phase)
    requires Knows(s, h, id, phase) && Extends(s, s')
    ensures Knows(s', h, id, phase)
  {
  }

  lemma HandlerKept(s: State, s': State, h: HandlerId)
    requires h in s.handlers && h in s'.handlers && s'.handlers[h] == s.handlers[h]
    requires HandlerInv(s, h) && Extends(s, s') && s'.proposedBy == s.proposedBy
    ensures HandlerInv(s', h)
  {
    KnowsKept(s, s', h, s.handlers[h].session, s.handlers[h].phase);
  }

  lemma ProposalsKept(s: State, s': State)
    requires Inv(s) && Extends(s, s') && s.handlers.Keys <= s'.handlers.Keys
    requires s'.proposals == s.proposals && s'.proposedBy == s.proposedBy && s'.audits == s.audits
    ensures forall k :: 0 <= k < |s'.proposals| ==> ProposalInv(s', k)
  {
    forall k | 0 <= k < |s'.proposals| ensures ProposalInv(s', k) {
      assert ProposalInv(s, k);
    }
  }

  /** Moving one handler keeps everyone else's standing. */
  lemma MoveKeepsInv(s: State, h: HandlerId, phase: Phase)
    requires Inv(s) && h in s.handlers && HandlerInv(At(s, h, phase), h)
    ensures Inv(At(s, h, phase))
  {
    var s' := At(s, h, phase);
    assert Extends(s, s');
    ProposalsKept(s, s');
    forall g | g in s'.handlers && g != h ensures HandlerInv(s', g) {
      HandlerKept(s, s', g);
    }
  }

  lemma ProposersAreHandlers(s: State)
    requires Inv(s)
    ensures forall h :: h in s.proposedBy ==> h in s.handlers
  {
    forall k | 0 <= k < |s.proposedBy| ensures s.proposedBy[k] in s.handlers {
      assert ProposalInv(s, k);
    }
  }

  lemma FrameKeepsInv(s: State, s': State)
    requires Inv(s) && MapsInv(s') && Extends(s, s') && s'.handlers == s.handlers
    requires s'.proposals == s.proposals && s'.proposedBy == s.proposedBy && s'.audits == s.audits
    ensures Inv(s')
  {
    ProposalsKept(s, s');
    forall g | g in s'.handlers ensures HandlerInv(s', g) {
      HandlerKept(s, s', g);
    }
  }

  lemma BeginKeepsInv(s: State, h: HandlerId, id: SessionId)
    requires Inv(s) && h !in s.handlers
    ensures Inv(s.(handlers := s.handlers[h := Handler(id, Started)]))
  {
    var s' := s.(handlers := s.handlers[h := Handler(id, Started)]);
    ProposersAreHandlers(s);
    ProposalsKept(s, s');
    forall g | g in s'.handlers ensures HandlerInv(s', g) {
      if g != h {
        HandlerKept(s, s', g);
      }
    }
  }

  lemma CreationFrame(s: State, step: Step)
    requires Outer(step) && !step.Begin? && !step.AcceptProof? && !step.StoreHash?
    ensures var s' := Next(s, step);
            && Extends(s, s') && s'.handlers == s.handlers
            && s'.proposals == s.proposals && s'.proposedBy == s.proposedBy && s'.audits == s.audits
  {
    var s' := Next(s, step);
    assert s'.proofs == s.proofs && s'.hashes == s.hashes && s'.takenBy == s.takenBy;
    assert forall id :: s.ProofsOf(id) == s'.ProofsOf(id) && s.HashesOf(id) == s'.HashesOf(id);
  }

  lemma CreationKeepsMaps(s: State, step: Step)
    requires MapsInv(s) && Outer(step)
    ensures MapsInv(Next(s, step))
  {
    assert Next(s, step).takenBy == s.takenBy;
  }

  lemma CreationKeepsInv(s: State, step: Step)
    requires Inv(s) && Outer(step)
    ensures Inv(Next(s, step))
  {
    if step.Begin? {
      if step.handler !in s.handlers {
        BeginKeepsInv(s, step.handler, step.session);
      }
    } else {
      CreationKeepsMaps(s, step);
      if !step.AcceptProof? && !step.StoreHash? {
        CreationFrame(s, step);
      }
      FrameKeepsInv(s, Next(s, step));
    }
  }

  /** Taking the calculator: nobody else owns the session, now or before. */
  lemma TakeKeepsInv(s: State, h: HandlerId, now: int)
    requires Inv(s) && h in s.handlers
    ensures Inv(TakeCalculator(s, h, now))
  {
    var id, phase := s.handlers[h].session, s.handlers[h].phase;
    assert HandlerInv(s, h);
    if phase.Revealed? && id !in s.calculators {
      MoveKeepsInv(s, h, Finished(NoSamples));
    } else if phase.Revealed? {
      var taking := Taking(h, s.calculators[id], now);
      var mid := s.(calculators := s.calculators - {id}, takenBy := s.takenBy[id := taking]);
      assert id !in s.takenBy;
      FrameKeepsInv(s, mid);
      MoveKeepsInv(mid, h, TakenPhase(phase.ctx, phase.lead, taking));
    }
  }

  lemma StoreKeepsInv(s: State, h: HandlerId, signed: bool)
    requires Inv(s) && h in s.handlers
    ensures Inv(StoreProposal(s, h, signed))
  {
    assert HandlerInv(s, h);
    if s.handlers[h].phase.Cleared? && !signed {
      MoveKeepsInv(s, h, Finished(SigningFailed));
    } else if s.handlers[h].phase.Cleared? {
      StoredHandlers(s, h);
      StoredProposals(s, h);
    }
  }

  lemma StoredHandlers(s: State, h: HandlerId)
    requires Inv(s) && h in s.handlers && s.handlers[h].phase.Cleared?
    ensures var s' := StoreProposal(s, h, true); forall g :: g in s'.handlers ==> HandlerInv(s', g)
  {
    var s' := StoreProposal(s, h, true);
    assert Extends(s, s');
    forall g | g in s'.handlers ensures HandlerInv(s', g) {
      assert HandlerInv(s, g);
      KnowsKept(s, s', g, s.handlers[g].session, s.handlers[g].phase);
    }
  }

  lemma StoredProposals(s: State, h: HandlerId)
    requires Inv(s) && h in s.handlers && s.handlers[h].phase.Cleared?
    ensures var s' := StoreProposal(s, h, true);
            && |s'.proposals| == |s'.proposedBy| == |s'.audits|
            && (forall k :: 0 <= k < |s'.proposals| ==> ProposalInv(s', k))
            && (forall i, j :: 0 <= i < j < |s'.proposals| ==> s'.proposedBy[i] != s'.proposedBy[j])
  {
    var s' := StoreProposal(s, h, true);
    assert HandlerInv(s, h);
    forall k | 0 <= k < |s'.proposals| ensures ProposalInv(s', k) {
      if k < |s.proposals| {
        assert ProposalInv(s, k);
        assert s'.proposals[k] == s.proposals[k] && s'.proposedBy[k] == s.proposedBy[k]
               && s'.audits[k] == s.audits[k];
      }
    }
    forall i, j | 0 <= i < j < |s'.proposals| ensures s'.proposedBy[i] != s'.proposedBy[j] {
      assert s.proposedBy[i] in s.proposedBy;
    }
  }

  /** A round without a message counts nobody. */
  lemma SufficientHasMessage(net: Network, round: Round, lead: Attestation.NodeId)
    requires net.Result(round, lead).IsSufficient()
    ensures round.message.Some?
  {
    var result := net.Result(round, lead);
    assert result.signers[0] in result.signers;
  }

  lemma AttestKnows(s: State, h: HandlerId, id: SessionId, phase: Phase, found: bool, round: Round)
    requires phase.Taken? && Knows(s, h, id, phase) && round.message == FirstHash(s, id, found)
    ensures Knows(s, h, id, AttestedPhase(s.net, phase, round))
  {
    if s.net.Result(round, phase.lead).IsSufficient() {
      SufficientHasMessage(s.net, round, phase.lead);
    }
  }

  lemma PriceKnows(s: State, h: HandlerId, id: SessionId, phase: Phase, inputs: Inputs)
    requires phase.Attested? && Knows(s, h, id, phase)
    requires inputs.proofs.Some? ==> inputs.proofs.value == s.ProofsOf(id)
    ensures Knows(s, h, id, PricedPhase(phase, inputs))
  {
  }

  lemma CheckKnows(s: State, h: HandlerId, id: SessionId, phase: Phase, minted24h: Option<nat>, ceiling: nat)
    requires phase.Priced? && Knows(s, h, id, phase) && ceiling < MAX_U128
    ensures Knows(s, h, id, CheckedPhase(phase, minted24h, ceiling))
  {
  }

  /** A handler that only moves keeps what it knows about its session. */
  lemma MovedKnows(s: State, step: Step, h: HandlerId)
    requires MapsInv(s) && h in s.handlers && HandlerInv(s, h)
    ensures Knows(s, h, s.handlers[h].session, Moved(s, step, h))
  {
    var id, phase := s.handlers[h].session, s.handlers[h].phase;
    match step
    case Attest(_, found, seed, answer) =>
      if phase.Taken? {
        AttestKnows(s, h, id, phase, found, Round(FirstHash(s, id, found), seed, answer));
      }
    case Price(_, read, ethereum, polygon, edge) =>
      if phase.Attested? {
        PriceKnows(s, h, id, phase, Inputs(if read then Some(s.ProofsOf(id)) else None, ethereum, polygon, edge));
      }
    case CheckCeiling(_, minted24h, users, average) =>
      if phase.Priced? {
        CeilingCheckExact(0, 0, users, average);
        CheckKnows(s, h, id, phase, minted24h, DailyCeilingWei(users, average));
      }
    case _ =>
  }

  lemma MovedKeepsHandlerInv(s: State, step: Step, h: HandlerId)
    requires Inv(s) && h in s.handlers
    ensures HandlerInv(At(s, h, Moved(s, step, h)), h)
  {
    assert HandlerInv(s, h);
    MovedKnows(s, step, h);
    MovedStays(s, step, h);
    KnowsKept(s, At(s, h, Moved(s, step, h)), h, s.handlers[h].session, Moved(s, step, h));
  }

  /** Nobody becomes or ceases to be finished with storing by a mere move. */
  lemma MovedStays(s: State, step: Step, h: HandlerId)
    requires h in s.handlers
    ensures var phase, moved := s.handlers[h].phase, Moved(s, step, h);
            moved.Stored? || moved.Finished? || (!phase.Stored? && !phase.Finished?)
  {
  }

  lemma AdvanceKeepsInv(s: State, step: Step, h: HandlerId)
    requires Inv(s) && h in s.handlers && !Outer(step)
    ensures Inv(Advance(s, step, h))
  {
    if step.Take? {
      TakeKeepsInv(s, h, step.now);
    } else if step.Store? {
      StoreKeepsInv(s, h, step.signed);
    } else if step.Delete? {
      if s.handlers[h].phase.Stored? {
        CreationKeepsInv(s, Expire(s.handlers[h].session));
        MoveKeepsInv(Next(s, Expire(s.handlers[h].session)), h, Finished(Completed));
      }
    } else {
      MovedKeepsHandlerInv(s, step, h);
      MoveKeepsInv(s, h, Moved(s, step, h));
    }
  }

  lemma NextKeepsInv(s: State, step: Step)
    requires Inv(s)
    ensures Inv(Next(s, step))
  {
    if Outer(step) {
      CreationKeepsInv(s, step);
    } else if step.handler in s.handlers {
      AdvanceKeepsInv(s, step, step.handler);
    }
  }

  lemma InitialInv(net: Network)
    ensures Inv(Initial(net))
  {
  }

  lemma {:induction false} RunKeepsInv(net: Network, steps: seq<Step>)
    ensures Inv(Run(net, steps)) && Run(net, steps).net == net
  {
    if steps == [] {
      InitialInv(net);
    } else {
      var before, last := Run(net, steps[..|steps| - 1]), steps[|steps| - 1];
      RunKeepsInv(net, steps[..|steps| - 1]);
      NextKeepsInv(before, last);
    }
  }

  // ----- The results -----

  /** Under every interleaving a session gets at most one proposal. */
  lemma AtMostOneProposal(net: Network, steps: seq<Step>, i: nat, j: nat)
    requires i < j < |Run(net, steps).proposals|
    ensures Run(net, steps).proposals[i].session != Run(net, steps).proposals[j].session
  {
    RunKeepsInv(net, steps);
    var s := Run(net, steps);
    assert ProposalInv(s, i) && ProposalInv(s, j);
  }

  /** And it carries what the session was created with; at least three distinct signers, each
      the registered key of its node, whose signatures are over the hash of the session's
      first stored proof; and the amount and cents that the payout chain settles for on the
      average and duration of the one calculator taken for it, the rate of its own accepted
      proofs and the wallet's boost. It fits under the daily ceiling together with the total
      its check read. */
  lemma ProposalsFaithful(net: Network, steps: seq<Step>, k: nat)
    requires k < |Run(net, steps).proposals|
    ensures var s := Run(net, steps);
            var p := s.proposals[k];
            && p.session in s.created && k < |s.audits|
            && var ctx, audit := s.created[p.session], s.audits[k];
            && p.wallet == ctx.wallet && p.commodity == ctx.commodity && p.chain == ctx.chain
            && |p.attestation.signers| >= Attestation.REQUIRED_SIGNATURES
            && Attestation.DistinctRegistered(p.attestation, net.signers)
            && s.HashesOf(p.session) != [] && SignedBy(net, p.attestation, s.HashesOf(p.session)[0])
            && Grounded(s, p.session, ctx, audit.grounds)
            && Settled(ctx, audit.grounds, p.amount, p.cents)
            && audit.minted24h + p.amount <= audit.ceiling
  {
    RunKeepsInv(net, steps);
    assert ProposalInv(Run(net, steps), k);
  }

  /** Every listed signature over the message recovers to the signer listed with it. */
  ghost predicate SignedBy(net: Network, result: Attestation.Result, message: Attestation.Message) {
    && |result.signatures| == |result.signers|
    && forall i :: 0 <= i < |result.signers| ==>
                     net.recover(result.signatures[i], message) == Some(result.signers[i])
  }

  // ----- What a proposal pays, in numbers -----

  /** The rate of the proofs read, in closed form; zero if they could not be read. */
  ghost predicate HashrateExact(
    client: SessionHashrate.ClientType, proofs: Option<seq<SessionHashrate.Proof>>, rate: nat)
  {
    match proofs
    case None => rate == 0
    case Some(read) => SessionHashrate.WorkAfterFirst(read) <= MAX_I64 ==> rate == SessionHashrate.RateOf(read, client)
  }

  /** The boost is what the staking contract grants to one active stake of what both chains
      hold, under the lock of the Ethereum stake. */
  ghost predicate BoostExact(ethereum: Option<Boost.ReadResult>, polygon: Option<Boost.ReadResult>, boostBps: nat) {
    forall whole: Staking.Storage, user ::
      whole.Stake(user).active && whole.Stake(user).amount == Boost.Total(ethereum, polygon)
      && Boost.Ordinal(whole.Stake(user).lockPeriod) == Boost.LockOf(ethereum)
      ==> boostBps == whole.EffectiveBoostBps(user)
  }

  /** The terms of a proposal: its inputs, the average it took, the commodity fixed at creation
      and the default coefficients. */
  ghost predicate TermsOf(ctx: Context, inputs: Inputs, twap: nat, rate: Payout.Rate) {
    && HashrateExact(ctx.client, inputs.proofs, rate.hashrate)
    && BoostExact(inputs.ethereum, inputs.polygon, rate.boostBps)
    && rate.twap == twap && rate.commodity == ctx.commodity
    && rate.config == Payout.Config(1_000, 1_000, inputs.houseEdgeBps)
  }

  /** The average of the samples taken, rounded down, and the time from the session's start to
      the taking, or none if the clock reads less. */
  ghost predicate MeasuredOf(taking: Taking, twap: nat, duration: nat) {
    var n, sum := |taking.calculator.samples|, Oracle.SumPrices(taking.calculator.samples);
    && n * twap <= sum < n * (twap + 1)
    && duration >= taking.now - taking.calculator.start
    && (duration == 0 || duration == taking.now - taking.calculator.start)
  }

  lemma RateForExact(ctx: Context, twap: nat, inputs: Inputs)
    ensures TermsOf(ctx, inputs, twap, RateFor(ctx, twap, inputs))
  {
    var rate := RateFor(ctx, twap, inputs);
    if inputs.proofs.Some? && SessionHashrate.WorkAfterFirst(inputs.proofs.value) <= MAX_I64 {
      SessionHashrate.SessionRate(inputs.proofs.value, ctx.client);
    }
    forall whole: Staking.Storage, user |
      whole.Stake(user).active && whole.Stake(user).amount == Boost.Total(inputs.ethereum, inputs.polygon)
      && Boost.Ordinal(whole.Stake(user).lockPeriod) == Boost.LockOf(inputs.ethereum)
      ensures rate.boostBps == whole.EffectiveBoostBps(user)
    {
      Boost.BothChainsCount(inputs.ethereum, inputs.polygon, whole, user);
    }
  }

  /** Every proposal pays what its terms come to, floor by floor. */
  lemma ProposalInNumbers(net: Network, steps: seq<Step>, k: nat)
    returns (rate: Payout.Rate, gross: nat, settled: Payout.Settlement)
    requires k < |Run(net, steps).proposals|
    ensures var s := Run(net, steps);
            var p := s.proposals[k];
            && p.session in s.created && k < |s.audits|
            && var ctx, grounds := s.created[p.session], s.audits[k].grounds;
            && TermsOf(ctx, grounds.inputs, grounds.twap, rate)
            && p.session in s.takenBy && MeasuredOf(s.takenBy[p.session], grounds.twap, grounds.duration)
            && Payout.FloorChain(rate, grounds.duration, gross, settled)
            && p.amount == settled.wei
            && p.cents == if settled.cents < 0x8000_0000_0000_0000 then Some(settled.cents) else None
  {
    ProposalsFaithful(net, steps, k);
    var s := Run(net, steps);
    var ctx, grounds := s.created[s.proposals[k].session], s.audits[k].grounds;
    rate := RateFor(ctx, grounds.twap, grounds.inputs);
    RateForExact(ctx, grounds.twap, grounds.inputs);
    Oracle.AverageFloors(s.takenBy[s.proposals[k].session].calculator.samples);
    settled := Payout.Settle(rate, grounds.duration).value;
    gross := Payout.SettleInNumbers(rate, grounds.duration);
  }

  /** For a wallet with a stake on one chain only the boost is that chain's own: on Ethereum
      for every lock, on Polygon for the recorded 30-day one. */
  lemma OneChainBoost(eth: Staking.Storage, user: nat, other: Option<Boost.ReadResult>, boostBps: nat)
    requires eth.Stake(user).amount <= MAX_U128 && Boost.AmountOf(other) == 0 && Boost.LockOf(other) == 0
    ensures BoostExact(Some(Boost.ReadStake(eth, user)), other, boostBps) ==> boostBps == eth.EffectiveBoostBps(user)
    ensures BoostExact(other, Some(Boost.ReadStake(eth, user)), boostBps) ==>
              eth.Stake(user).lockPeriod == Staking.Days30 ==> boostBps == eth.EffectiveBoostBps(user)
  {
    var info := eth.Stake(user);
    if !info.active {
      var empty := eth.(stakes := eth.stakes[user := Staking.StakeInfo(0, Staking.Days30, 0, 0, true)]);
      assert empty.EffectiveBoostBps(user) == 0;
    }
  }

  /** Under every interleaving, whatever proofs were accepted and whatever is staked, a
      session that lasted at most 142,857 seconds gets a proposal of at most a million PRM. */
  lemma ProposalBelowMillion(net: Network, steps: seq<Step>, k: nat)
    requires k < |Run(net, steps).proposals|
    requires var s := Run(net, steps);
             var id := s.proposals[k].session;
             id in s.takenBy ==> s.takenBy[id].Duration() <= 142_857
    ensures Run(net, steps).proposals[k].amount <= 1_000_000 * PRM_WEI
  {
    ProposalsFaithful(net, steps, k);
    var s := Run(net, steps);
    var ctx, grounds := s.created[s.proposals[k].session], s.audits[k].grounds;
    var rate := RateFor(ctx, grounds.twap, grounds.inputs);
    var proofs := if grounds.inputs.proofs.Some? then grounds.inputs.proofs.value else [];
    SessionHashrate.SessionMintBound(proofs, ctx.client, grounds.duration, rate);
  }

  /** If every sample taken for a session would pass the guard of the price store, so does
      the average that the session submits, whatever becomes of the session afterwards. */
  lemma SubmittedAveragePasses(net: Network, steps: seq<Step>, id: SessionId, stored: nat)
    requires var s := Run(net, steps);
             && id in s.takenBy && s.takenBy[id].calculator.samples != [] && stored > 0
             && forall sample :: sample in s.takenBy[id].calculator.samples ==> Oracle.Accepted(stored, sample.price)
    ensures Oracle.Accepted(stored, Run(net, steps).takenBy[id].Twap())
  {
    Oracle.AveragePasses(stored, Run(net, steps).takenBy[id].calculator.samples);
  }

  /** Who took a calculator took it for good. */
  lemma NextKeepsTaker(s: State, step: Step, id: SessionId)
    requires Inv(s) && id in s.takenBy
    ensures id in Next(s, step).takenBy && Next(s, step).takenBy[id] == s.takenBy[id]
  {
    assert id !in s.calculators;
  }

  lemma {:induction false} TakenForGood(s: State, more: seq<Step>, id: SessionId)
    requires Inv(s) && id in s.takenBy
    ensures var s' := Continue(s, more); Inv(s') && id in s'.takenBy && s'.takenBy[id] == s.takenBy[id]
  {
    if more == [] {
    } else {
      var before := more[..|more| - 1];
      TakenForGood(s, before, id);
      NextKeepsInv(Continue(s, before), more[|more| - 1]);
      NextKeepsTaker(Continue(s, before), more[|more| - 1], id);
    }
  }

  function Continue(s: State, more: seq<Step>): State {
    if more == [] then s else Next(Continue(s, more[..|more| - 1]), more[|more| - 1])
  }

  /** Once one handler has taken a session's samples, whatever becomes of it, no other
      handler of that session ever gets past that point: a failed attestation or a rejected
      ceiling check is final for the session. */
  lemma OneHandlerOwns(net: Network, steps: seq<Step>, more: seq<Step>, h: HandlerId, id: SessionId)
    requires id in Run(net, steps).takenBy && Run(net, steps).takenBy[id].handler != h
    requires var s := Continue(Run(net, steps), more); h in s.handlers && s.handlers[h].session == id
    ensures !Owns(Continue(Run(net, steps), more).handlers[h].phase)
  {
    RunKeepsInv(net, steps);
    TakenForGood(Run(net, steps), more, id);
    assert HandlerInv(Continue(Run(net, steps), more), h);
  }
}
