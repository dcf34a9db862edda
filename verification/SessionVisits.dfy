/** When a session gets its proposal: how one handler of an end request finishes. */
module SessionVisits {
  import opened Basics
  import opened EndSession
  import Attestation
  import Boost
  import Payout

  /** All that one handler reads on its way. */
  datatype Visit = Visit(
    nonceMatches: bool,
    now: int,
    hashesFound: bool,
    seed: Attestation.Seed,
    answer: (nat, Attestation.NodeId) -> Option<Attestation.Signature>,
    proofsRead: bool,
    ethereum: Option<Boost.ReadResult>,
    polygon: Option<Boost.ReadResult>,
    houseEdgeBps: nat,
    minted24h: Option<nat>,
    activeUsers: nat,
    averagePrm: nat,
    signed: bool)

  /** The steps of a handler from start to end. */
  function StepsOf(h: HandlerId, v: Visit): seq<Step> {
    [Load(h), Reveal(h, v.nonceMatches), Take(h, v.now), Attest(h, v.hashesFound, v.seed, v.answer),
     Price(h, v.proofsRead, v.ethereum, v.polygon, v.houseEdgeBps),
     CheckCeiling(h, v.minted24h, v.activeUsers, v.averagePrm), Store(h, v.signed), Delete(h)]
  }

  /** How many distinct registered keys the assigned node and its three peers prove. */
  ghost function ProvenKeys(s: State, id: SessionId, lead: Attestation.NodeId, v: Visit): nat {
    var message := if v.hashesFound && s.HashesOf(id) != [] then Some(s.HashesOf(id)[0]) else None;
    var setting := Attestation.Setting(s.net.signers, message, s.net.recover, v.answer);
    |Attestation.Addresses(Attestation.AllProven(setting, Attestation.Targets(s.net.eligible, v.seed, lead)))|
  }

  /** How an undisturbed handler ends: the first of its conditions that fails, or completed. */
  ghost function Verdict(s: State, id: SessionId, v: Visit): Status {
    if id !in s.contexts then NotFound else LoadedVerdict(s, id, s.contexts[id], v)
  }

  ghost function LoadedVerdict(s: State, id: SessionId, ctx: Context, v: Visit): Status {
    if !v.nonceMatches then Rejected
    else if ctx.lead.None? then NoAssignedNode
    else RevealedVerdict(s, id, ctx, ctx.lead.value, v)
  }

  ghost function RevealedVerdict(s: State, id: SessionId, ctx: Context, lead: Attestation.NodeId, v: Visit): Status {
    if id !in s.calculators || s.calculators[id].samples == [] then NoSamples
    else
      var taking := Taking(0, s.calculators[id], v.now);
      TakenVerdict(s, id, Taken(ctx, lead, taking.Twap(), taking.Duration()), v)
  }

  ghost function TakenVerdict(s: State, id: SessionId, phase: Phase, v: Visit): Status
    requires phase.Taken?
  {
    if ProvenKeys(s, id, phase.lead, v) < 3 then AttestationFailed
    else
      match Payout.Settle(RateFor(phase.ctx, phase.twap, InputsOf(s, id, v)), phase.duration)
      case Overflow => PayoutOverflow
      case Value(settled) => PricedVerdict(settled.wei, v)
  }

  /** What the handler reads to price. */
  function InputsOf(s: State, id: SessionId, v: Visit): Inputs {
    Inputs(if v.proofsRead then Some(s.ProofsOf(id)) else None, v.ethereum, v.polygon, v.houseEdgeBps)
  }

  ghost function PricedVerdict(amount: nat, v: Visit): Status {
    if v.minted24h.None? then CeilingUnverified
    else if v.minted24h.value + amount > DailyCeilingWei(v.activeUsers, v.averagePrm) then CeilingExceeded
    else if !v.signed then SigningFailed
    else Completed
  }

  lemma ContinueOne(s: State, step: Step)
    ensures Continue(s, [step]) == Next(s, step)
  {
    assert [step][..0] == [];
    assert Continue(s, []) == s;
  }

  lemma {:induction false} ContinueAll(s: State, a: seq<Step>, b: seq<Step>)
    ensures Continue(s, a + b) == Continue(Continue(s, a), b)
  {
    if b == [] {
      assert a + b == a;
    } else {
      assert (a + b)[..|a + b| - 1] == a + b[..|b| - 1];
      ContinueAll(s, a, b[..|b| - 1]);
    }
  }

  /** A finished handler stays as it is, and so does everything else. */
  lemma {:induction false} FinishedRests(s: State, h: HandlerId, steps: seq<Step>)
    requires h in s.handlers && s.handlers[h].phase.Finished?
    requires forall i :: 0 <= i < |steps| ==> !Outer(steps[i]) && steps[i].handler == h
    ensures Continue(s, steps) == s
  {
    if steps == [] {
    } else {
      FinishedRests(s, h, steps[..|steps| - 1]);
      FinishedStep(s, h, steps[|steps| - 1]);
    }
  }

  lemma FinishedStep(s: State, h: HandlerId, step: Step)
    requires h in s.handlers && s.handlers[h].phase.Finished? && !Outer(step) && step.handler == h
    ensures Next(s, step) == s
  {
    assert s.handlers == s.handlers[h := s.handlers[h]];
  }

  /** How a handler leaves the state it found: finished with a status, and with one proposal
      more for its session exactly if completed. */
  ghost predicate EndsAs(s: State, s': State, h: HandlerId, status: Status)
    requires h in s.handlers
  {
    && h in s'.handlers && s'.handlers[h] == Handler(s.handlers[h].session, Finished(status))
    && (status != Completed ==> s'.proposals == s.proposals)
    && (status == Completed ==>
          && |s'.proposals| == |s.proposals| + 1 && s'.proposals[..|s.proposals|] == s.proposals
          && s'.proposals[|s.proposals|].session == s.handlers[h].session)
  }

  /** The first of a handler's remaining steps, and then the rest. */
  lemma StepFirst(s: State, h: HandlerId, v: Visit, k: nat)
    requires k < 8
    ensures Continue(s, StepsOf(h, v)[k..]) == Continue(Next(s, StepsOf(h, v)[k]), StepsOf(h, v)[k + 1..])
  {
    var rest := StepsOf(h, v)[k..];
    assert rest == [rest[0]] + StepsOf(h, v)[k + 1..];
    ContinueAll(s, [rest[0]], StepsOf(h, v)[k + 1..]);
    ContinueOne(s, rest[0]);
  }

  lemma StepsOwn(h: HandlerId, v: Visit)
    ensures forall i :: 0 <= i < 8 ==> !Outer(StepsOf(h, v)[i]) && StepsOf(h, v)[i].handler == h
  {
  }

  /** Nothing more happens after an early end. */
  lemma EndsEarly(s: State, h: HandlerId, v: Visit, k: nat)
    requires k <= 8 && h in s.handlers && s.handlers[h].phase.Finished?
    ensures Continue(s, StepsOf(h, v)[k..]) == s
  {
    StepsOwn(h, v);
    FinishedRests(s, h, StepsOf(h, v)[k..]);
  }

  lemma StoreStep(s: State, h: HandlerId, v: Visit) returns (s': State)
    requires h in s.handlers && s.handlers[h].phase.Cleared?
    ensures Continue(s, StepsOf(h, v)[6..]) == Continue(s', StepsOf(h, v)[7..])
    ensures h in s'.handlers && s'.handlers[h].session == s.handlers[h].session
    ensures !v.signed ==> s'.handlers[h].phase == Finished(SigningFailed) && s'.proposals == s.proposals
    ensures v.signed ==>
              && s'.handlers[h].phase.Stored?
              && |s'.proposals| == |s.proposals| + 1 && s'.proposals[..|s.proposals|] == s.proposals
              && s'.proposals[|s.proposals|].session == s.handlers[h].session
  {
    StepFirst(s, h, v, 6);
    s' := Next(s, StepsOf(h, v)[6]);
  }

  lemma DeleteStep(s: State, h: HandlerId, v: Visit) returns (s': State)
    requires h in s.handlers && s.handlers[h].phase.Stored?
    ensures Continue(s, StepsOf(h, v)[7..]) == Continue(s', StepsOf(h, v)[8..])
    ensures s'.proposals == s.proposals && h in s'.handlers
    ensures s'.handlers[h] == Handler(s.handlers[h].session, Finished(Completed))
  {
    StepFirst(s, h, v, 7);
    s' := Next(s, StepsOf(h, v)[7]);
  }

  lemma FromCleared(s: State, h: HandlerId, v: Visit)
    requires h in s.handlers && s.handlers[h].phase.Cleared?
    ensures EndsAs(s, Continue(s, StepsOf(h, v)[6..]), h, if v.signed then Completed else SigningFailed)
  {
    var stored := StoreStep(s, h, v);
    if v.signed {
      var deleted := DeleteStep(stored, h, v);
      EndsEarly(deleted, h, v, 8);
    } else {
      EndsEarly(stored, h, v, 7);
    }
  }

  /** Only a handler's phase differs, and the calculators. */
  ghost predicate SameShared(s: State, s': State) {
    s'.net == s.net && s'.proofs == s.proofs && s'.hashes == s.hashes && s'.proposals == s.proposals
  }

  lemma CheckStep(s: State, h: HandlerId, v: Visit) returns (s': State)
    requires h in s.handlers && s.handlers[h].phase.Priced?
    ensures Continue(s, StepsOf(h, v)[5..]) == Continue(s', StepsOf(h, v)[6..]) && SameShared(s, s')
    ensures h in s'.handlers && s'.handlers[h].session == s.handlers[h].session
    ensures s'.handlers[h].phase ==
            CheckedPhase(s.handlers[h].phase, v.minted24h, DailyCeilingWei(v.activeUsers, v.averagePrm))
  {
    StepFirst(s, h, v, 5);
    s' := Next(s, StepsOf(h, v)[5]);
  }

  /** Where the ceiling check leads. */
  lemma CheckVerdict(phase: Phase, v: Visit)
    requires phase.Priced?
    ensures var checked := CheckedPhase(phase, v.minted24h, DailyCeilingWei(v.activeUsers, v.averagePrm));
            if checked.Cleared? then PricedVerdict(phase.amount, v) == if v.signed then Completed else SigningFailed
            else checked == Finished(PricedVerdict(phase.amount, v)) && checked.status != Completed
  {
    if v.minted24h.Some? {
      CeilingCheckExact(v.minted24h.value, phase.amount, v.activeUsers, v.averagePrm);
    }
  }

  lemma FromPriced(s: State, h: HandlerId, v: Visit)
    requires h in s.handlers && s.handlers[h].phase.Priced?
    ensures EndsAs(s, Continue(s, StepsOf(h, v)[5..]), h, PricedVerdict(s.handlers[h].phase.amount, v))
  {
    var checked := CheckStep(s, h, v);
    CheckVerdict(s.handlers[h].phase, v);
    if checked.handlers[h].phase.Cleared? {
      FromCleared(checked, h, v);
    } else {
      EndsEarly(checked, h, v, 6);
    }
  }

  lemma PriceStep(s: State, h: HandlerId, v: Visit) returns (s': State)
    requires h in s.handlers && s.handlers[h].phase.Attested?
    ensures Continue(s, StepsOf(h, v)[4..]) == Continue(s', StepsOf(h, v)[5..]) && SameShared(s, s')
    ensures h in s'.handlers && s'.handlers[h].session == s.handlers[h].session
    ensures s'.handlers[h].phase == PricedPhase(s.handlers[h].phase, InputsOf(s, s.handlers[h].session, v))
  {
    StepFirst(s, h, v, 4);
    s' := Next(s, StepsOf(h, v)[4]);
  }

  lemma FromAttested(s: State, h: HandlerId, v: Visit)
    requires h in s.handlers && s.handlers[h].phase.Attested?
    ensures var id, phase := s.handlers[h].session, s.handlers[h].phase;
            var settled := Payout.Settle(RateFor(phase.ctx, phase.twap, InputsOf(s, id, v)), phase.duration);
            EndsAs(s, Continue(s, StepsOf(h, v)[4..]), h,
                   if settled.Overflow? then PayoutOverflow else PricedVerdict(settled.value.wei, v))
  {
    var priced := PriceStep(s, h, v);
    if priced.handlers[h].phase.Priced? {
      FromPriced(priced, h, v);
    } else {
      EndsEarly(priced, h, v, 5);
    }
  }

  lemma AttestStep(s: State, h: HandlerId, v: Visit) returns (s': State)
    requires h in s.handlers && s.handlers[h].phase.Taken?
    ensures Continue(s, StepsOf(h, v)[3..]) == Continue(s', StepsOf(h, v)[4..]) && SameShared(s, s')
    ensures h in s'.handlers && s'.handlers[h].session == s.handlers[h].session
    ensures var id, phase := s.handlers[h].session, s.handlers[h].phase;
            var round := Round(FirstHash(s, id, v.hashesFound), v.seed, v.answer);
            s'.handlers[h].phase ==
            if ProvenKeys(s, id, phase.lead, v) < 3 then Finished(AttestationFailed)
            else Attested(phase.ctx, phase.lead, phase.twap, phase.duration, round)
  {
    StepFirst(s, h, v, 3);
    s' := Next(s, StepsOf(h, v)[3]);
  }

  lemma FromTaken(s: State, h: HandlerId, v: Visit)
    requires h in s.handlers && s.handlers[h].phase.Taken?
    ensures EndsAs(s, Continue(s, StepsOf(h, v)[3..]), h,
                   TakenVerdict(s, s.handlers[h].session, s.handlers[h].phase, v))
  {
    var attested := AttestStep(s, h, v);
    if attested.handlers[h].phase.Attested? {
      FromAttested(attested, h, v);
    } else {
      EndsEarly(attested, h, v, 4);
    }
  }

  lemma TakeStep(s: State, h: HandlerId, v: Visit) returns (s': State)
    requires h in s.handlers && s.handlers[h].phase.Revealed?
    ensures Continue(s, StepsOf(h, v)[2..]) == Continue(s', StepsOf(h, v)[3..])
    ensures s' == TakeCalculator(s, h, v.now)
  {
    StepFirst(s, h, v, 2);
    s' := TakeCalculator(s, h, v.now);
  }

  lemma TakeEffect(s: State, h: HandlerId, now: int, s': State)
    requires h in s.handlers && s.handlers[h].phase.Revealed? && s' == TakeCalculator(s, h, now)
    ensures SameShared(s, s') && h in s'.handlers && s'.handlers[h].session == s.handlers[h].session
    ensures var id, phase := s.handlers[h].session, s.handlers[h].phase;
            s'.handlers[h].phase ==
            if id !in s.calculators || s.calculators[id].samples == [] then Finished(NoSamples)
            else
              var taking := Taking(0, s.calculators[id], now);
              Taken(phase.ctx, phase.lead, taking.Twap(), taking.Duration())
  {
  }

  lemma FromRevealed(s: State, h: HandlerId, v: Visit)
    requires h in s.handlers && s.handlers[h].phase.Revealed?
    ensures EndsAs(s, Continue(s, StepsOf(h, v)[2..]), h,
                   RevealedVerdict(s, s.handlers[h].session, s.handlers[h].phase.ctx, s.handlers[h].phase.lead, v))
  {
    var id, phase := s.handlers[h].session, s.handlers[h].phase;
    var taken := TakeStep(s, h, v);
    TakeEffect(s, h, v.now, taken);
    if taken.handlers[h].phase.Taken? {
      FromTaken(taken, h, v);
      TakenVerdictKept(s, taken, id, taken.handlers[h].phase, v);
      EndsLater(s, taken, Continue(s, StepsOf(h, v)[2..]), h, TakenVerdict(s, id, taken.handlers[h].phase, v));
    } else {
      EndsEarly(taken, h, v, 3);
    }
  }

  lemma TakenVerdictKept(s: State, s': State, id: SessionId, phase: Phase, v: Visit)
    requires SameShared(s, s') && phase.Taken?
    ensures TakenVerdict(s', id, phase, v) == TakenVerdict(s, id, phase, v)
  {
  }

  /** A verdict reads the shared state only. */
  lemma VerdictKept(s: State, s': State, id: SessionId, ctx: Context, v: Visit)
    requires SameShared(s, s') && s'.calculators == s.calculators
    ensures LoadedVerdict(s', id, ctx, v) == LoadedVerdict(s, id, ctx, v)
    ensures ctx.lead.Some? ==>
              RevealedVerdict(s', id, ctx, ctx.lead.value, v) == RevealedVerdict(s, id, ctx, ctx.lead.value, v)
  {
  }

  lemma LoadStep(s: State, h: HandlerId, v: Visit) returns (s': State)
    requires h in s.handlers && s.handlers[h].phase.Started?
    ensures Continue(s, StepsOf(h, v)) == Continue(s', StepsOf(h, v)[1..]) && s' == s.(handlers := s'.handlers)
    ensures h in s'.handlers && s'.handlers[h].session == s.handlers[h].session
    ensures var id := s.handlers[h].session;
            s'.handlers[h].phase == if id in s.contexts then Loaded(s.contexts[id]) else Finished(NotFound)
  {
    assert StepsOf(h, v)[0..] == StepsOf(h, v);
    StepFirst(s, h, v, 0);
    s' := Next(s, StepsOf(h, v)[0]);
  }

  lemma RevealStep(s: State, h: HandlerId, v: Visit) returns (s': State)
    requires h in s.handlers && s.handlers[h].phase.Loaded?
    ensures Continue(s, StepsOf(h, v)[1..]) == Continue(s', StepsOf(h, v)[2..]) && s' == s.(handlers := s'.handlers)
    ensures h in s'.handlers && s'.handlers[h].session == s.handlers[h].session
    ensures var ctx := s.handlers[h].phase.ctx;
            s'.handlers[h].phase == if !v.nonceMatches then Finished(Rejected)
                                    else if ctx.lead.None? then Finished(NoAssignedNode)
                                    else Revealed(ctx, ctx.lead.value)
  {
    StepFirst(s, h, v, 1);
    s' := Next(s, StepsOf(h, v)[1]);
  }

  /** From start to end, when nobody interferes: a handler finishes with its verdict, and its
      session gets a proposal exactly if that is completed. */
  lemma VisitEnds(s: State, h: HandlerId, v: Visit)
    requires h in s.handlers && s.handlers[h].phase.Started?
    ensures EndsAs(s, Continue(s, StepsOf(h, v)), h, Verdict(s, s.handlers[h].session, v))
  {
    var id := s.handlers[h].session;
    var loaded := LoadStep(s, h, v);
    if id in s.contexts {
      FromLoaded(loaded, h, v);
      VerdictKept(s, loaded, id, s.contexts[id], v);
      EndsLater(s, loaded, Continue(s, StepsOf(h, v)), h, LoadedVerdict(s, id, s.contexts[id], v));
    } else {
      EndsEarly(loaded, h, v, 1);
    }
  }

  lemma EndsLater(s: State, mid: State, s': State, h: HandlerId, status: Status)
    requires h in s.handlers && h in mid.handlers && mid.handlers[h].session == s.handlers[h].session
    requires mid.proposals == s.proposals && EndsAs(mid, s', h, status)
    ensures EndsAs(s, s', h, status)
  {
  }

  lemma FromLoaded(s: State, h: HandlerId, v: Visit)
    requires h in s.handlers && s.handlers[h].phase.Loaded?
    ensures EndsAs(s, Continue(s, StepsOf(h, v)[1..]), h,
                   LoadedVerdict(s, s.handlers[h].session, s.handlers[h].phase.ctx, v))
  {
    var id, ctx := s.handlers[h].session, s.handlers[h].phase.ctx;
    var revealed := RevealStep(s, h, v);
    if v.nonceMatches && ctx.lead.Some? {
      FromRevealed(revealed, h, v);
      VerdictKept(s, revealed, id, ctx, v);
      EndsLater(s, revealed, Continue(s, StepsOf(h, v)[1..]), h, RevealedVerdict(s, id, ctx, ctx.lead.value, v));
    } else {
      EndsEarly(revealed, h, v, 2);
    }
  }

  /** Nobody else's step moves a handler, so a handler that owns its session's calculator
      cannot be overtaken. */
  lemma OthersLeave(s: State, step: Step, h: HandlerId)
    requires h in s.handlers && (Outer(step) || step.handler != h)
    ensures h in Next(s, step).handlers && Next(s, step).handlers[h] == s.handlers[h]
  {
  }

  /** A session can be ended from its creation on. */
  lemma CreationTakesEffect(s: State, id: SessionId, ctx: Context)
    requires id !in s.created
    ensures var s' := Next(s, CreateContext(id, ctx)); id in s'.contexts && s'.contexts[id] == ctx
  {
    assert Next(s, CreateContext(id, ctx)) == Arrive(s, CreateContext(id, ctx));
  }

  /** By any number of handlers, each new one starting at the start. */
  lemma BeginTakesEffect(s: State, h: HandlerId, id: SessionId)
    requires h !in s.handlers
    ensures var s' := Next(s, Begin(h, id)); s' == s.(handlers := s.handlers[h := Handler(id, Started)])
  {
    assert Next(s, Begin(h, id)) == Arrive(s, Begin(h, id));
  }

  /** Until it expires, or a handler that stored its proposal deletes it. */
  lemma ContextStays(s: State, step: Step, id: SessionId)
    requires id in s.contexts && id in s.created && step != Expire(id)
    requires step.Delete? && step.handler in s.handlers ==>
               !(s.handlers[step.handler].session == id && s.handlers[step.handler].phase.Stored?)
    ensures id in Next(s, step).contexts && Next(s, step).contexts[id] == s.contexts[id]
  {
    if Outer(step) {
      assert Next(s, step) == Arrive(s, step);
    } else if step.handler in s.handlers {
      ContextStaysAdvance(s, step, step.handler, id);
    }
  }

  lemma ContextStaysAdvance(s: State, step: Step, h: HandlerId, id: SessionId)
    requires id in s.contexts && h in s.handlers && !Outer(step)
    requires step.Delete? ==> !(s.handlers[h].session == id && s.handlers[h].phase.Stored?)
    ensures id in Advance(s, step, h).contexts && Advance(s, step, h).contexts[id] == s.contexts[id]
  {
  }
}
