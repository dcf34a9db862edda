/** What the shared state holds for each session, from the steps alone. */
module SessionRecords {
  import opened Basics
  import opened EndSession
  import Attestation
  import Oracle
  import SessionHashrate

  /** What the shared state holds for one session. */
  datatype View = View(
    ctx: Option<Context>,
    calculator: Option<Calculator>,
    taking: Option<Taking>,
    proofs: seq<SessionHashrate.Proof>,
    hashes: seq<Attestation.Message>)

  function Find<T>(m: map<SessionId, T>, id: SessionId): Option<T> {
    if id in m then Some(m[id]) else None
  }

  function ViewOf(s: State, id: SessionId): View {
    View(Find(s.contexts, id), Find(s.calculators, id), Find(s.takenBy, id), s.ProofsOf(id), s.HashesOf(id))
  }

  /** The session a step is about. */
  function About(s: State, step: Step): Option<SessionId> {
    if step.Begin? then None
    else if Outer(step) then Some(step.session)
    else if step.handler in s.handlers then Some(s.handlers[step.handler].session)
    else None
  }

  /** Sessions do not interfere: a step changes what is held for its own session only. */
  lemma SessionsIndependent(s: State, step: Step, id: SessionId)
    requires About(s, step) != Some(id)
    ensures ViewOf(Next(s, step), id) == ViewOf(s, id)
  {
    if Outer(step) {
      ArriveElsewhere(s, step, id);
    } else if step.handler in s.handlers {
      AdvanceElsewhere(s, step, step.handler, id);
    }
  }

  lemma ArriveElsewhere(s: State, step: Step, id: SessionId)
    requires Outer(step) && (step.Begin? || step.session != id)
    ensures ViewOf(Arrive(s, step), id) == ViewOf(s, id)
  {
  }

  lemma AdvanceElsewhere(s: State, step: Step, h: HandlerId, id: SessionId)
    requires h in s.handlers && s.handlers[h].session != id && !Outer(step)
    ensures ViewOf(Advance(s, step, h), id) == ViewOf(s, id)
  {
    if step.Take? {
      TakeElsewhere(s, h, step.now, id);
    }
  }

  lemma TakeElsewhere(s: State, h: HandlerId, now: int, id: SessionId)
    requires h in s.handlers && s.handlers[h].session != id
    ensures ViewOf(TakeCalculator(s, h, now), id) == ViewOf(s, id)
  {
  }

  // ----- What the shared state holds, from the steps alone -----

  /** What the steps alone say of a session: the context it was first created with, its
      accepted proofs, its stored hashes, and its calculator, opened once, after the session,
      and given every later sample that is not from before its start. */
  datatype Record = Record(
    ctx: Option<Context>,
    proofs: seq<SessionHashrate.Proof>,
    hashes: seq<Attestation.Message>,
    calculator: Option<Calculator>)
  {
    function After(step: Step, id: SessionId): Record {
      match step
      case CreateContext(session, first) => if session == id && ctx.None? then this.(ctx := Some(first)) else this
      case AcceptProof(session, proof) => if session == id then this.(proofs := proofs + [proof]) else this
      case StoreHash(session, hash) => if session == id then this.(hashes := hashes + [hash]) else this
      case OpenCalculator(session, start) =>
        if session == id && ctx.Some? && calculator.None? then this.(calculator := Some(Calculator([], start)))
        else this
      case AddSample(session, sample) =>
        if session == id && calculator.Some? && sample.sampledAt >= calculator.value.start
        then this.(calculator := Some(Calculator(calculator.value.samples + [sample], calculator.value.start)))
        else this
      case _ => this
    }
  }

  function RecordIn(steps: seq<Step>, id: SessionId): Record {
    if steps == [] then Record(None, [], [], None)
    else RecordIn(steps[..|steps| - 1], id).After(steps[|steps| - 1], id)
  }

  /** The state holds a session's record, the calculator until it is taken. */
  ghost predicate Holds(s: State, id: SessionId, r: Record) {
    && r.ctx == (if id in s.created then Some(s.created[id]) else None)
    && r.proofs == s.ProofsOf(id) && r.hashes == s.HashesOf(id)
    && (r.calculator.Some? <==> id in s.tracked)
    && (id in s.tracked ==> id in s.calculators || id in s.takenBy)
    && (id in s.calculators ==> r.calculator == Some(s.calculators[id]))
  }

  /** In every run the records of a session are what its own steps put there. */
  lemma {:induction false} RecordsFaithful(net: Network, steps: seq<Step>, id: SessionId)
    ensures Holds(Run(net, steps), id, RecordIn(steps, id))
  {
    if steps == [] {
    } else {
      var before, last := steps[..|steps| - 1], steps[|steps| - 1];
      RecordsFaithful(net, before, id);
      RunKeepsInv(net, before);
      if Outer(last) {
        ArriveHolds(Run(net, before), last, id, RecordIn(before, id));
      } else {
        HandlerHolds(Run(net, before), last, id, RecordIn(before, id));
      }
    }
  }

  lemma ArriveHolds(s: State, step: Step, id: SessionId, r: Record)
    requires MapsInv(s) && Holds(s, id, r) && Outer(step)
    ensures Holds(Arrive(s, step), id, r.After(step, id))
  {
    if step.OpenCalculator? {
      OpenHolds(s, step.session, step.start, id, r);
    } else if step.AddSample? {
      SampleHolds(s, step.session, step.sample, id, r);
    } else if step.CreateContext? {
      CreateHolds(s, step.session, step.ctx, id, r);
    } else {
      OtherHolds(s, step, id, r);
    }
  }

  lemma OtherHolds(s: State, step: Step, id: SessionId, r: Record)
    requires Holds(s, id, r) && (step.AcceptProof? || step.StoreHash? || step.Expire? || step.Begin?)
    ensures Holds(Arrive(s, step), id, r.After(step, id))
  {
    var s' := Arrive(s, step);
    assert s'.calculators == s.calculators && s'.tracked == s.tracked && s'.created == s.created;
    assert s'.ProofsOf(id) == r.After(step, id).proofs;
    assert s'.HashesOf(id) == r.After(step, id).hashes;
  }

  lemma CreateHolds(s: State, session: SessionId, ctx: Context, id: SessionId, r: Record)
    requires Holds(s, id, r)
    ensures Holds(Arrive(s, CreateContext(session, ctx)), id, r.After(CreateContext(session, ctx), id))
  {
    var s' := Arrive(s, CreateContext(session, ctx));
    assert s' == s.(contexts := s'.contexts, created := s'.created);
  }

  lemma OpenHolds(s: State, session: SessionId, start: int, id: SessionId, r: Record)
    requires MapsInv(s) && Holds(s, id, r)
    ensures Holds(Arrive(s, OpenCalculator(session, start)), id, r.After(OpenCalculator(session, start), id))
  {
    var s' := Arrive(s, OpenCalculator(session, start));
    assert s' == s.(calculators := s'.calculators, tracked := s'.tracked);
  }

  lemma SampleHolds(s: State, session: SessionId, sample: Oracle.Sample, id: SessionId, r: Record)
    requires MapsInv(s) && Holds(s, id, r)
    ensures Holds(Arrive(s, AddSample(session, sample)), id, r.After(AddSample(session, sample), id))
  {
    var s' := Arrive(s, AddSample(session, sample));
    assert s' == s.(calculators := s'.calculators);
    if session != id || id !in s.calculators || sample.sampledAt < s.calculators[id].start {
      assert id in s.calculators ==> s'.calculators[id] == s.calculators[id];
    }
  }

  lemma HandlerHolds(s: State, step: Step, id: SessionId, r: Record)
    requires Holds(s, id, r) && !Outer(step)
    ensures Holds(Next(s, step), id, r.After(step, id))
  {
    InnerFrame(s, step);
  }

  /** What a handler's step leaves alone, and what it can only take out. */
  lemma InnerFrame(s: State, step: Step)
    requires !Outer(step)
    ensures var s' := Next(s, step);
            && s'.created == s.created && s'.tracked == s.tracked && s'.proofs == s.proofs && s'.hashes == s.hashes
            && (forall id :: id in s.calculators && id !in s'.calculators ==> id in s'.takenBy)
            && (forall id :: id in s'.calculators ==> id in s.calculators && s'.calculators[id] == s.calculators[id])
            && s.takenBy.Keys <= s'.takenBy.Keys
  {
    if step.Take? && step.handler in s.handlers {
      TakeFrame(s, step.handler, step.now);
    }
  }

  lemma TakeFrame(s: State, h: HandlerId, now: int)
    requires h in s.handlers
    ensures var s' := TakeCalculator(s, h, now);
            && (forall id :: id in s.calculators && id !in s'.calculators ==> id in s'.takenBy)
            && (forall id :: id in s'.calculators ==> id in s.calculators && s'.calculators[id] == s.calculators[id])
            && s.takenBy.Keys <= s'.takenBy.Keys
  {
  }

  /** And what was taken for a session is what its steps had put there until it was taken. */
  lemma {:induction false} TakenFaithful(net: Network, steps: seq<Step>, id: SessionId) returns (k: nat)
    requires id in Run(net, steps).takenBy
    ensures k < |steps| && steps[k].Take?
    ensures var taking := Run(net, steps).takenBy[id];
            && steps[k].handler == taking.handler && steps[k].now == taking.now
            && RecordIn(steps[..k], id).calculator == Some(taking.calculator)
  {
    var n := |steps| - 1;
    var before, last := steps[..n], steps[n];
    RunKeepsInv(net, before);
    if id in Run(net, before).takenBy {
      k := TakenFaithful(net, before, id);
      NextKeepsTaker(Run(net, before), last, id);
      assert before[..k] == steps[..k];
    } else {
      k := n;
      RecordsFaithful(net, before, id);
      NewlyTaken(Run(net, before), last, id);
    }
  }

  lemma NewlyTaken(s: State, step: Step, id: SessionId)
    requires id !in s.takenBy && id in Next(s, step).takenBy
    ensures step.Take? && id in s.calculators
            && Next(s, step).takenBy[id] == Taking(step.handler, s.calculators[id], step.now)
  {
  }
}
