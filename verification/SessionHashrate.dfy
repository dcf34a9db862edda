/** The server-derived hashrate: an anchor, an accumulator and the last activity. */
module SessionHashrate {
  import opened Basics
  import Payout

  datatype ClientType = Browser | Desktop | Cli

  function MaxHashrate(client: ClientType): nat {
    match client
    case Browser => 400
    case Desktop => 4_000
    case Cli => 5_000
  }

  /** The three stored keys of one session. */
  datatype Keys = Keys(firstAt: Option<int>, expectedHashes: Option<nat>, lastActivity: Option<int>)

  const NO_KEYS := Keys(None, None, None)

  /** The store's increment fails, changing nothing, when the sum leaves 64 signed bits. */
  function Recorded(k: Keys, difficulty: nat, now: int): Keys {
    if k.firstAt.None? then k.(firstAt := Some(now))
    else if Fits(k, difficulty) then k.(expectedHashes := Some(Work(k) + difficulty))
    else k
  }

  function Work(k: Keys): nat {
    if k.expectedHashes.Some? then k.expectedHashes.value else 0
  }

  predicate Fits(k: Keys, difficulty: nat) {
    Work(k) + difficulty <= MAX_I64
  }

  function Hashrate(k: Keys, client: ClientType): nat {
    if k.firstAt.Some? && k.lastActivity.Some? && k.expectedHashes.Some?
       && k.lastActivity.value > k.firstAt.value && k.expectedHashes.value > 0
    then
      var rate := k.expectedHashes.value / (k.lastActivity.value - k.firstAt.value);
      if rate <= MaxHashrate(client) then rate else MaxHashrate(client)
    else 0
  }

  /** One session's keys in the store. */
  class Session {
    var firstAt: Option<int>
    var expectedHashes: Option<nat>
    var lastActivity: Option<int>

    ghost function State(): Keys
      reads this
    {
      Keys(firstAt, expectedHashes, lastActivity)
    }

    constructor ()
      ensures State() == NO_KEYS
    {
      firstAt, expectedHashes, lastActivity := None, None, None;
    }

    method RecordAcceptedProof(difficulty: nat, now: int) returns (ok: bool)
      modifies this`firstAt, this`expectedHashes
      ensures State() == Recorded(old(State()), difficulty, now)
      ensures ok <==> old(firstAt.None? || Fits(State(), difficulty))
      ensures !ok ==> State() == old(State())
    {
      if firstAt.None? {
        firstAt := Some(now);
        return true;
      }
      var sum := (if expectedHashes.Some? then expectedHashes.value else 0) + difficulty;
      if sum > MAX_I64 { return false; }
      expectedHashes := Some(sum);
      ok := true;
    }

    method TouchLastActivity(now: int)
      modifies this`lastActivity
      ensures State() == old(State()).(lastActivity := Some(now))
    {
      lastActivity := Some(now);
    }

    method GetSessionHashrate(client: ClientType) returns (rate: nat)
      ensures rate == Hashrate(State(), client) <= MaxHashrate(client)
    {
      if firstAt.None? || lastActivity.None? || expectedHashes.None? { return 0; }
      if lastActivity.value <= firstAt.value || expectedHashes.value == 0 { return 0; }
      var elapsed := lastActivity.value - firstAt.value;
      rate := expectedHashes.value / elapsed;
      if rate > MaxHashrate(client) {
        rate := MaxHashrate(client);
      }
    }
  }

  // ----- A whole session -----

  /** An accepted proof: recorded at one reading of the clock, then activity at another. */
  datatype Proof = Proof(difficulty: nat, recordedAt: int, touchedAt: int)

  function AfterProofs(proofs: seq<Proof>): Keys {
    if proofs == [] then NO_KEYS else
    var last := proofs[|proofs| - 1];
    var before := AfterProofs(proofs[..|proofs| - 1]);
    Recorded(before, last.difficulty, last.recordedAt).(lastActivity := Some(last.touchedAt))
  }

  /** The work of all proofs after the first. */
  function WorkAfterFirst(proofs: seq<Proof>): nat {
    if |proofs| <= 1 then 0 else WorkAfterFirst(proofs[..|proofs| - 1]) + proofs[|proofs| - 1].difficulty
  }

  /** Whatever proofs are accepted: the anchor is the first one's time, the activity the
      last one's, and the accumulator is the work after the first, as long as that fits 64
      signed bits, and never more than it. */
  lemma {:induction false} AccumulatorExact(proofs: seq<Proof>)
    requires proofs != []
    ensures var k := AfterProofs(proofs);
            && k.firstAt == Some(proofs[0].recordedAt)
            && k.lastActivity == Some(proofs[|proofs| - 1].touchedAt)
            && (k.expectedHashes.Some? ==> k.expectedHashes.value <= WorkAfterFirst(proofs))
            && (k.expectedHashes.Some? ==> k.expectedHashes.value < 0x8000_0000_0000_0000)
            && (WorkAfterFirst(proofs) <= MAX_I64 ==>
                  k.expectedHashes == if |proofs| == 1 then None else Some(WorkAfterFirst(proofs)))
  {
    if |proofs| > 1 {
      AccumulatorExact(proofs[..|proofs| - 1]);
    } else {
      assert AfterProofs(proofs[..0]) == NO_KEYS;
    }
  }

  /** Beyond that, a proof either counts in full or, where its work would leave the range, not
      at all. */
  lemma CountsOrNot(k: Keys, difficulty: nat, now: int)
    requires k.firstAt.Some?
    ensures var before := if k.expectedHashes.Some? then k.expectedHashes.value else 0;
            Recorded(k, difficulty, now).expectedHashes ==
            if before + difficulty < 0x8000_0000_0000_0000 then Some(before + difficulty) else k.expectedHashes
    ensures Recorded(k, difficulty, now).firstAt == k.firstAt
  {
  }

  /** The session's rate in closed form: the work after the first proof over the elapsed
      time, clamped to the client's maximum; zero without two proofs, work and time. */
  lemma SessionRate(proofs: seq<Proof>, client: ClientType)
    requires WorkAfterFirst(proofs) <= MAX_I64
    ensures Hashrate(AfterProofs(proofs), client) == RateOf(proofs, client) <= 5_000
  {
    if proofs != [] {
      AccumulatorExact(proofs);
    }
  }

  /** In numbers: 400, 4,000 or 5,000 hashes a second at most, by client. */
  function RateOf(proofs: seq<Proof>, client: ClientType): nat {
    var most := match client { case Browser => 400 case Desktop => 4_000 case Cli => 5_000 };
    if |proofs| < 2 || proofs[|proofs| - 1].touchedAt <= proofs[0].recordedAt then 0
    else
      var rate := WorkAfterFirst(proofs) / (proofs[|proofs| - 1].touchedAt - proofs[0].recordedAt);
      if rate <= most then rate else most
  }

  /** No session of at most 142,857 seconds, at any derived rate, commodity and boost, mints
      more than a million PRM. */
  lemma SessionMintBound(proofs: seq<Proof>, client: ClientType, duration: nat, rate: Payout.Rate)
    requires rate.hashrate == Hashrate(AfterProofs(proofs), client)
    requires duration <= 142_857 && rate.boostBps <= Payout.MAX_BOOST_BPS
    requires rate.config.baseCoefficient == Payout.DEFAULT_CONFIG.baseCoefficient
    requires Payout.Settle(rate, duration).Value?
    ensures Payout.Settle(rate, duration).value.wei <= 1_000_000_000_000_000_000_000_000
  {
    Payout.SettleIdeal(rate, duration);
    Payout.SessionBelowMillion(rate, duration);
  }
}
