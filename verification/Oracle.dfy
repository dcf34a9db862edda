/** Session price averages and the on-chain store that guards them against jumps. */
module Oracle {
  import opened Basics
  import opened Evm

  const DIVERGENCE_THRESHOLD_BPS: nat := 200
  const BPS: nat := 10_000
  const MIN_VALID_SESSION_SECS: int := 600

  datatype OracleError =
    | NotContractOwner
    | NotAuthorizedSubmitter
    | ZeroAddress
    | ZeroPrice
    | ArithmeticOverflow
    | PriceDiverged(submitted: nat, lastStored: nat, divergenceBps: nat)

  datatype PriceData = PriceData(price: nat, updatedAt: nat, initialized: bool)

  const NO_PRICE := PriceData(0, 0, false)

  function Diff(a: nat, b: nat): nat {
    if a > b then a - b else b - a
  }

  /** The guard's product must fit a word. */
  predicate Scalable(stored: nat, price: nat) {
    Diff(price, stored) * BPS <= MAX_UINT256
  }

  /** The divergence guard: at most 2%, rounded down. */
  predicate Accepted(stored: nat, price: nat)
    requires stored > 0
  {
    price != 0 && Scalable(stored, price) && Diff(price, stored) * BPS / stored <= DIVERGENCE_THRESHOLD_BPS
  }

  datatype Store = Store(owner: Address, submitter: Address, prices: map<nat, PriceData>) {
    function Price(commodity: nat): PriceData {
      At(prices, commodity, NO_PRICE)
    }

    /** Every stored price is positive, so the guard never divides by zero. */
    ghost predicate Positive() {
      forall c :: Price(c).initialized ==> Price(c).price > 0
    }
  }

  datatype Call =
    | CallSubmitPrice(commodity: nat, price: nat)
    | CallForceSubmitPrice(commodity: nat, price: nat)
    | CallSetSubmitter(newSubmitter: Address)
  {
    /** Names a price for a commodity. */
    predicate Names(c: nat) {
      (CallSubmitPrice? || CallForceSubmitPrice?) && commodity == c
    }
  }

  function Perform(s: Store, env: Env, call: Call): Outcome<Store, OracleError>
    requires s.Positive()
  {
    match call
    case CallSubmitPrice(c, price) =>
      var stored := s.Price(c).price;
      if env.sender != s.submitter then Reverted(NotAuthorizedSubmitter)
      else if price == 0 then Reverted(ZeroPrice)
      else if s.Price(c).initialized && !Scalable(stored, price) then Reverted(ArithmeticOverflow)
      else if s.Price(c).initialized && !Accepted(stored, price) then
        Reverted(PriceDiverged(price, stored, Diff(price, stored) * BPS / stored))
      else Returned(s.(prices := s.prices[c := PriceData(price, env.timestamp, true)]))
    case CallForceSubmitPrice(c, price) =>
      if env.sender != s.owner then Reverted(NotContractOwner)
      else if price == 0 then Reverted(ZeroPrice)
      else Returned(s.(prices := s.prices[c := PriceData(price, env.timestamp, true)]))
    case CallSetSubmitter(newSubmitter) =>
      if env.sender != s.owner then Reverted(NotContractOwner)
      else if newSubmitter == ZERO_ADDRESS then Reverted(ZeroAddress)
      else Returned(s.(submitter := newSubmitter))
  }

  /** The deployed store. */
  class Aggregator {
    var owner: Address
    var submitter: Address
    var prices: map<nat, PriceData>

    ghost function State(): Store
      reads this
    {
      Store(owner, submitter, prices)
    }

    constructor (initialOwner: Address, initialSubmitter: Address)
      ensures State() == Store(initialOwner, initialSubmitter, map[]) && State().Positive()
    {
      owner, submitter, prices := initialOwner, initialSubmitter, map[];
    }

    method SetSubmitter(env: Env, newSubmitter: Address) returns (r: Outcome<(), OracleError>)
      requires State().Positive()
      modifies this`submitter
      ensures Agrees(r, Perform(old(State()), env, CallSetSubmitter(newSubmitter)), old(State()), State())
      ensures State().Positive()
    {
      if env.sender != owner { return Reverted(NotContractOwner); }
      if newSubmitter == ZERO_ADDRESS { return Reverted(ZeroAddress); }
      submitter := newSubmitter;
      PositiveKept(old(State()), env, CallSetSubmitter(newSubmitter));
      return Returned(());
    }

    method SubmitPrice(env: Env, commodity: nat, price: nat) returns (r: Outcome<(), OracleError>)
      requires State().Positive()
      modifies this`prices
      ensures Agrees(r, Perform(old(State()), env, CallSubmitPrice(commodity, price)), old(State()), State())
      ensures State().Positive()
    {
      if env.sender != submitter { return Reverted(NotAuthorizedSubmitter); }
      if price == 0 { return Reverted(ZeroPrice); }
      var existing := At(prices, commodity, NO_PRICE);
      assert existing == State().Price(commodity);
      if existing.initialized {
        var stored := existing.price;
        var diff := if price > stored then price - stored else stored - price;
        if diff * BPS > MAX_UINT256 { return Reverted(ArithmeticOverflow); }
        var divergenceBps := diff * BPS / stored;
        if divergenceBps > DIVERGENCE_THRESHOLD_BPS { return Reverted(PriceDiverged(price, stored, divergenceBps)); }
      }
      prices := prices[commodity := PriceData(price, env.timestamp, true)];
      PositiveKept(old(State()), env, CallSubmitPrice(commodity, price));
      return Returned(());
    }

    method ForceSubmitPrice(env: Env, commodity: nat, price: nat) returns (r: Outcome<(), OracleError>)
      requires State().Positive()
      modifies this`prices
      ensures Agrees(r, Perform(old(State()), env, CallForceSubmitPrice(commodity, price)), old(State()), State())
      ensures State().Positive()
    {
      if env.sender != owner { return Reverted(NotContractOwner); }
      if price == 0 { return Reverted(ZeroPrice); }
      prices := prices[commodity := PriceData(price, env.timestamp, true)];
      PositiveKept(old(State()), env, CallForceSubmitPrice(commodity, price));
      return Returned(());
    }
  }

  lemma PositiveKept(s: Store, env: Env, call: Call)
    requires s.Positive()
    ensures Perform(s, env, call).Returned? ==> Perform(s, env, call).value.Positive()
  {
    var r := Perform(s, env, call);
    if r.Returned? {
      forall c ensures r.value.Price(c).initialized ==> r.value.Price(c).price > 0 {
        assert s.Price(c).initialized ==> s.Price(c).price > 0;
      }
    }
  }

  // ----- Drift -----

  lemma QuotientAtMost(x: nat, k: nat, b: nat)
    requires k > 0
    ensures x / k <= b <==> x < k * (b + 1)
  {
    var q := x / k;
    assert x == k * q + x % k;
    if q <= b {
      assert k * q <= k * b;
      assert k * (b + 1) == k * b + k;
    }
    if x < k * (b + 1) {
      assert k * (b - q) == k * b - k * q;
      assert k * (b + 1) == k * b + k;
      FactorSign(k, b - q);
    }
  }

  /** The guard as plain inequalities: strictly between 97.99% and 102.01%, which is all
      there is to it for a stored price of up to a 201st of a word. */
  lemma AcceptedIff(stored: nat, price: nat)
    requires stored > 0
    ensures Accepted(stored, price) <==> Scalable(stored, price) && 9_799 * stored < BPS * price < 10_201 * stored
    ensures 201 * stored <= MAX_UINT256 && 9_799 * stored < BPS * price < 10_201 * stored ==> Scalable(stored, price)
  {
    QuotientAtMost(Diff(price, stored) * BPS, stored, DIVERGENCE_THRESHOLD_BPS);
  }

  function Pow(base: nat, n: nat): nat {
    if n == 0 then 1 else base * Pow(base, n - 1)
  }

  datatype Step = Step(env: Env, call: Call)

  /** One call and its effect on the store; a reverted one has none. */
  function Next(s: Store, step: Step): (s': Store)
    requires s.Positive()
    ensures s'.Positive()
  {
    PositiveKept(s, step.env, step.call);
    match Perform(s, step.env, step.call)
    case Reverted(_) => s
    case Returned(s') => s'
  }

  function Run(s: Store, steps: seq<Step>): (s': Store)
    requires s.Positive()
    ensures s'.Positive()
  {
    if steps == [] then s else Next(Run(s, steps[..|steps| - 1]), steps[|steps| - 1])
  }

  /** How many submissions for a commodity a run accepts. */
  function AcceptedIn(s: Store, steps: seq<Step>, commodity: nat): nat
    requires s.Positive()
  {
    if steps == [] then 0 else
    var before, last := steps[..|steps| - 1], steps[|steps| - 1];
    AcceptedIn(s, before, commodity) +
    if last.call.CallSubmitPrice? && last.call.commodity == commodity
      && Perform(Run(s, before), last.env, last.call).Returned?
    then 1 else 0
  }

  /** When a price is accepted, in numbers, and what the store reads then: that price at that
      time, and everything else as before. */
  lemma PriceCallsStore(s: Store, env: Env, c: nat, price: nat)
    requires s.Positive()
    ensures var r, stored := Perform(s, env, CallSubmitPrice(c, price)), s.Price(c).price;
            && (r.Returned? <==>
                && env.sender == s.submitter && price != 0
                && (s.Price(c).initialized ==>
                      Scalable(stored, price) && 9_799 * stored < 10_000 * price < 10_201 * stored))
            && (r.Returned? ==> Reads(s, r.value, c, PriceData(price, env.timestamp, true)))
    ensures var r := Perform(s, env, CallForceSubmitPrice(c, price));
            && (r.Returned? <==> env.sender == s.owner && price != 0)
            && (r == Reverted(NotContractOwner) <==> env.sender != s.owner)
            && (r.Returned? ==> Reads(s, r.value, c, PriceData(price, env.timestamp, true)))
    ensures var r := Perform(s, env, CallSetSubmitter(price));
            && (r.Returned? <==> env.sender == s.owner && price != 0)
            && (r == Reverted(NotContractOwner) <==> env.sender != s.owner)
            && (r.Returned? ==> r.value == s.(submitter := price))
  {
    if s.Price(c).initialized {
      AcceptedIff(s.Price(c).price, price);
    }
  }

  /** What refuses a submission: the caller, a zero, a difference that cannot be scaled, or the
      guard, which then reports the divergence in basis points, rounded down. */
  lemma SubmissionRefused(s: Store, env: Env, c: nat, price: nat)
    requires s.Positive()
    ensures var r, stored := Perform(s, env, CallSubmitPrice(c, price)), s.Price(c).price;
            && (r == Reverted(NotAuthorizedSubmitter) <==> env.sender != s.submitter)
            && (r == Reverted(ZeroPrice) <==> env.sender == s.submitter && price == 0)
            && (r == Reverted(ArithmeticOverflow) <==>
                env.sender == s.submitter && price != 0 && s.Price(c).initialized && !Scalable(stored, price))
            && (r.Reverted? && r.error.PriceDiverged? ==>
                  var bps := r.error.divergenceBps;
                  && r.error.submitted == price && r.error.lastStored == stored
                  && stored * bps <= Diff(price, stored) * 10_000 < stored * (bps + 1))
  {
    var stored := s.Price(c).price;
    if s.Price(c).initialized {
      DivisionBounds(Diff(price, stored) * BPS, stored);
    }
  }

  lemma DivisionBounds(x: nat, k: nat)
    requires k > 0
    ensures k * (x / k) <= x < k * (x / k + 1)
  {
    assert x == k * (x / k) + x % k;
  }

  /** The store changed in the reading of one commodity only. */
  ghost predicate Reads(s: Store, s': Store, c: nat, data: PriceData) {
    && s'.owner == s.owner && s'.submitter == s.submitter
    && forall other :: s'.Price(other) == if other == c then data else s.Price(other)
  }

  /** What the last accepted call named for a commodity. */
  function Named(s: Store, steps: seq<Step>, c: nat): PriceData
    requires s.Positive()
  {
    if steps == [] then s.Price(c) else
    var before, last := steps[..|steps| - 1], steps[|steps| - 1];
    if last.call.Names(c) && Perform(Run(s, before), last.env, last.call).Returned?
    then PriceData(last.call.price, last.env.timestamp, true)
    else Named(s, before, c)
  }

  /** In every run the store reads, for each commodity, the price that the last accepted
      submission or override named, at its time. */
  lemma {:induction false} StoredIsNamed(s: Store, steps: seq<Step>, c: nat)
    requires s.Positive()
    ensures Run(s, steps).Price(c) == Named(s, steps, c)
  {
    if steps == [] {
    } else {
      var before, last := steps[..|steps| - 1], steps[|steps| - 1];
      StoredIsNamed(s, before, c);
      match last.call
      case CallSubmitPrice(other, price) => PriceCallsStore(Run(s, before), last.env, other, price);
      case CallForceSubmitPrice(other, price) => PriceCallsStore(Run(s, before), last.env, other, price);
      case CallSetSubmitter(_) =>
    }
  }

  lemma DriftStep(lo: nat, hi: nat, mid: nat, p: nat, q: nat, start: nat)
    requires lo * start <= mid * p <= hi * start && 9_799 * p <= BPS * q <= 10_201 * p
    ensures 9_799 * lo * start <= BPS * mid * q <= 10_201 * hi * start
  {
    assert BPS * mid * q == mid * (BPS * q);
    assert mid * (9_799 * p) <= mid * (BPS * q) <= mid * (10_201 * p) by {
      MulMonotone(mid, mid, 9_799 * p, BPS * q);
      MulMonotone(mid, mid, BPS * q, 10_201 * p);
    }
    assert mid * (9_799 * p) == 9_799 * (mid * p);
    assert mid * (10_201 * p) == 10_201 * (mid * p);
    assert 9_799 * lo * start == 9_799 * (lo * start);
    assert 10_201 * hi * start == 10_201 * (hi * start);
  }

  /** In every run without an owner override of a commodity, whoever else submits what, its
      n accepted prices moved it by at most a factor between 0.9799^n and 1.0201^n. */
  lemma {:induction false} Drift(s: Store, steps: seq<Step>, commodity: nat)
    requires s.Positive() && s.Price(commodity).initialized
    requires forall step :: step in steps ==> !(step.call.CallForceSubmitPrice? && step.call.commodity == commodity)
    ensures var n := AcceptedIn(s, steps, commodity);
            var p0, pn := s.Price(commodity).price, Run(s, steps).Price(commodity).price;
            Pow(9_799, n) * p0 <= Pow(BPS, n) * pn <= Pow(10_201, n) * p0
    ensures Run(s, steps).Price(commodity).initialized
  {
    if steps == [] {
    } else {
      var before, last := steps[..|steps| - 1], steps[|steps| - 1];
      assert last in steps;
      Drift(s, before, commodity);
      var mid := Run(s, before);
      var n := AcceptedIn(s, before, commodity);
      if last.call.CallSubmitPrice? && last.call.commodity == commodity && Perform(mid, last.env, last.call).Returned? {
        AcceptedIff(mid.Price(commodity).price, last.call.price);
        DriftStep(Pow(9_799, n), Pow(10_201, n), Pow(BPS, n), mid.Price(commodity).price, last.call.price,
                  s.Price(commodity).price);
      } else {
        assert Next(mid, last).Price(commodity) == mid.Price(commodity);
      }
    }
  }

  // ----- The session average -----

  datatype Sample = Sample(price: nat, sampledAt: int)
  datatype TwapResult = TwapResult(twap: nat, sampleCount: nat, sessionStart: int, sessionEnd: int, isValid: bool)

  function SumPrices(samples: seq<Sample>): nat {
    if samples == [] then 0 else SumPrices(samples[..|samples| - 1]) + samples[|samples| - 1].price
  }

  function Average(samples: seq<Sample>): Option<nat> {
    if samples == [] then None else Some(SumPrices(samples) / |samples|)
  }

  /** Collects samples in order and averages them. */
  class TwapCalculator {
    var samples: seq<Sample>
    const sessionStart: int

    constructor (sessionStart: int)
      ensures this.sessionStart == sessionStart && samples == []
    {
      this.sessionStart := sessionStart;
      samples := [];
    }

    /** A sample from before the session is dropped. */
    method AddSample(sample: Sample)
      modifies this`samples
      ensures samples == if sample.sampledAt < sessionStart then old(samples) else old(samples) + [sample]
    {
      if sample.sampledAt < sessionStart { return; }
      samples := samples + [sample];
    }

    method Calculate() returns (twap: Option<nat>)
      ensures twap == Average(samples)
    {
      if |samples| == 0 { return None; }
      var sum := 0;
      for i := 0 to |samples|
        invariant sum == SumPrices(samples[..i])
      {
        assert samples[..i + 1][..i] == samples[..i];
        sum := sum + samples[i].price;
      }
      assert samples[..|samples|] == samples;
      twap := Some(sum / |samples|);
    }

    method Finalize(sessionEnd: int) returns (r: Option<TwapResult>)
      ensures r.None? <==> samples == []
      ensures r.Some? ==>
                && Some(r.value.twap) == Average(samples) && r.value.sampleCount == |samples|
                && r.value.sessionStart == sessionStart && r.value.sessionEnd == sessionEnd
                && (r.value.isValid <==> samples[|samples| - 1].sampledAt - sessionStart >= MIN_VALID_SESSION_SECS)
    {
      var twap := Calculate();
      if twap.None? { return None; }
      var latest := samples[|samples| - 1];
      r := Some(TwapResult(twap.value, |samples|, sessionStart, sessionEnd,
                           latest.sampledAt - sessionStart >= MIN_VALID_SESSION_SECS));
    }
  }

  lemma {:induction false} SumBetween(samples: seq<Sample>, lo: nat, hi: nat)
    requires forall k :: 0 <= k < |samples| ==> lo <= samples[k].price <= hi
    ensures lo * |samples| <= SumPrices(samples) <= hi * |samples|
  {
    if samples == [] {
    } else {
      var n := |samples| - 1;
      SumBetween(samples[..n], lo, hi);
      assert lo * (n + 1) == lo * n + lo;
      assert hi * (n + 1) == hi * n + hi;
    }
  }

  /** The 128-bit sum of the program does not overflow while count times highest price fits:
      for prices up to $100,000, that is any number of samples up to 10^25. */
  lemma SumFits(samples: seq<Sample>, hi: nat)
    requires forall k :: 0 <= k < |samples| ==> samples[k].price <= hi
    requires hi * |samples| <= MAX_U128
    ensures SumPrices(samples) <= MAX_U128
  {
    SumBetween(samples, 0, hi);
  }

  /** The sum in question: of one sample its price, of two runs of samples both sums. */
  lemma {:induction false} SumAdds(a: seq<Sample>, b: seq<Sample>, x: Sample)
    ensures SumPrices([x]) == x.price && SumPrices(a + b) == SumPrices(a) + SumPrices(b)
  {
    assert [x][..0] == [];
    if b == [] {
      assert a + b == a;
    } else {
      assert (a + b)[..|a + b| - 1] == a + b[..|b| - 1];
      SumAdds(a, b[..|b| - 1], x);
    }
  }

  /** The average is the sum's share, rounded down. */
  lemma AverageFloors(samples: seq<Sample>)
    requires samples != []
    ensures var average := Average(samples).value;
            |samples| * average <= SumPrices(samples) < |samples| * (average + 1)
  {
    DivisionBounds(SumPrices(samples), |samples|);
  }

  /** An average of integers stays between their bounds, rounding included. */
  lemma AverageBetween(samples: seq<Sample>, lo: nat, hi: nat)
    requires samples != [] && forall k :: 0 <= k < |samples| ==> lo <= samples[k].price <= hi
    ensures lo <= Average(samples).value <= hi
  {
    SumBetween(samples, lo, hi);
    QuotientBetween(SumPrices(samples), |samples|, lo, hi);
  }

  lemma QuotientBetween(sum: nat, n: nat, lo: nat, hi: nat)
    requires n > 0 && lo * n <= sum <= hi * n
    ensures lo <= sum / n <= hi
  {
    var q := sum / n;
    assert sum == n * q + sum % n;
    assert n * (q - lo) == n * q - lo * n;
    FactorSign(n, q - lo);
    assert n * (hi - q) == hi * n - n * q;
    FactorSign(n, hi - q);
  }

  /** If every sample would pass the guard against a stored price, so does their average. */
  lemma AveragePasses(stored: nat, samples: seq<Sample>)
    requires stored > 0 && samples != []
    requires forall k :: 0 <= k < |samples| ==> Accepted(stored, samples[k].price)
    ensures Accepted(stored, Average(samples).value)
  {
    var most := MAX_UINT256 / BPS;
    var lo := Max(9_799 * stored / BPS + 1, stored - most);
    var hi := Min((10_201 * stored - 1) / BPS, stored + most);
    forall k | 0 <= k < |samples| ensures lo <= samples[k].price <= hi {
      AcceptedIff(stored, samples[k].price);
    }
    AverageBetween(samples, lo, hi);
    AcceptedIff(stored, Average(samples).value);
  }

  function Max(a: int, b: int): int {
    if a >= b then a else b
  }

  function Min(a: int, b: int): int {
    if a <= b then a else b
  }
}
