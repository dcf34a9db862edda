/** Single-use login nonces: a pruned map against a history that forgets nothing. */
module NonceStore {

  const NONCE_TTL: nat := 300

  type Nonce = string

  /** Time since an earlier instant, zero if it is not earlier. */
  function Since(now: nat, earlier: nat): nat {
    if now >= earlier then now - earlier else 0
  }

  predicate Fresh(now: nat, issued: nat) {
    Since(now, issued) < NONCE_TTL
  }

  function Pruned(outstanding: map<Nonce, nat>, now: nat): map<Nonce, nat> {
    map n | n in outstanding && Fresh(now, outstanding[n]) :: outstanding[n]
  }

  class Store {
    var outstanding: map<Nonce, nat>

    constructor ()
      ensures outstanding == map[]
    {
      outstanding := map[];
    }

    /** `now` is read before the lock is taken, so it may lag behind the clock. */
    method Issue(nonce: Nonce, now: nat)
      modifies this
      ensures outstanding == Pruned(old(outstanding), now)[nonce := now]
    {
      outstanding := Pruned(outstanding, now);
      outstanding := outstanding[nonce := now];
    }

    method Consume(nonce: Nonce, clock: nat) returns (ok: bool)
      modifies this
      ensures outstanding == old(outstanding) - {nonce}
      ensures ok <==> nonce in old(outstanding) && Fresh(clock, old(outstanding)[nonce])
    {
      if nonce !in outstanding {
        assert outstanding - {nonce} == outstanding;
        return false;
      }
      var issued := outstanding[nonce];
      outstanding := outstanding - {nonce};
      ok := Fresh(clock, issued);
    }
  }

  // ----- Runs, pruned and not -----

  /** One operation, at the clock reading when it holds the lock. */
  datatype Op =
    | Issue(nonce: Nonce, now: nat, clock: nat)
    | Consume(nonce: Nonce, clock: nat)

  /** Clocks do not run backwards, a request never knows a later time than the clock, and
      an issued nonce was never issued before. */
  ghost predicate WellTimed(ops: seq<Op>) {
    && (forall i, j :: 0 <= i < j < |ops| ==> ops[i].clock <= ops[j].clock)
    && (forall i :: 0 <= i < |ops| && ops[i].Issue? ==> ops[i].now <= ops[i].clock)
    && (forall i, j :: 0 <= i < j < |ops| && ops[i].Issue? && ops[j].Issue? ==> ops[i].nonce != ops[j].nonce)
  }

  function Outstanding(ops: seq<Op>): map<Nonce, nat> {
    if ops == [] then map[] else
    var before := Outstanding(ops[..|ops| - 1]);
    match ops[|ops| - 1]
    case Issue(nonce, now, _) => Pruned(before, now)[nonce := now]
    case Consume(nonce, _) => before - {nonce}
  }

  /** What the store answers to operation `i`. */
  ghost predicate Succeeds(ops: seq<Op>, i: nat)
    requires i < |ops|
  {
    && ops[i].Consume?
    && var before := Outstanding(ops[..i]);
       ops[i].nonce in before && Fresh(ops[i].clock, before[ops[i].nonce])
  }

  /** What a history that never forgets would answer: issued less than 300 seconds ago, and not
      asked for since. */
  ghost predicate Deserves(ops: seq<Op>, i: nat)
    requires i < |ops|
  {
    && ops[i].Consume?
    && exists k ::
         && 0 <= k < i && ops[k].Issue? && ops[k].nonce == ops[i].nonce
         && ops[i].clock < ops[k].now + 300
         && forall j :: k < j < i && ops[j].Consume? ==> ops[j].nonce != ops[i].nonce
  }

  /** Who is outstanding: issued, not consumed since, and dropped only when expired. */
  ghost predicate IssuedAt(ops: seq<Op>, n: Nonce, k: int) {
    && 0 <= k < |ops| && ops[k].Issue? && ops[k].nonce == n
    && forall j :: k < j < |ops| && ops[j].Consume? ==> ops[j].nonce != n
  }

  lemma {:induction false} OutstandingIssued(ops: seq<Op>, n: Nonce)
    requires WellTimed(ops) && n in Outstanding(ops)
    ensures exists k :: IssuedAt(ops, n, k) && ops[k].now == Outstanding(ops)[n]
  {
    var last := |ops| - 1;
    var before := ops[..last];
    if ops[last].Issue? && ops[last].nonce == n {
      assert IssuedAt(ops, n, last);
    } else {
      OutstandingIssued(before, n);
      var k :| IssuedAt(before, n, k) && before[k].now == Outstanding(before)[n];
      forall j | k < j < |ops| && ops[j].Consume? ensures ops[j].nonce != n {
        if j < last {
          assert before[j] == ops[j];
        }
      }
      assert IssuedAt(ops, n, k);
    }
  }

  lemma {:induction false} DroppedOnlyExpired(ops: seq<Op>, n: Nonce, k: nat, clock: nat)
    requires WellTimed(ops) && IssuedAt(ops, n, k) && Fresh(clock, ops[k].now)
    requires forall i :: 0 <= i < |ops| ==> ops[i].clock <= clock
    ensures n in Outstanding(ops) && Outstanding(ops)[n] == ops[k].now
  {
    var last := |ops| - 1;
    if k < last {
      var before := ops[..last];
      forall j | k < j < |before| && before[j].Consume? ensures before[j].nonce != n {
        assert before[j] == ops[j];
      }
      assert before[k] == ops[k];
      DroppedOnlyExpired(before, n, k, clock);
    }
  }

  /** Pruning is invisible: for every well-timed sequence of operations the pruned store
      answers exactly as the history that never forgets. */
  lemma PruningInvisible(ops: seq<Op>, i: nat)
    requires WellTimed(ops) && i < |ops|
    ensures Succeeds(ops, i) <==> Deserves(ops, i)
  {
    if ops[i].Consume? {
      var before, n := ops[..i], ops[i].nonce;
      assert forall j :: 0 <= j < i ==> before[j] == ops[j];
      if Succeeds(ops, i) {
        OutstandingIssued(before, n);
        var k :| IssuedAt(before, n, k) && before[k].now == Outstanding(before)[n];
        SameIssue(ops, i, k);
      }
      if Deserves(ops, i) {
        var k :| 0 <= k < i && ops[k].Issue? && ops[k].nonce == n && Fresh(ops[i].clock, ops[k].now)
                 && forall j :: k < j < i && ops[j].Consume? ==> ops[j].nonce != n;
        assert IssuedAt(before, n, k);
        DroppedOnlyExpired(before, n, k, ops[i].clock);
      }
    }
  }

  lemma SameIssue(ops: seq<Op>, i: nat, k: nat)
    requires i < |ops| && ops[i].Consume? && IssuedAt(ops[..i], ops[i].nonce, k) && Fresh(ops[i].clock, ops[k].now)
    ensures Deserves(ops, i)
  {
    assert ops[..i][k] == ops[k];
    forall j | k < j < i && ops[j].Consume? ensures ops[j].nonce != ops[i].nonce {
      assert ops[..i][j] == ops[j];
    }
  }

  /** A nonce succeeds only strictly within the lifetime of its issue. */
  lemma SucceedsInTime(ops: seq<Op>, i: nat)
    requires WellTimed(ops) && i < |ops| && Succeeds(ops, i)
    ensures exists k ::
              0 <= k < i && ops[k].Issue? && ops[k].nonce == ops[i].nonce && ops[i].clock < ops[k].now + NONCE_TTL
  {
    PruningInvisible(ops, i);
  }

  /** And at most once. */
  lemma SucceedsOnce(ops: seq<Op>, i: nat, j: nat)
    requires WellTimed(ops) && i < j < |ops| && Succeeds(ops, i) && Succeeds(ops, j)
    ensures ops[i].nonce != ops[j].nonce
  {
    PruningInvisible(ops, i);
    PruningInvisible(ops, j);
  }
}
