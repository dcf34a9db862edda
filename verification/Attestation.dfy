/** 3-of-4 node attestation: seeded selection of the attesters and counting of verified,
    distinct, registered signers among arbitrary answers. */
module Attestation {
  import opened Basics

  type NodeId = nat
  type Address = nat
  type Signature = nat
  type Message = nat

  const REQUIRED_SIGNATURES: nat := 3
  const ATTESTATION_NODE_COUNT: nat := 4

  // ----- Selection -----

  /** A 32-byte seed. */
  type Seed = seed: seq<nat> | |seed| == 32 && forall k :: 0 <= k < 32 ==> seed[k] < 256
    witness seq(32, _ => 0)

  function Pick(seed: Seed, i: nat): (j: nat)
    ensures j <= i
  {
    seed[i % 32] % (i + 1)
  }

  function Swapped<T>(s: seq<T>, i: nat, j: nat): (r: seq<T>)
    requires i < |s| && j < |s|
    ensures |r| == |s|
  {
    s[i := s[j]][j := s[i]]
  }

  /** The shuffle's swaps from index `i` down to 1. */
  function Shuffled<T>(s: seq<T>, seed: Seed, i: nat): (r: seq<T>)
    requires (i < |s| || i == 0)
    ensures |r| == |s|
    decreases i
  {
    if i == 0 then s else Shuffled(Swapped(s, i, Pick(seed, i)), seed, i - 1)
  }

  /** The same swaps undone in the opposite order. */
  function Unshuffled<T>(s: seq<T>, seed: Seed, i: nat): (r: seq<T>)
    requires (i < |s| || i == 0)
    ensures |r| == |s|
    decreases i
  {
    if i == 0 then s else Swapped(Unshuffled(s, seed, i - 1), i, Pick(seed, i))
  }

  /** A seed reorders the pool and loses nothing: every order comes back. */
  lemma {:induction false} ShuffleInvertible<T>(s: seq<T>, seed: Seed, i: nat)
    requires (i < |s| || i == 0)
    ensures Unshuffled(Shuffled(s, seed, i), seed, i) == s
    decreases i
  {
    if i == 0 {
    } else {
      ShuffleInvertible(Swapped(s, i, Pick(seed, i)), seed, i - 1);
    }
  }

  lemma SwapKeeps<T>(s: seq<T>, i: nat, j: nat)
    requires i < |s| && j < |s|
    ensures multiset(Swapped(s, i, j)) == multiset(s)
  {
  }

  /** The shuffle is a permutation of the pool. */
  lemma {:induction false} ShuffleKeeps<T>(s: seq<T>, seed: Seed, i: nat)
    requires (i < |s| || i == 0)
    ensures multiset(Shuffled(s, seed, i)) == multiset(s)
    decreases i
  {
    if i == 0 {
    } else {
      SwapKeeps(s, i, Pick(seed, i));
      ShuffleKeeps(Swapped(s, i, Pick(seed, i)), seed, i - 1);
    }
  }

  method Shuffle(pool: array<NodeId>, seed: Seed)
    modifies pool
    ensures pool[..] == Shuffled(old(pool[..]), seed, if pool.Length == 0 then 0 else pool.Length - 1)
  {
    if pool.Length == 0 { return; }
    var i := pool.Length - 1;
    while i > 0
      invariant 0 <= i < pool.Length
      invariant Shuffled(pool[..], seed, i) == Shuffled(old(pool[..]), seed, pool.Length - 1)
    {
      var j := Pick(seed, i);
      ghost var before := pool[..];
      pool[i], pool[j] := pool[j], pool[i];
      assert pool[..] == Swapped(before, i, j);
      i := i - 1;
    }
  }

  /** The pool without the excluded node, in order. */
  function Others(eligible: seq<NodeId>, exclude: Option<NodeId>): seq<NodeId> {
    if eligible == [] then [] else
    var n := |eligible| - 1;
    var rest := Others(eligible[..n], exclude);
    if exclude == Some(eligible[n]) then rest else rest + [eligible[n]]
  }

  lemma {:induction false} OthersSound(eligible: seq<NodeId>, exclude: Option<NodeId>)
    ensures forall x :: x in Others(eligible, exclude) <==> x in eligible && exclude != Some(x)
    ensures Distinct(eligible) ==> Distinct(Others(eligible, exclude))
  {
    if eligible == [] {
    } else {
      var n := |eligible| - 1;
      OthersSound(eligible[..n], exclude);
      assert eligible == eligible[..n] + [eligible[n]];
    }
  }

  function Take<T>(s: seq<T>, n: nat): seq<T> {
    if |s| <= n then s else s[..n]
  }

  function Selection(eligible: seq<NodeId>, seed: Seed, exclude: Option<NodeId>): seq<NodeId> {
    var pool := Others(eligible, exclude);
    Take(Shuffled(pool, seed, if pool == [] then 0 else |pool| - 1), ATTESTATION_NODE_COUNT - 1)
  }

  method Filter(eligible: seq<NodeId>, exclude: Option<NodeId>) returns (pool: array<NodeId>)
    ensures fresh(pool) && pool[..] == Others(eligible, exclude)
  {
    var filtered: seq<NodeId> := [];
    for k := 0 to |eligible|
      invariant filtered == Others(eligible[..k], exclude)
    {
      assert eligible[..k + 1][..k] == eligible[..k];
      if exclude != Some(eligible[k]) {
        filtered := filtered + [eligible[k]];
      }
    }
    assert eligible[..|eligible|] == eligible;
    pool := new NodeId[|filtered|](i requires 0 <= i < |filtered| => filtered[i]);
  }

  method SelectNodes(eligible: seq<NodeId>, seed: Seed, exclude: Option<NodeId>) returns (chosen: seq<NodeId>)
    ensures chosen == Selection(eligible, seed, exclude)
  {
    var pool := Filter(eligible, exclude);
    Shuffle(pool, seed);
    chosen := Take(pool[..], ATTESTATION_NODE_COUNT - 1);
  }

  lemma SameElements<T>(a: seq<T>, b: seq<T>)
    requires multiset(a) == multiset(b)
    ensures forall x :: x in a <==> x in b
    ensures Distinct(a) ==> Distinct(b)
  {
    forall x ensures x in a <==> x in b {
      assert x in a <==> x in multiset(a);
      assert x in b <==> x in multiset(b);
    }
    if Distinct(a) {
      forall i, j | 0 <= i < j < |b| ensures b[i] != b[j] {
        if b[i] == b[j] {
          TwiceCounts(b, i, j);
          OnceCounts(a, b[i]);
          assert false;
        }
      }
    }
  }

  lemma TwiceCounts<T>(b: seq<T>, i: nat, j: nat)
    requires i < j < |b| && b[i] == b[j]
    ensures multiset(b)[b[i]] >= 2
  {
    assert b == b[..i] + [b[i]] + b[i + 1..j] + [b[j]] + b[j + 1..];
  }

  lemma {:induction false} OnceCounts<T>(a: seq<T>, x: T)
    requires Distinct(a)
    ensures multiset(a)[x] <= 1
  {
    if a == [] {
    } else {
      var n := |a| - 1;
      assert a == a[..n] + [a[n]];
      OnceCounts(a[..n], x);
      if a[n] == x {
        assert x !in a[..n];
        assert multiset(a[..n])[x] == 0;
      }
    }
  }

  /** The order of the pool is kept: filtering two lists one after the other is filtering both. */
  lemma {:induction false} OthersInOrder(a: seq<NodeId>, b: seq<NodeId>, exclude: Option<NodeId>)
    ensures Others(a + b, exclude) == Others(a, exclude) + Others(b, exclude)
  {
    if b == [] {
      assert a + b == a;
    } else {
      var n := |b| - 1;
      assert (a + b)[..|a + b| - 1] == a + b[..n];
      OthersInOrder(a, b[..n], exclude);
    }
  }

  // ----- The seed decides -----

  /** The seed decides everything: it can bring about any order of a pool of up to 32 nodes,
      in particular select any three of them. */
  lemma EveryOrderReachable<T>(s: seq<T>, t: seq<T>) returns (seed: Seed)
    requires 0 < |s| <= 32 && multiset(s) == multiset(t)
    ensures Shuffled(s, seed, |s| - 1) == t
  {
    assert |s| == |multiset(s)| == |multiset(t)| == |t|;
    assert s[..|s|] == s && t[..|s|] == t && s[|s|..] == t[|s|..];
    seed := SeedFor(s, t, |s| - 1, seq(32, _ => 0));
  }

  /** `s` can still become `t` by swaps from index `i` down. */
  ghost predicate AlikeUpTo<T>(s: seq<T>, t: seq<T>, i: nat) {
    i < |s| == |t| && multiset(s[..i + 1]) == multiset(t[..i + 1]) && s[i + 1..] == t[i + 1..]
  }

  /** Chooses the bytes from index `i` down, so that `s` becomes `t`. */
  lemma {:induction false} SeedFor<T>(s: seq<T>, t: seq<T>, i: nat, rest: Seed) returns (seed: Seed)
    requires AlikeUpTo(s, t, i) && i < 32
    ensures Shuffled(s, seed, i) == t
    ensures forall k :: i < k < 32 ==> seed[k] == rest[k]
    decreases i
  {
    if i == 0 {
      seed := rest;
      AlikeAtZero(s, t);
    } else {
      var j := Wanted(s, t, i);
      SwapPrefix(s, t, i, j);
      seed := SeedFor(Swapped(s, i, j), t, i - 1, WithByte(rest, i, j));
      ShuffledStep(s, seed, i, j);
    }
  }

  lemma AlikeAtZero<T>(s: seq<T>, t: seq<T>)
    requires AlikeUpTo(s, t, 0)
    ensures s == t
  {
    assert s[..1] == [s[0]] && t[..1] == [t[0]];
    assert s[0] in multiset(t[..1]);
    assert s == s[..1] + s[1..] && t == t[..1] + t[1..];
  }

  /** Where the element for position `i` is. */
  lemma Wanted<T>(s: seq<T>, t: seq<T>, i: nat) returns (j: nat)
    requires AlikeUpTo(s, t, i)
    ensures j <= i && s[j] == t[i]
  {
    assert t[..i + 1][i] in multiset(t[..i + 1]);
    assert t[i] in s[..i + 1];
    j :| 0 <= j <= i && s[..i + 1][j] == t[i];
  }

  function WithByte(seed: Seed, i: nat, byte: nat): (r: Seed)
    requires i < 32 && byte < 256
    ensures r[i] == byte && forall k :: 0 <= k < 32 && k != i ==> r[k] == seed[k]
  {
    seed[i := byte]
  }

  lemma ShuffledStep<T>(s: seq<T>, seed: Seed, i: nat, j: nat)
    requires 0 < i < |s| && i < 32 && j <= i && seed[i] == j
    ensures Shuffled(s, seed, i) == Shuffled(Swapped(s, i, j), seed, i - 1)
  {
    PickByte(seed, i);
  }

  /** A byte no larger than its position is the position it picks. */
  lemma PickByte(seed: Seed, i: nat)
    requires i < 32 && seed[i] <= i
    ensures Pick(seed, i) == seed[i]
  {
    assert i % 32 == i;
    SmallRemainder(seed[i], i + 1);
  }

  lemma SmallRemainder(x: nat, k: nat)
    requires x < k
    ensures x % k == x
  {
  }

  /** Swapping the wanted element to the end of the prefix leaves the rest of both alike. */
  lemma SwapPrefix<T>(s: seq<T>, t: seq<T>, i: nat, j: nat)
    requires 0 < i && AlikeUpTo(s, t, i) && j <= i && s[j] == t[i]
    ensures AlikeUpTo(Swapped(s, i, j), t, i - 1)
  {
    var swapped := Swapped(s, i, j);
    assert swapped[..i + 1] == Swapped(s[..i + 1], i, j);
    SwapKeeps(s[..i + 1], i, j);
    SameWithoutLast(swapped[..i + 1], t[..i + 1]);
    assert swapped[..i + 1][..i] == swapped[..i] && t[..i + 1][..i] == t[..i];
    assert swapped[i + 1..] == s[i + 1..];
    assert swapped[i..] == [t[i]] + t[i + 1..] == t[i..];
  }

  lemma SameWithoutLast<T>(a: seq<T>, b: seq<T>)
    requires a != [] && |a| == |b| && a[|a| - 1] == b[|a| - 1] && multiset(a) == multiset(b)
    ensures multiset(a[..|a| - 1]) == multiset(b[..|a| - 1])
  {
    var n := |a| - 1;
    assert a == a[..n] + [a[n]] && b == b[..n] + [a[n]];
    assert multiset(a[..n]) == multiset(a) - multiset{a[n]};
    assert multiset(b[..n]) == multiset(b) - multiset{a[n]};
  }

  /** And which byte decides what: byte `i` modulo `i + 1` says where the node at `i` goes,
      from the last position down. */
  lemma ShuffleExample(seed: Seed)
    requires seed[1] == 4 && seed[2] == 7 && seed[3] == 250
    ensures Shuffled([10, 11, 12, 13], seed, 3) == [13, 10, 11, 12]
  {
    assert Shuffled([10, 11, 12, 13], seed, 3) == Shuffled([10, 11, 13, 12], seed, 2);
    assert Shuffled([10, 11, 13, 12], seed, 2) == Shuffled([10, 13, 11, 12], seed, 1);
    assert Shuffled([10, 13, 11, 12], seed, 1) == Shuffled([13, 10, 11, 12], seed, 0);
  }

  lemma TakeSound<T>(s: seq<T>, n: nat)
    ensures |Take(s, n)| == (if |s| <= n then |s| else n) && Take(s, n) <= s
    ensures forall x :: x in Take(s, n) ==> x in s
    ensures Distinct(s) ==> Distinct(Take(s, n))
  {
  }

  /** Three other nodes, or all there are: eligible, not the excluded one, no repetition. */
  lemma SelectionSound(eligible: seq<NodeId>, seed: Seed, exclude: Option<NodeId>)
    ensures var chosen, n := Selection(eligible, seed, exclude), |Others(eligible, exclude)|;
            && |chosen| == (if n <= 3 then n else 3)
            && (forall x :: x in chosen ==> x in eligible && exclude != Some(x))
            && (Distinct(eligible) ==> Distinct(chosen))
  {
    var pool := Others(eligible, exclude);
    var i := if pool == [] then 0 else |pool| - 1;
    var shuffled := Shuffled(pool, seed, i);
    OthersSound(eligible, exclude);
    ShuffleKeeps(pool, seed, i);
    assert |shuffled| == |pool|;
    SameElements(pool, shuffled);
    TakeSound(shuffled, ATTESTATION_NODE_COUNT - 1);
  }

  // ----- Counting -----

  /** How signatures turn into addresses; what the nodes answer is arbitrary. */
  datatype Setting = Setting(
    signers: map<NodeId, Address>,
    message: Option<Message>,
    recover: (Signature, Message) -> Option<Address>,
    answer: (nat, NodeId) -> Option<Signature>)

  /** The address that the answer at position `k` proves, if it proves the registered one. */
  function Proven(c: Setting, k: nat, target: NodeId): Option<Address> {
    match c.answer(k, target)
    case None => None
    case Some(signature) =>
      if c.message.None? || target !in c.signers then None
      else if c.recover(signature, c.message.value) != Some(c.signers[target]) then None
      else Some(c.signers[target])
  }

  function AllProven(c: Setting, targets: seq<NodeId>): (r: seq<Option<Address>>)
    ensures |r| == |targets| && forall k :: 0 <= k < |r| ==> r[k] == Proven(c, k, targets[k])
  {
    seq(|targets|, k requires 0 <= k < |targets| => Proven(c, k, targets[k]))
  }

  /** The positions that count: each proven address where it first appears. */
  function Counted(proven: seq<Option<Address>>): (r: seq<nat>)
    ensures forall i :: 0 <= i < |r| ==> r[i] < |proven|
  {
    if proven == [] then [] else
    var n := |proven| - 1;
    var before := Counted(proven[..n]);
    if proven[n].Some? && proven[n] !in proven[..n] then before + [n] else before
  }

  ghost predicate Ascending(s: seq<nat>) {
    forall i, j :: 0 <= i < j < |s| ==> s[i] < s[j]
  }

  /** The counting positions come in order. */
  lemma {:induction false} CountedAscending(proven: seq<Option<Address>>)
    ensures Ascending(Counted(proven))
  {
    if proven == [] {
    } else {
      var before := Counted(proven[..|proven| - 1]);
      CountedAscending(proven[..|proven| - 1]);
    }
  }

  /** The first position counts exactly when it is proven, and then it comes first. */
  lemma {:induction false} CountedFirst(proven: seq<Option<Address>>)
    requires proven != []
    ensures proven[0].Some? ==> Counted(proven) != [] && Counted(proven)[0] == 0
    ensures proven[0].None? ==> 0 !in Counted(proven)
  {
    var n := |proven| - 1;
    if n == 0 {
      assert proven[..0] == [];
      assert Counted(proven[..0]) == [];
    } else {
      CountedFirst(proven[..n]);
    }
  }

  ghost function Addresses(proven: seq<Option<Address>>): set<Address> {
    set k | 0 <= k < |proven| && proven[k].Some? :: proven[k].value
  }

  lemma AddressesGrow(proven: seq<Option<Address>>, k: nat)
    requires k < |proven|
    ensures Addresses(proven[..k + 1]) == Addresses(proven[..k]) + if proven[k].Some? then {proven[k].value} else {}
    ensures proven[k].Some? ==> (proven[k] in proven[..k] <==> proven[k].value in Addresses(proven[..k]))
  {
    var longer, shorter := proven[..k + 1], proven[..k];
    assert forall i :: 0 <= i < k ==> longer[i] == shorter[i];
    assert longer[k] == proven[k];
    var extra := if proven[k].Some? then {proven[k].value} else {};
    forall a ensures a in Addresses(longer) <==> a in Addresses(shorter) + extra {
      if a in Addresses(shorter) {
        var i :| 0 <= i < k && shorter[i].Some? && shorter[i].value == a;
        assert longer[i].Some?;
      }
      if proven[k].Some? && a == proven[k].value {
        assert longer[k].Some?;
      }
    }
  }

  /** As many positions count as there are distinct proven addresses. */
  lemma {:induction false} CountedDistinct(proven: seq<Option<Address>>)
    ensures |Counted(proven)| == |Addresses(proven)|
  {
    if proven == [] {
    } else {
      var n := |proven| - 1;
      var before := proven[..n];
      CountedDistinct(before);
      AddressesGrow(proven, n);
      assert proven[..n + 1] == proven;
      if proven[n].Some? && proven[n] !in before {
        assert Counted(proven) == Counted(before) + [n];
        assert |Addresses(before) + {proven[n].value}| == |Addresses(before)| + 1;
      } else {
        assert Counted(proven) == Counted(before);
        assert Addresses(proven) == Addresses(before);
      }
    }
  }

  datatype Result = Result(signatures: seq<Signature>, nodeIds: seq<NodeId>, signers: seq<Address>) {
    predicate IsSufficient() {
      |signatures| >= 3
    }
  }

  datatype Answer = Attested(result: Result) | InsufficientAttestations(got: nat, required: nat)

  /** The result lists, for the counting positions in order, the answer, the node and the address. */
  ghost predicate Lists(r: Result, c: Setting, targets: seq<NodeId>, positions: seq<nat>) {
    && |r.signatures| == |r.nodeIds| == |r.signers| == |positions|
    && forall i :: 0 <= i < |positions| ==>
         && positions[i] < |targets|
         && r.nodeIds[i] == targets[positions[i]]
         && c.answer(positions[i], targets[positions[i]]) == Some(r.signatures[i])
         && Proven(c, positions[i], targets[positions[i]]) == Some(r.signers[i])
  }

  /** Counting positions hold addresses, and no two hold the same. */
  ghost predicate Fresh(proven: seq<Option<Address>>, positions: seq<nat>) {
    && (forall i :: 0 <= i < |positions| ==> positions[i] < |proven| && proven[positions[i]].Some?)
    && (forall i, j :: 0 <= i < j < |positions| ==> proven[positions[i]] != proven[positions[j]])
  }

  lemma {:induction false} CountedFresh(proven: seq<Option<Address>>)
    ensures Fresh(proven, Counted(proven))
  {
    if proven == [] {
    } else {
      var n := |proven| - 1;
      var shorter := proven[..n];
      var before := Counted(shorter);
      CountedFresh(shorter);
      assert forall i :: 0 <= i < |before| ==> shorter[before[i]] == proven[before[i]];
      if proven[n].Some? && proven[n] !in shorter {
        assert Counted(proven) == before + [n];
        forall i | 0 <= i < |before| ensures proven[before[i]] != proven[n] {
          assert shorter[before[i]] in shorter;
        }
      }
    }
  }

  /** The listed signers are pairwise distinct, and each is the registered address of the
      node listed beside it. */
  ghost predicate DistinctRegistered(r: Result, signers: map<NodeId, Address>) {
    && Distinct(r.signers)
    && |r.nodeIds| == |r.signers|
    && forall i :: 0 <= i < |r.signers| ==> r.nodeIds[i] in signers && r.signers[i] == signers[r.nodeIds[i]]
  }

  lemma ListedSigners(r: Result, c: Setting, targets: seq<NodeId>)
    requires Lists(r, c, targets, Counted(AllProven(c, targets)))
    ensures DistinctRegistered(r, c.signers) && |r.signers| == |Addresses(AllProven(c, targets))|
  {
    var proven := AllProven(c, targets);
    var positions := Counted(proven);
    CountedFresh(proven);
    CountedDistinct(proven);
    forall i, j | 0 <= i < j < |r.signers| ensures r.signers[i] != r.signers[j] {
      assert proven[positions[i]] == Some(r.signers[i]) && proven[positions[j]] == Some(r.signers[j]);
    }
  }

  /** The answers that count: as many as there are distinct proven addresses, each by the
      registered key of its node, in order. */
  function Collected(c: Setting, targets: seq<NodeId>): (r: Result)
    ensures Lists(r, c, targets, Counted(AllProven(c, targets)))
    ensures DistinctRegistered(r, c.signers) && |r.signers| == |Addresses(AllProven(c, targets))|
  {
    var proven := AllProven(c, targets);
    var at := Counted(proven);
    CountedFresh(proven);
    var r := Result(seq(|at|, i requires 0 <= i < |at| => c.answer(at[i], targets[at[i]]).value),
                    seq(|at|, i requires 0 <= i < |at| => targets[at[i]]),
                    seq(|at|, i requires 0 <= i < |at| => proven[at[i]].value));
    ListedSigners(r, c, targets);
    r
  }

  /** The listing is unique. */
  lemma ListedOnce(r: Result, r': Result, c: Setting, targets: seq<NodeId>)
    requires Lists(r, c, targets, Counted(AllProven(c, targets)))
    requires Lists(r', c, targets, Counted(AllProven(c, targets)))
    ensures r == r'
  {
    var at := Counted(AllProven(c, targets));
    assert forall i :: 0 <= i < |at| ==> Some(r.signatures[i]) == Some(r'.signatures[i]);
    assert forall i :: 0 <= i < |at| ==> Some(r.signers[i]) == Some(r'.signers[i]);
  }

  method Collect(c: Setting, targets: seq<NodeId>) returns (r: Result)
    ensures r == Collected(c, targets)
  {
    var signatures: seq<Signature>, nodeIds: seq<NodeId>, signers: seq<Address> := [], [], [];
    var seen: set<Address> := {};
    ghost var proven := AllProven(c, targets);
    for k := 0 to |targets|
      invariant seen == Addresses(proven[..k])
      invariant Lists(Result(signatures, nodeIds, signers), c, targets, Counted(proven[..k]))
    {
      var target := targets[k];
      assert proven[..k + 1][..k] == proven[..k];
      assert proven[k] == Proven(c, k, target);
      AddressesGrow(proven, k);
      var answer := c.answer(k, target);
      if answer.None? { continue; }
      if c.message.None? { continue; }
      if target !in c.signers { continue; }
      var recovered := c.recover(answer.value, c.message.value);
      if recovered.None? || recovered.value != c.signers[target] { continue; }
      if recovered.value in seen { continue; }
      seen := seen + {recovered.value};
      signatures := signatures + [answer.value];
      nodeIds := nodeIds + [target];
      signers := signers + [recovered.value];
    }
    assert proven[..|targets|] == proven;
    r := Result(signatures, nodeIds, signers);
    ListedOnce(r, Collected(c, targets), c, targets);
  }

  function Targets(eligible: seq<NodeId>, seed: Seed, lead: NodeId): seq<NodeId> {
    [lead] + Selection(eligible, seed, Some(lead))
  }

  /** Succeeds exactly when at least three distinct registered addresses are proven. */
  method CoordinateAttestation(c: Setting, eligible: seq<NodeId>, seed: Seed, lead: NodeId) returns (answer: Answer)
    ensures var targets := Targets(eligible, seed, lead);
            var count := |Addresses(AllProven(c, targets))|;
            && (answer.Attested? <==> count >= REQUIRED_SIGNATURES)
            && (answer.Attested? ==> answer.result == Collected(c, targets))
            && (answer.Attested? ==> DistinctRegistered(answer.result, c.signers) && |answer.result.signers| == count)
            && (!answer.Attested? ==> answer == InsufficientAttestations(count, REQUIRED_SIGNATURES))
  {
    var others := SelectNodes(eligible, seed, Some(lead));
    var result := Collect(c, [lead] + others);
    if result.IsSufficient() {
      answer := Attested(result);
    } else {
      answer := InsufficientAttestations(|result.signatures|, REQUIRED_SIGNATURES);
    }
  }

  // ----- Byzantine quorum -----

  /** The nodes behind the counting answers. */
  ghost function Nodes(c: Setting, targets: seq<NodeId>): set<NodeId> {
    NodesAt(targets, Counted(AllProven(c, targets)))
  }

  /** A target that signs the first proof's hash with its registered key. */
  ghost predicate Honest(c: Setting, targets: seq<NodeId>, k: nat)
    requires k < |targets|
  {
    && c.message.Some? && targets[k] in c.signers
    && c.answer(k, targets[k]).Some?
    && c.recover(c.answer(k, targets[k]).value, c.message.value) == Some(c.signers[targets[k]])
  }

  ghost predicate DistinctSigners(signers: map<NodeId, Address>, targets: seq<NodeId>) {
    forall i, j :: 0 <= i < j < |targets| && targets[i] in signers && targets[j] in signers ==>
                     signers[targets[i]] != signers[targets[j]]
  }

  /** The nodes at some positions of the targets. */
  ghost function NodesAt(targets: seq<NodeId>, positions: seq<nat>): set<NodeId>
    requires forall i :: 0 <= i < |positions| ==> positions[i] < |targets|
  {
    set i | 0 <= i < |positions| :: targets[positions[i]]
  }

  lemma {:induction false} PositionsSize(positions: seq<nat>, targets: seq<NodeId>)
    requires Distinct(targets) && Ascending(positions) && forall i :: 0 <= i < |positions| ==> positions[i] < |targets|
    ensures |NodesAt(targets, positions)| == |positions|
  {
    if positions == [] {
    } else {
      var n := |positions| - 1;
      var before, last := positions[..n], targets[positions[n]];
      assert forall i :: 0 <= i < n ==> before[i] == positions[i];
      PositionsSize(before, targets);
      assert NodesAt(targets, positions) == NodesAt(targets, before) + {last};
      assert last !in NodesAt(targets, before);
    }
  }

  ghost function ToSet(s: seq<NodeId>): set<NodeId> {
    set i | 0 <= i < |s| :: s[i]
  }

  lemma {:induction false} ToSetSize(s: seq<NodeId>)
    ensures |ToSet(s)| <= |s|
  {
    if s == [] {
    } else {
      var n := |s| - 1;
      var before := s[..n];
      ToSetSize(before);
      assert forall i :: 0 <= i < n ==> before[i] == s[i];
      assert ToSet(s) == ToSet(before) + {s[n]};
    }
  }

  /** With at least three other eligible nodes the attesters are four distinct nodes. */
  lemma FourTargets(eligible: seq<NodeId>, seed: Seed, lead: NodeId)
    requires Distinct(eligible) && |Others(eligible, Some(lead))| >= 3
    ensures |Targets(eligible, seed, lead)| == 4 && Distinct(Targets(eligible, seed, lead))
  {
    SelectionSound(eligible, seed, Some(lead));
  }

  /** Whatever the fourth target answers, three honest ones of four distinct targets with
      distinct registered addresses carry the attestation. */
  lemma ThreeHonestSuffice(c: Setting, targets: seq<NodeId>, faulty: nat)
    requires |targets| == 4 && DistinctSigners(c.signers, targets)
    requires forall k :: 0 <= k < 4 && k != faulty ==> Honest(c, targets, k)
    ensures |Addresses(AllProven(c, targets))| >= REQUIRED_SIGNATURES
  {
    var proven := AllProven(c, targets);
    var x, y, z := (if faulty == 0 then 1 else 0), (if faulty <= 1 then 2 else 1), (if faulty <= 2 then 3 else 2);
    assert Honest(c, targets, x) && Honest(c, targets, y) && Honest(c, targets, z);
    var a, b, d := proven[x].value, proven[y].value, proven[z].value;
    assert {a, b, d} <= Addresses(proven);
    assert |{a, b, d}| == 3;
    SubsetSize({a, b, d}, Addresses(proven));
  }

  /** Hence a pool of at least four nodes with distinct keys tolerates one faulty attester,
      whichever nodes the seed selects. */
  lemma OneFaultTolerated(c: Setting, eligible: seq<NodeId>, seed: Seed, lead: NodeId, faulty: nat)
    requires Distinct(eligible) && |Others(eligible, Some(lead))| >= 3
    requires var targets := Targets(eligible, seed, lead);
             && DistinctSigners(c.signers, targets)
             && forall k :: 0 <= k < |targets| && k != faulty ==> Honest(c, targets, k)
    ensures |Addresses(AllProven(c, Targets(eligible, seed, lead)))| >= REQUIRED_SIGNATURES
  {
    FourTargets(eligible, seed, lead);
    ThreeHonestSuffice(c, Targets(eligible, seed, lead), faulty);
  }

  lemma NodesFacts(c: Setting, targets: seq<NodeId>)
    requires Distinct(targets)
    ensures |Nodes(c, targets)| == |Addresses(AllProven(c, targets))|
    ensures Nodes(c, targets) <= ToSet(targets)
  {
    var proven := AllProven(c, targets);
    CountedDistinct(proven);
    CountedAscending(proven);
    PositionsSize(Counted(proven), targets);
  }

  /** Of a sufficient attestation at least two nodes are not the faulty one, and any two
      sufficient attestations by the same four targets, whatever was answered, have at
      least two nodes in common. */
  lemma QuorumsIntersect(c: Setting, c': Setting, targets: seq<NodeId>, faulty: NodeId)
    requires |targets| == 4 && Distinct(targets)
    requires |Addresses(AllProven(c, targets))| >= REQUIRED_SIGNATURES
    requires |Addresses(AllProven(c', targets))| >= REQUIRED_SIGNATURES
    ensures |Nodes(c, targets) - {faulty}| >= 2
    ensures |Nodes(c, targets) * Nodes(c', targets)| >= 2
  {
    NodesFacts(c, targets);
    NodesFacts(c', targets);
    ToSetSize(targets);
    SetsIntersect(Nodes(c, targets), Nodes(c', targets), ToSet(targets), faulty);
  }

  lemma SetsIntersect(a: set<NodeId>, b: set<NodeId>, all: set<NodeId>, faulty: NodeId)
    requires a <= all && b <= all && |all| <= 4 && |a| >= 3 && |b| >= 3
    ensures |a - {faulty}| >= 2 && |a * b| >= 2
  {
    SubsetSize(a + b, all);
    assert |a + b| == |a| + |b| - |a * b|;
    if faulty in a {
      assert a == (a - {faulty}) + {faulty};
    } else {
      assert a - {faulty} == a;
    }
  }

  /** The assigned node heads the result exactly when its own answer was proven; the
      documentation has it there always. */
  lemma AssignedFirst(c: Setting, eligible: seq<NodeId>, seed: Seed, lead: NodeId)
    ensures var result := Collected(c, Targets(eligible, seed, lead));
            result.nodeIds != [] ==> (result.nodeIds[0] == lead <==> Proven(c, 0, lead).Some?)
  {
    var targets := Targets(eligible, seed, lead);
    var proven := AllProven(c, targets);
    var positions := Counted(proven);
    SelectionSound(eligible, seed, Some(lead));
    CountedFirst(proven);
    if positions != [] {
      assert positions[0] in positions;
      if positions[0] > 0 {
        assert targets[positions[0]] == Selection(eligible, seed, Some(lead))[positions[0] - 1];
      }
    }
  }

  /** It fails whenever the assigned node is the one that does not answer: the other three
      carry the attestation, and the node at index 0 is another. */
  lemma SilentLeadNotFirst(c: Setting, eligible: seq<NodeId>, seed: Seed, lead: NodeId)
    requires Distinct(eligible) && |Others(eligible, Some(lead))| >= 3
    requires var targets := Targets(eligible, seed, lead);
             && DistinctSigners(c.signers, targets)
             && forall k :: 0 < k < |targets| ==> Honest(c, targets, k)
    requires c.answer(0, lead).None?
    ensures var result := Collected(c, Targets(eligible, seed, lead));
            result.IsSufficient() && result.nodeIds[0] != lead
  {
    OneFaultTolerated(c, eligible, seed, lead, 0);
    AssignedFirst(c, eligible, seed, lead);
  }

  /** For example: nodes 0 to 3 with addresses 10 to 13, node 0 assigned and silent. */
  function SilentLead(): Setting {
    Setting(map[0 := 10, 1 := 11, 2 := 12, 3 := 13], Some(0),
            (signature, _) => Some(signature),
            (_, node) => if node == 0 then None else Some(10 + node))
  }

  lemma SilentLeadExample(seed: Seed)
    ensures var result := Collected(SilentLead(), Targets([0, 1, 2, 3], seed, 0));
            result.IsSufficient() && result.nodeIds[0] != 0
  {
    var eligible: seq<NodeId> := [0, 1, 2, 3];
    FourExample();
    FourTargets(eligible, seed, 0);
    SelectionSound(eligible, seed, Some(0));
    SilentLeadSetting(Targets(eligible, seed, 0));
    SilentLeadNotFirst(SilentLead(), eligible, seed, 0);
  }

  lemma FourExample()
    ensures Others([0, 1, 2, 3], Some(0)) == [1, 2, 3]
  {
    var all: seq<NodeId> := [0, 1, 2, 3];
    assert all[..3] == [0, 1, 2] && [0, 1, 2][..2] == [0, 1] && [0, 1][..1] == [0] && [0][..0] == [];
  }

  lemma SilentLeadSetting(targets: seq<NodeId>)
    requires Distinct(targets) && targets != [] && targets[0] == 0
    requires forall k :: 0 <= k < |targets| ==> targets[k] in [0, 1, 2, 3]
    ensures DistinctSigners(SilentLead().signers, targets)
    ensures forall k :: 0 < k < |targets| ==> Honest(SilentLead(), targets, k)
  {
    assert forall node :: node in SilentLead().signers ==> SilentLead().signers[node] == 10 + node;
  }
}
