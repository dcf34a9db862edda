/** Small things that the components share: optional values, chains, machine ranges, and facts about
    sets and products. */
module Basics {

  datatype Option<+T> = None | Some(value: T)

  /** The chains that settle sessions and hold stakes. */
  datatype Chain = Ethereum | Polygon

  const MAX_I64: nat := 0x7FFF_FFFF_FFFF_FFFF
  const MAX_U64: nat := 0xFFFF_FFFF_FFFF_FFFF
  const MAX_U128: nat := 0xFFFF_FFFF_FFFF_FFFF_FFFF_FFFF_FFFF_FFFF

  /** The true sum, or the maximum where that is smaller. */
  function SaturatingAdd(a: nat, b: nat, max: nat): (r: nat)
    ensures r <= max && r <= a + b && (r == max || r == a + b)
  {
    if a + b <= max then a + b else max
  }

  function SaturatingMul(a: nat, b: nat, max: nat): (r: nat)
    ensures r <= max && r <= a * b && (r == max || r == a * b)
  {
    if a * b <= max then a * b else max
  }

  ghost predicate Distinct<T>(s: seq<T>) {
    forall i, j :: 0 <= i < j < |s| ==> s[i] != s[j]
  }

  lemma {:induction false} SubsetSize<T>(a: set<T>, b: set<T>)
    requires a <= b
    ensures |a| <= |b|
  {
    if a == {} {
    } else {
      var x :| x in a;
      SubsetSize(a - {x}, b - {x});
    }
  }

  lemma MulMonotone(a: nat, b: nat, m: nat, n: nat)
    requires a <= b && m <= n
    ensures a * m <= b * n
  {
    assert a * m <= b * m <= b * n;
  }

  /** A multiple above -k has a factor that is not negative. */
  lemma FactorSign(k: nat, x: int)
    requires k > 0 && k * x + k > 0
    ensures x >= 0
  {
  }
}
