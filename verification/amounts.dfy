/** The `AmountN` enumeration: a relative amount from "very low" to "very high",
    preceded by a `None` member meaning "nothing at all".

    A C# enum member is its ordinal: `(AmountN)i` is the member declared in
    position `i` and `ToString()` is its declared name. `None` is written
    `AmountN.None` to keep it apart from `Option.None`.
 */
module Amounts {

  datatype AmountN = None | VeryLow | Low | Average | High | VeryHigh

  /** `Toolbox.EnumCount<AmountN>()`. */
  const AmountNCount: nat := 6

  /** The members in declaration (ordinal) order. */
  const AllAmountN: seq<AmountN> := [AmountN.None, VeryLow, Low, Average, High, VeryHigh]

  /** The integer value of a member, `(int)a`. */
  function Ordinal(a: AmountN): (i: nat)
    ensures i < AmountNCount
    ensures i < |AllAmountN| && AllAmountN[i] == a
  {
    match a
    case None => 0
    case VeryLow => 1
    case Low => 2
    case Average => 3
    case High => 4
    case VeryHigh => 5
  }

  /** The cast `(AmountN)i` for an ordinal in range. */
  function FromOrdinal(i: nat): (a: AmountN)
    requires i < AmountNCount
    ensures Ordinal(a) == i
  {
    AllAmountN[i]
  }

  /** `a.ToString()`: the declared member name. */
  function Name(a: AmountN): (s: string)
    ensures |s| > 0 && '.' !in s
  {
    match a
    case None => "None"
    case VeryLow => "VeryLow"
    case Low => "Low"
    case Average => "Average"
    case High => "High"
    case VeryHigh => "VeryHigh"
  }

  /** `a` denotes a strictly smaller amount than `b`. */
  predicate Below(a: AmountN, b: AmountN) {
    Ordinal(a) < Ordinal(b)
  }

  /** There are exactly six members, listed once each, in the declared order. */
  lemma ExactlySixMembers()
    ensures |AllAmountN| == AmountNCount == 6
    ensures forall a: AmountN :: a in AllAmountN
    ensures forall i, j :: 0 <= i < j < |AllAmountN| ==> AllAmountN[i] != AllAmountN[j]
    ensures AllAmountN == [AmountN.None, VeryLow, Low, Average, High, VeryHigh]
  {
    forall a: AmountN ensures a in AllAmountN {
      assert AllAmountN[Ordinal(a)] == a;
    }
  }

  /** The cast from ordinals and the ordinal of a member are inverse bijections
      between [0, 6) and the members. */
  lemma OrdinalBijection()
    ensures forall a: AmountN :: FromOrdinal(Ordinal(a)) == a
    ensures forall i: nat :: i < AmountNCount ==> Ordinal(FromOrdinal(i)) == i
    ensures forall i: nat, j: nat :: i < AmountNCount && j < AmountNCount && FromOrdinal(i) == FromOrdinal(j) ==> i == j
  {
  }

  /** Ordinal 0 is `None` and nothing else: testing an index for 0 tests for `None`. */
  lemma NoneIsOrdinalZero(a: AmountN)
    ensures Ordinal(a) == 0 <==> a == AmountN.None
    ensures FromOrdinal(0) == AmountN.None
  {
  }

  /** Ordinal order is magnitude order: None < VeryLow < Low < Average < High < VeryHigh. */
  lemma OrdinalOrderIsMagnitudeOrder()
    ensures Below(AmountN.None, VeryLow) && Below(VeryLow, Low) && Below(Low, Average)
    ensures Below(Average, High) && Below(High, VeryHigh)
    ensures forall a: AmountN :: a != AmountN.None ==> Below(AmountN.None, a)
    ensures forall a: AmountN :: !Below(a, AmountN.None)
  {
  }

  /** Distinct members have distinct names. */
  lemma NamesDistinct(a: AmountN, b: AmountN)
    ensures Name(a) == Name(b) ==> a == b
  {
  }
}
