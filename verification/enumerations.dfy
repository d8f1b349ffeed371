/** Enumerations whose members are not part of this model (`Amount`,
    `AirDefenseRange`, `UnitFamily`), and the settings keys built from member names.

    Such an enumeration is its list of member names in ordinal order: member `i`
    is `(E)i` and `members[i]` is `((E)i).ToString()`. C# member names are
    identifiers, so they are non-empty, contain no dot, and are pairwise distinct.
 */
module Enumerations {
  import opened Amounts

  datatype Enumeration = Enumeration(members: seq<string>) {

    /** `Toolbox.EnumCount<E>()`. */
    function Count(): nat {
      |members|
    }

    predicate WellFormed() {
      && (forall i :: 0 <= i < |members| ==> IsMemberName(members[i]))
      && (forall i, j :: 0 <= i < j < |members| ==> members[i] != members[j])
    }
  }

  /** The three enumerations `DatabaseCommon` sizes its tables by, besides `AmountN`. */
  datatype Catalogue = Catalogue(amount: Enumeration, airDefenseRange: Enumeration, unitFamily: Enumeration)

  predicate IsMemberName(s: string) {
    |s| > 0 && '.' !in s
  }

  /** The key `$"{member}.{suffix}"`. */
  function MemberKey(member: string, suffix: string): string {
    member + "." + suffix
  }

  /** The key `$"{prefix}.{member}"`. */
  function PrefixedKey(prefix: string, member: string): string {
    prefix + "." + member
  }

  /** With a fixed suffix, the key determines the member. */
  lemma {:induction false} MemberKeyInjective(a: string, b: string, suffix: string)
    ensures MemberKey(a, suffix) == MemberKey(b, suffix) ==> a == b
  {
    if MemberKey(a, suffix) == MemberKey(b, suffix) {
      var k := MemberKey(a, suffix);
      assert |a| == |b|;
      assert a == k[..|a|];
      assert b == k[..|b|];
    }
  }

  /** With a fixed prefix, the key determines the member. */
  lemma {:induction false} PrefixedKeyInjective(prefix: string, a: string, b: string)
    ensures PrefixedKey(prefix, a) == PrefixedKey(prefix, b) ==> a == b
  {
    if PrefixedKey(prefix, a) == PrefixedKey(prefix, b) {
      var k := PrefixedKey(prefix, a);
      var n := |prefix| + 1;
      assert a == k[n..];
      assert b == k[n..];
    }
  }

  /** Keys of two members with two different suffixes never coincide: the first
      dot of the key ends the member name. */
  lemma {:induction false} MemberKeysOfDistinctSuffixesDiffer(a: string, b: string, s: string, t: string)
    requires IsMemberName(a) && IsMemberName(b)
    requires s != t
    ensures MemberKey(a, s) != MemberKey(b, t)
  {
    var k, l := MemberKey(a, s), MemberKey(b, t);
    if |a| < |b| {
      assert k[|a|] == '.' && l[|a|] == b[|a|];
    } else if |b| < |a| {
      assert l[|b|] == '.' && k[|b|] == a[|b|];
    } else if |s| == |t| {
      var m :| 0 <= m < |s| && s[m] != t[m];
      assert k[|a| + 1 + m] == s[m] && l[|b| + 1 + m] == t[m];
    } else {
      assert |k| != |l|;
    }
  }

  /** In a well-formed enumeration, distinct members get distinct keys under one suffix. */
  lemma DistinctMembersDistinctKeys(e: Enumeration, i: nat, j: nat, suffix: string)
    requires e.WellFormed()
    requires i < e.Count() && j < e.Count() && i != j
    ensures MemberKey(e.members[i], suffix) != MemberKey(e.members[j], suffix)
  {
    MemberKeyInjective(e.members[i], e.members[j], suffix);
  }

  /** Distinct `AmountN` levels get distinct prefixed keys. */
  lemma DistinctLevelsDistinctKeys(prefix: string, a: AmountN, b: AmountN)
    requires a != b
    ensures PrefixedKey(prefix, Name(a)) != PrefixedKey(prefix, Name(b))
  {
    PrefixedKeyInjective(prefix, Name(a), Name(b));
    NamesDistinct(a, b);
  }
}
