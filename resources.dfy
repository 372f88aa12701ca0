// The resource directory page (pages/ResourcesPage.tsx): the catalogue split
// into helplines and guides by two order-preserving filters, and the badge
// style of a resource card.
module ResourcesPage {
  import opened Types
  import opened Constants

  /** Array.prototype.filter with the test `r.category === c`. */
  function FilterCategory(s: seq<Resource>, c: Category): (r: seq<Resource>)
    ensures |r| <= |s|
    ensures forall i :: 0 <= i < |r| ==> r[i].category == c
  {
    if s == [] then []
    else if s[0].category == c then [s[0]] + FilterCategory(s[1..], c)
    else FilterCategory(s[1..], c)
  }

  /** r can be obtained from s by deleting elements: the order of s is kept. */
  predicate IsSubsequence<T(==)>(r: seq<T>, s: seq<T>)
  {
    if r == [] then true
    else if s == [] then false
    else (r[0] == s[0] && IsSubsequence(r[1..], s[1..])) || IsSubsequence(r, s[1..])
  }

  /** The helplines section: the catalogue's helplines, in catalogue order. */
  function Helplines(data: seq<Resource>): (r: seq<Resource>)
    ensures forall i :: 0 <= i < |r| ==> r[i].category == Helpline
    ensures IsSubsequence(r, data)
  {
    FilterIsSubsequence(data, Helpline);
    FilterCategory(data, Helpline)
  }

  /** The guides section: the catalogue's guides, in catalogue order. */
  function Guides(data: seq<Resource>): (r: seq<Resource>)
    ensures forall i :: 0 <= i < |r| ==> r[i].category == Guide
    ensures IsSubsequence(r, data)
  {
    FilterIsSubsequence(data, Guide);
    FilterCategory(data, Guide)
  }

  /** The filter keeps the order of the catalogue. */
  lemma {:induction false} FilterIsSubsequence(s: seq<Resource>, c: Category)
    ensures IsSubsequence(FilterCategory(s, c), s)
  {
    if s != [] {
      FilterIsSubsequence(s[1..], c);
    }
  }

  /** One step of the filter, taken at position k of s. */
  lemma FilterStep(s: seq<Resource>, k: nat, c: Category)
    requires k < |s|
    ensures FilterCategory(s[k..], c)
         == (if s[k].category == c then [s[k]] else []) + FilterCategory(s[k + 1..], c)
  {
    assert s[k..][1..] == s[k + 1..];
  }

  /** The multiplicity of each resource in the filter: all of it if the category matches, none otherwise. */
  lemma {:induction false} FilterMultiplicity(s: seq<Resource>, c: Category, x: Resource)
    ensures multiset(FilterCategory(s, c))[x] == if x.category == c then multiset(s)[x] else 0
  {
    if s != [] {
      FilterMultiplicity(s[1..], c, x);
      assert s == [s[0]] + s[1..];
    }
  }

  /** A resource is in the filter exactly when it is in s and has category c. */
  lemma FilterMembership(s: seq<Resource>, c: Category, x: Resource)
    ensures x in FilterCategory(s, c) <==> x in s && x.category == c
  {
    FilterMultiplicity(s, c, x);
  }

  /**
   * The two filters partition the catalogue: every resource lands in exactly
   * one of them, with its multiplicity, and the lengths add up.
   */
  lemma {:induction false} HelplinesGuidesPartition(s: seq<Resource>)
    ensures multiset(Helplines(s)) + multiset(Guides(s)) == multiset(s)
    ensures |Helplines(s)| + |Guides(s)| == |s|
    ensures IsSubsequence(Helplines(s), s) && IsSubsequence(Guides(s), s)
  {
    forall x ensures (multiset(Helplines(s)) + multiset(Guides(s)))[x] == multiset(s)[x] {
      FilterMultiplicity(s, Helpline, x);
      FilterMultiplicity(s, Guide, x);
    }
    assert multiset(Helplines(s)) + multiset(Guides(s)) == multiset(s);
    assert |multiset(Helplines(s)) + multiset(Guides(s))| == |multiset(s)|;
    FilterIsSubsequence(s, Helpline);
    FilterIsSubsequence(s, Guide);
  }

  /** Seven categories following the shipped pattern: helpline, helpline, helpline, guide, guide, helpline, guide. */
  predicate ShippedPattern(d: seq<Resource>)
  {
    && |d| == 7
    && d[0].category == Helpline && d[1].category == Helpline && d[2].category == Helpline
    && d[3].category == Guide && d[4].category == Guide
    && d[5].category == Helpline && d[6].category == Guide
  }

  /** The helplines filter over the shipped pattern, one step at a time from the end. */
  lemma HelplinesOfSeven(d: seq<Resource>)
    requires ShippedPattern(d)
    ensures FilterCategory(d, Helpline) == [d[0], d[1], d[2], d[5]]
  {
    assert d[7..] == [];
    FilterStep(d, 6, Helpline);
    assert FilterCategory(d[6..], Helpline) == [];
    FilterStep(d, 5, Helpline);
    assert FilterCategory(d[5..], Helpline) == [d[5]];
    FilterStep(d, 4, Helpline);
    assert FilterCategory(d[4..], Helpline) == [d[5]];
    FilterStep(d, 3, Helpline);
    assert FilterCategory(d[3..], Helpline) == [d[5]];
    FilterStep(d, 2, Helpline);
    assert [d[2]] + [d[5]] == [d[2], d[5]];
    assert FilterCategory(d[2..], Helpline) == [d[2], d[5]];
    FilterStep(d, 1, Helpline);
    assert [d[1]] + [d[2], d[5]] == [d[1], d[2], d[5]];
    assert FilterCategory(d[1..], Helpline) == [d[1], d[2], d[5]];
    FilterStep(d, 0, Helpline);
    assert [d[0]] + [d[1], d[2], d[5]] == [d[0], d[1], d[2], d[5]];
    assert d[0..] == d;
  }

  /** The guides filter over the shipped pattern, one step at a time from the end. */
  lemma GuidesOfSeven(d: seq<Resource>)
    requires ShippedPattern(d)
    ensures FilterCategory(d, Guide) == [d[3], d[4], d[6]]
  {
    assert d[7..] == [];
    FilterStep(d, 6, Guide);
    assert FilterCategory(d[6..], Guide) == [d[6]];
    FilterStep(d, 5, Guide);
    assert FilterCategory(d[5..], Guide) == [d[6]];
    FilterStep(d, 4, Guide);
    assert FilterCategory(d[4..], Guide) == [d[4], d[6]];
    FilterStep(d, 3, Guide);
    assert FilterCategory(d[3..], Guide) == [d[3], d[4], d[6]];
    FilterStep(d, 2, Guide);
    assert FilterCategory(d[2..], Guide) == [d[3], d[4], d[6]];
    FilterStep(d, 1, Guide);
    assert FilterCategory(d[1..], Guide) == [d[3], d[4], d[6]];
    FilterStep(d, 0, Guide);
    assert d[0..] == d;
  }

  /** For the shipped catalogue: four helplines and three guides, in catalogue order. */
  lemma ShippedPartition()
    ensures Helplines(ResourcesData) == [ResourcesData[0], ResourcesData[1], ResourcesData[2], ResourcesData[5]]
    ensures Guides(ResourcesData) == [ResourcesData[3], ResourcesData[4], ResourcesData[6]]
    ensures |Helplines(ResourcesData)| == 4 && |Guides(ResourcesData)| == 3
  {
    assert ShippedPattern(ResourcesData);
    HelplinesOfSeven(ResourcesData);
    GuidesOfSeven(ResourcesData);
  }

  /** The two badge styles of a resource card. */
  datatype Badge = PurpleBadge | TealBadge

  /** The badge depends only on whether the category is Helpline. */
  function BadgeFor(r: Resource): (b: Badge)
    ensures b == PurpleBadge <==> r.category == Helpline
  {
    if r.category == Helpline then PurpleBadge else TealBadge
  }

  /** Every card in the helplines list is purple and every card in the guides list teal. */
  lemma BadgesFollowSections(s: seq<Resource>)
    ensures forall r :: r in Helplines(s) ==> BadgeFor(r) == PurpleBadge
    ensures forall r :: r in Guides(s) ==> BadgeFor(r) == TealBadge
  {
  }
}
