/**
  The tag and string-list helpers: tags are ordered lists of (scope, value) pairs, as NSX-T keeps them.
  Each loop of the source is a method here, proved against the function of the same meaning;
  the lemmas say what the protocol relies on.
 */
module Tags {
  import opened Basics

  datatype Tag = Tag(scope: string, tag: string)

  /** The value of the first tag with the given scope. */
  function First(items: seq<Tag>, scope: string): Option<string> {
    if items == [] then None
    else if items[0].scope == scope then Some(items[0].tag)
    else First(items[1..], scope)
  }

  ghost predicate DistinctScopes(tags: seq<Tag>) {
    forall i, j :: 0 <= i < j < |tags| ==> tags[i].scope != tags[j].scope
  }

  predicate ContainsTags(items: seq<Tag>, tags: seq<Tag>) {
    forall i :: 0 <= i < |tags| ==> First(items, tags[i].scope) == Some(tags[i].tag)
  }

  /** The tags of b whose scope does not occur in a, in order. */
  function Foreign(a: seq<Tag>, b: seq<Tag>): seq<Tag> {
    if b == [] then []
    else (if First(a, b[0].scope).None? then [b[0]] else []) + Foreign(a, b[1..])
  }

  function MergeTags(a: seq<Tag>, b: seq<Tag>): seq<Tag> {
    a + Foreign(a, b)
  }

  function TagsToMap(tags: seq<Tag>): map<string, string> {
    if tags == [] then map[]
    else TagsToMap(tags[..|tags| - 1])[tags[|tags| - 1].scope := tags[|tags| - 1].tag]
  }

  // ---- the loops of the source ----

  /** Scans for the first tag of a scope: the inner loop of containsTags and of mergeTags. */
  method ScanScope(items: seq<Tag>, scope: string) returns (r: Option<string>)
    ensures r == First(items, scope)
  {
    for i := 0 to |items|
      invariant First(items, scope) == First(items[i..], scope)
    {
      if items[i].scope == scope {
        return Some(items[i].tag);
      }
    }
    return None;
  }

  method ContainsTagsLoop(itemTags: seq<Tag>, tags: seq<Tag>) returns (r: bool)
    ensures r == ContainsTags(itemTags, tags)
  {
    for i := 0 to |tags|
      invariant forall j :: 0 <= j < i ==> First(itemTags, tags[j].scope) == Some(tags[j].tag)
    {
      var found := ScanScope(itemTags, tags[i].scope);
      if found != Some(tags[i].tag) {
        return false;
      }
    }
    return true;
  }

  method MergeTagsLoop(a: seq<Tag>, b: seq<Tag>) returns (result: seq<Tag>)
    ensures result == MergeTags(a, b)
  {
    result := a;
    for i := 0 to |b|
      invariant result + Foreign(a, b[i..]) == MergeTags(a, b)
    {
      var found := ScanScope(a, b[i].scope);
      if found.None? {
        result := result + [b[i]];
      }
    }
  }

  method TagsToMapLoop(tags: seq<Tag>) returns (tagmap: map<string, string>)
    ensures tagmap == TagsToMap(tags)
  {
    tagmap := map[];
    for i := 0 to |tags|
      invariant tagmap == TagsToMap(tags[..i])
    {
      assert tags[..i + 1][..i] == tags[..i];
      tagmap := tagmap[tags[i].scope := tags[i].tag];
    }
    assert tags[..|tags|] == tags;
  }

  // ---- what they mean ----

  lemma {:induction false} FirstIsFirst(items: seq<Tag>, scope: string)
    ensures First(items, scope).None? <==> forall i :: 0 <= i < |items| ==> items[i].scope != scope
    ensures First(items, scope).Some? ==>
              exists i :: 0 <= i < |items| && items[i] == Tag(scope, First(items, scope).value)
                          && forall j :: 0 <= j < i ==> items[j].scope != scope
  {
    if items == [] {
    } else if items[0].scope == scope {
      assert items[0] == Tag(scope, First(items, scope).value);
    } else {
      FirstIsFirst(items[1..], scope);
      if First(items, scope).Some? {
        var i :| 0 <= i < |items[1..]| && items[1..][i] == Tag(scope, First(items, scope).value)
                 && forall j :: 0 <= j < i ==> items[1..][j].scope != scope;
        assert items[i + 1] == Tag(scope, First(items, scope).value);
      } else {
        forall i | 0 <= i < |items| ensures items[i].scope != scope {
          if i > 0 { assert items[i] == items[1..][i - 1]; }
        }
      }
    }
  }

  lemma {:induction false} FirstOfConcat(a: seq<Tag>, b: seq<Tag>, scope: string)
    ensures First(a + b, scope) == if First(a, scope).Some? then First(a, scope) else First(b, scope)
  {
    if a == [] {
      assert a + b == b;
    } else {
      assert (a + b)[1..] == a[1..] + b;
      FirstOfConcat(a[1..], b, scope);
    }
  }

  lemma {:induction false} FirstOfForeign(a: seq<Tag>, b: seq<Tag>, scope: string)
    requires First(a, scope).None?
    ensures First(Foreign(a, b), scope) == First(b, scope)
  {
    if b != [] {
      FirstOfForeign(a, b[1..], scope);
      FirstOfConcat(if First(a, b[0].scope).None? then [b[0]] else [], Foreign(a, b[1..]), scope);
    }
  }

  lemma {:induction false} DistinctFirst(tags: seq<Tag>, i: nat)
    requires DistinctScopes(tags) && i < |tags|
    ensures First(tags, tags[i].scope) == Some(tags[i].tag)
  {
    if i > 0 {
      DistinctFirst(tags[1..], i - 1);
    }
  }

  /** What a merged list answers for each scope: the desired value first, the old one otherwise. */
  lemma MergeLookup(a: seq<Tag>, b: seq<Tag>, scope: string)
    ensures First(MergeTags(a, b), scope) == if First(a, scope).Some? then First(a, scope) else First(b, scope)
  {
    FirstOfConcat(a, Foreign(a, b), scope);
    if First(a, scope).None? { FirstOfForeign(a, b, scope); }
  }

  /** Tags survive every patch: the patched list contains the desired tags. */
  lemma MergeContains(a: seq<Tag>, b: seq<Tag>)
    requires DistinctScopes(a)
    ensures ContainsTags(MergeTags(a, b), a)
  {
    forall i | 0 <= i < |a| ensures First(MergeTags(a, b), a[i].scope) == Some(a[i].tag) {
      DistinctFirst(a, i);
      MergeLookup(a, b, a[i].scope);
    }
  }

  lemma {:induction false} ForeignOfForeign(a: seq<Tag>, b: seq<Tag>)
    ensures Foreign(a, Foreign(a, b)) == Foreign(a, b)
  {
    if b != [] {
      ForeignOfForeign(a, b[1..]);
      if First(a, b[0].scope).None? {
        var f := [b[0]] + Foreign(a, b[1..]);
        assert Foreign(a, b) == f && f[0] == b[0] && f[1..] == Foreign(a, b[1..]);
        assert Foreign(a, f) == [b[0]] + Foreign(a, f[1..]);
      } else {
        assert Foreign(a, b) == Foreign(a, b[1..]);
      }
    }
  }

  lemma {:induction false} ForeignOfConcat(a: seq<Tag>, b: seq<Tag>, c: seq<Tag>)
    ensures Foreign(a, b + c) == Foreign(a, b) + Foreign(a, c)
  {
    if b == [] {
      assert b + c == c;
    } else {
      assert (b + c)[1..] == b[1..] + c;
      ForeignOfConcat(a, b[1..], c);
    }
  }

  lemma {:induction false} NothingForeignInSelf(a: seq<Tag>, b: seq<Tag>)
    requires forall i :: 0 <= i < |b| ==> b[i] in a
    ensures Foreign(a, b) == []
  {
    if b != [] {
      FirstIsFirst(a, b[0].scope);
      assert b[0] in a;
      NothingForeignInSelf(a, b[1..]);
    }
  }

  /** A second merge with the same desired tags changes nothing, not even the order. */
  lemma MergeIdempotent(a: seq<Tag>, b: seq<Tag>)
    ensures MergeTags(a, MergeTags(a, b)) == MergeTags(a, b)
  {
    ForeignOfConcat(a, a, Foreign(a, b));
    NothingForeignInSelf(a, a);
    ForeignOfForeign(a, b);
  }

  /** The foreign tags are exactly those of b outside the scopes of a, with their order and multiplicity. */
  ghost predicate IsSubsequence(xs: seq<Tag>, ys: seq<Tag>) {
    if xs == [] then true
    else if ys == [] then false
    else if xs[0] == ys[0] then IsSubsequence(xs[1..], ys[1..])
    else IsSubsequence(xs, ys[1..])
  }

  lemma {:induction false} ForeignSurvives(a: seq<Tag>, b: seq<Tag>)
    ensures IsSubsequence(Foreign(a, b), b)
    ensures forall t :: t in Foreign(a, b) <==> t in b && First(a, t.scope).None?
    ensures forall t: Tag :: First(a, t.scope).None? ==> multiset(Foreign(a, b))[t] == multiset(b)[t]
  {
    if b == [] {
    } else {
      ForeignSurvives(a, b[1..]);
      assert b == [b[0]] + b[1..];
      var rest := Foreign(a, b[1..]);
      if rest != [] { assert rest[0] in rest; }
      if First(a, b[0].scope).None? {
        assert Foreign(a, b)[1..] == rest;
      } else {
        assert Foreign(a, b) == rest;
      }
    }
  }

  lemma {:induction false} MapOfDistinct(tags: seq<Tag>, scope: string)
    requires DistinctScopes(tags)
    ensures scope in TagsToMap(tags) <==> First(tags, scope).Some?
    ensures scope in TagsToMap(tags) ==> First(tags, scope) == Some(TagsToMap(tags)[scope])
  {
    if tags != [] {
      var n := |tags| - 1;
      MapOfDistinct(tags[..n], scope);
      assert tags == tags[..n] + [tags[n]];
      FirstOfConcat(tags[..n], [tags[n]], scope);
      if tags[n].scope == scope { FirstIsFirst(tags[..n], scope); }
    }
  }

  ghost predicate Submap(m: map<string, string>, n: map<string, string>) {
    forall k :: k in m ==> k in n && n[k] == m[k]
  }

  lemma {:induction false} MapKeys(tags: seq<Tag>, scope: string)
    ensures scope in TagsToMap(tags) <==> First(tags, scope).Some?
  {
    if tags != [] {
      var n := |tags| - 1;
      MapKeys(tags[..n], scope);
      assert tags == tags[..n] + [tags[n]];
      FirstOfConcat(tags[..n], [tags[n]], scope);
    }
  }

  /** The first and the last value of every scope are the same: the scan stops at the first, the map keeps the last. */
  ghost predicate FirstIsLast(items: seq<Tag>) {
    forall k :: k in TagsToMap(items) ==> First(items, k) == Some(TagsToMap(items)[k])
  }

  /** Containment, asked with distinct scopes, is the submap relation of the tag maps. */
  ghost predicate ContainmentIsSubmap(items: seq<Tag>) {
    forall tags :: DistinctScopes(tags) ==> (ContainsTags(items, tags) <==> Submap(TagsToMap(tags), TagsToMap(items)))
  }

  lemma ContainsIsSubmap(items: seq<Tag>, tags: seq<Tag>)
    requires FirstIsLast(items) && DistinctScopes(tags)
    ensures ContainsTags(items, tags) <==> Submap(TagsToMap(tags), TagsToMap(items))
  {
    forall k ensures k in TagsToMap(tags) ==> exists i :: 0 <= i < |tags| && tags[i] == Tag(k, TagsToMap(tags)[k]) {
      MapOfDistinct(tags, k);
      FirstIsFirst(tags, k);
    }
    forall i | 0 <= i < |tags|
      ensures tags[i].scope in TagsToMap(tags) && TagsToMap(tags)[tags[i].scope] == tags[i].tag
    {
      MapOfDistinct(tags, tags[i].scope);
      DistinctFirst(tags, i);
    }
    forall k { MapKeys(items, k); }
  }

  /** Exactly the lists whose repeated scopes agree behave like maps; those without repetitions do. */
  lemma SubmapIff(items: seq<Tag>)
    ensures ContainmentIsSubmap(items) <==> FirstIsLast(items)
    ensures DistinctScopes(items) ==> FirstIsLast(items)
  {
    if FirstIsLast(items) {
      forall tags | DistinctScopes(tags) ensures ContainsTags(items, tags) <==> Submap(TagsToMap(tags), TagsToMap(items)) {
        ContainsIsSubmap(items, tags);
      }
    } else {
      var k :| k in TagsToMap(items) && First(items, k) != Some(TagsToMap(items)[k]);
      MapKeys(items, k);
      var tags := [Tag(k, First(items, k).value)];
      assert tags[..0] == [] && TagsToMap(tags) == map[][k := First(items, k).value];
      assert ContainsTags(items, tags) && DistinctScopes(tags);
      assert k in TagsToMap(tags);
    }
    if DistinctScopes(items) {
      forall k | k in TagsToMap(items) ensures First(items, k) == Some(TagsToMap(items)[k]) { MapOfDistinct(items, k); }
    }
  }

  // ---- the two tag lists of a shoot ----

  const SCOPE_GARDEN := "garden"
  const SCOPE_SHOOT := "shoot"

  function ShootTags(garden: string, shoot: string): seq<Tag> {
    [Tag(SCOPE_GARDEN, garden), Tag(SCOPE_SHOOT, shoot)]
  }

  lemma ShootTagsDistinct(garden: string, shoot: string)
    ensures DistinctScopes(ShootTags(garden, shoot))
  {
    assert |SCOPE_GARDEN| != |SCOPE_SHOOT|;
  }

  /** An object never carries the tags of two different shoots. */
  lemma OneOwner(items: seq<Tag>, g: string, s: string, g': string, s': string)
    requires ContainsTags(items, ShootTags(g, s)) && ContainsTags(items, ShootTags(g', s'))
    ensures g == g' && s == s'
  {
    assert ShootTags(g, s)[0] == Tag(SCOPE_GARDEN, g) && ShootTags(g, s)[1] == Tag(SCOPE_SHOOT, s);
    assert ShootTags(g', s')[0] == Tag(SCOPE_GARDEN, g') && ShootTags(g', s')[1] == Tag(SCOPE_SHOOT, s');
  }

  // ---- equalStrings ----

  /** The order-blind comparison of string lists. */
  predicate EqualStrings(a: seq<string>, b: seq<string>) {
    |a| == |b| && forall i :: 0 <= i < |a| ==> a[i] in b
  }

  method EqualStringsLoop(a: seq<string>, b: seq<string>) returns (r: bool)
    ensures r == EqualStrings(a, b)
  {
    if |a| != |b| {
      return false;
    }
    for i := 0 to |a|
      invariant forall k :: 0 <= k < i ==> a[k] in b
    {
      var found := false;
      for j := 0 to |b|
        invariant !found && a[i] !in b[..j]
      {
        if a[i] == b[j] {
          found := true;
          break;
        }
      }
      if !found {
        return false;
      }
    }
    return true;
  }

  ghost predicate NoRepeats(a: seq<string>) {
    forall i, j :: 0 <= i < j < |a| ==> a[i] != a[j]
  }

  function Without(b: seq<string>, i: nat): seq<string>
    requires i < |b|
  {
    b[..i] + b[i + 1..]
  }

  lemma {:induction false} EqualMakesPermutation(a: seq<string>, b: seq<string>)
    requires NoRepeats(a) && EqualStrings(a, b)
    ensures multiset(a) == multiset(b)
  {
    if a != [] {
      var k :| 0 <= k < |b| && b[k] == a[0];
      var rest := Without(b, k);
      assert b == b[..k] + [b[k]] + b[k + 1..];
      forall i | 0 <= i < |a[1..]| ensures a[1..][i] in rest {
        var x := a[i + 1];
        assert x in b && x != b[k];
        assert x in b[..k] || x in b[k + 1..];
      }
      EqualMakesPermutation(a[1..], rest);
      assert a == [a[0]] + a[1..];
    }
  }

  /** The comparison accepts exactly the permutations of a. */
  ghost predicate AcceptsPermutations(a: seq<string>) {
    forall b :: EqualStrings(a, b) <==> multiset(a) == multiset(b)
  }

  lemma EqualIsPermutation(a: seq<string>, b: seq<string>)
    requires NoRepeats(a)
    ensures EqualStrings(a, b) <==> multiset(a) == multiset(b)
  {
    if EqualStrings(a, b) {
      EqualMakesPermutation(a, b);
    } else if multiset(a) == multiset(b) {
      assert |multiset(a)| == |a| && |multiset(b)| == |b|;
      forall i | 0 <= i < |a| ensures a[i] in b { assert a[i] in multiset(b); }
    }
  }

  /** A string longer than all others. */
  function Longer(a: seq<string>): (s: string)
    ensures forall x :: x in a ==> |x| < |s|
  {
    if a == [] then "x"
    else
      var s := Longer(a[1..]);
      assert forall x :: x in a ==> x == a[0] || x in a[1..];
      s + a[0]
  }

  /** It does so exactly on lists without repetitions: a repeated string leaves room for another one. */
  lemma PermutationIff(a: seq<string>)
    ensures AcceptsPermutations(a) <==> NoRepeats(a)
  {
    if NoRepeats(a) {
      forall b ensures EqualStrings(a, b) <==> multiset(a) == multiset(b) { EqualIsPermutation(a, b); }
    } else {
      var i, j :| 0 <= i < j < |a| && a[i] == a[j];
      var other := Longer(a);
      var b := a[j := other];
      forall k | 0 <= k < |a| ensures a[k] in b {
        if k == j { assert b[i] == a[k]; } else { assert b[k] == a[k]; }
      }
      assert b[j] == other && other in multiset(b) && other !in multiset(a);
      assert EqualStrings(a, b) && multiset(a) != multiset(b);
    }
  }
}
