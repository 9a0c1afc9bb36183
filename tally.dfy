/** Counting items per label in a JavaScript `Map`: each item is tested
    against every label in a fixed order, and each label it matches gets
    `map.set(label, (map.get(label) || 0) + 1)`. A `Map` remembers the order in
    which its keys were first set; `order` records that order. */
module Tally {
  import opened Seqs

  function RuleTest<T(!new)>(rule: (string, T) -> bool, tag: string): T -> bool {
    x => rule(tag, x)
  }

  /** How many items the rule accepts for the label. */
  function Count<T(!new)>(xs: seq<T>, rule: (string, T) -> bool, tag: string): nat {
    |Filter(xs, RuleTest(rule, tag))|
  }

  function NewFor<T>(rule: (string, T) -> bool, x: T, seen: seq<string>): string -> bool {
    l => rule(l, x) && l !in seen
  }

  /** The keys of the map after visiting `xs`, in insertion order. */
  function FirstSeen<T(!new)>(labels: seq<string>, rule: (string, T) -> bool, xs: seq<T>): seq<string>
    decreases |xs|
  {
    if xs == [] then []
    else
      var prev := FirstSeen(labels, rule, xs[..|xs| - 1]);
      prev + Filter(labels, NewFor(rule, xs[|xs| - 1], prev))
  }

  lemma CountSnoc<T(!new)>(xs: seq<T>, x: T, rule: (string, T) -> bool, tag: string)
    ensures Count(xs + [x], rule, tag) == Count(xs, rule, tag) + (if rule(tag, x) then 1 else 0)
  {
    FilterSnoc(xs, x, RuleTest(rule, tag));
  }

  /** A label is a key exactly when it is one of the labels and some item matches it. */
  lemma {:induction false} FirstSeenMembers<T(!new)>(labels: seq<string>, rule: (string, T) -> bool, xs: seq<T>)
    ensures forall l :: l in FirstSeen(labels, rule, xs) <==> l in labels && Count(xs, rule, l) > 0
    decreases |xs|
  {
    if xs != [] {
      var init := xs[..|xs| - 1];
      var x := xs[|xs| - 1];
      FirstSeenMembers(labels, rule, init);
      assert xs == init + [x];
      forall l
        ensures l in FirstSeen(labels, rule, xs) <==> l in labels && Count(xs, rule, l) > 0
      {
        CountSnoc(init, x, rule, l);
      }
    }
  }

  /** A key of the map is one of the labels, matched by some item. */
  lemma FirstSeenMember<T(!new)>(labels: seq<string>, rule: (string, T) -> bool, xs: seq<T>, l: string)
    requires l in FirstSeen(labels, rule, xs)
    ensures l in labels && Count(xs, rule, l) > 0
  {
    FirstSeenMembers(labels, rule, xs);
  }

  /** A label some item matches is a key, at some position of the order. */
  lemma FirstSeenIndex<T(!new)>(labels: seq<string>, rule: (string, T) -> bool, xs: seq<T>, l: string)
    returns (j: nat)
    requires l in labels && Count(xs, rule, l) > 0
    ensures j < |FirstSeen(labels, rule, xs)| && FirstSeen(labels, rule, xs)[j] == l
  {
    FirstSeenMembers(labels, rule, xs);
    j :| 0 <= j < |FirstSeen(labels, rule, xs)| && FirstSeen(labels, rule, xs)[j] == l;
  }

  lemma {:induction false} FilterDistinct(s: seq<string>, f: string -> bool)
    requires Distinct(s)
    ensures Distinct(Filter(s, f))
  {
    if s != [] {
      assert Distinct(s[1..]) by {
        assert forall i, j | 0 <= i < j < |s| - 1 :: s[1..][i] == s[i + 1] && s[1..][j] == s[j + 1];
      }
      FilterDistinct(s[1..], f);
      assert s[0] !in s[1..] by {
        forall k | 0 <= k < |s| - 1 ensures s[1..][k] != s[0] {
          assert s[1..][k] == s[k + 1];
        }
      }
    }
  }

  /** No key is inserted twice. */
  lemma {:induction false} FirstSeenDistinct<T(!new)>(labels: seq<string>, rule: (string, T) -> bool, xs: seq<T>)
    requires Distinct(labels)
    ensures Distinct(FirstSeen(labels, rule, xs))
    decreases |xs|
  {
    if xs != [] {
      var prev := FirstSeen(labels, rule, xs[..|xs| - 1]);
      FirstSeenDistinct(labels, rule, xs[..|xs| - 1]);
      var added := Filter(labels, NewFor(rule, xs[|xs| - 1], prev));
      FilterDistinct(labels, NewFor(rule, xs[|xs| - 1], prev));
      var r := prev + added;
      forall i, j | 0 <= i < j < |r|
        ensures r[i] != r[j]
      {
        if j >= |prev| && i < |prev| {
          assert r[j] in added;
        } else if i >= |prev| {
          assert r[i] == added[i - |prev|] && r[j] == added[j - |prev|];
        }
      }
    }
  }

  /** The count a map holds for a label, `map.get(label) || 0`. */
  function Get(counts: map<string, nat>, l: string): nat {
    if l in counts then counts[l] else 0
  }

  /** One `if` of the chain: when the item matches the label, the label's
      count goes up by one, and a label not yet in the map is appended. */
  function Bump<T>(counts: map<string, nat>, order: seq<string>, tag: string, x: T, rule: (string, T) -> bool)
    : (map<string, nat>, seq<string>)
  {
    if rule(tag, x) then
      (counts[tag := Get(counts, tag) + 1], if tag in counts then order else order + [tag])
    else (counts, order)
  }

  /** The whole chain of `if`s for one item, over the labels in turn. */
  function BumpAll<T>(counts: map<string, nat>, order: seq<string>, ls: seq<string>, x: T, rule: (string, T) -> bool)
    : (map<string, nat>, seq<string>)
    decreases |ls|
  {
    if ls == [] then (counts, order)
    else
      var st := BumpAll(counts, order, ls[..|ls| - 1], x, rule);
      Bump(st.0, st.1, ls[|ls| - 1], x, rule)
  }

  lemma DistinctInit(ls: seq<string>)
    requires Distinct(ls) && ls != []
    ensures Distinct(ls[..|ls| - 1]) && ls[|ls| - 1] !in ls[..|ls| - 1]
  {
    var init := ls[..|ls| - 1];
    assert forall i | 0 <= i < |init| :: init[i] == ls[i];
  }

  /** After the chain for one item, the labels new to the map follow the old
      keys, in label order, and the keys are still exactly `order`. */
  lemma {:induction false} BumpAllOrder<T>(counts: map<string, nat>, order: seq<string>, ls: seq<string>, x: T, rule: (string, T) -> bool)
    requires Distinct(ls)
    requires forall l :: l in counts <==> l in order
    ensures var st := BumpAll(counts, order, ls, x, rule);
      && st.1 == order + Filter(ls, NewFor(rule, x, order))
      && (forall l :: l in st.0 <==> l in st.1)
    decreases |ls|
  {
    if ls != [] {
      var init := ls[..|ls| - 1];
      var tag := ls[|ls| - 1];
      assert ls == init + [tag];
      DistinctInit(ls);
      BumpAllOrder(counts, order, init, x, rule);
      FilterSnoc(init, tag, NewFor(rule, x, order));
    }
  }

  /** After the chain for one item, every label it matches has gone up by one. */
  lemma {:induction false} BumpAllCounts<T>(counts: map<string, nat>, order: seq<string>, ls: seq<string>, x: T, rule: (string, T) -> bool)
    requires Distinct(ls)
    ensures var st := BumpAll(counts, order, ls, x, rule);
      && (forall l | l in counts :: l in st.0)
      && (forall l | l in st.0 :: st.0[l] == Get(counts, l) + (if l in ls && rule(l, x) then 1 else 0))
    decreases |ls|
  {
    if ls != [] {
      var init := ls[..|ls| - 1];
      var tag := ls[|ls| - 1];
      assert ls == init + [tag];
      DistinctInit(ls);
      BumpAllCounts(counts, order, init, x, rule);
      var st := BumpAll(counts, order, init, x, rule);
      var st' := BumpAll(counts, order, ls, x, rule);
      assert st' == Bump(st.0, st.1, tag, x, rule);
      forall l | l in st'.0
        ensures st'.0[l] == Get(counts, l) + (if l in ls && rule(l, x) then 1 else 0)
      {
        assert l in ls <==> l in init || l == tag;
      }
    }
  }

  /** One item of the `forEach`: the chain of `if`s, run as a loop over the labels. */
  method CountItem<T>(x: T, labels: seq<string>, rule: (string, T) -> bool,
                      counts0: map<string, nat>, order0: seq<string>)
    returns (counts: map<string, nat>, order: seq<string>)
    requires Distinct(labels)
    requires forall l :: l in counts0 <==> l in order0
    ensures order == order0 + Filter(labels, NewFor(rule, x, order0))
    ensures forall l :: l in counts <==> l in order
    ensures forall l | l in counts :: counts[l] == Get(counts0, l) + (if l in labels && rule(l, x) then 1 else 0)
  {
    counts, order := counts0, order0;
    for k := 0 to |labels|
      invariant (counts, order) == BumpAll(counts0, order0, labels[..k], x, rule)
    {
      var tag := labels[k];
      assert labels[..k + 1][..k] == labels[..k];
      if rule(tag, x) {
        var c := if tag in counts then counts[tag] else 0;
        if tag !in counts {
          order := order + [tag];
        }
        counts := counts[tag := c + 1];
      }
    }
    assert labels[..|labels|] == labels;
    BumpAllOrder(counts0, order0, labels, x, rule);
    BumpAllCounts(counts0, order0, labels, x, rule);
  }

  /** One more item: the keys and counts after it follow from those before it. */
  lemma CountStep<T(!new)>(before: seq<T>, x: T, labels: seq<string>, rule: (string, T) -> bool,
                           counts0: map<string, nat>, order0: seq<string>,
                           counts: map<string, nat>, order: seq<string>)
    requires order0 == FirstSeen(labels, rule, before)
    requires forall l | l in counts0 :: counts0[l] == Count(before, rule, l)
    requires forall l :: l in counts0 <==> l in order0
    requires order == order0 + Filter(labels, NewFor(rule, x, order0))
    requires forall l :: l in counts <==> l in order
    requires forall l | l in counts :: counts[l] == Get(counts0, l) + (if l in labels && rule(l, x) then 1 else 0)
    ensures order == FirstSeen(labels, rule, before + [x])
    ensures forall l | l in counts :: counts[l] == Count(before + [x], rule, l)
  {
    assert (before + [x])[..|before|] == before;
    FirstSeenMembers(labels, rule, before);
    forall l | l in counts
      ensures counts[l] == Count(before + [x], rule, l)
    {
      CountSnoc(before, x, rule, l);
    }
  }

  /** The `forEach` that fills the map: every item, then every label in turn. */
  method CountByLabel<T(!new)>(xs: seq<T>, labels: seq<string>, rule: (string, T) -> bool)
    returns (counts: map<string, nat>, order: seq<string>)
    requires Distinct(labels)
    ensures order == FirstSeen(labels, rule, xs)
    ensures forall l :: l in counts <==> l in order
    ensures forall l | l in counts :: counts[l] == Count(xs, rule, l)
  {
    counts := map[];
    order := [];
    for i := 0 to |xs|
      invariant order == FirstSeen(labels, rule, xs[..i])
      invariant forall l :: l in counts <==> l in order
      invariant forall l | l in counts :: counts[l] == Count(xs[..i], rule, l)
    {
      var x := xs[i];
      ghost var before := xs[..i];
      ghost var counts0, order0 := counts, order;
      counts, order := CountItem(x, labels, rule, counts, order);
      CountStep(before, x, labels, rule, counts0, order0, counts, order);
      assert xs[..i + 1] == before + [x];
    }
    assert xs[..|xs|] == xs;
  }
}
