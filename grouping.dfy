/**
 * Group-and-sum into a dictionary keyed by a string: the `categoryMap[c] += amount`
 * loop of the dashboard service and the `categories[c] = (categories[c] || 0) + amount`
 * loop of the reports page. A missing key counts as 0. Besides the dictionary, the
 * loop keeps its keys in the order they first appear, which is the order a JavaScript
 * object lists its (non-numeric) keys in.
 */
module Grouping {
  import opened Folds

  /** The term of one group's sum: the amount of `x` when it is included and its key is `c`. */
  function InGroup<T>(keep: T -> bool, key: T -> string, amount: T -> int, c: string): T -> int {
    (x: T) => if keep(x) && key(x) == c then amount(x) else 0
  }

  /** The term of the sum over every included element. */
  function Included<T>(keep: T -> bool, amount: T -> int): T -> int {
    (x: T) => if keep(x) then amount(x) else 0
  }

  /** Reading a dictionary with 0 for a missing key. */
  function Lookup0(m: map<string, int>): string -> int {
    (k: string) => if k in m then m[k] else 0
  }

  /** The keys of the included elements. */
  ghost function KeysOf<T>(s: seq<T>, keep: T -> bool, key: T -> string): set<string> {
    set x | x in s && keep(x) :: key(x)
  }

  lemma KeysStep<T>(s: seq<T>, x: T, keep: T -> bool, key: T -> string)
    ensures KeysOf(s + [x], keep, key) == KeysOf(s, keep, key) + (if keep(x) then {key(x)} else {})
  {
    assert forall y :: y in s + [x] <==> y in s || y == x;
  }

  /** Adding to the value of a key listed once changes the listed sum by that much. */
  lemma {:induction false} SumBump(order: seq<string>, m: map<string, int>, c: string, a: int)
    requires Distinct(order) && c in m
    ensures Sum(order, Lookup0(m[c := m[c] + a])) == Sum(order, Lookup0(m)) + (if c in order then a else 0)
  {
    if order != [] {
      var init := order[..|order| - 1];
      assert Distinct(init);
      SumBump(init, m, c, a);
      assert c in order <==> c in init || c == order[|order| - 1];
    }
  }

  /** A key that is not listed does not count in the listed sum. */
  lemma {:induction false} SumUnlisted(order: seq<string>, m: map<string, int>, c: string, v: int)
    requires c !in order
    ensures Sum(order, Lookup0(m[c := v])) == Sum(order, Lookup0(m))
  {
    if order != [] {
      SumUnlisted(order[..|order| - 1], m, c, v);
    }
  }

  /** The keys listed once each, exactly the keys of the dictionary. */
  ghost predicate Listed(order: seq<string>, totals: map<string, int>) {
    Distinct(order) && forall c :: c in order <==> c in totals
  }

  /** Each group's total is its sum; a group without a total sums to 0. */
  ghost predicate GroupTotals<T>(s: seq<T>, keep: T -> bool, key: T -> string, amount: T -> int,
                                 totals: map<string, int>) {
    && (forall c :: c in totals ==> totals[c] == Sum(s, InGroup(keep, key, amount, c)))
    && (forall c :: c !in totals ==> Sum(s, InGroup(keep, key, amount, c)) == 0)
  }

  /**
   * What the grouping loop has built after reading `s`: each key of the kept elements
   * listed once, each group's total, no total for an absent group, and the listed
   * totals adding up to the sum over the kept elements.
   */
  ghost predicate Grouped<T>(s: seq<T>, keep: T -> bool, key: T -> string, amount: T -> int,
                             order: seq<string>, totals: map<string, int>) {
    && Listed(order, totals)
    && totals.Keys == KeysOf(s, keep, key)
    && GroupTotals(s, keep, key, amount, totals)
    && Sum(order, Lookup0(totals)) == Sum(s, Included(keep, amount))
  }

  /** Reading one more element adds its share to every group's sum. */
  lemma GroupSumsStep<T>(s: seq<T>, keep: T -> bool, key: T -> string, amount: T -> int, x: T)
    ensures forall c :: Sum(s + [x], InGroup(keep, key, amount, c))
                        == Sum(s, InGroup(keep, key, amount, c)) + InGroup(keep, key, amount, c)(x)
  {
    forall c ensures Sum(s + [x], InGroup(keep, key, amount, c))
                     == Sum(s, InGroup(keep, key, amount, c)) + InGroup(keep, key, amount, c)(x)
    {
      SumSnoc(s, x, InGroup(keep, key, amount, c));
    }
  }

  /** A skipped element moves no group's sum. */
  lemma TotalsSkip<T>(s: seq<T>, keep: T -> bool, key: T -> string, amount: T -> int,
                      totals: map<string, int>, x: T)
    requires GroupTotals(s, keep, key, amount, totals) && !keep(x)
    ensures GroupTotals(s + [x], keep, key, amount, totals)
  {
    GroupSumsStep(s, keep, key, amount, x);
  }

  /** Adding to a listed group moves that group's sum by the element's amount and no other. */
  lemma TotalsOld<T>(s: seq<T>, keep: T -> bool, key: T -> string, amount: T -> int,
                     totals: map<string, int>, x: T)
    requires GroupTotals(s, keep, key, amount, totals) && keep(x) && key(x) in totals
    ensures GroupTotals(s + [x], keep, key, amount, totals[key(x) := totals[key(x)] + amount(x)])
  {
    GroupSumsStep(s, keep, key, amount, x);
  }

  /** A new group's sum starts at the element's amount; no other group's sum moves. */
  lemma TotalsNew<T>(s: seq<T>, keep: T -> bool, key: T -> string, amount: T -> int,
                     totals: map<string, int>, x: T)
    requires GroupTotals(s, keep, key, amount, totals) && keep(x) && key(x) !in totals
    ensures GroupTotals(s + [x], keep, key, amount, totals[key(x) := amount(x)])
  {
    GroupSumsStep(s, keep, key, amount, x);
  }

  /** Changing the value of a key that is already present keeps the keys. */
  lemma KeysOld(totals: map<string, int>, keys: set<string>, c: string, v: int)
    requires totals.Keys == keys && c in totals
    ensures totals[c := v].Keys == keys + {c}
  {
  }

  /** Changing the total of a listed key keeps the listing. */
  lemma ListedOld(order: seq<string>, totals: map<string, int>, c: string, v: int)
    requires Listed(order, totals) && c in totals
    ensures Listed(order, totals[c := v])
  {
  }

  /** A new key listed last keeps the listing. */
  lemma ListedNew(order: seq<string>, totals: map<string, int>, c: string, v: int)
    requires Listed(order, totals) && c !in totals
    ensures Listed(order + [c], totals[c := v])
  {
    DistinctSnoc(order, c);
  }

  /** Listing a new key last adds its value to the listed sum. */
  lemma ListedSumNew(order: seq<string>, totals: map<string, int>, c: string, v: int)
    requires c !in order
    ensures Sum(order + [c], Lookup0(totals[c := v])) == Sum(order, Lookup0(totals)) + v
  {
    SumUnlisted(order, totals, c, v);
    SumSnoc(order, c, Lookup0(totals[c := v]));
  }

  /** A turn that skips the element keeps `Grouped`. */
  lemma GroupSkip<T>(s: seq<T>, keep: T -> bool, key: T -> string, amount: T -> int,
                     order: seq<string>, totals: map<string, int>, x: T)
    requires Grouped(s, keep, key, amount, order, totals) && !keep(x)
    ensures Grouped(s + [x], keep, key, amount, order, totals)
  {
    KeysStep(s, x, keep, key);
    TotalsSkip(s, keep, key, amount, totals, x);
    SumSnoc(s, x, Included(keep, amount));
  }

  /** A turn that adds to a group already listed keeps `Grouped`. */
  lemma GroupOld<T>(s: seq<T>, keep: T -> bool, key: T -> string, amount: T -> int,
                    order: seq<string>, totals: map<string, int>, x: T)
    requires Grouped(s, keep, key, amount, order, totals) && keep(x) && key(x) in totals
    ensures Grouped(s + [x], keep, key, amount, order, totals[key(x) := totals[key(x)] + amount(x)])
  {
    var c := key(x);
    KeysStep(s, x, keep, key);
    KeysOld(totals, KeysOf(s, keep, key), c, totals[c] + amount(x));
    TotalsOld(s, keep, key, amount, totals, x);
    ListedOld(order, totals, c, totals[c] + amount(x));
    SumSnoc(s, x, Included(keep, amount));
    SumBump(order, totals, c, amount(x));
  }

  /** A turn that opens a new group, listed last, keeps `Grouped`. */
  lemma GroupNew<T>(s: seq<T>, keep: T -> bool, key: T -> string, amount: T -> int,
                    order: seq<string>, totals: map<string, int>, x: T)
    requires Grouped(s, keep, key, amount, order, totals) && keep(x) && key(x) !in totals
    ensures Grouped(s + [x], keep, key, amount, order + [key(x)], totals[key(x) := amount(x)])
  {
    var c := key(x);
    KeysStep(s, x, keep, key);
    TotalsNew(s, keep, key, amount, totals, x);
    ListedNew(order, totals, c, amount(x));
    SumSnoc(s, x, Included(keep, amount));
    ListedSumNew(order, totals, c, amount(x));
  }

  /** What one turn of the grouping loop does with element `x`. */
  function GroupStep<T>(state: (seq<string>, map<string, int>), keep: T -> bool, key: T -> string,
                        amount: T -> int, x: T): (seq<string>, map<string, int>) {
    var (order, totals) := state;
    if !keep(x) then (order, totals)
    else if key(x) !in totals then (order + [key(x)], totals[key(x) := amount(x)])
    else (order, totals[key(x) := totals[key(x)] + amount(x)])
  }

  /** The listing and the dictionary the grouping loop has built after reading `s`. */
  function GroupState<T>(s: seq<T>, keep: T -> bool, key: T -> string, amount: T -> int)
    : (seq<string>, map<string, int>)
  {
    if s == [] then ([], map[])
    else GroupStep(GroupState(s[..|s| - 1], keep, key, amount), keep, key, amount, s[|s| - 1])
  }

  /** What the loop builds is a grouping of what it has read. */
  lemma {:induction false} GroupStateGrouped<T>(s: seq<T>, keep: T -> bool, key: T -> string, amount: T -> int)
    ensures Grouped(s, keep, key, amount, GroupState(s, keep, key, amount).0, GroupState(s, keep, key, amount).1)
  {
    if s == [] {
    } else {
      var init := s[..|s| - 1];
      var x := s[|s| - 1];
      GroupStateGrouped(init, keep, key, amount);
      var (order, totals) := GroupState(init, keep, key, amount);
      assert s == init + [x];
      if !keep(x) {
        GroupSkip(init, keep, key, amount, order, totals, x);
      } else if key(x) !in totals {
        GroupNew(init, keep, key, amount, order, totals, x);
      } else {
        GroupOld(init, keep, key, amount, order, totals, x);
      }
    }
  }

  /**
   * The grouping loop. Each key of the kept elements is listed once; each group's
   * total is the sum of its elements' amounts; and the group totals add up to the sum
   * over all kept elements.
   */
  method GroupSums<T>(s: seq<T>, keep: T -> bool, key: T -> string, amount: T -> int)
    returns (order: seq<string>, totals: map<string, int>)
    ensures Distinct(order)
    ensures forall c :: c in order <==> c in totals
    ensures totals.Keys == KeysOf(s, keep, key)
    ensures forall c :: c in totals ==> totals[c] == Sum(s, InGroup(keep, key, amount, c))
    ensures Sum(order, Lookup0(totals)) == Sum(s, Included(keep, amount))
  {
    order := [];
    totals := map[];
    var i := 0;
    while i < |s|
      invariant 0 <= i <= |s|
      invariant (order, totals) == GroupState(s[..i], keep, key, amount)
    {
      var x := s[i];
      assert s[..i + 1][..i] == s[..i];
      if keep(x) {
        var c := key(x);
        if c !in totals {
          // a missing key reads as 0
          order := order + [c];
          totals := totals[c := amount(x)];
        } else {
          totals := totals[c := totals[c] + amount(x)];
        }
      }
      i := i + 1;
    }
    assert s[..i] == s;
    GroupStateGrouped(s, keep, key, amount);
  }
}
