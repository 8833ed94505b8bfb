/** The order `exec` runs providers in: `Array.prototype.sort` with a
    comparator on `order`. The engine's sort is stable, so when every order
    is a rank the result is the unique stable sort by rank; when the
    comparator answers "equal" for every pair the list is left as it is; in
    any other case the model takes the engine's arrangement as a parameter
    (for an inconsistent comparator the language leaves it to the engine). */
module ProviderOrder {
  import opened JsValue
  import opened Providers

  predicate AllRanked(ps: seq<Provider>) {
    forall i :: 0 <= i < |ps| ==> ps[i].order.Rank?
  }

  /** The comparator's answer is 0 for every pair: every order is a rank
      or undefined, and no two ranks differ. */
  predicate Uniform(ps: seq<Provider>) {
    && (forall i :: 0 <= i < |ps| ==> !ps[i].order.Other?)
    && forall i, j :: 0 <= i < |ps| && 0 <= j < |ps| && ps[i].order.Rank? && ps[j].order.Rank?
         ==> ps[i].order == ps[j].order
  }

  predicate SortedByOrder(ps: seq<Provider>)
    requires AllRanked(ps)
  {
    forall i, j :: 0 <= i < j < |ps| ==> ps[i].order.n <= ps[j].order.n
  }

  /** The providers whose order is exactly `k`, in their order in `ps`. */
  function WithRank(ps: seq<Provider>, k: int): seq<Provider> {
    if ps == [] then []
    else if ps[0].order == Rank(k) then [ps[0]] + WithRank(ps[1..], k)
    else WithRank(ps[1..], k)
  }

  /** Places `x` before the first provider whose order is not smaller. */
  function Insert(x: Provider, ps: seq<Provider>): seq<Provider>
    requires x.order.Rank? && AllRanked(ps)
  {
    if ps == [] || x.order.n <= ps[0].order.n then [x] + ps
    else [ps[0]] + Insert(x, ps[1..])
  }

  /** A stable sort by order: the reference the engine's sort is compared with. */
  function StableSortByOrder(ps: seq<Provider>): (r: seq<Provider>)
    requires AllRanked(ps)
    ensures AllRanked(r)
  {
    if ps == [] then []
    else
      var rest := StableSortByOrder(ps[1..]);
      InsertFacts(ps[0], rest);
      Insert(ps[0], rest)
  }

  lemma InsertFacts(x: Provider, ps: seq<Provider>)
    requires x.order.Rank? && AllRanked(ps)
    ensures AllRanked(Insert(x, ps))
    ensures multiset(Insert(x, ps)) == multiset(ps) + multiset{x}
    ensures SortedByOrder(ps) ==> SortedByOrder(Insert(x, ps))
    ensures forall k :: WithRank(Insert(x, ps), k)
                      == if x.order == Rank(k) then [x] + WithRank(ps, k) else WithRank(ps, k)
  {
    InsertPermutes(x, ps);
    if SortedByOrder(ps) { InsertSorted(x, ps); }
    forall k ensures WithRank(Insert(x, ps), k)
                     == if x.order == Rank(k) then [x] + WithRank(ps, k) else WithRank(ps, k) {
      InsertWithRank(x, ps, k);
    }
  }

  lemma {:induction false} InsertPermutes(x: Provider, ps: seq<Provider>)
    requires x.order.Rank? && AllRanked(ps)
    ensures AllRanked(Insert(x, ps))
    ensures multiset(Insert(x, ps)) == multiset(ps) + multiset{x}
  {
    if ps != [] && x.order.n > ps[0].order.n {
      InsertPermutes(x, ps[1..]);
      assert ps == [ps[0]] + ps[1..];
    }
  }

  lemma {:induction false} InsertSorted(x: Provider, ps: seq<Provider>)
    requires x.order.Rank? && AllRanked(ps) && SortedByOrder(ps)
    ensures AllRanked(Insert(x, ps)) && SortedByOrder(Insert(x, ps))
  {
    InsertPermutes(x, ps);
    if ps != [] && x.order.n > ps[0].order.n {
      SortedTail(ps);
      InsertSorted(x, ps[1..]);
      InsertPermutes(x, ps[1..]);
      var t := Insert(x, ps[1..]);
      var r := Insert(x, ps);
      assert r == [ps[0]] + t;
      forall j | 0 <= j < |t| ensures ps[0].order.n <= t[j].order.n {
        assert t[j] in multiset(t);
        assert t[j] == x || t[j] in multiset(ps[1..]);
        if t[j] != x {
          var i :| 0 <= i < |ps[1..]| && ps[1..][i] == t[j];
          assert ps[i + 1] == t[j];
        }
      }
    } else if ps != [] {
      assert SortedByOrder(Insert(x, ps));
    }
  }

  lemma {:induction false} InsertWithRank(x: Provider, ps: seq<Provider>, k: int)
    requires x.order.Rank? && AllRanked(ps)
    ensures WithRank(Insert(x, ps), k)
         == if x.order == Rank(k) then [x] + WithRank(ps, k) else WithRank(ps, k)
  {
    if ps != [] && x.order.n > ps[0].order.n {
      InsertWithRank(x, ps[1..], k);
      var r := Insert(x, ps);
      assert r[0] == ps[0] && r[1..] == Insert(x, ps[1..]);
    } else {
      assert Insert(x, ps)[1..] == ps;
    }
  }

  /** The stable sort orders by non-decreasing order, keeps every provider
      exactly as often as it occurs, and keeps the providers of one order in
      their original relative order. */
  lemma {:induction false} StableSortCorrect(ps: seq<Provider>)
    requires AllRanked(ps)
    ensures SortedByOrder(StableSortByOrder(ps))
    ensures multiset(StableSortByOrder(ps)) == multiset(ps)
    ensures forall k :: WithRank(StableSortByOrder(ps), k) == WithRank(ps, k)
  {
    if ps != [] {
      var rest := StableSortByOrder(ps[1..]);
      StableSortCorrect(ps[1..]);
      assert StableSortByOrder(ps) == Insert(ps[0], rest);
      InsertSorted(ps[0], rest);
      InsertPermutes(ps[0], rest);
      assert ps == [ps[0]] + ps[1..];
      forall k ensures WithRank(StableSortByOrder(ps), k) == WithRank(ps, k) {
        InsertWithRank(ps[0], rest, k);
      }
    }
  }

  /** What `sort` yields for the non-null providers. `engine` is the
      engine's arrangement in the cases the model does not decide. */
  function Schedule(ps: seq<Provider>, engine: seq<Provider> -> seq<Provider>): seq<Provider> {
    if AllRanked(ps) then StableSortByOrder(ps)
    else if Uniform(ps) then ps
    else engine(ps)
  }

  /** The engine only rearranges. */
  ghost predicate Permutes(engine: seq<Provider> -> seq<Provider>) {
    forall ps :: multiset(engine(ps)) == multiset(ps)
  }

  /** `exec` runs exactly the non-null providers, each as often as it occurs;
      with ranked orders it runs them by non-decreasing order, and equal
      orders keep their plugin-list order; when the comparator finds every
      pair equal, the plugin-list order is kept as it is. */
  lemma ScheduleCorrect(found: seq<Option<Provider>>, engine: seq<Provider> -> seq<Provider>)
    requires Permutes(engine)
    ensures multiset(Schedule(NonNull(found), engine)) == multiset(NonNull(found))
    ensures AllRanked(NonNull(found)) ==>
      var s := Schedule(NonNull(found), engine);
      && AllRanked(s) && SortedByOrder(s)
      && forall k :: WithRank(s, k) == WithRank(NonNull(found), k)
    ensures Uniform(NonNull(found)) ==> Schedule(NonNull(found), engine) == NonNull(found)
  {
    var ps := NonNull(found);
    if AllRanked(ps) {
      StableSortCorrect(ps);
      if Uniform(ps) {
        StableSortUnique(ps, ps);
      }
    }
  }

  /** The stable sort is the only arrangement with these three properties,
      so any stable engine sort yields exactly it. */
  lemma {:induction false} StableSortUnique(ps: seq<Provider>, qs: seq<Provider>)
    requires AllRanked(ps) && AllRanked(qs)
    requires SortedByOrder(qs)
    requires forall k :: WithRank(qs, k) == WithRank(ps, k)
    ensures qs == StableSortByOrder(ps)
  {
    StableSortCorrect(ps);
    SortedDeterminedByRanks(qs, StableSortByOrder(ps));
  }

  lemma {:induction false} SortedDeterminedByRanks(a: seq<Provider>, b: seq<Provider>)
    requires AllRanked(a) && AllRanked(b) && SortedByOrder(a) && SortedByOrder(b)
    requires forall k :: WithRank(a, k) == WithRank(b, k)
    ensures a == b
    decreases |a| + |b|
  {
    if a != [] && b != [] {
      var m := if a[0].order.n <= b[0].order.n then a[0].order.n else b[0].order.n;
      // the smallest order present heads both lists
      LeadingRank(a, m);
      LeadingRank(b, m);
      assert WithRank(a, m) == WithRank(b, m);
      assert a[0].order.Rank? && b[0].order.Rank?;
      assert a[0].order == Rank(m) && b[0].order == Rank(m);
      assert WithRank(a, m) == [a[0]] + WithRank(a[1..], m);
      assert WithRank(b, m) == [b[0]] + WithRank(b[1..], m);
      assert WithRank(a, m)[0] == a[0] && WithRank(b, m)[0] == b[0];
      forall k ensures WithRank(a[1..], k) == WithRank(b[1..], k) {
        assert WithRank(a, k) == WithRank(b, k);
        if a[0].order == Rank(k) {
          assert WithRank(a, k) == [a[0]] + WithRank(a[1..], k);
          assert WithRank(b, k) == [a[0]] + WithRank(b[1..], k);
          assert WithRank(a[1..], k) == WithRank(a, k)[1..];
          assert WithRank(b[1..], k) == WithRank(b, k)[1..];
        } else {
          assert WithRank(a, k) == WithRank(a[1..], k);
          assert WithRank(b, k) == WithRank(b[1..], k);
        }
      }
      SortedTail(a);
      SortedTail(b);
      SortedDeterminedByRanks(a[1..], b[1..]);
      assert a == [a[0]] + a[1..] && b == [b[0]] + b[1..];
    } else if a != [] {
      HeadRankPresent(a);
    } else if b != [] {
      HeadRankPresent(b);
    }
  }

  lemma HeadRankPresent(a: seq<Provider>)
    requires a != [] && a[0].order.Rank?
    ensures WithRank(a, a[0].order.n) != [] && WithRank([], a[0].order.n) == []
  {
  }

  lemma SortedTail(a: seq<Provider>)
    requires a != [] && AllRanked(a) && SortedByOrder(a)
    ensures AllRanked(a[1..]) && SortedByOrder(a[1..])
  {
    assert forall i :: 0 <= i < |a| - 1 ==> a[1..][i] == a[i + 1];
  }

  /** In a sorted list whose orders are at least `m`, the head has order `m`
      exactly when some element of order `m` exists. */
  lemma {:induction false} LeadingRank(a: seq<Provider>, m: int)
    requires a != [] && AllRanked(a) && SortedByOrder(a) && m <= a[0].order.n
    ensures WithRank(a, m) != [] <==> a[0].order.n == m
  {
    if a[0].order.n != m && |a| > 1 {
      SortedTail(a);
      LeadingRank(a[1..], m);
    }
  }
}
