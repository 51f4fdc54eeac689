/** The ranking of app/services/recommendations.py. */
module Recommendations {
  import opened Common
  import opened Scoring

  /** The columns a recommendation reads; only the commission and the AliExpress id may be null. */
  datatype Product = Product(
    id: string, aliexpressId: Option<string>, rating: real, sales: int, discount: real, price: real,
    commission: Option<real>)

  /** `_ranking_key`, with the negated components left positive and compared the other way round. */
  datatype Key = Key(total: real, rating: real, sales: int, commission: real, price: real, alias: string, id: string)

  datatype Ranked = Ranked(product: Product, score: Score)

  function AttributesOf(p: Product): Attributes {
    Attributes(Some(p.rating), Some(p.sales), Some(p.discount), Some(p.price), p.commission)
  }

  function CommissionKey(p: Product): real {
    if p.commission.Some? then p.commission.value else -1.0
  }

  function KeyOf(r: Ranked): Key {
    var p := r.product;
    Key(r.score.total, p.rating, p.sales, CommissionKey(p), p.price,
        if Truthy(p.aliexpressId) then p.aliexpressId.value else "", p.id)
  }

  // ---- The order of the key tuples ----

  /** String order by code point. */
  predicate LexLess(s: string, t: string) {
    |t| > 0 && (|s| == 0 || s[0] < t[0] || (s[0] == t[0] && LexLess(s[1..], t[1..])))
  }

  lemma {:induction false} LexTotal(s: string, t: string)
    ensures s == t || LexLess(s, t) || LexLess(t, s)
    ensures !(LexLess(s, t) && LexLess(t, s)) && (s == t ==> !LexLess(s, t))
  {
    if |s| > 0 && |t| > 0 {
      LexTotal(s[1..], t[1..]);
      if s[0] == t[0] && s[1..] == t[1..] {
        assert s == [s[0]] + s[1..] && t == [t[0]] + t[1..];
      }
    }
  }

  lemma {:induction false} LexTransitive(s: string, t: string, u: string)
    requires LexLess(s, t) && LexLess(t, u)
    ensures LexLess(s, u)
  {
    if |s| > 0 && s[0] == t[0] && t[0] == u[0] {
      LexTransitive(s[1..], t[1..], u[1..]);
    }
  }

  predicate TextBefore(a: Key, b: Key) {
    LexLess(a.alias, b.alias) || (a.alias == b.alias && LexLess(a.id, b.id))
  }

  /** `a` sorts strictly before `b`: higher score, rating, sales, commission; then lower price, ids. */
  predicate Before(a: Key, b: Key) {
    if a.total != b.total then a.total > b.total
    else if a.rating != b.rating then a.rating > b.rating
    else if a.sales != b.sales then a.sales > b.sales
    else if a.commission != b.commission then a.commission > b.commission
    else if a.price != b.price then a.price < b.price
    else TextBefore(a, b)
  }

  lemma BeforeTotal(a: Key, b: Key)
    ensures a == b || Before(a, b) || Before(b, a)
    ensures !(Before(a, b) && Before(b, a)) && (a == b ==> !Before(a, b))
  {
    LexTotal(a.alias, b.alias);
    LexTotal(a.id, b.id);
  }

  lemma BeforeTransitive(a: Key, b: Key, c: Key)
    requires Before(a, b) && Before(b, c)
    ensures Before(a, c)
  {
    hide LexLess;
    if LexLess(a.alias, b.alias) && LexLess(b.alias, c.alias) { LexTransitive(a.alias, b.alias, c.alias); }
    if LexLess(a.id, b.id) && LexLess(b.id, c.id) { LexTransitive(a.id, b.id, c.id); }
  }

  // ---- The candidate set ----

  function MinPrice(ps: seq<Product>): (x: real)
    requires |ps| > 0
    ensures exists p :: p in ps && p.price == x
    ensures forall p :: p in ps ==> x <= p.price
  {
    if |ps| == 1 then assert ps[0] in ps; ps[0].price
    else
      var rest := MinPrice(ps[1..]);
      assert ps[0] in ps && forall p :: p in ps ==> p == ps[0] || p in ps[1..];
      if ps[0].price < rest then ps[0].price else rest
  }

  function MaxPrice(ps: seq<Product>): (x: real)
    requires |ps| > 0
    ensures exists p :: p in ps && p.price == x
    ensures forall p :: p in ps ==> p.price <= x
  {
    if |ps| == 1 then assert ps[0] in ps; ps[0].price
    else
      var rest := MaxPrice(ps[1..]);
      assert ps[0] in ps && forall p :: p in ps ==> p == ps[0] || p in ps[1..];
      if ps[0].price > rest then ps[0].price else rest
  }

  function MaxSales(ps: seq<Product>): (x: nat)
    requires |ps| > 0
    ensures exists p :: p in ps && AtLeastZero(p.sales) == x
    ensures forall p :: p in ps ==> AtLeastZero(p.sales) <= x
  {
    if |ps| == 1 then assert ps[0] in ps; AtLeastZero(ps[0].sales)
    else
      var rest := MaxSales(ps[1..]);
      assert ps[0] in ps && forall p :: p in ps ==> p == ps[0] || p in ps[1..];
      if AtLeastZero(ps[0].sales) > rest then AtLeastZero(ps[0].sales) else rest
  }

  function MarketOf(ps: seq<Product>): Market
    requires |ps| > 0
  {
    Market(MaxSales(ps), MinPrice(ps), MaxPrice(ps))
  }

  predicate SameProducts(ps: seq<Product>, qs: seq<Product>) {
    multiset(ps) == multiset(qs)
  }

  lemma SameMembers(ps: seq<Product>, qs: seq<Product>)
    requires SameProducts(ps, qs)
    ensures |ps| == |qs| && forall p :: p in ps <==> p in qs
  {
    assert |multiset(ps)| == |multiset(qs)|;
    forall p ensures p in ps <==> p in qs {
      assert p in multiset(ps) <==> p in multiset(qs);
    }
  }

  lemma MarketIgnoresOrder(ps: seq<Product>, qs: seq<Product>)
    requires SameProducts(ps, qs) && |ps| > 0 && |qs| > 0
    ensures MarketOf(ps) == MarketOf(qs)
  {
    hide MinPrice, MaxPrice, MaxSales;
    SameMembers(ps, qs);
  }

  // ---- Sorting ----

  function Rank(log: nat -> real, m: Market, p: Product): Ranked {
    Ranked(p, Calculate(log, AttributesOf(p), m))
  }

  predicate Ahead(log: nat -> real, m: Market, p: Product, q: Product) {
    Before(KeyOf(Rank(log, m, p)), KeyOf(Rank(log, m, q)))
  }

  function Insert(log: nat -> real, m: Market, p: Product, sorted: seq<Product>): seq<Product> {
    if |sorted| == 0 || !Ahead(log, m, sorted[0], p) then [p] + sorted
    else [sorted[0]] + Insert(log, m, p, sorted[1..])
  }

  /** `list.sort(key=_ranking_key)`. */
  function Sorted(log: nat -> real, m: Market, ps: seq<Product>): seq<Product> {
    if |ps| == 0 then [] else Insert(log, m, ps[0], Sorted(log, m, ps[1..]))
  }

  /** No element sorts strictly before an earlier one. */
  ghost predicate InOrder(log: nat -> real, m: Market, ps: seq<Product>) {
    forall i, j :: 0 <= i < j < |ps| ==> !Ahead(log, m, ps[j], ps[i])
  }

  lemma {:induction false} InsertKeeps(log: nat -> real, m: Market, p: Product, sorted: seq<Product>)
    ensures multiset(Insert(log, m, p, sorted)) == multiset(sorted) + multiset{p}
  {
    hide Ahead;
    if |sorted| > 0 && Ahead(log, m, sorted[0], p) {
      InsertKeeps(log, m, p, sorted[1..]);
      assert sorted == [sorted[0]] + sorted[1..];
    }
  }

  lemma ConsInOrder(log: nat -> real, m: Market, p: Product, rest: seq<Product>)
    requires InOrder(log, m, rest) && forall q :: q in rest ==> !Ahead(log, m, q, p)
    ensures InOrder(log, m, [p] + rest)
  {
    hide Ahead;
    var all := [p] + rest;
    forall i, j | 0 <= i < j < |all| ensures !Ahead(log, m, all[j], all[i]) {
      assert all[j] == rest[j - 1] && (i > 0 ==> all[i] == rest[i - 1]);
    }
  }

  lemma {:induction false} InsertOrders(log: nat -> real, m: Market, p: Product, sorted: seq<Product>)
    requires InOrder(log, m, sorted)
    ensures InOrder(log, m, Insert(log, m, p, sorted))
  {
    hide Ahead, InOrder;
    if |sorted| == 0 {
      NothingInOrder(log, m);
      assert sorted == [];
      ConsInOrder(log, m, p, sorted);
    } else if Ahead(log, m, sorted[0], p) {
      var rest := Insert(log, m, p, sorted[1..]);
      TailInOrder(log, m, sorted);
      InsertOrders(log, m, p, sorted[1..]);
      InsertKeeps(log, m, p, sorted[1..]);
      AheadAsymmetric(log, m, sorted[0], p);
      forall q | q in rest ensures !Ahead(log, m, q, sorted[0]) {
        assert q in multiset(rest);
        NotAheadOfHead(log, m, sorted, q);
      }
      ConsInOrder(log, m, sorted[0], rest);
    } else {
      forall q | q in sorted ensures !Ahead(log, m, q, p) {
        NotAheadOfHead(log, m, sorted, q);
        if Ahead(log, m, q, p) {
          NotAheadTransitive(log, m, p, sorted[0], q);
        }
      }
      ConsInOrder(log, m, p, sorted);
    }
  }

  lemma NotAheadOfHead(log: nat -> real, m: Market, sorted: seq<Product>, q: Product)
    requires InOrder(log, m, sorted) && |sorted| > 0
    ensures q in sorted ==> !Ahead(log, m, q, sorted[0])
  {
    hide Before, Calculate;
    BeforeTotal(KeyOf(Rank(log, m, q)), KeyOf(Rank(log, m, q)));
  }

  lemma AheadAsymmetric(log: nat -> real, m: Market, p: Product, q: Product)
    ensures !(Ahead(log, m, p, q) && Ahead(log, m, q, p))
  {
    BeforeTotal(KeyOf(Rank(log, m, p)), KeyOf(Rank(log, m, q)));
  }

  /** If `b` is not ahead of `a` and `c` is not ahead of `b`, then `c` is not ahead of `a`. */
  lemma NotAheadTransitive(log: nat -> real, m: Market, a: Product, b: Product, c: Product)
    requires !Ahead(log, m, b, a) && !Ahead(log, m, c, b)
    ensures !Ahead(log, m, c, a)
  {
    hide Before, Calculate;
    var ka, kb, kc := KeyOf(Rank(log, m, a)), KeyOf(Rank(log, m, b)), KeyOf(Rank(log, m, c));
    BeforeTotal(ka, kb);
    BeforeTotal(kb, kc);
    BeforeTotal(ka, kc);
    if Before(ka, kb) && Before(kb, kc) {
      BeforeTransitive(ka, kb, kc);
    }
  }

  /** The sort returns the same products in key order. */
  lemma {:induction false} SortedCorrect(log: nat -> real, m: Market, ps: seq<Product>)
    ensures InOrder(log, m, Sorted(log, m, ps)) && SameProducts(Sorted(log, m, ps), ps)
  {
    hide Insert, InOrder;
    if |ps| == 0 {
      NothingInOrder(log, m);
      assert Sorted(log, m, ps) == ps;
    } else {
      SortedCorrect(log, m, ps[1..]);
      var tail := Sorted(log, m, ps[1..]);
      InsertOrders(log, m, ps[0], tail);
      InsertKeeps(log, m, ps[0], tail);
      HeadAndTail(ps);
    }
  }

  lemma NothingInOrder(log: nat -> real, m: Market)
    ensures InOrder(log, m, [])
  {
  }

  lemma HeadAndTail(ps: seq<Product>)
    requires |ps| > 0
    ensures multiset(ps) == multiset(ps[1..]) + multiset{ps[0]}
  {
    assert ps == [ps[0]] + ps[1..];
  }

  /** Ids are primary keys: equal ids mean the same product. */
  predicate KeyedById(ps: seq<Product>) {
    forall p, q :: p in ps && q in ps && p.id == q.id ==> p == q
  }

  /** Sorted sequences of the same products are equal, because the key ends in a unique id. */
  lemma {:induction false} SortedUnique(log: nat -> real, m: Market, xs: seq<Product>, ys: seq<Product>)
    requires SameProducts(xs, ys) && KeyedById(xs) && InOrder(log, m, xs) && InOrder(log, m, ys)
    ensures xs == ys
    decreases |xs|
  {
    hide Ahead, KeyedById, InOrder;
    SameMembers(xs, ys);
    if |xs| > 0 {
      HeadsEqual(log, m, xs, ys);
      TailOk(log, m, xs);
      SameKeys(xs, ys);
      TailOk(log, m, ys);
      SortedUnique(log, m, xs[1..], ys[1..]);
      assert xs == [xs[0]] + xs[1..] && ys == [ys[0]] + ys[1..];
    }
  }

  lemma TailOk(log: nat -> real, m: Market, ps: seq<Product>)
    requires |ps| > 0 && InOrder(log, m, ps) && KeyedById(ps)
    ensures InOrder(log, m, ps[1..]) && KeyedById(ps[1..])
    ensures multiset(ps[1..]) == multiset(ps) - multiset{ps[0]}
  {
    TailInOrder(log, m, ps);
    HeadAndTail(ps);
    assert forall p :: p in ps[1..] ==> p in ps;
  }

  lemma TailInOrder(log: nat -> real, m: Market, ps: seq<Product>)
    requires |ps| > 0 && InOrder(log, m, ps)
    ensures InOrder(log, m, ps[1..])
  {
    hide Ahead;
    var tail := ps[1..];
    assert forall i :: 0 <= i < |tail| ==> tail[i] == ps[i + 1];
  }

  lemma SameKeys(xs: seq<Product>, ys: seq<Product>)
    requires SameProducts(xs, ys) && KeyedById(xs)
    ensures KeyedById(ys)
  {
    SameMembers(xs, ys);
  }

  lemma HeadsEqual(log: nat -> real, m: Market, xs: seq<Product>, ys: seq<Product>)
    requires |xs| > 0 && |ys| > 0 && xs[0] in ys && ys[0] in xs && KeyedById(xs)
    requires InOrder(log, m, xs) && InOrder(log, m, ys)
    ensures xs[0] == ys[0]
  {
    hide Before, Calculate;
    var x, y := xs[0], ys[0];
    var i :| 0 <= i < |xs| && xs[i] == y;
    var j :| 0 <= j < |ys| && ys[j] == x;
    BeforeTotal(KeyOf(Rank(log, m, x)), KeyOf(Rank(log, m, y)));
    assert i == 0 || !Ahead(log, m, xs[i], xs[0]);
    assert j == 0 || !Ahead(log, m, ys[j], ys[0]);
  }

  // ---- recommend ----

  datatype Item = Item(rank: nat, product: Product, score: Score)

  function ToItems(log: nat -> real, m: Market, ps: seq<Product>): (r: seq<Item>)
    ensures |r| == |ps|
  {
    seq(|ps|, i requires 0 <= i < |ps| => Item(i + 1, ps[i], Calculate(log, AttributesOf(ps[i]), m)))
  }

  function TopN(ps: seq<Product>, n: nat): seq<Product> {
    if n < |ps| then ps[..n] else ps
  }

  /** The items `recommend` returns for the filtered candidates. */
  function Recommended(log: nat -> real, candidates: seq<Product>, topN: nat): seq<Item> {
    if |candidates| == 0 then []
    else
      var m := MarketOf(candidates);
      ToItems(log, m, TopN(Sorted(log, m, candidates), topN))
  }

  /** `RecommendationService.recommend` after the filters. */
  method Recommend(log: nat -> real, candidates: seq<Product>, topN: nat) returns (items: seq<Item>)
    ensures items == Recommended(log, candidates, topN)
  {
    hide MarketOf, Sorted, Calculate;
    if |candidates| == 0 {
      return [];
    }
    var m := MarketOf(candidates);
    var selected := TopN(Sorted(log, m, candidates), topN);
    items := [];
    for i := 0 to |selected|
      invariant |items| == i
      invariant forall k :: 0 <= k < i ==> items[k] == Item(k + 1, selected[k], Calculate(log, AttributesOf(selected[k]), m))
    {
      items := items + [Item(i + 1, selected[i], Calculate(log, AttributesOf(selected[i]), m))];
    }
  }

  /** The response is the same for every order in which the candidate rows arrive. */
  lemma {:induction false} OrderDoesNotMatter(log: nat -> real, ps: seq<Product>, qs: seq<Product>, topN: nat)
    requires SameProducts(ps, qs) && KeyedById(ps)
    ensures Recommended(log, ps, topN) == Recommended(log, qs, topN)
  {
    hide Sorted, MarketOf, ToItems, InOrder;
    SameMembers(ps, qs);
    if |ps| > 0 {
      MarketIgnoresOrder(ps, qs);
      var m := MarketOf(ps);
      SortedCorrect(log, m, ps);
      SortedCorrect(log, m, qs);
      SameMembers(Sorted(log, m, ps), ps);
      SortedUnique(log, m, Sorted(log, m, ps), Sorted(log, m, qs));
    }
  }

  /**
   * At least as good in everything, and strictly better in something the key breaks ties by. A missing
   * commission counts as -1, so among commissions that are not negative it is the lowest.
   */
  predicate ClearlyBetter(b: Product, a: Product) {
    && a.rating <= b.rating && a.sales <= b.sales && a.discount <= b.discount
    && CommissionKey(a) <= CommissionKey(b) && b.price <= a.price
    && (a.rating < b.rating || a.sales < b.sales || CommissionKey(a) < CommissionKey(b) || b.price < a.price)
  }

  /** A clearly better product ranks strictly ahead, although the score is rounded. */
  lemma {:induction false} DominanceRanksAhead(log: nat -> real, m: Market, a: Product, b: Product)
    requires LogLike(log) && m.minPrice <= m.maxPrice
    requires ClearlyBetter(b, a)
    ensures Ahead(log, m, b, a)
  {
    hide Calculate, LogLike;
    ScoreMonotone(log, AttributesOf(a), AttributesOf(b), m);
  }

  /** In the sorted candidates every copy of the clearly better product comes before the other. */
  lemma {:induction false} DominanceInResult(log: nat -> real, candidates: seq<Product>, a: Product, b: Product)
    requires LogLike(log) && |candidates| > 0 && ClearlyBetter(b, a)
    ensures var r := Sorted(log, MarketOf(candidates), candidates);
      forall i, j :: 0 <= i < |r| && 0 <= j < |r| && r[i] == b && r[j] == a ==> i < j
  {
    hide Sorted, Ahead, LogLike;
    var m := MarketOf(candidates);
    var r := Sorted(log, m, candidates);
    assert m.minPrice <= m.maxPrice by {
      assert candidates[0] in candidates;
    }
    SortedCorrect(log, m, candidates);
    DominanceRanksAhead(log, m, a, b);
    AheadAsymmetric(log, m, b, a);
  }

  // ---- The score comes first ----

  function Total(log: nat -> real, m: Market, p: Product): real {
    Calculate(log, AttributesOf(p), m).total
  }

  /** Rating, then sales, then commission with none below any rate, then the lower price. */
  predicate TieBroken(a: Product, b: Product) {
    || a.rating > b.rating
    || (a.rating == b.rating && a.sales > b.sales)
    || (a.rating == b.rating && a.sales == b.sales &&
        var x, y := (if a.commission.Some? then a.commission.value else -1.0), (if b.commission.Some? then b.commission.value else -1.0);
        x > y || (x == y && a.price < b.price))
  }

  predicate Tied(a: Product, b: Product) {
    a.rating == b.rating && a.sales == b.sales && a.price == b.price
    && (if a.commission.Some? then a.commission.value else -1.0) == (if b.commission.Some? then b.commission.value else -1.0)
  }

  /** A higher score ranks ahead, whatever else; equal scores are told apart by the products, at last by id. */
  lemma AheadBy(log: nat -> real, m: Market, a: Product, b: Product)
    ensures Total(log, m, a) > Total(log, m, b) ==> Ahead(log, m, a, b)
    ensures Total(log, m, a) == Total(log, m, b) && TieBroken(a, b) ==> Ahead(log, m, a, b)
    ensures Total(log, m, a) == Total(log, m, b) && Tied(a, b) && a.aliexpressId == b.aliexpressId ==>
      (Ahead(log, m, a, b) <==> LexLess(a.id, b.id))
  {
    hide Calculate, LexLess;
    if a.aliexpressId == b.aliexpressId {
      var key := KeyOf(Rank(log, m, a));
      LexTotal(key.alias, key.alias);
    }
  }

  /**
   * The response lists candidates with their own scores, ranked 1, 2, 3, ... by score: no later item and no
   * candidate left out scores more, and nobody is left out while there is room.
   */
  lemma {:induction false} RecommendedByScore(log: nat -> real, candidates: seq<Product>, topN: nat)
    requires |candidates| > 0
    ensures var m, items := MarketOf(candidates), Recommended(log, candidates, topN);
      && |items| == (if topN < |candidates| then topN else |candidates|)
      && (forall i :: 0 <= i < |items| ==>
            items[i].rank == i + 1 && items[i].product in candidates
            && items[i].score == Calculate(log, AttributesOf(items[i].product), m))
      && (forall i, j :: 0 <= i < j < |items| ==> items[j].score.total <= items[i].score.total)
  {
    hide Sorted, Calculate, MarketOf, InOrder, SameProducts, Ahead;
    var m := MarketOf(candidates);
    var sorted, items := Sorted(log, m, candidates), Recommended(log, candidates, topN);
    SortedCorrect(log, m, candidates);
    SameMembers(sorted, candidates);
    forall i, j | 0 <= i < j < |items| ensures items[j].score.total <= items[i].score.total {
      InOrderAt(log, m, sorted, i, j);
      AheadBy(log, m, sorted[j], sorted[i]);
    }
  }

  lemma InOrderAt(log: nat -> real, m: Market, ps: seq<Product>, i: nat, j: nat)
    requires InOrder(log, m, ps) && i < j < |ps|
    ensures !Ahead(log, m, ps[j], ps[i])
  {
  }

  lemma ItemAt(log: nat -> real, candidates: seq<Product>, topN: nat, i: nat)
    requires |candidates| > 0 && i < |Recommended(log, candidates, topN)|
    ensures var sorted := Sorted(log, MarketOf(candidates), candidates);
      i < |sorted| && Recommended(log, candidates, topN)[i].product == sorted[i]
  {
    hide Sorted, Calculate, MarketOf;
  }

  /** A candidate that is not returned scores no more than any item that is. */
  lemma {:induction false} LeftOutScoresNoMore(log: nat -> real, candidates: seq<Product>, topN: nat, p: Product)
    requires p in candidates
    requires var items := Recommended(log, candidates, topN); forall i :: 0 <= i < |items| ==> items[i].product != p
    ensures var m, items := MarketOf(candidates), Recommended(log, candidates, topN);
      forall i :: 0 <= i < |items| ==> Total(log, m, p) <= items[i].score.total
  {
    hide Sorted, Calculate, MarketOf, InOrder, SameProducts, Ahead;
    var m := MarketOf(candidates);
    var sorted, items := Sorted(log, m, candidates), Recommended(log, candidates, topN);
    SortedCorrect(log, m, candidates);
    SameMembers(sorted, candidates);
    var k :| 0 <= k < |sorted| && sorted[k] == p;
    if k < |items| {
      ItemAt(log, candidates, topN, k);
    }
    forall i | 0 <= i < |items| ensures Total(log, m, p) <= items[i].score.total {
      InOrderAt(log, m, sorted, i, k);
      AheadBy(log, m, p, sorted[i]);
    }
  }

  /** What a product is worth among candidates priced from `min` to `max` with top sales `top`, before rounding. */
  function Worth(log: nat -> real, p: Product, min: real, max: real, top: nat): real
    requires p.sales >= 0 && min < max
  {
    6.0 * p.rating + (if log(top) == 0.0 then 0.0 else 20.0 * (log(p.sales) / log(top))) + 0.15 * p.discount
    + (if p.commission.Some? then 0.25 * p.commission.value else 0.0) + 10.0 * ((max - p.price) / (max - min))
  }

  /** An item's score is its product's worth among the candidates, up to the rounding of the five contributions. */
  lemma {:induction false} ItemsScoreTheirWorth(log: nat -> real, candidates: seq<Product>, topN: nat, i: nat)
    requires LogLike(log) && i < |Recommended(log, candidates, topN)|
    requires var p := Recommended(log, candidates, topN)[i].product;
      && 0.0 <= p.rating <= 5.0 && 0 < p.sales && 0.0 <= p.discount <= 100.0
      && (p.commission.Some? ==> 0.0 <= p.commission.value <= 100.0)
    requires MinPrice(candidates) < MaxPrice(candidates)
    ensures var item := Recommended(log, candidates, topN)[i];
      Close(item.score.total,
            Worth(log, item.product, MinPrice(candidates), MaxPrice(candidates), MaxSales(candidates)), 0.00025)
  {
    hide Calculate, Sorted, MinPrice, MaxPrice, MaxSales, LogLike, Close, Recommended, Exact, Worth;
    RecommendedByScore(log, candidates, topN);
    var p, m := Recommended(log, candidates, topN)[i].product, MarketOf(candidates);
    assert Sound(AttributesOf(p), m);
    ScoreMeasures(log, AttributesOf(p), m);
    WorthIsExact(log, p, m);
  }

  lemma WorthIsExact(log: nat -> real, p: Product, m: Market)
    requires Sound(AttributesOf(p), m)
    ensures Worth(log, p, m.minPrice, m.maxPrice, m.maxSales) == Exact(log, AttributesOf(p), m)
  {
  }
}
