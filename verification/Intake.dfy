/**
 Order intake: reject duplicate lines, reserve the cart's key, price the lines, sort them,
 persist, hand off. What the product query returns, the new payment key, the clock and the
 errors of the stores are parameters; the hash is an arbitrary function.
 */
module Intake {
  import opened Orders
  import opened Sorting
  import opened CartKey
  import opened Dedup
  import opened Repository

  datatype Response =
    | Accepted(oid: nat)
    | DuplicateLineItem
    | DuplicateOrder
    | ProductsUnavailable
    | ProductNotFound(product: int)
    | NotPersisted(reason: CreateResult)

  function ItemProduct(): Item -> int {
    (i: Item) => i.product
  }

  function Price(l: Line, prices: map<int, int>): Item {
    Item(l.product, l.quantity, if l.product in prices then prices[l.product] else 0)
  }

  function Priced(ls: seq<Line>, prices: map<int, int>): seq<Item> {
    if ls == [] then [] else Priced(ls[..|ls| - 1], prices) + [Price(ls[|ls| - 1], prices)]
  }

  /** The draft intake has to build: the priced lines in strictly ascending product order, and the total twice. */
  ghost predicate IsDraft(d: Draft, user: int, ls: seq<Line>, prices: map<int, int>, key: string) {
    && d.user == user && d.key == key
    && Ascending(d.items)
    && multiset(d.items) == multiset(Priced(ls, prices))
    && d.total == Bill(d.items) && d.amount == d.total
  }

  /** Each line keeps its product and quantity and carries the price the product query gave. */
  lemma {:induction false} PricedAt(ls: seq<Line>, prices: map<int, int>)
    ensures |Priced(ls, prices)| == |ls|
    ensures forall i :: 0 <= i < |ls| ==> Priced(ls, prices)[i] == Price(ls[i], prices)
    ensures forall i :: 0 <= i < |ls| ==>
              && Priced(ls, prices)[i].product == ls[i].product && Priced(ls, prices)[i].quantity == ls[i].quantity
              && (ls[i].product in prices ==> Priced(ls, prices)[i].price == prices[ls[i].product])
  {
    if ls != [] {
      PricedAt(ls[..|ls| - 1], prices);
    }
  }

  lemma PricedSnoc(ls: seq<Line>, prices: map<int, int>, i: nat)
    requires i < |ls|
    ensures Priced(ls[..i + 1], prices) == Priced(ls[..i], prices) + [Price(ls[i], prices)]
  {
    assert ls[..i + 1][..i] == ls[..i];
  }

  /** Sorting the priced lines of a cart without duplicates gives strictly ascending products. */
  lemma SortedIsAscending(ls: seq<Line>, prices: map<int, int>)
    requires DistinctProducts(ls)
    ensures Ascending(SortBy(Priced(ls, prices), ItemProduct()))
  {
    var items := Priced(ls, prices);
    PricedAt(ls, prices);
    assert DistinctKeys(items, ItemProduct()) by {
      forall i, j | 0 <= i < j < |items| ensures ItemProduct()(items[i]) != ItemProduct()(items[j]) {
        assert ByProduct()(ls[i]) != ByProduct()(ls[j]);
      }
    }
    var sorted := SortBy(items, ItemProduct());
    DistinctPermuted(items, sorted, ItemProduct());
    forall i, j | 0 <= i < j < |sorted| ensures sorted[i].product < sorted[j].product {
      assert ItemProduct()(sorted[i]) <= ItemProduct()(sorted[j]);
    }
  }

  lemma BillPermutation(a: seq<Item>, b: seq<Item>)
    requires multiset(a) == multiset(b)
    ensures Bill(a) == Bill(b)
  {
    SumPermutation(a, b, LineCost());
    CostIsBill(a);
    CostIsBill(b);
  }

  /** There is only one draft for a cart. */
  lemma DraftUnique(d: Draft, e: Draft, user: int, ls: seq<Line>, prices: map<int, int>, key: string)
    requires IsDraft(d, user, ls, prices, key) && IsDraft(e, user, ls, prices, key)
    ensures d == e
  {
    OrderedUnique(d.items, e.items, ItemProduct());
  }

  /** A draft written out: the request's lines at their prices, sorted, and what they cost. */
  lemma DraftMeans(d: Draft, user: int, ls: seq<Line>, prices: map<int, int>, key: string)
    requires IsDraft(d, user, ls, prices, key) && AllKnown(ls, prices)
    ensures |d.items| == |ls|
    ensures forall i :: 0 <= i < |ls| ==> Item(ls[i].product, ls[i].quantity, prices[ls[i].product]) in d.items
    ensures forall i, j :: 0 <= i < j < |d.items| ==> d.items[i].product < d.items[j].product
    ensures BilledRight(d)
  {
    PricedAt(ls, prices);
    var priced := Priced(ls, prices);
    assert |multiset(d.items)| == |multiset(priced)|;
    forall i | 0 <= i < |ls| ensures Item(ls[i].product, ls[i].quantity, prices[ls[i].product]) in d.items {
      assert priced[i] in multiset(priced);
      assert priced[i] in multiset(d.items);
    }
  }

  /** The first line, in the order of the request, that has no product. */
  predicate FirstUnknown(ls: seq<Line>, prices: map<int, int>, p: int) {
    exists i :: 0 <= i < |ls| && ls[i].product == p && p !in prices &&
                forall j :: 0 <= j < i ==> ls[j].product in prices
  }

  predicate AllKnown(ls: seq<Line>, prices: map<int, int>) {
    forall i :: 0 <= i < |ls| ==> ls[i].product in prices
  }

  lemma FoundUnknown(ls: seq<Line>, prices: map<int, int>, i: nat)
    requires i < |ls| && AllKnown(ls[..i], prices) && ls[i].product !in prices
    ensures FirstUnknown(ls, prices, ls[i].product) && !AllKnown(ls, prices)
  {
    assert forall j :: 0 <= j < i ==> ls[..i][j] == ls[j];
  }

  /** Order oid was placed: the tables changed by one accepted draft of this cart and nothing else. */
  ghost predicate Placed(users: set<int>, before: Db, after: Db, oid: nat, user: int, ls: seq<Line>,
                         prices: map<int, int>, key: string) {
    && AllKnown(ls, prices)
    && exists d, pid :: IsDraft(d, user, ls, prices, key) && Accepts(users, before, d) &&
                        oid !in before.orders && pid !in before.payments && after == Created(before, oid, pid, d)
  }

  /** The order a call placed, written out. */
  ghost predicate OnFile(db: Db, oid: nat, user: int, ls: seq<Line>, prices: map<int, int>, key: string) {
    && oid in db.orders && oid in db.items
    && db.orders[oid] == Order(user, OrderPending, Bill(db.items[oid]))
    && |db.items[oid]| == |ls|
    && (forall i :: 0 <= i < |ls| ==>
          && ls[i].product in prices
          && Item(ls[i].product, ls[i].quantity, prices[ls[i].product]) in db.items[oid])
    && (forall i, j :: 0 <= i < j < |db.items[oid]| ==> db.items[oid][i].product < db.items[oid][j].product)
    && (exists pid :: pid in db.payments &&
                      db.payments[pid] == Payment(oid, key, PaymentPending, Bill(db.items[oid]), None))
  }

  lemma PlacedIsOnFile(users: set<int>, before: Db, after: Db, oid: nat, user: int, ls: seq<Line>,
                       prices: map<int, int>, key: string)
    requires Placed(users, before, after, oid, user, ls, prices, key)
    ensures OnFile(after, oid, user, ls, prices, key)
  {
    var d, pid :| IsDraft(d, user, ls, prices, key) && Accepts(users, before, d) &&
                  oid !in before.orders && pid !in before.payments && after == Created(before, oid, pid, d);
    DraftMeans(d, user, ls, prices, key);
    CreatedRows(before, oid, pid, d);
    assert pid in after.payments;
  }

  /** The cart's draft is one the repository accepts as the tables stand. */
  ghost predicate Placeable(users: set<int>, before: Db, user: int, ls: seq<Line>, prices: map<int, int>, key: string) {
    AllKnown(ls, prices) && exists d :: IsDraft(d, user, ls, prices, key) && Accepts(users, before, d)
  }

  /** A hash without collisions. */
  ghost predicate Injective(hash: string -> string) {
    forall x, y :: hash(x) == hash(y) ==> x == y
  }

  /** A reservation that was made and has not been released: whose cart, and when. */
  datatype Claim = Claim(user: int, lines: seq<Line>, at: nat)

  ghost predicate SameCart(cl: Claim, user: int, ls: seq<Line>) {
    cl.user == user && multiset(cl.lines) == multiset(ls)
  }

  /** The store holds exactly the claims' keys, each until its claim runs out. */
  ghost predicate Tracks(keyOf: Claim -> string, claims: map<string, Claim>, expiry: map<string, nat>) {
    && claims.Keys == expiry.Keys
    && forall key :: key in claims ==>
         DistinctProducts(claims[key].lines) && keyOf(claims[key]) == key && claims[key].at + TTL == expiry[key]
  }

  lemma TracksPut(keyOf: Claim -> string, claims: map<string, Claim>, expiry: map<string, nat>, cl: Claim)
    requires Tracks(keyOf, claims, expiry) && DistinctProducts(cl.lines)
    ensures Tracks(keyOf, claims[keyOf(cl) := cl], expiry[keyOf(cl) := cl.at + TTL])
    ensures Tracks(keyOf, claims - {keyOf(cl)}, expiry - {keyOf(cl)})
  {
  }

  /** Keys are the same exactly for the same cart. */
  ghost predicate TellsApart(keyOf: Claim -> string) {
    forall a: Claim, b: Claim :: DistinctProducts(a.lines) && DistinctProducts(b.lines) ==>
      (keyOf(a) == keyOf(b) <==> SameCart(a, b.user, b.lines))
  }

  /** If keys tell carts apart, a key is held exactly when a claim on the same cart has not run out. */
  lemma HeldIffClaimed(keyOf: Claim -> string, claims: map<string, Claim>, expiry: map<string, nat>, cl: Claim)
    requires TellsApart(keyOf) && Tracks(keyOf, claims, expiry) && DistinctProducts(cl.lines)
    ensures HeldAt(expiry, keyOf(cl), cl.at) <==>
              exists k :: k in claims && claims[k].user == cl.user &&
                          multiset(claims[k].lines) == multiset(cl.lines) && cl.at < claims[k].at + 300_000
  {
    var key := keyOf(cl);
    if HeldAt(expiry, key, cl.at) {
      assert key in claims && SameCart(claims[key], cl.user, cl.lines);
    }
  }

  /** One of the first n lines is for product p. */
  predicate SeenBefore(ls: seq<Line>, n: nat, p: int) {
    exists j :: 0 <= j < n && j < |ls| && ls[j].product == p
  }

  class OrderService {
    const repo: OrderRepository
    const store: RedisStore
    const hash: string -> string
    var handedOff: seq<nat>
    ghost var claims: map<string, Claim>  // the latest claim under each key held

    constructor (repo: OrderRepository, store: RedisStore, hash: string -> string)
      ensures this.repo == repo && this.store == store && this.hash == hash && handedOff == [] && claims == map[]
      ensures store.expiry == map[] ==> Tracked()
    {
      this.repo, this.store, this.hash := repo, store, hash;
      handedOff := [];
      claims := map[];
    }

    function KeyOf(user: int, ls: seq<Line>): string {
      hash(CartText(user, ls))
    }

    /** With a hash without collisions, two carts share a key exactly when user and lines agree, in any order. */
    lemma KeyIffSameCart(u: int, a: seq<Line>, v: int, b: seq<Line>)
      requires Injective(hash) && DistinctProducts(a) && DistinctProducts(b)
      ensures KeyOf(u, a) == KeyOf(v, b) <==> u == v && multiset(a) == multiset(b)
    {
      SameTextIffSameCart(u, a, v, b);
    }

    ghost function ClaimKey(): Claim -> string {
      (cl: Claim) => KeyOf(cl.user, cl.lines)
    }

    ghost predicate Tracked()
      reads this, store
    {
      Tracks(ClaimKey(), claims, store.expiry)
    }

    lemma ClaimKeyTells()
      requires Injective(hash)
      ensures TellsApart(ClaimKey())
    {
      forall a: Claim, b: Claim | DistinctProducts(a.lines) && DistinctProducts(b.lines)
        ensures ClaimKey()(a) == ClaimKey()(b) <==> SameCart(a, b.user, b.lines)
      {
        KeyIffSameCart(a.user, a.lines, b.user, b.lines);
      }
    }

    lemma TracksHere(claims: map<string, Claim>, expiry: map<string, nat>, user: int, ls: seq<Line>, now: nat)
      requires Tracks(ClaimKey(), claims, expiry) && DistinctProducts(ls)
      ensures Tracks(ClaimKey(), claims[KeyOf(user, ls) := Claim(user, ls, now)], expiry[KeyOf(user, ls) := now + TTL])
      ensures Tracks(ClaimKey(), claims - {KeyOf(user, ls)}, expiry - {KeyOf(user, ls)})
    {
      var cl := Claim(user, ls, now);
      assert ClaimKey()(cl) == KeyOf(user, ls);
      TracksPut(ClaimKey(), claims, expiry, cl);
    }

    lemma HeldHere(claims: map<string, Claim>, expiry: map<string, nat>, user: int, ls: seq<Line>, now: nat)
      requires TellsApart(ClaimKey()) && Tracks(ClaimKey(), claims, expiry) && DistinctProducts(ls)
      ensures HeldAt(expiry, KeyOf(user, ls), now) <==>
                exists k :: k in claims && claims[k].user == user && multiset(claims[k].lines) == multiset(ls) &&
                            now < claims[k].at + 300_000
    {
      var cl := Claim(user, ls, now);
      assert ClaimKey()(cl) == KeyOf(user, ls);
      HeldIffClaimed(ClaimKey(), claims, expiry, cl);
    }

    static method HasDuplicate(ls: seq<Line>) returns (dup: bool)
      ensures dup <==> exists i, j :: 0 <= i < j < |ls| && ls[i].product == ls[j].product
    {
      var seen: set<int> := {};
      for i := 0 to |ls|
        invariant forall p :: p in seen <==> SeenBefore(ls, i, p)
        invariant forall j, k :: 0 <= j < k < i ==> ls[j].product != ls[k].product
      {
        if ls[i].product in seen {
          return true;
        }
        seen := seen + {ls[i].product};
      }
      return false;
    }

    /** Appends a line and adds what it costs. */
    static method AddLine(items: seq<Item>, total: int, item: Item) returns (more: seq<Item>, sum: int)
      requires total == Bill(items)
      ensures more == items + [item] && sum == Bill(more) && sum == total + item.price * item.quantity
    {
      BillSnoc(items, item);
      more, sum := items + [item], total + item.price * item.quantity;
    }

    /** Prices the lines and adds up the total; stops at the first line whose product was not found. */
    static method Build(ls: seq<Line>, prices: map<int, int>)
        returns (missing: Option<int>, items: seq<Item>, total: int)
      ensures missing.None? <==> AllKnown(ls, prices)
      ensures missing.Some? ==> FirstUnknown(ls, prices, missing.value)
      ensures missing.None? ==> items == Priced(ls, prices) && total == Bill(items)
    {
      items, total := [], 0;
      for i := 0 to |ls|
        invariant AllKnown(ls[..i], prices)
        invariant items == Priced(ls[..i], prices)
        invariant total == Bill(items)
      {
        if ls[i].product !in prices {
          FoundUnknown(ls, prices, i);
          return Some(ls[i].product), items, total;
        }
        PricedSnoc(ls, prices, i);
        items, total := AddLine(items, total, Item(ls[i].product, ls[i].quantity, prices[ls[i].product]));
      }
      assert ls[..|ls|] == ls;
      missing := None;
    }

    static method Prepare(user: int, ls: seq<Line>, prices: map<int, int>, paymentKey: string)
        returns (missing: Option<int>, d: Draft)
      requires DistinctProducts(ls)
      ensures missing.None? <==> AllKnown(ls, prices)
      ensures missing.Some? ==> FirstUnknown(ls, prices, missing.value)
      ensures missing.None? ==> IsDraft(d, user, ls, prices, paymentKey)
    {
      var items, total;
      missing, items, total := Build(ls, prices);
      var sorted := SortBy(items, ItemProduct());
      d := Draft(user, sorted, total, paymentKey, total);
      if missing.None? {
        SortedIsAscending(ls, prices);
        BillPermutation(items, sorted);
      }
    }

    /** Everything after the key is reserved, up to the hand-off. */
    method Place(user: int, ls: seq<Line>, products: Option<map<int, int>>, paymentKey: string, faultAt: Option<nat>)
        returns (r: Response)
      requires repo.Valid() && DistinctProducts(ls)
      modifies repo
      ensures repo.Valid()
      ensures !r.DuplicateLineItem? && !r.DuplicateOrder?
      ensures !r.Accepted? ==> repo.Rows() == old(repo.Rows())
      ensures r == ProductsUnavailable <==> products == None
      ensures r.ProductNotFound? ==> products.Some? && FirstUnknown(ls, products.value, r.product)
      ensures products.Some? && !AllKnown(ls, products.value) ==> r.ProductNotFound?
      ensures faultAt == None && products.Some? &&
              Placeable(repo.users, old(repo.Rows()), user, ls, products.value, paymentKey) ==>
                r.Accepted?
      ensures r.Accepted? ==>
                products.Some? && Placed(repo.users, old(repo.Rows()), repo.Rows(), r.oid, user, ls, products.value,
                                         paymentKey)
      ensures r.Accepted? ==> OnFile(repo.Rows(), r.oid, user, ls, products.value, paymentKey)
    {
      if products.None? {
        return ProductsUnavailable;
      }
      var missing, d := Prepare(user, ls, products.value, paymentKey);
      if missing.Some? {
        return ProductNotFound(missing.value);
      }
      forall e | IsDraft(e, user, ls, products.value, paymentKey) ensures e == d {
        DraftUnique(d, e, user, ls, products.value, paymentKey);
      }
      var created := repo.CreateOrder(d, faultAt);
      if !created.Inserted? {
        return NotPersisted(created);
      }
      PlacedIsOnFile(repo.users, old(repo.Rows()), repo.Rows(), created.oid, user, ls, products.value, paymentKey);
      return Accepted(created.oid);
    }

    /** Refuses duplicate lines and carts whose key is held; otherwise the key is reserved, unless the store errs. */
    method Admit(user: int, ls: seq<Line>, now: nat, reserveFault: bool)
        returns (refused: Option<Response>, key: string)
      modifies store, `claims
      ensures key == KeyOf(user, ls)
      ensures refused == Some(DuplicateLineItem) <==> !DistinctProducts(ls)
      ensures refused == Some(DuplicateOrder) <==>
                DistinctProducts(ls) && !reserveFault && HeldAt(old(store.expiry), key, now)
      ensures refused == None || refused == Some(DuplicateLineItem) || refused == Some(DuplicateOrder)
      ensures store.expiry ==
              if refused.Some? || reserveFault then old(store.expiry) else old(store.expiry)[key := now + TTL]
      ensures claims == if refused.Some? || reserveFault then old(claims) else old(claims)[key := Claim(user, ls, now)]
    {
      var text := WriteCart(user, ls);
      key := hash(text);
      var dup := HasDuplicate(ls);
      DistinctMeans(ls);
      if dup {
        return Some(DuplicateLineItem), key;
      }
      var acquired, err := store.Reserve(key, now, TTL, reserveFault);
      if !err && !acquired {
        return Some(DuplicateOrder), key;
      }
      if acquired {
        claims := claims[key := Claim(user, ls, now)];
      }
      refused := None;
    }

    /** Frees the key, if the store does not err. */
    method Release(key: string, fault: bool)
      modifies store, `claims
      ensures store.expiry == if fault then old(store.expiry) else old(store.expiry) - {key}
      ensures claims == if fault then old(claims) else old(claims) - {key}
    {
      var err := store.Release(key, fault);
      if !err {
        claims := claims - {key};
      }
    }

    /** Admits, places, and then hands off or releases. */
    method Submit(user: int, ls: seq<Line>, products: Option<map<int, int>>, paymentKey: string, now: nat,
                  reserveFault: bool, releaseFault: bool, faultAt: Option<nat>) returns (r: Response)
      requires repo.Valid()
      modifies `handedOff, `claims, repo, store
      ensures repo.Valid()
      ensures r == DuplicateLineItem <==> !DistinctProducts(ls)
      ensures r == DuplicateOrder <==>
                DistinctProducts(ls) && !reserveFault && HeldAt(old(store.expiry), KeyOf(user, ls), now)
      ensures !r.Accepted? ==> repo.Rows() == old(repo.Rows()) && handedOff == old(handedOff)
      ensures r == ProductsUnavailable ==> products == None
      ensures r.ProductNotFound? ==> products.Some? && FirstUnknown(ls, products.value, r.product)
      ensures faultAt == None && products.Some? &&
              Placeable(repo.users, old(repo.Rows()), user, ls, products.value, paymentKey) ==>
                r.Accepted? || r == DuplicateLineItem || r == DuplicateOrder
      ensures r.Accepted? ==>
                && products.Some? && OnFile(repo.Rows(), r.oid, user, ls, products.value, paymentKey)
                && Placed(repo.users, old(repo.Rows()), repo.Rows(), r.oid, user, ls, products.value, paymentKey)
                && handedOff == old(handedOff) + [r.oid]
      ensures var key, refused := KeyOf(user, ls), r == DuplicateLineItem || r == DuplicateOrder;
              if refused then store.expiry == old(store.expiry) && claims == old(claims)
              else if !r.Accepted? && !releaseFault then
                store.expiry == old(store.expiry) - {key} && claims == old(claims) - {key}
              else if reserveFault then store.expiry == old(store.expiry) && claims == old(claims)
              else
                && store.expiry == old(store.expiry)[key := now + TTL]
                && claims == old(claims)[key := Claim(user, ls, now)]
    {
      var refused, key := Admit(user, ls, now, reserveFault);
      if refused.Some? {
        return refused.value;
      }
      r := Place(user, ls, products, paymentKey, faultAt);
      if r.Accepted? {
        handedOff := handedOff + [r.oid];
      } else {
        Release(key, releaseFault);
        PutThenDrop(old(store.expiry), key, now + TTL);
        PutThenDrop(old(claims), key, Claim(user, ls, now));
      }
    }

    /**
     Exactly one order per accepted call, with the request's lines at their prices and a payment of
     what they cost. A duplicate is refused exactly when the same user has claimed the same lines, in
     any order, less than five minutes ago, and touches nothing. Any later failure leaves the tables
     as they were and, if the release goes through, the key free.
     */
    method CreateOrder(user: int, ls: seq<Line>, products: Option<map<int, int>>, paymentKey: string, now: nat,
                       reserveFault: bool, releaseFault: bool, faultAt: Option<nat>) returns (r: Response)
      requires repo.Valid()
      modifies `handedOff, `claims, repo, store
      ensures repo.Valid()
      ensures r == DuplicateLineItem <==> exists i, j :: 0 <= i < j < |ls| && ls[i].product == ls[j].product
      ensures r == DuplicateOrder <==>
                r != DuplicateLineItem && !reserveFault && HeldAt(old(store.expiry), KeyOf(user, ls), now)
      ensures Injective(hash) && old(Tracked()) ==>
                (r == DuplicateOrder <==>
                   r != DuplicateLineItem && !reserveFault &&
                   exists k :: k in old(claims) && old(claims)[k].user == user &&
                               multiset(old(claims)[k].lines) == multiset(ls) && now < old(claims)[k].at + 300_000)
      ensures old(Tracked()) ==> Tracked()
      ensures !r.Accepted? ==> repo.Rows() == old(repo.Rows()) && handedOff == old(handedOff)
      ensures r == ProductsUnavailable ==> products == None
      ensures r.ProductNotFound? ==> products.Some? && FirstUnknown(ls, products.value, r.product)
      ensures faultAt == None && products.Some? &&
              Placeable(repo.users, old(repo.Rows()), user, ls, products.value, paymentKey) ==>
                r.Accepted? || r == DuplicateLineItem || r == DuplicateOrder
      ensures r.Accepted? ==>
                && products.Some? && OnFile(repo.Rows(), r.oid, user, ls, products.value, paymentKey)
                && Placed(repo.users, old(repo.Rows()), repo.Rows(), r.oid, user, ls, products.value, paymentKey)
                && handedOff == old(handedOff) + [r.oid]
      ensures var key, refused := KeyOf(user, ls), r == DuplicateLineItem || r == DuplicateOrder;
              if refused then store.expiry == old(store.expiry) && claims == old(claims)
              else if !r.Accepted? && !releaseFault then
                store.expiry == old(store.expiry) - {key} && claims == old(claims) - {key}
              else if reserveFault then store.expiry == old(store.expiry) && claims == old(claims)
              else
                && store.expiry == old(store.expiry)[key := now + 300_000]
                && claims == old(claims)[key := Claim(user, ls, now)]
    {
      DistinctMeans(ls);
      if Tracked() && DistinctProducts(ls) {
        TracksHere(claims, store.expiry, user, ls, now);
        if Injective(hash) {
          ClaimKeyTells();
          HeldHere(claims, store.expiry, user, ls, now);
        }
      }
      r := Submit(user, ls, products, paymentKey, now, reserveFault, releaseFault, faultAt);
    }
  }

  lemma PutThenDrop<K, V>(m: map<K, V>, k: K, v: V)
    ensures m[k := v] - {k} == m - {k}
  {
  }

  lemma DistinctMeans(ls: seq<Line>)
    ensures DistinctProducts(ls) <==> !exists i, j :: 0 <= i < j < |ls| && ls[i].product == ls[j].product
  {
    if DistinctProducts(ls) {
      forall i, j | 0 <= i < j < |ls| ensures ls[i].product != ls[j].product {
        assert ByProduct()(ls[i]) != ByProduct()(ls[j]);
      }
    }
  }
}
