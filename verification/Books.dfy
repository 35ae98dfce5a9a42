/** The price list of one trade pair as two sorted sides, and the chain of list nodes that stores it. */
module Books {
  import opened Base
  import opened Words
  import opened Orders
  import opened Links

  /** One price with its queue of orders, oldest first, and its aggregate amounts before they are cut to
      a `u128`. `shortBuy` and `extraSell` record how far these are from what the queue wants and offers:
      a cancellation takes off more than the order had left, and what a filled order did not need stays. */
  datatype Level = Level(
    price: Price,
    buy: int,
    sell: int,
    orders: seq<OrderId>,
    shortBuy: int,
    extraSell: int
  )

  /** A level of one order. */
  function LevelOf(price: Price, buy: nat, sell: nat, id: OrderId): Level {
    Level(price, buy, sell, [id], 0, 0)
  }

  /** A level with one more order at the end of its queue. */
  function Joined(l: Level, id: OrderId, sell: nat, buy: nat): Level {
    l.(buy := l.buy + buy, sell := l.sell + sell, orders := l.orders + [id])
  }

  /** Both sides list their best price first. */
  datatype Book = Book(bids: seq<Level>, asks: seq<Level>) {
    function Side(side: OrderType): seq<Level> {
      if side.Buy? then bids else asks
    }

    function WithSide(side: OrderType, levels: seq<Level>): Book {
      if side.Buy? then this.(bids := levels) else this.(asks := levels)
    }
  }

  const EMPTY := Book([], [])

  /** On its side of the book, price `a` is matched before price `b`. */
  predicate Better(side: OrderType, a: Price, b: Price) {
    match side
    case Buy => a > b
    case Sell => a < b
  }

  ghost predicate SideSorted(side: OrderType, levels: seq<Level>) {
    && (forall i :: 0 <= i < |levels| ==> 0 < levels[i].price < U128_MAX)
    && (forall i, j :: 0 <= i < j < |levels| ==> Better(side, levels[i].price, levels[j].price))
  }

  /** Prices strictly increase from the worst bid to the worst ask. */
  ghost predicate Sorted(b: Book) {
    && SideSorted(Buy, b.bids)
    && SideSorted(Sell, b.asks)
    && (b.bids != [] && b.asks != [] ==> b.bids[0].price < b.asks[0].price)
  }

  // ---------- The stored chain: bottom, bids from worst to best, head, asks from best to worst, top ----------

  const BOTTOM := Node(Some(0), 0, 0, [])
  const HEAD := Node(None, 0, 0, [])
  const TOP := Node(Some(U128_MAX), 0, 0, [])

  function NodeOf(l: Level): Node {
    Node(Some(l.price), Wrap(l.buy), Wrap(l.sell), l.orders)
  }

  function NodeAt(b: Book, i: nat): Node
    requires i < |b.bids| + |b.asks| + 3
  {
    if i == 0 then BOTTOM
    else if i <= |b.bids| then NodeOf(b.bids[|b.bids| - i])
    else if i == |b.bids| + 1 then HEAD
    else if i < |b.bids| + |b.asks| + 2 then NodeOf(b.asks[i - |b.bids| - 2])
    else TOP
  }

  function Chain(b: Book): (chain: seq<Node>)
    ensures |chain| == |b.bids| + |b.asks| + 3
    ensures forall i :: 0 <= i < |chain| ==> chain[i] == NodeAt(b, i)
  {
    seq(|b.bids| + |b.asks| + 3, i requires 0 <= i < |b.bids| + |b.asks| + 3 => NodeAt(b, i))
  }

  /** Where level `i` of a side sits in the chain. */
  function Position(b: Book, side: OrderType, i: nat): nat
    requires i < |b.Side(side)|
  {
    if side.Buy? then |b.bids| - i else |b.bids| + 2 + i
  }

  /** The chain index after which a level inserted at index `i` of a side goes. */
  function InsertionPoint(b: Book, side: OrderType, i: nat): nat
    requires i <= |b.Side(side)|
  {
    if side.Buy? then |b.bids| - i else |b.bids| + 1 + i
  }

  lemma ChainReplace(b: Book, side: OrderType, i: nat, l: Level)
    requires i < |b.Side(side)|
    ensures Chain(b.WithSide(side, b.Side(side)[i := l])) == Chain(b)[Position(b, side, i) := NodeOf(l)]
  {
  }

  lemma ChainWithout(b: Book, side: OrderType, i: nat)
    requires i < |b.Side(side)|
    ensures Chain(b.WithSide(side, Without(b.Side(side), i))) == Without(Chain(b), Position(b, side, i))
  {
  }

  lemma ChainWith(b: Book, side: OrderType, i: nat, l: Level)
    requires i <= |b.Side(side)|
    ensures Chain(b.WithSide(side, With(b.Side(side), i, l)))
         == With(Chain(b), InsertionPoint(b, side, i) + 1, NodeOf(l))
  {
    forall k: nat | k < |b.bids| + |b.asks| + 4
      ensures NodeAt(b.WithSide(side, With(b.Side(side), i, l)), k)
           == if k <= InsertionPoint(b, side, i) then NodeAt(b, k)
              else if k == InsertionPoint(b, side, i) + 1 then NodeOf(l) else NodeAt(b, k - 1)
    {
      NodeWith(b, side, i, l, k);
    }
    hide NodeOf, NodeAt;
  }

  lemma NodeWith(b: Book, side: OrderType, i: nat, l: Level, k: nat)
    requires i <= |b.Side(side)| && k < |b.bids| + |b.asks| + 4
    ensures NodeAt(b.WithSide(side, With(b.Side(side), i, l)), k)
         == if k <= InsertionPoint(b, side, i) then NodeAt(b, k)
            else if k == InsertionPoint(b, side, i) + 1 then NodeOf(l) else NodeAt(b, k - 1)
  {
    hide NodeOf;
  }

  // ---------- Representation ----------

  ghost predicate Represents(items: Items, b: Book) {
    Sorted(b) && Linked(items, Chain(b))
  }

  /** The entry that stores level `i` of a side. */
  lemma LevelStored(items: Items, b: Book, side: OrderType, i: nat)
    requires Represents(items, b)
    requires i < |b.Side(side)|
    ensures var l := b.Side(side)[i];
            && Some(l.price) in items
            && items[Some(l.price)] == ItemAt(Chain(b), Position(b, side, i))
            && Chain(b)[Position(b, side, i)] == NodeOf(l)
  {
    assert ChainPlaced(items, Chain(b), Position(b, side, i));
  }

  function HeadPrev(b: Book): Key {
    Some(if b.bids == [] then 0 else b.bids[0].price)
  }

  function HeadNext(b: Book): Key {
    Some(if b.asks == [] then U128_MAX else b.asks[0].price)
  }

  /** The head sentinel is linked to the best price of each side. */
  lemma HeadStored(items: Items, b: Book)
    requires Represents(items, b)
    ensures None in items
    ensures items[None] == PriceItem(HeadPrev(b), HeadNext(b), None, 0, 0, [])
  {
    assert ChainPlaced(items, Chain(b), |b.bids| + 1);
  }

  /** Next to the head, on a side, stands its best price, or the sentinel if the side is empty. */
  lemma BestPrice(items: Items, b: Book, side: OrderType)
    requires Represents(items, b)
    ensures var best := if side.Buy? then HeadPrev(b) else HeadNext(b);
            var end := Some(if side.Buy? then 0 else U128_MAX);
            if b.Side(side) == [] then best == end
            else best == Some(b.Side(side)[0].price) && best != end
  {
  }

  ghost predicate HasLevel(levels: seq<Level>, price: Price) {
    exists i :: 0 <= i < |levels| && levels[i].price == price
  }

  /** Every stored key is a sentinel or the price of a level. */
  lemma StoredKeys(items: Items, b: Book, price: Price)
    requires Represents(items, b)
    requires 0 < price < U128_MAX
    ensures Some(price) in items <==> HasLevel(b.bids, price) || HasLevel(b.asks, price)
  {
    if Some(price) in items {
      var i :| 0 <= i < |Chain(b)| && Chain(b)[i].key == Some(price);
      if i <= |b.bids| {
        assert b.bids[|b.bids| - i].price == price;
      } else {
        assert b.asks[i - |b.bids| - 2].price == price;
      }
    }
    LevelsStored(items, b, Buy, price);
    LevelsStored(items, b, Sell, price);
  }

  lemma LevelsStored(items: Items, b: Book, side: OrderType, price: Price)
    requires Represents(items, b)
    ensures HasLevel(b.Side(side), price) ==> Some(price) in items
  {
    hide Represents, Chain, ItemAt;
    if i :| 0 <= i < |b.Side(side)| && b.Side(side)[i].price == price {
      LevelStored(items, b, side, i);
    }
  }

  /** The three sentinels alone. */
  const INITIAL: Items := map[
    Some(0) := PriceItem(Some(U128_MAX), None, Some(0), 0, 0, []),
    Some(U128_MAX) := PriceItem(None, Some(0), Some(U128_MAX), 0, 0, []),
    None := PriceItem(Some(0), Some(U128_MAX), None, 0, 0, [])]

  lemma InitialRepresents()
    ensures Represents(INITIAL, EMPTY)
  {
    var chain := Chain(EMPTY);
    assert chain == [BOTTOM, HEAD, TOP];
    forall k | k in INITIAL ensures HasKey(chain, k) {
      assert k == chain[0].key || k == chain[1].key || k == chain[2].key;
    }
    forall i | 0 <= i < 3 ensures ChainPlaced(INITIAL, chain, i) {
    }
  }

  // ---------- What the list operations do to the sides ----------

  /** How many levels of a side come before a new one at `price`. */
  function InsertIndex(side: OrderType, levels: seq<Level>, price: Price): (i: nat)
    ensures i <= |levels|
    ensures forall j :: 0 <= j < i ==> Better(side, levels[j].price, price)
    ensures i < |levels| ==> !Better(side, levels[i].price, price)
  {
    if levels == [] || !Better(side, levels[0].price, price) then 0
    else 1 + InsertIndex(side, levels[1..], price)
  }

  lemma InsertIndexUnique(side: OrderType, levels: seq<Level>, price: Price, i: nat)
    requires SideSorted(side, levels)
    requires i <= |levels|
    requires 0 < i ==> Better(side, levels[i - 1].price, price)
    requires i < |levels| ==> !Better(side, levels[i].price, price)
    ensures InsertIndex(side, levels, price) == i
  {
  }

  // A walk along a side from its low end: from bottom up to head, or from head up to top.

  function WalkStart(side: OrderType): Key {
    if side.Buy? then Some(0) else None
  }

  function WalkEnd(side: OrderType): Key {
    if side.Buy? then None else Some(U128_MAX)
  }

  function WalkItem(b: Book, side: OrderType, steps: nat): PriceItem
    requires steps <= |b.Side(side)|
  {
    ItemAt(Chain(b), if side.Buy? then steps else |b.bids| + 1 + steps)
  }

  /** The level that the walk comes to with its next step. */
  function WalkLevel(b: Book, side: OrderType, steps: nat): Level
    requires steps < |b.Side(side)|
  {
    b.Side(side)[if side.Buy? then |b.bids| - 1 - steps else steps]
  }

  lemma WalkAhead(b: Book, side: OrderType, steps: nat)
    requires steps <= |b.Side(side)|
    ensures WalkItem(b, side, steps).next ==
            if steps == |b.Side(side)| then WalkEnd(side) else Some(WalkLevel(b, side, steps).price)
  {
  }

  lemma WalkSteps(items: Items, b: Book, side: OrderType, steps: nat)
    requires Represents(items, b)
    requires steps < |b.Side(side)|
    ensures var key := Some(WalkLevel(b, side, steps).price);
            && key.value < U128_MAX
            && key in items && items[key] == WalkItem(b, side, steps + 1)
  {
    hide Represents, Linked, ItemAt, Chain;
    WalkSorted(items, b, side);
    LevelStored(items, b, side, if side.Buy? then |b.bids| - 1 - steps else steps);
  }

  /** `item` is where the walk for a new price is after `steps` steps, all of them past lower levels. */
  ghost predicate Walking(items: Items, b: Book, side: OrderType, price: Price, steps: nat, item: PriceItem) {
    && Represents(items, b) && !HasLevel(b.Side(side), price)
    && steps <= |b.Side(side)|
    && item == WalkItem(b, side, steps)
    && (0 < steps ==> WalkLevel(b, side, steps - 1).price < price)
  }

  predicate WalkMayStop(side: OrderType, price: Price, item: PriceItem) {
    item.next == WalkEnd(side) || (item.next.Some? && price < item.next.value)
  }

  lemma WalkBegins(items: Items, b: Book, side: OrderType, price: Price)
    requires Represents(items, b) && !HasLevel(b.Side(side), price)
    ensures WalkStart(side) in items && Walking(items, b, side, price, 0, items[WalkStart(side)])
  {
    assert ChainPlaced(items, Chain(b), if side.Buy? then 0 else |b.bids| + 1);
  }

  lemma WalkAdvances(items: Items, b: Book, side: OrderType, price: Price, steps: nat, item: PriceItem)
    requires Walking(items, b, side, price, steps, item)
    requires !WalkMayStop(side, price, item)
    ensures steps < |b.Side(side)|
    ensures item.next in items && Walking(items, b, side, price, steps + 1, items[item.next])
  {
    hide Represents, WalkItem;
    WalkAhead(b, side, steps);
    WalkSteps(items, b, side, steps);
  }

  lemma WalkSorted(items: Items, b: Book, side: OrderType)
    requires Represents(items, b)
    ensures SideSorted(side, b.Side(side))
  {
  }

  /** The walk stops behind the place of the new price. */
  lemma WalkStops(items: Items, b: Book, side: OrderType, price: Price, steps: nat, item: PriceItem)
    requires Walking(items, b, side, price, steps, item)
    requires WalkMayStop(side, price, item)
    ensures item == InsertionItem(b, side, price)
  {
    hide Represents, WalkItem, SideSorted, InsertionItem;
    WalkSorted(items, b, side);
    WalkAhead(b, side, steps);
    if steps < |b.Side(side)| {
      WalkSteps(items, b, side, steps);
    }
    InsertIndexUnique(side, b.Side(side), price, if side.Buy? then |b.bids| - steps else steps);
    WalkItemIsInsertionItem(b, side, price, steps);
  }

  lemma WalkItemIsInsertionItem(b: Book, side: OrderType, price: Price, steps: nat)
    requires steps <= |b.Side(side)|
    requires InsertIndex(side, b.Side(side), price) == if side.Buy? then |b.bids| - steps else steps
    ensures WalkItem(b, side, steps) == InsertionItem(b, side, price)
  {
  }

  /** Queues an order at its price, opening the level if there is none. */
  function Enqueued(side: OrderType, levels: seq<Level>, price: Price, id: OrderId, sell: nat, buy: nat): seq<Level> {
    var i := InsertIndex(side, levels, price);
    if i < |levels| && levels[i].price == price then
      levels[i := Joined(levels[i], id, sell, buy)]
    else
      With(levels, i, LevelOf(price, buy, sell, id))
  }

  // ---------- Representation after a list operation ----------

  lemma RewriteRepresents(items: Items, b: Book, side: OrderType, i: nat, l: Level)
    requires Represents(items, b)
    requires i < |b.Side(side)| && l.price == b.Side(side)[i].price
    ensures Some(l.price) in items
    ensures Represents(Rewritten(items, NodeOf(l)), b.WithSide(side, b.Side(side)[i := l]))
  {
    LevelStored(items, b, side, i);
    SortedReplace(b, side, i, l);
    ChainReplace(b, side, i, l);
    RewriteLinked(items, Chain(b), Position(b, side, i), NodeOf(l));
  }

  lemma UnlinkFirst(items: Items, b: Book, side: OrderType)
    requires Represents(items, b)
    requires b.Side(side) != []
    ensures Some(b.Side(side)[0].price) in items
    ensures Represents(Unlinked(items, Some(b.Side(side)[0].price)), b.WithSide(side, b.Side(side)[1..]))
  {
    hide Represents, Unlinked;
    UnlinkRepresents(items, b, side, 0);
    assert Without(b.Side(side), 0) == b.Side(side)[1..];
  }

  lemma UnlinkRepresents(items: Items, b: Book, side: OrderType, i: nat)
    requires Represents(items, b)
    requires i < |b.Side(side)|
    ensures Some(b.Side(side)[i].price) in items
    ensures Represents(Unlinked(items, Some(b.Side(side)[i].price)), b.WithSide(side, Without(b.Side(side), i)))
  {
    LevelStored(items, b, side, i);
    SortedWithout(b, side, i);
    ChainWithout(b, side, i);
    UnlinkLinked(items, Chain(b), Position(b, side, i));
  }

  lemma LevelElsewhere(levels: seq<Level>, price: Price, i: nat)
    requires !HasLevel(levels, price)
    ensures i < |levels| ==> levels[i].price != price
  {
  }

  lemma InsertRepresents(items: Items, b: Book, side: OrderType, l: Level)
    requires Represents(items, b)
    requires 0 < l.price < U128_MAX && Some(l.price) !in items
    requires var other := b.Side(side.Not()); other != [] ==> !PriceMatched(l.price, side, other[0].price)
    ensures !HasLevel(b.Side(side), l.price)
    ensures var i := InsertIndex(side, b.Side(side), l.price);
            var at := Chain(b)[InsertionPoint(b, side, i)].key;
            && at in items
            && Represents(LinkedIn(items, at, NodeOf(l)), b.WithSide(side, With(b.Side(side), i, l)))
  {
    hide HasLevel, Linked, Sorted, LinkedIn, With, Wrap, NodeAt, Chain, InsertIndex;
    var i := InsertIndex(side, b.Side(side), l.price);
    StoredKeys(items, b, l.price);
    LevelElsewhere(b.Side(side), l.price, i);
    SortedWith(b, side, l);
    ChainWith(b, side, i, l);
    InsertLinked(items, Chain(b), InsertionPoint(b, side, i), NodeOf(l));
  }

  lemma OpenedNode(l: Level)
    requires 0 <= l.buy <= U128_MAX && 0 <= l.sell <= U128_MAX
    ensures NodeOf(l) == Node(Some(l.price), l.buy, l.sell, l.orders)
  {
  }

  /** The stored item with one more order queued. */
  function Pushed(item: PriceItem, id: OrderId, sell: nat, buy: nat): Node {
    Node(item.price, WrappingAdd(item.buyAmount, buy), WrappingAdd(item.sellAmount, sell), item.orders + [id])
  }

  /** Pushing an order queues it last at its price, and leaves every other queue alone. */
  lemma PushedLast(items: Items, price: Price, id: OrderId, sell: nat, buy: nat)
    requires Some(price) in items && items[Some(price)].price == Some(price)
    ensures var items' := Rewritten(items, Pushed(items[Some(price)], id, sell, buy));
            && items'.Keys == items.Keys
            && items'[Some(price)].orders == items[Some(price)].orders + [id]
            && forall k <- items.Keys :: k != Some(price) ==> items'[k].orders == items[k].orders
  {
  }

  /** Linking in a new price gives it a queue of one order, and leaves every other queue alone. */
  lemma LinkedInAlone(items: Items, at: Key, price: Price, id: OrderId, sell: nat, buy: nat)
    requires Some(price) !in items && at in items && items[at].next in items
    ensures var items' := LinkedIn(items, at, Node(Some(price), buy, sell, [id]));
            && items'.Keys == items.Keys + {Some(price)}
            && items'[Some(price)].orders == [id]
            && forall k <- items.Keys :: items'[k].orders == items[k].orders
  {
  }

  /** In the book, a joining order stands behind all that wait at its price. */
  lemma JoinedLast(l: Level, id: OrderId, sell: nat, buy: nat)
    ensures Joined(l, id, sell, buy).orders == l.orders + [id] && Joined(l, id, sell, buy).price == l.price
  {
  }

  lemma LevelFound(items: Items, b: Book, side: OrderType, price: Price)
    requires Represents(items, b) && HasLevel(b.Side(side), price)
    ensures var i := InsertIndex(side, b.Side(side), price);
            i < |b.Side(side)| && b.Side(side)[i].price == price
  {
  }

  lemma PushedNode(items: Items, b: Book, side: OrderType, i: nat, id: OrderId, sell: nat, buy: nat)
    requires Represents(items, b) && i < |b.Side(side)|
    ensures var l := b.Side(side)[i];
            && Some(l.price) in items
            && items[Some(l.price)].price == Some(l.price)
            && Pushed(items[Some(l.price)], id, sell, buy) ==
               NodeOf(Joined(l, id, sell, buy))
  {
    hide Represents, Wrap, Chain;
    LevelStored(items, b, side, i);
    WrapExact(b.Side(side)[i].buy, buy);
    WrapExact(b.Side(side)[i].sell, sell);
  }

  lemma PushRepresents(items: Items, b: Book, side: OrderType, price: Price, id: OrderId, sell: nat, buy: nat)
    requires Represents(items, b)
    requires HasLevel(b.Side(side), price)
    ensures Some(price) in items && items[Some(price)].price == Some(price)
    ensures Represents(Rewritten(items, Pushed(items[Some(price)], id, sell, buy)),
                       b.WithSide(side, Enqueued(side, b.Side(side), price, id, sell, buy)))
  {
    hide Represents, HasLevel, InsertIndex, NodeOf, Pushed, Rewritten, With;
    LevelFound(items, b, side, price);
    var levels, i := b.Side(side), InsertIndex(side, b.Side(side), price);
    PushedNode(items, b, side, i, id, sell, buy);
    RewriteRepresents(items, b, side, i, Joined(levels[i], id, sell, buy));
  }

  lemma InsertionItemStored(items: Items, b: Book, side: OrderType, price: Price)
    requires Represents(items, b)
    ensures var at := InsertionItem(b, side, price);
            && at.price == Chain(b)[InsertionPoint(b, side, InsertIndex(side, b.Side(side), price))].key
            && at.price in items && items[at.price] == at
            && at.next in items && items[at.next].price == at.next
  {
    var c := InsertionPoint(b, side, InsertIndex(side, b.Side(side), price));
    assert ChainPlaced(items, Chain(b), c) && ChainPlaced(items, Chain(b), c + 1);
  }

  /** Appending an order leaves a list that represents the enqueued book, whether its price is
      already stored or not. */
  lemma AppendRepresents(items: Items, b: Book, side: OrderType, price: Price, id: OrderId, sell: nat, buy: nat)
    requires Represents(items, b)
    requires 0 < price < U128_MAX && sell <= U128_MAX && buy <= U128_MAX
    requires var other := b.Side(side.Not()); other != [] ==> !PriceMatched(price, side, other[0].price)
    ensures var b' := b.WithSide(side, Enqueued(side, b.Side(side), price, id, sell, buy));
            if Some(price) in items then
              && items[Some(price)].price == Some(price)
              && Represents(Rewritten(items, Pushed(items[Some(price)], id, sell, buy)), b')
            else
              && !HasLevel(b.Side(side), price)
              && var at := InsertionItem(b, side, price);
              && at.price in items && items[at.price] == at
              && at.next in items && items[at.next].price == at.next
              && Represents(LinkedIn(items, at.price, Node(Some(price), buy, sell, [id])), b')
  {
    NotOnOtherSide(b, side, price);
    StoredKeys(items, b, price);
    OpenedNode(LevelOf(price, buy, sell, id));
    hide HasLevel, NodeOf, NodeAt, Chain, Represents, LinkedIn, Rewritten, Pushed, InsertionItem, InsertionPoint;
    if Some(price) in items {
      PushRepresents(items, b, side, price, id, sell, buy);
    } else {
      InsertRepresents(items, b, side, LevelOf(price, buy, sell, id));
      InsertionItemStored(items, b, side, price);
    }
  }

  /** The stored item behind which a new price is linked in. */
  function InsertionItem(b: Book, side: OrderType, price: Price): PriceItem {
    ItemAt(Chain(b), InsertionPoint(b, side, InsertIndex(side, b.Side(side), price)))
  }

  // ---------- Amounts and cancellation ----------

  /** A level less the amounts of a trade, of which an order that it filled did not need `rest`. */
  function Reduced(l: Level, sell: nat, buy: nat, rest: nat): Level {
    l.(sell := l.sell - sell, buy := l.buy - buy, extraSell := l.extraSell + rest)
  }

  /** The stored item with its amounts reduced. */
  function Lowered(item: PriceItem, sell: nat, buy: nat): Node {
    Node(item.price, WrappingSub(item.buyAmount, buy), WrappingSub(item.sellAmount, sell), item.orders)
  }

  lemma ReduceRepresents(items: Items, b: Book, side: OrderType, i: nat, sell: nat, buy: nat, rest: nat)
    requires Represents(items, b)
    requires i < |b.Side(side)|
    ensures var l := b.Side(side)[i];
            && Some(l.price) in items
            && items[Some(l.price)].price == Some(l.price)
            && Represents(Rewritten(items, Lowered(items[Some(l.price)], sell, buy)),
                          b.WithSide(side, b.Side(side)[i := Reduced(l, sell, buy, rest)]))
  {
    hide Represents, Wrap, NodeAt, Rewritten;
    var l := b.Side(side)[i];
    LevelStored(items, b, side, i);
    WrapExact(l.buy, buy);
    WrapExact(l.sell, sell);
    RewriteRepresents(items, b, side, i, Reduced(l, sell, buy, rest));
  }

  lemma RequeueRepresents(items: Items, b: Book, side: OrderType, i: nat, orders: seq<OrderId>)
    requires Represents(items, b)
    requires i < |b.Side(side)|
    ensures var l := b.Side(side)[i];
            && Some(l.price) in items
            && items[Some(l.price)].orders == l.orders
            && Represents(items[Some(l.price) := items[Some(l.price)].(orders := orders)],
                          b.WithSide(side, b.Side(side)[i := l.(orders := orders)]))
  {
    hide Represents, Wrap, NodeAt;
    var l := b.Side(side)[i];
    LevelStored(items, b, side, i);
    RewriteRepresents(items, b, side, i, l.(orders := orders));
    assert Rewritten(items, NodeOf(l.(orders := orders))) ==
           items[Some(l.price) := items[Some(l.price)].(orders := orders)];
  }

  /** `Vec::retain` of everything but one order. */
  function Retain(ids: seq<OrderId>, id: OrderId): seq<OrderId> {
    if ids == [] then []
    else (if ids[0] == id then [] else [ids[0]]) + Retain(ids[1..], id)
  }

  lemma {:induction false} RetainOthers(ids: seq<OrderId>, id: OrderId)
    requires id !in ids
    ensures Retain(ids, id) == ids
  {
    if ids != [] {
      RetainOthers(ids[1..], id);
    }
  }

  /** The orders before and behind the removed one keep their places. */
  lemma {:induction false} RetainExact(pre: seq<OrderId>, id: OrderId, post: seq<OrderId>)
    requires id !in pre && id !in post
    ensures Retain(pre + [id] + post, id) == pre + post
  {
    var ids := pre + [id] + post;
    if pre == [] {
      assert ids[1..] == post;
      RetainOthers(post, id);
    } else {
      assert ids[1..] == pre[1..] + [id] + post;
      RetainExact(pre[1..], id, post);
    }
  }

  /** What `PriceList::remove_order` leaves: an item that loses its last order is unlinked, and then
      written back all the same. */
  function Withdrawn(items: Items, price: Price, id: OrderId, sell: nat, buy: nat): Items
    requires Some(price) in items
  {
    var item := items[Some(price)];
    var rest := Retain(item.orders, id);
    var item' := item.(orders := rest, buyAmount := WrappingSub(item.buyAmount, buy),
                       sellAmount := WrappingSub(item.sellAmount, sell));
    if rest == [] then Unlinked(items, Some(price))[Some(price) := item'] else items[Some(price) := item']
  }

  lemma WithdrawnOthers(items: Items, price: Price, id: OrderId, sell: nat, buy: nat)
    requires Some(price) in items
    ensures var items' := Withdrawn(items, price, id, sell, buy);
            items'.Keys == items.Keys &&
            forall k <- items.Keys :: k != Some(price) ==> items'[k].orders == items[k].orders
  {
    hide Retain, WrappingSub;
  }

  /** A withdrawal takes one order out of the queue at its price, in which the others keep their places, and
      leaves every other queue alone. */
  lemma WithdrawnQueue(items: Items, price: Price, id: OrderId, sell: nat, buy: nat, pre: seq<OrderId>,
                       post: seq<OrderId>)
    requires Some(price) in items && items[Some(price)].orders == pre + [id] + post && id !in pre && id !in post
    ensures var items' := Withdrawn(items, price, id, sell, buy);
            && items'.Keys == items.Keys
            && items'[Some(price)].orders == pre + post
            && forall k <- items.Keys :: k != Some(price) ==> items'[k].orders == items[k].orders
  {
    RetainExact(pre, id, post);
    WithdrawnOthers(items, price, id, sell, buy);
    hide Retain, WrappingSub;
  }

  /** A level less the total amounts of an order that had already given and gotten something. */
  function WithdrawnLevel(l: Level, id: OrderId, sell: nat, buy: nat, given: int, gotten: int): Level {
    Level(l.price, l.buy - buy, l.sell - sell, Retain(l.orders, id), l.shortBuy + gotten, l.extraSell - given)
  }

  /** Withdrawing an order that shares its level represents the book without it. */
  lemma WithdrawRepresents(items: Items, b: Book, side: OrderType, i: nat, id: OrderId, sell: nat, buy: nat,
                           given: int, gotten: int)
    requires Represents(items, b) && i < |b.Side(side)|
    requires Retain(b.Side(side)[i].orders, id) != []
    ensures var l := b.Side(side)[i];
            && Some(l.price) in items
            && Represents(Withdrawn(items, l.price, id, sell, buy),
                          b.WithSide(side, b.Side(side)[i := WithdrawnLevel(l, id, sell, buy, given, gotten)]))
  {
    hide Represents, Wrap, NodeAt, Retain, Unlinked;
    var l := b.Side(side)[i];
    LevelStored(items, b, side, i);
    WrapExact(l.buy, buy);
    WrapExact(l.sell, sell);
    var l' := WithdrawnLevel(l, id, sell, buy, given, gotten);
    RewriteRepresents(items, b, side, i, l');
    assert Rewritten(items, NodeOf(l')) == Withdrawn(items, l.price, id, sell, buy);
  }

  /** Unlinking an interior node leaves its former neighbours joined to each other, not to it. */
  lemma Unjoined(items: Items, chain: seq<Node>, i: nat)
    requires Linked(items, chain) && 0 < i < |chain| - 1
    requires ChainPlaced(items, chain, i)
    ensures var k := chain[i].key;
            && items[k].prev != k
            && items[k].prev in Unlinked(items, k)
            && Unlinked(items, k)[items[k].prev].next != k
  {
    assert ChainPlaced(items, chain, i - 1) && ChainPlaced(items, chain, i + 1);
    UnlinkedAt(items, chain[i].key, chain[i - 1].key);
  }

  /** Withdrawing the only order of a level leaves an item that no well-formed list contains: its
      neighbours do not point back at it. */
  lemma WithdrawBreaks(items: Items, b: Book, side: OrderType, i: nat, id: OrderId, sell: nat, buy: nat,
                       chain: seq<Node>)
    requires Represents(items, b) && i < |b.Side(side)|
    requires Some(b.Side(side)[i].price) in items
    requires Retain(b.Side(side)[i].orders, id) == []
    ensures !Linked(Withdrawn(items, b.Side(side)[i].price, id, sell, buy), chain)
  {
    hide Retain, WrappingSub;
    var k := Some(b.Side(side)[i].price);
    LevelStored(items, b, side, i);
    Unjoined(items, Chain(b), Position(b, side, i));
    var items' := Withdrawn(items, k.value, id, sell, buy);
    if Linked(items', chain) {
      LinksAreInverse(items', chain, k);
    }
  }

  /** The list stays well-formed after a withdrawal if and only if the level keeps an order. */
  lemma WithdrawWellFormed(items: Items, b: Book, side: OrderType, i: nat, id: OrderId, sell: nat, buy: nat)
    requires Represents(items, b) && i < |b.Side(side)|
    ensures Some(b.Side(side)[i].price) in items
    ensures (exists b' :: Represents(Withdrawn(items, b.Side(side)[i].price, id, sell, buy), b'))
            <==> Retain(b.Side(side)[i].orders, id) != []
  {
    LevelStored(items, b, side, i);
    hide Retain, Withdrawn;
    if Retain(b.Side(side)[i].orders, id) != [] {
      WithdrawRepresents(items, b, side, i, id, sell, buy, 0, 0);
    } else {
      forall b' ensures !Represents(Withdrawn(items, b.Side(side)[i].price, id, sell, buy), b') {
        WithdrawBreaks(items, b, side, i, id, sell, buy, Chain(b'));
      }
    }
  }

  // ---------- The match-time cleanup ----------

  predicate Done(orders: map<OrderId, Order>, id: OrderId) {
    id in orders && orders[id].IsFinished()
  }

  function DropFinished(orders: map<OrderId, Order>, ids: seq<OrderId>): (rest: seq<OrderId>)
    ensures |rest| <= |ids|
  {
    if ids == [] || !Done(orders, ids[0]) then ids else DropFinished(orders, ids[1..])
  }

  /** Drops finished orders from the front of the queues, best level first, and the levels that
      become empty, until an unfinished order is in front. */
  function Cleaned(orders: map<OrderId, Order>, levels: seq<Level>): seq<Level> {
    if levels == [] then [] else
      var rest := DropFinished(orders, levels[0].orders);
      if rest == [] then Cleaned(orders, levels[1..])
      else levels[0 := levels[0].(orders := rest)]
  }

  /** All orders of a side in price-then-time priority. */
  function Priority(levels: seq<Level>): seq<OrderId> {
    if levels == [] then [] else levels[0].orders + Priority(levels[1..])
  }

  lemma {:induction false} DropFinishedConcat(orders: map<OrderId, Order>, a: seq<OrderId>, b: seq<OrderId>)
    ensures DropFinished(orders, a + b) ==
            if DropFinished(orders, a) == [] then DropFinished(orders, b) else DropFinished(orders, a) + b
  {
    if a == [] {
      assert a + b == b;
    } else if Done(orders, a[0]) {
      assert (a + b)[1..] == a[1..] + b;
      DropFinishedConcat(orders, a[1..], b);
    }
  }

  /** The match-time cleanup removes the maximal prefix of finished orders in price-then-time
      priority. */
  lemma {:induction false} CleanupPriority(orders: map<OrderId, Order>, levels: seq<Level>)
    ensures Priority(Cleaned(orders, levels)) == DropFinished(orders, Priority(levels))
  {
    if levels != [] {
      DropFinishedConcat(orders, levels[0].orders, Priority(levels[1..]));
      if DropFinished(orders, levels[0].orders) == [] {
        CleanupPriority(orders, levels[1..]);
      }
    }
  }

  ghost predicate AllDone(orders: map<OrderId, Order>, l: Level) {
    forall id <- l.orders :: Done(orders, id)
  }

  lemma {:induction false} AllDoneDropped(orders: map<OrderId, Order>, l: Level)
    ensures AllDone(orders, l) <==> DropFinished(orders, l.orders) == []
  {
    DropFinishedPrefix(orders, l.orders);
  }

  /** The number of leading levels whose orders are all finished. */
  function Emptied(orders: map<OrderId, Order>, levels: seq<Level>): (k: nat)
    ensures k <= |levels|
    ensures forall i :: 0 <= i < k ==> DropFinished(orders, levels[i].orders) == []
  {
    if levels == [] || DropFinished(orders, levels[0].orders) != [] then 0 else 1 + Emptied(orders, levels[1..])
  }

  lemma {:induction false} EmptiedMaximal(orders: map<OrderId, Order>, levels: seq<Level>)
    ensures var k := Emptied(orders, levels); k < |levels| ==> DropFinished(orders, levels[k].orders) != []
  {
    hide DropFinished;
    if levels != [] && DropFinished(orders, levels[0].orders) == [] {
      EmptiedMaximal(orders, levels[1..]);
      var k := Emptied(orders, levels[1..]);
      assert k < |levels[1..]| ==> levels[1..][k] == levels[k + 1];
    }
  }

  /** Of the levels, the cleanup unlinks exactly the leading ones whose orders are all finished; it
      changes at most the queue of the first one left. */
  lemma {:induction false} CleanupLevels(orders: map<OrderId, Order>, levels: seq<Level>)
    ensures var k := Emptied(orders, levels);
            Cleaned(orders, levels) ==
              if k == |levels| then []
              else levels[k..][0 := levels[k].(orders := DropFinished(orders, levels[k].orders))]
  {
    hide DropFinished;
    if levels != [] && DropFinished(orders, levels[0].orders) == [] {
      var k := Emptied(orders, levels[1..]);
      CleanupLevels(orders, levels[1..]);
      assert levels[1..][k..] == levels[k + 1..];
    }
  }

  /** Everything dropped is finished and the first order kept is not. */
  lemma {:induction false} DropFinishedPrefix(orders: map<OrderId, Order>, ids: seq<OrderId>)
    ensures var rest := DropFinished(orders, ids);
            && rest == ids[|ids| - |rest|..]
            && (forall i :: 0 <= i < |ids| - |rest| ==> Done(orders, ids[i]))
            && (rest != [] ==> !Done(orders, rest[0]))
  {
    if ids != [] && Done(orders, ids[0]) {
      DropFinishedPrefix(orders, ids[1..]);
      assert forall i :: 1 <= i < |ids| ==> ids[i] == ids[1..][i - 1];
    }
  }

  lemma SameSide(b: Book, side: OrderType, ids: seq<OrderId>, ids': seq<OrderId>)
    requires b.Side(side) != []
    ensures var b' := b.WithSide(side, b.Side(side)[0 := b.Side(side)[0].(orders := ids)]);
            b'.WithSide(side, b'.Side(side)[0 := b'.Side(side)[0].(orders := ids')]) ==
            b.WithSide(side, b.Side(side)[0 := b.Side(side)[0].(orders := ids')])
  {
  }

  lemma SameRest(b: Book, side: OrderType, ids: seq<OrderId>)
    requires b.Side(side) != []
    ensures var b' := b.WithSide(side, b.Side(side)[0 := b.Side(side)[0].(orders := ids)]);
            b'.WithSide(side, b'.Side(side)[1..]) == b.WithSide(side, b.Side(side)[1..])
  {
  }

  lemma WithSideTwice(b: Book, side: OrderType, levels: seq<Level>, levels': seq<Level>)
    ensures b.WithSide(side, levels).WithSide(side, levels') == b.WithSide(side, levels')
    ensures b.WithSide(side, levels).Side(side) == levels
    ensures b.WithSide(side, b.Side(side)) == b
  {
  }

  /** One finished order in front makes no difference to the cleanup. */
  lemma DropFront(orders: map<OrderId, Order>, ids: seq<OrderId>)
    requires ids != []
    ensures Done(orders, ids[0]) ==> DropFinished(orders, ids) == DropFinished(orders, ids[1..])
    ensures !Done(orders, ids[0]) ==> DropFinished(orders, ids) == ids
  {
  }

  /** The cleanup of the best level alone. */
  function CleanedFirst(orders: map<OrderId, Order>, levels: seq<Level>): seq<Level>
    requires levels != []
  {
    var rest := DropFinished(orders, levels[0].orders);
    if rest == [] then levels[1..] else levels[0 := levels[0].(orders := rest)]
  }

  lemma CleanedUnfold(orders: map<OrderId, Order>, levels: seq<Level>)
    ensures levels == [] ==> Cleaned(orders, levels) == []
    ensures levels != [] ==>
              Cleaned(orders, levels) ==
              if DropFinished(orders, levels[0].orders) == [] then Cleaned(orders, levels[1..])
              else CleanedFirst(orders, levels)
  {
  }

  // ---------- Sortedness ----------

  lemma SortedReplace(b: Book, side: OrderType, i: nat, l: Level)
    requires Sorted(b) && i < |b.Side(side)| && l.price == b.Side(side)[i].price
    ensures Sorted(b.WithSide(side, b.Side(side)[i := l]))
  {
  }

  lemma SortedWithout(b: Book, side: OrderType, i: nat)
    requires Sorted(b) && i < |b.Side(side)|
    ensures Sorted(b.WithSide(side, Without(b.Side(side), i)))
  {
    var levels := b.Side(side);
    assert |levels| > 1 && i == 0 ==> Better(side, levels[0].price, levels[1].price);
  }

  lemma BetterThanTail(side: OrderType, levels: seq<Level>, price: Price, j: nat)
    requires SideSorted(side, levels)
    requires j < |levels| && !Better(side, levels[j].price, price) && levels[j].price != price
    ensures forall k :: j <= k < |levels| ==> Better(side, price, levels[k].price)
  {
  }

  lemma WithInOrder(side: OrderType, levels: seq<Level>, l: Level, j: nat, k: nat)
    requires SideSorted(side, levels)
    requires var i := InsertIndex(side, levels, l.price); i < |levels| ==> levels[i].price != l.price
    requires j < k <= |levels|
    ensures var levels' := With(levels, InsertIndex(side, levels, l.price), l);
            Better(side, levels'[j].price, levels'[k].price)
  {
    var i := InsertIndex(side, levels, l.price);
    if i < |levels| {
      BetterThanTail(side, levels, l.price, i);
    }
  }

  lemma SideSortedWith(side: OrderType, levels: seq<Level>, l: Level)
    requires SideSorted(side, levels) && 0 < l.price < U128_MAX
    requires var i := InsertIndex(side, levels, l.price); i < |levels| ==> levels[i].price != l.price
    ensures SideSorted(side, With(levels, InsertIndex(side, levels, l.price), l))
  {
    var levels' := With(levels, InsertIndex(side, levels, l.price), l);
    forall j, k | 0 <= j < k < |levels'| ensures Better(side, levels'[j].price, levels'[k].price) {
      WithInOrder(side, levels, l, j, k);
    }
  }

  lemma SortedWith(b: Book, side: OrderType, l: Level)
    requires Sorted(b) && 0 < l.price < U128_MAX
    requires var i := InsertIndex(side, b.Side(side), l.price); i < |b.Side(side)| ==> b.Side(side)[i].price != l.price
    requires var other := b.Side(side.Not()); other != [] ==> !PriceMatched(l.price, side, other[0].price)
    ensures Sorted(b.WithSide(side, With(b.Side(side), InsertIndex(side, b.Side(side), l.price), l)))
  {
    SideSortedWith(side, b.Side(side), l);
  }

  /** Queueing an order at a price that the other side does not match keeps the book uncrossed. */
  lemma SortedEnqueue(b: Book, side: OrderType, price: Price, id: OrderId, sell: nat, buy: nat)
    requires Sorted(b) && 0 < price < U128_MAX
    requires var other := b.Side(side.Not()); other != [] ==> !PriceMatched(price, side, other[0].price)
    ensures Sorted(b.WithSide(side, Enqueued(side, b.Side(side), price, id, sell, buy)))
  {
    hide Sorted;
    var levels, i := b.Side(side), InsertIndex(side, b.Side(side), price);
    if i < |levels| && levels[i].price == price {
      SortedReplace(b, side, i, Joined(levels[i], id, sell, buy));
    } else {
      SortedWith(b, side, LevelOf(price, buy, sell, id));
    }
  }

  /** A price that the other side does not match is not the price of one of its levels. */
  lemma NotOnOtherSide(b: Book, side: OrderType, price: Price)
    requires Sorted(b)
    requires var other := b.Side(side.Not()); other != [] ==> !PriceMatched(price, side, other[0].price)
    ensures !HasLevel(b.Side(side.Not()), price)
  {
  }
}
