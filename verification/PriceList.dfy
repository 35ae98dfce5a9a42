/** The linked price list of the trade pallet: the storage map of list items and the operations that
    rewrite its links, queues and amounts. */
module PriceLists {
  import opened Base
  import opened Words
  import opened Orders
  import opened Links
  import opened Books

  /** What reading a missing entry does: it writes the three sentinels and returns the head. */
  ghost predicate SetUp(before: map<PairId, Items>, after: map<PairId, Items>, pair: PairId, item: PriceItem) {
    && item == INITIAL[None]
    && after == before[pair := (if pair in before then before[pair] else map[]) + INITIAL]
  }

  /** Every queue but the one at `price` is as it was. */
  ghost predicate OtherQueuesKept(before: Items, after: Items, price: Price) {
    forall k <- before.Keys :: k != Some(price) ==> k in after && after[k].orders == before[k].orders
  }

  /** The neighbour of `item` in the direction in which a side gets worse, seen from the head. */
  function NextMatchPrice(item: PriceItem, otype: OrderType): Key {
    if otype.Buy? then item.prev else item.next
  }

  class PriceList {
    var items: map<PairId, Items>
    ghost var books: map<PairId, Book>

    /** The stored map of every pair in use is a well-formed list that spells out the pair's book. */
    ghost predicate Valid()
      reads this
    {
      && books.Keys == items.Keys
      && forall pair <- books.Keys :: Represents(items[pair], books[pair])
    }

    constructor ()
      ensures Valid() && items == map[]
    {
      items := map[];
      books := map[];
    }

    function Entry(pair: PairId, key: Key): Option<PriceItem>
      reads this
    {
      if pair in items && key in items[pair] then Some(items[pair][key]) else None
    }

    function Stored(pair: PairId): Items
      reads this
    {
      if pair in items then items[pair] else map[]
    }

    method Write(pair: PairId, key: Key, item: PriceItem)
      modifies this`items
      ensures items == old(items)[pair := old(Stored(pair))[key := item]]
    {
      items := items[pair := Stored(pair)[key := item]];
    }

    /** Reads an entry. If it is missing, writes the three sentinels and returns the head. */
    method Read(pair: PairId, key: Key) returns (item: PriceItem)
      modifies if key in Stored(pair) then {} else {this}
      ensures key in old(Stored(pair)) ==> item == old(Stored(pair))[key]
      ensures key !in old(Stored(pair)) ==> SetUp(old(items), items, pair, item) && books == old(books)
    {
      if pair in items && key in items[pair] {
        return items[pair][key];
      }
      var bottom := PriceItem(Some(U128_MAX), None, Some(0), 0, 0, []);
      var top := PriceItem(None, Some(0), Some(U128_MAX), 0, 0, []);
      var head := PriceItem(Some(0), Some(U128_MAX), None, 0, 0, []);
      Write(pair, bottom.price, bottom);
      Write(pair, top.price, top);
      Write(pair, head.price, head);
      item := head;
      assert items[pair] == old(Stored(pair)) + INITIAL;
    }

    lemma StoredBook(pair: PairId)
      requires Valid() && pair in books
      ensures pair in items && Represents(items[pair], books[pair])
    {
    }

    method ReadHead(pair: PairId) returns (item: PriceItem)
      requires Valid()
      modifies this
      ensures Valid()
      ensures books == if pair in old(books) then old(books) else old(books)[pair := EMPTY]
      ensures item == PriceItem(HeadPrev(books[pair]), HeadNext(books[pair]), None, 0, 0, [])
    {
      hide Represents;
      if pair in books {
        HeadStored(items[pair], books[pair]);
      } else {
        InitialRepresents();
        books := books[pair := EMPTY];
      }
      item := Read(pair, None);
      assert old(Stored(pair)) == map[] ==> old(Stored(pair)) + INITIAL == INITIAL;
    }

    /** Finds the item after which a new price goes, walking up from the low end of its side. */
    method FindPrevious(pair: PairId, price: Price, otype: OrderType) returns (item: PriceItem)
      requires pair in items && pair in books && Represents(items[pair], books[pair])
      requires !HasLevel(books[pair].Side(otype), price)
      ensures item == InsertionItem(books[pair], otype, price)
    {
      var startItem, endItem;
      match otype {
        case Buy => startItem, endItem := Some(0), None;
        case Sell => startItem, endItem := None, Some(U128_MAX);
      }
      hide Represents, HasLevel, InsertionItem, Walking, SetUp;
      ghost var stored, b, steps := items[pair], books[pair], 0;
      WalkBegins(stored, b, otype, price);
      item := Read(pair, startItem);
      while item.next != endItem
        invariant Walking(stored, b, otype, price, steps, item)
        decreases |b.Side(otype)| - steps
      {
        if item.next.Some? && price < item.next.value {
          break;
        }
        WalkAdvances(stored, b, otype, price, steps, item);
        item := Read(pair, item.next);
        steps := steps + 1;
      }
      WalkStops(stored, b, otype, price, steps, item);
    }

    method PushOrder(pair: PairId, price: Price, id: OrderId, sellAmount: nat, buyAmount: nat)
      requires Entry(pair, Some(price)).Some? && items[pair][Some(price)].price == Some(price)
      modifies this`items
      ensures var stored := old(items[pair]);
              items == old(items)[pair := Rewritten(stored, Pushed(stored[Some(price)], id, sellAmount, buyAmount))]
    {
      var item := items[pair][Some(price)];
      item := item.(orders := item.orders + [id]);
      item := item.(buyAmount := WrappingAdd(item.buyAmount, buyAmount));
      item := item.(sellAmount := WrappingAdd(item.sellAmount, sellAmount));
      Write(pair, Some(price), item);
    }

    /** Links a new item in behind `item`. */
    method InsertAfter(pair: PairId, item: PriceItem, price: Price, id: OrderId, sellAmount: nat, buyAmount: nat)
      requires pair in items && Some(price) !in items[pair]
      requires item.price in items[pair] && items[pair][item.price] == item
      requires item.next in items[pair] && items[pair][item.next].price == item.next
      modifies this`items
      ensures items == old(items)[pair :=
                LinkedIn(old(items[pair]), item.price, Node(Some(price), buyAmount, sellAmount, [id]))]
    {
      var newPrev := item.(next := Some(price));
      Write(pair, newPrev.price, newPrev);
      var newNext := Read(pair, item.next);
      newNext := newNext.(prev := Some(price));
      Write(pair, newNext.price, newNext);
      var newItem := PriceItem(newPrev.price, newNext.price, Some(price), buyAmount, sellAmount, [id]);
      Write(pair, newItem.price, newItem);
    }

    /** Queues an order that the other side does not match at its price. */
    method Append(pair: PairId, price: Price, id: OrderId, sellAmount: nat, buyAmount: nat, otype: OrderType)
      requires Valid() && pair in books
      requires 0 < price < U128_MAX && sellAmount <= U128_MAX && buyAmount <= U128_MAX
      requires var other := books[pair].Side(otype.Not()); other != [] ==> !PriceMatched(price, otype, other[0].price)
      modifies this
      ensures Valid()
      ensures var b := old(books)[pair];
              books == old(books)[pair :=
                b.WithSide(otype, Enqueued(otype, b.Side(otype), price, id, sellAmount, buyAmount))]
      ensures pair in old(items) && pair in items && Some(price) in items[pair]
      ensures var stored := old(items[pair]);
              && items[pair][Some(price)].orders ==
                   (if Some(price) in stored then stored[Some(price)].orders else []) + [id]
              && OtherQueuesKept(stored, items[pair], price)
    {
      hide Represents, LinkedIn, Rewritten, Pushed, InsertionItem, Enqueued, HasLevel;
      ghost var b := books[pair];
      AppendRepresents(items[pair], b, otype, price, id, sellAmount, buyAmount);
      match Entry(pair, Some(price)) {
        case Some(_) =>
          PushedLast(items[pair], price, id, sellAmount, buyAmount);
          PushOrder(pair, price, id, sellAmount, buyAmount);
        case None =>
          var item := FindPrevious(pair, price, otype);
          LinkedInAlone(items[pair], item.price, price, id, sellAmount, buyAmount);
          InsertAfter(pair, item, price, id, sellAmount, buyAmount);
      }
      books := books[pair := b.WithSide(otype, Enqueued(otype, b.Side(otype), price, id, sellAmount, buyAmount))];
    }

    /** `side` and `i` say where the level of `price` is, `rest` what an order that the trade filled did
        not need. */
    method UpdateReduceAmount(pair: PairId, price: Price, sellAmount: nat, buyAmount: nat,
                              ghost side: OrderType, ghost i: nat, ghost rest: nat)
      requires Valid() && pair in books
      requires i < |books[pair].Side(side)| && books[pair].Side(side)[i].price == price
      modifies this
      ensures Valid()
      ensures var levels := old(books)[pair].Side(side);
              books == old(books)[pair :=
                old(books)[pair].WithSide(side, levels[i := Reduced(levels[i], sellAmount, buyAmount, rest)])]
    {
      hide Represents, Rewritten, WrappingSub;
      ghost var b, levels := books[pair], books[pair].Side(side);
      ReduceRepresents(items[pair], b, side, i, sellAmount, buyAmount, rest);
      var item := Read(pair, Some(price));
      item := item.(buyAmount := WrappingSub(item.buyAmount, buyAmount));
      item := item.(sellAmount := WrappingSub(item.sellAmount, sellAmount));
      Write(pair, Some(price), item);
      assert items[pair] == Rewritten(old(items[pair]), Lowered(old(items[pair])[Some(price)], sellAmount, buyAmount))
      by { RewrittenIs(old(items[pair]), Lowered(old(items[pair])[Some(price)], sellAmount, buyAmount)); }
      books := books[pair := b.WithSide(side, levels[i := Reduced(levels[i], sellAmount, buyAmount, rest)])];
    }

    /** Takes an item out of the list and joins its neighbours. */
    method RemoveItem(pair: PairId, price: Price)
      modifies this`items
      ensures items == if Some(price) in old(Stored(pair))
                       then old(items)[pair := Unlinked(old(Stored(pair)), Some(price))] else old(items)
    {
      match Entry(pair, Some(price)) {
        case Some(item) =>
          items := items[pair := items[pair] - {Some(price)}];
          match Entry(pair, item.prev) {
            case Some(x) => Write(pair, item.prev, x.(next := item.next));
            case None =>
          }
          match Entry(pair, item.next) {
            case Some(x) => Write(pair, item.next, x.(prev := item.prev));
            case None =>
          }
        case None =>
      }
    }

    /** Sets the ghost book of one pair to its side's new levels. */
    ghost method SetSide(pair: PairId, b: Book, side: OrderType, levels: seq<Level>)
      requires pair in books
      modifies this`books
      ensures books == old(books)[pair := b.WithSide(side, levels)]
    {
      books := books[pair := b.WithSide(side, levels)];
    }

    /** Removes the finished orders at the front of the best level of a side. */
    method DropFinishedOrders(pair: PairId, price: Price, orders: map<OrderId, Order>, ghost side: OrderType)
      returns (r: Result<()>)
      requires Valid() && pair in books
      requires books[pair].Side(side) != [] && books[pair].Side(side)[0].price == price
      requires Some(price) in items[pair]
      modifies this
      ensures Valid()
      ensures var b, l := old(books)[pair], old(books)[pair].Side(side)[0];
              && books == old(books)[pair :=
                   b.WithSide(side, b.Side(side)[0 := l.(orders := DropFinished(orders, l.orders))])]
              && (r.Ok? <==> DropFinished(orders, l.orders) == [])
    {
      r := Ok(());
      hide Represents, DropFinished;
      ghost var b, levels := books[pair], books[pair].Side(side);
      RequeueRepresents(items[pair], b, side, 0, levels[0].orders);
      var item := items[pair][Some(price)];
      assert levels[0 := levels[0].(orders := item.orders)] == levels;
      while |item.orders| > 0
        invariant Valid() && r.Ok?
        invariant books == old(books)[pair := b.WithSide(side, levels[0 := levels[0].(orders := item.orders)])]
        invariant Some(price) in items[pair] && items[pair][Some(price)] == item
        invariant DropFinished(orders, item.orders) == DropFinished(orders, levels[0].orders)
        decreases |item.orders|
      {
        DropFront(orders, item.orders);
        var id := item.orders[0];
        if id !in orders {
          return Err(CannotGetOrder);
        }
        if !orders[id].IsFinished() {
          return Err(NotFinishedOrder);
        }
        RequeueRepresents(items[pair], books[pair], side, 0, item.orders[1..]);
        SameSide(b, side, item.orders, item.orders[1..]);
        item := item.(orders := item.orders[1..]);
        Write(pair, Some(price), item);
        SetSide(pair, b, side, levels[0 := levels[0].(orders := item.orders)]);
      }
    }

    /** Removes the finished orders at the front of the best level of a side, and the level if none is left. */
    method RemoveOrdersInOneItem(pair: PairId, price: Price, orders: map<OrderId, Order>, ghost side: OrderType)
      returns (r: Result<()>)
      requires Valid() && pair in books
      requires books[pair].Side(side) != [] && books[pair].Side(side)[0].price == price
      modifies this
      ensures Valid()
      ensures books == old(books)[pair :=
                old(books)[pair].WithSide(side, CleanedFirst(orders, old(books)[pair].Side(side)))]
      ensures r.Ok? <==> DropFinished(orders, old(books)[pair].Side(side)[0].orders) == []
    {
      r := Ok(());
      hide Valid, DropFinished, Book.WithSide;
      ghost var b, levels := books[pair], books[pair].Side(side);
      WithSideTwice(b, side, levels[0 := levels[0].(orders := [])], levels[1..]);
      FrontEntry(pair, side);
      match Entry(pair, Some(price)) {
        case Some(_) =>
          var _ :- DropFinishedOrders(pair, price, orders, side);
          UnlinkEmptied(pair, price, side);
          SameRest(b, side, []);
        case None =>
      }
    }

    lemma FrontEntry(pair: PairId, side: OrderType)
      requires Valid() && pair in books && books[pair].Side(side) != []
      ensures pair in items && Some(books[pair].Side(side)[0].price) in items[pair]
    {
      LevelStored(items[pair], books[pair], side, 0);
    }

    /** Removes the best level of a side, once its queue is empty. */
    method UnlinkEmptied(pair: PairId, price: Price, ghost side: OrderType)
      requires Valid() && pair in books
      requires books[pair].Side(side) != [] && books[pair].Side(side)[0].price == price
      modifies this
      ensures Valid()
      ensures books == old(books)[pair := old(books)[pair].WithSide(side, old(books)[pair].Side(side)[1..])]
    {
      hide Represents, Unlinked;
      ghost var b := books[pair];
      UnlinkFirst(items[pair], b, side);
      RemoveItem(pair, price);
      SetSide(pair, b, side, b.Side(side)[1..]);
    }

    /** Removes finished orders from the front of a side, level after level, until it meets an
        unfinished order or the end of the side. */
    method RemoveOrderMatchPrice(pair: PairId, otype: OrderType, orders: map<OrderId, Order>)
      requires Valid() && pair in books
      modifies this
      ensures Valid()
      ensures books == old(books)[pair :=
                old(books)[pair].WithSide(otype, Cleaned(orders, old(books)[pair].Side(otype)))]
    {
      hide Represents, Cleaned, DropFinished, Book.WithSide;
      ghost var b := books[pair];
      WithSideTwice(b, otype, b.Side(otype), []);
      var endItem := if otype.Buy? then Some(0) else Some(U128_MAX);
      var head := ReadHead(pair);
      while true
        invariant Valid() && pair in books
        invariant head == PriceItem(HeadPrev(books[pair]), HeadNext(books[pair]), None, 0, 0, [])
        invariant books == old(books)[pair := b.WithSide(otype, books[pair].Side(otype))]
        invariant Cleaned(orders, books[pair].Side(otype)) == Cleaned(orders, b.Side(otype))
        decreases |books[pair].Side(otype)|
      {
        ghost var levels := books[pair].Side(otype);
        ghost var next := if levels == [] then [] else CleanedFirst(orders, levels);
        WithSideTwice(b, otype, levels, next);
        WithSideTwice(b, otype, next, []);
        CleanedUnfold(orders, levels);
        BestPrice(items[pair], books[pair], otype);
        var price := NextMatchPrice(head, otype);
        if price == endItem {
          break;
        }
        var r := RemoveOrdersInOneItem(pair, price.value, orders, otype);
        if r.Err? {
          break;
        }
        head := ReadHead(pair);
      }
    }

    /** Withdraws one order from its level. */
    method RemoveOrder(pair: PairId, price: Price, id: OrderId, sellAmount: nat, buyAmount: nat) returns (r: Result<()>)
      modifies this`items
      ensures var stored := old(Stored(pair));
              if Some(price) in stored && id !in stored[Some(price)].orders then
                r == Err(OrderNotInList) && items == old(items)
              else if Some(price) in stored then
                r.Ok? && items == old(items)[pair := Withdrawn(stored, price, id, sellAmount, buyAmount)]
              else
                r.Ok? && items == old(items)
      ensures forall pre, post ::
                var stored := old(Stored(pair));
                Some(price) in stored && stored[Some(price)].orders == pre + [id] + post &&
                id !in pre && id !in post ==>
                && pair in items && Some(price) in items[pair] && items[pair][Some(price)].orders == pre + post
                && OtherQueuesKept(stored, items[pair], price)
    {
      r := Ok(());
      hide Unlinked, Retain, WrappingSub;
      forall pre, post | Some(price) in Stored(pair) && id !in pre && id !in post &&
                         Stored(pair)[Some(price)].orders == pre + [id] + post
        ensures Withdrawn(Stored(pair), price, id, sellAmount, buyAmount)[Some(price)].orders == pre + post
        ensures OtherQueuesKept(Stored(pair), Withdrawn(Stored(pair), price, id, sellAmount, buyAmount), price)
      {
        WithdrawnQueue(Stored(pair), price, id, sellAmount, buyAmount, pre, post);
      }
      match Entry(pair, Some(price)) {
        case Some(found) =>
          var item := found;
          :- Ensure(id in item.orders, OrderNotInList);
          item := item.(orders := Retain(item.orders, id));
          item := item.(buyAmount := WrappingSub(item.buyAmount, buyAmount));
          item := item.(sellAmount := WrappingSub(item.sellAmount, sellAmount));
          if |item.orders| == 0 {
            RemoveItem(pair, price);
          }
          Write(pair, Some(price), item);
        case None =>
      }
    }

    /** Records the book that the stored map of one pair now spells out. */
    ghost method Adopt(pair: PairId, b: Book)
      requires pair in items && Represents(items[pair], b)
      requires books.Keys == items.Keys && forall q <- books.Keys :: q != pair ==> Represents(items[q], books[q])
      modifies this`books
      ensures Valid() && books == old(books)[pair := b]
    {
      books := books[pair := b];
    }
  }
}
