/** A circular doubly linked list stored in a map: each entry names its neighbours by key. A chain is
    the sequence of nodes that such a map spells out. */
module Links {
  import opened Base

  type Key = Option<Price>

  datatype PriceItem = PriceItem(
    prev: Key,
    next: Key,
    price: Key,
    buyAmount: nat,
    sellAmount: nat,
    orders: seq<OrderId>
  )

  type Items = map<Key, PriceItem>

  datatype Node = Node(key: Key, buyAmount: nat, sellAmount: nat, orders: seq<OrderId>)

  function PrevKey(chain: seq<Node>, i: nat): Key
    requires i < |chain|
  {
    if i == 0 then chain[|chain| - 1].key else chain[i - 1].key
  }

  function NextKey(chain: seq<Node>, i: nat): Key
    requires i < |chain|
  {
    if i == |chain| - 1 then chain[0].key else chain[i + 1].key
  }

  function ItemAt(chain: seq<Node>, i: nat): PriceItem
    requires i < |chain|
  {
    PriceItem(PrevKey(chain, i), NextKey(chain, i), chain[i].key,
              chain[i].buyAmount, chain[i].sellAmount, chain[i].orders)
  }

  ghost predicate HasKey(chain: seq<Node>, k: Key) {
    exists i :: 0 <= i < |chain| && chain[i].key == k
  }

  ghost predicate DistinctKeys(chain: seq<Node>) {
    forall i, j :: 0 <= i < j < |chain| ==> chain[i].key != chain[j].key
  }

  ghost predicate ChainPlaced(items: Items, chain: seq<Node>, i: int)
    requires 0 <= i < |chain|
  {
    chain[i].key in items && items[chain[i].key] == ItemAt(chain, i)
  }

  /** `items` holds exactly the nodes of `chain`, each linked to its neighbours. */
  ghost predicate Linked(items: Items, chain: seq<Node>) {
    && DistinctKeys(chain)
    && (forall k <- items.Keys :: HasKey(chain, k))
    && (forall i {:trigger ChainPlaced(items, chain, i)} :: 0 <= i < |chain| ==> ChainPlaced(items, chain, i))
  }

  /** In a linked map the two kinds of links are inverse to each other. */
  lemma LinksAreInverse(items: Items, chain: seq<Node>, k: Key)
    requires Linked(items, chain) && k in items
    ensures items[k].next in items && items[items[k].next].prev == k
    ensures items[k].prev in items && items[items[k].prev].next == k
    ensures items[k].price == k
  {
    var i :| 0 <= i < |chain| && chain[i].key == k;
    var after, before := if i == |chain| - 1 then 0 else i + 1, if i == 0 then |chain| - 1 else i - 1;
    assert ChainPlaced(items, chain, i) && ChainPlaced(items, chain, after) && ChainPlaced(items, chain, before);
  }

  // ---------- Rewriting one node ----------

  function Rewritten(items: Items, node: Node): Items
    requires node.key in items
  {
    items[node.key :=
      items[node.key].(buyAmount := node.buyAmount, sellAmount := node.sellAmount, orders := node.orders)]
  }

  lemma RewrittenIs(items: Items, node: Node)
    requires node.key in items
    ensures Rewritten(items, node) == items[node.key :=
      items[node.key].(buyAmount := node.buyAmount, sellAmount := node.sellAmount, orders := node.orders)]
  {
  }

  lemma RewriteLinked(items: Items, chain: seq<Node>, i: nat, node: Node)
    requires Linked(items, chain)
    requires i < |chain| && node.key == chain[i].key
    ensures ChainPlaced(items, chain, i)
    ensures Linked(Rewritten(items, node), chain[i := node])
  {
    var items', chain' := Rewritten(items, node), chain[i := node];
    assert ChainPlaced(items, chain, i);
    forall k | k in items' ensures HasKey(chain', k) {
      var j :| 0 <= j < |chain| && chain[j].key == k;
      assert chain'[j].key == k;
    }
    forall j | 0 <= j < |chain'| ensures ChainPlaced(items', chain', j) {
      assert ChainPlaced(items, chain, j);
    }
  }

  // ---------- Unlinking one node ----------

  /** Takes the entry of `k` out and joins its neighbours, if they are there. */
  function Unlinked(items: Items, k: Key): Items
    requires k in items
  {
    var item, rest := items[k], items - {k};
    var rest1 := if item.prev in rest then rest[item.prev := rest[item.prev].(next := item.next)] else rest;
    if item.next in rest1 then rest1[item.next := rest1[item.next].(prev := item.prev)] else rest1
  }

  function Without<T>(s: seq<T>, i: nat): (r: seq<T>)
    requires i < |s|
    ensures |r| == |s| - 1
  {
    s[..i] + s[i + 1..]
  }

  lemma UnlinkedAt(items: Items, k: Key, q: Key)
    requires k in items && k != q
    ensures q in Unlinked(items, k) <==> q in items
    ensures q in items ==> Unlinked(items, k)[q] == items[q].(
      next := if q == items[k].prev then items[k].next else items[q].next,
      prev := if q == items[k].next then items[k].prev else items[q].prev)
    ensures items[k].prev != k && items[k].next != k ==> k !in Unlinked(items, k)
  {
  }

  lemma WithoutKeys(items: Items, chain: seq<Node>, i: nat)
    requires Linked(items, chain)
    requires i < |chain|
    ensures DistinctKeys(Without(chain, i))
    ensures forall q :: q in items && q != chain[i].key ==> HasKey(Without(chain, i), q)
  {
    var chain' := Without(chain, i);
    forall q | q in items && q != chain[i].key ensures HasKey(chain', q) {
      var j :| 0 <= j < |chain| && chain[j].key == q;
      assert chain'[if j < i then j else j - 1].key == q;
    }
  }

  lemma UnlinkPlaced(items: Items, chain: seq<Node>, i: nat, j: nat)
    requires DistinctKeys(chain)
    requires 0 < i < |chain| - 1 && j < |chain| && i != j
    requires ChainPlaced(items, chain, i) && ChainPlaced(items, chain, j)
    ensures ChainPlaced(Unlinked(items, chain[i].key), Without(chain, i), if j < i then j else j - 1)
  {
  }

  lemma UnlinkCovers(items: Items, chain: seq<Node>, i: nat)
    requires Linked(items, chain)
    requires 0 < i < |chain| - 1
    requires ChainPlaced(items, chain, i)
    ensures forall q <- Unlinked(items, chain[i].key).Keys :: HasKey(Without(chain, i), q)
  {
    assert ChainPlaced(items, chain, i - 1) && ChainPlaced(items, chain, i + 1);
    WithoutKeys(items, chain, i);
    forall q <- Unlinked(items, chain[i].key).Keys ensures HasKey(Without(chain, i), q) {
      UnlinkedAt(items, chain[i].key, q);
    }
  }

  lemma UnlinkAllPlaced(items: Items, chain: seq<Node>, i: nat)
    requires Linked(items, chain)
    requires 0 < i < |chain| - 1
    requires ChainPlaced(items, chain, i)
    ensures forall j {:trigger ChainPlaced(Unlinked(items, chain[i].key), Without(chain, i), j)} ::
              0 <= j < |chain| - 1 ==> ChainPlaced(Unlinked(items, chain[i].key), Without(chain, i), j)
  {
    hide HasKey, ItemAt, Unlinked, Without;
    forall j | 0 <= j < |chain| - 1 ensures ChainPlaced(Unlinked(items, chain[i].key), Without(chain, i), j) {
      var was := if j < i then j else j + 1;
      assert ChainPlaced(items, chain, was);
      UnlinkPlaced(items, chain, i, was);
    }
  }

  lemma UnlinkLinked(items: Items, chain: seq<Node>, i: nat)
    requires Linked(items, chain)
    requires 0 < i < |chain| - 1
    ensures ChainPlaced(items, chain, i)
    ensures Linked(Unlinked(items, chain[i].key), Without(chain, i))
  {
    hide HasKey, ItemAt, Unlinked, Without, DistinctKeys;
    assert ChainPlaced(items, chain, i);
    WithoutKeys(items, chain, i);
    UnlinkCovers(items, chain, i);
    UnlinkAllPlaced(items, chain, i);
  }

  // ---------- Linking a new node ----------

  function LinkedIn(items: Items, at: Key, node: Node): Items
    requires at in items
  {
    var left := items[at];
    var items1 := items[at := left.(next := node.key)];
    var items2 := if left.next in items1 then items1[left.next := items1[left.next].(prev := node.key)] else items1;
    items2[node.key := PriceItem(at, left.next, node.key, node.buyAmount, node.sellAmount, node.orders)]
  }

  function With<T>(s: seq<T>, i: nat, x: T): (r: seq<T>)
    requires i <= |s|
    ensures |r| == |s| + 1
  {
    s[..i] + [x] + s[i..]
  }

  lemma LinkedInAt(items: Items, at: Key, node: Node, q: Key)
    requires at in items && items[at].next in items && node.key !in items
    ensures q in LinkedIn(items, at, node) <==> q in items || q == node.key
    ensures q in items ==> LinkedIn(items, at, node)[q] == items[q].(
      next := if q == at then node.key else items[q].next,
      prev := if q == items[at].next then node.key else items[q].prev)
    ensures LinkedIn(items, at, node)[node.key] ==
            PriceItem(at, items[at].next, node.key, node.buyAmount, node.sellAmount, node.orders)
  {
  }

  lemma WithKeys(items: Items, chain: seq<Node>, i: nat, node: Node)
    requires Linked(items, chain)
    requires i <= |chain| && node.key !in items
    ensures DistinctKeys(With(chain, i, node))
    ensures forall q :: q in items || q == node.key ==> HasKey(With(chain, i, node), q)
  {
    var chain' := With(chain, i, node);
    forall j | 0 <= j < |chain| ensures chain[j].key != node.key {
      assert ChainPlaced(items, chain, j);
    }
    forall q | q in items || q == node.key ensures HasKey(chain', q) {
      if q == node.key {
        assert chain'[i].key == q;
      } else {
        var j :| 0 <= j < |chain| && chain[j].key == q;
        assert chain'[if j < i then j else j + 1].key == q;
      }
    }
  }

  lemma InsertPlaced(items: Items, chain: seq<Node>, i: nat, node: Node, j: nat)
    requires DistinctKeys(chain) && node.key !in items
    requires i + 1 < |chain| && j < |chain|
    requires ChainPlaced(items, chain, i) && ChainPlaced(items, chain, i + 1) && ChainPlaced(items, chain, j)
    ensures ChainPlaced(LinkedIn(items, chain[i].key, node), With(chain, i + 1, node), if j <= i then j else j + 1)
    ensures ChainPlaced(LinkedIn(items, chain[i].key, node), With(chain, i + 1, node), i + 1)
  {
  }

  lemma InsertCovers(items: Items, chain: seq<Node>, i: nat, node: Node)
    requires Linked(items, chain)
    requires i + 1 < |chain| && node.key !in items
    requires ChainPlaced(items, chain, i)
    ensures forall q <- LinkedIn(items, chain[i].key, node).Keys :: HasKey(With(chain, i + 1, node), q)
  {
    assert ChainPlaced(items, chain, i + 1);
    WithKeys(items, chain, i + 1, node);
    forall q <- LinkedIn(items, chain[i].key, node).Keys ensures HasKey(With(chain, i + 1, node), q) {
      LinkedInAt(items, chain[i].key, node, q);
    }
  }

  lemma InsertAllPlaced(items: Items, chain: seq<Node>, i: nat, node: Node)
    requires Linked(items, chain)
    requires i + 1 < |chain| && node.key !in items
    requires ChainPlaced(items, chain, i)
    ensures forall j {:trigger ChainPlaced(LinkedIn(items, chain[i].key, node), With(chain, i + 1, node), j)} ::
              0 <= j <= |chain| ==> ChainPlaced(LinkedIn(items, chain[i].key, node), With(chain, i + 1, node), j)
  {
    hide HasKey, ItemAt, LinkedIn, With;
    assert ChainPlaced(items, chain, i + 1);
    var items', chain' := LinkedIn(items, chain[i].key, node), With(chain, i + 1, node);
    forall j | 0 <= j <= |chain| ensures ChainPlaced(items', chain', j) {
      var was := if j <= i then j else if j == i + 1 then i else j - 1;
      assert ChainPlaced(items, chain, was);
      InsertPlaced(items, chain, i, node, was);
    }
  }

  lemma InsertLinked(items: Items, chain: seq<Node>, i: nat, node: Node)
    requires Linked(items, chain)
    requires i + 1 < |chain|
    requires node.key !in items
    ensures ChainPlaced(items, chain, i)
    ensures Linked(LinkedIn(items, chain[i].key, node), With(chain, i + 1, node))
  {
    hide HasKey, ItemAt, LinkedIn, With, DistinctKeys;
    assert ChainPlaced(items, chain, i);
    WithKeys(items, chain, i + 1, node);
    InsertCovers(items, chain, i, node);
    InsertAllPlaced(items, chain, i, node);
  }
}
