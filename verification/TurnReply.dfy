/**
  A reply's children by key (public/js/cockpit/turns.js: `place`): as a list in key
  order, and as the page keeps them, a map from keys to nodes beside the node's children.
*/
module TurnReply {
  import opened Options

  datatype Node = BlockNode(i: int) | LineNode(l: nat) | PromptNode(id: string) | RetryRow
  datatype Item = Item(key: real, node: Node)

  ghost predicate InKeyOrder(items: seq<Item>) { forall i, j :: 0 <= i < j < |items| ==> items[i].key < items[j].key }

  /** How many items stand before key k. */
  function Below(items: seq<Item>, k: real): (p: nat)
    ensures p <= |items|
    ensures forall i :: 0 <= i < p ==> items[i].key <= k
    ensures p < |items| ==> items[p].key > k
  {
    if items == [] || items[0].key > k then 0 else 1 + Below(items[1..], k)
  }

  /** The list with one more item, above every item with a higher key. */
  function Insert(items: seq<Item>, k: real, n: Node): seq<Item> {
    var p := Below(items, k);
    items[..p] + [Item(k, n)] + items[p..]
  }

  function DropNode(items: seq<Item>, n: Node): seq<Item> {
    if items == [] then []
    else (if items[0].node == n then [] else [items[0]]) + DropNode(items[1..], n)
  }

  function Nodes(items: seq<Item>): (r: seq<Node>)
    ensures |r| == |items| && forall i :: 0 <= i < |r| ==> r[i] == items[i].node
  {
    seq(|items|, i requires 0 <= i < |items| => items[i].node)
  }

  // ---- Every node at its key

  type KeyFn = Node -> Option<real>

  predicate Has(items: seq<Item>, n: Node) { exists i :: 0 <= i < |items| && items[i].node == n }

  /** The items are exactly the nodes that have a key, each once, in strictly increasing key order. */
  ghost predicate Placed(items: seq<Item>, key: KeyFn) {
    && InKeyOrder(items)
    && (forall i :: 0 <= i < |items| ==> key(items[i].node) == Some(items[i].key))
    && (forall n :: key(n).Some? ==> Has(items, n))
  }

  lemma PlacedSame(items: seq<Item>, key: KeyFn, key': KeyFn)
    requires Placed(items, key) && forall n :: key'(n) == key(n)
    ensures Placed(items, key')
  {
  }

  /** The items around the one inserted. */
  lemma InsertIs(items: seq<Item>, k: real, n: Node)
    ensures var p, r := Below(items, k), Insert(items, k, n);
            && |r| == |items| + 1 && r[p] == Item(k, n)
            && (forall i :: 0 <= i < p ==> r[i] == items[i])
            && (forall i :: p < i < |r| ==> r[i] == items[i - 1])
    ensures forall x :: x in Insert(items, k, n) <==> x in items || x == Item(k, n)
  {
    hide Below;
    var p := Below(items, k);
    Around(items[..p], Item(k, n), items[p..]);
    assert items == items[..p] + items[p..];
  }

  lemma Around(a: seq<Item>, x: Item, b: seq<Item>)
    ensures forall y :: y in a + [x] + b <==> y in a || y == x || y in b
    ensures forall y :: y in a + b <==> y in a || y in b
  {
  }

  lemma InsertInOrder(items: seq<Item>, k: real, n: Node)
    requires InKeyOrder(items) && forall i :: 0 <= i < |items| ==> items[i].key != k
    ensures InKeyOrder(Insert(items, k, n))
  {
    InsertIs(items, k, n);
    var p, r := Below(items, k), Insert(items, k, n);
    hide Insert, Below;
    forall i, j | 0 <= i < j < |r| ensures r[i].key < r[j].key {
      if i < p && j == p { assert items[i].key <= k; }
      if i == p && j > p { assert items[p].key <= items[j - 1].key; }
    }
  }

  lemma HasIn(items: seq<Item>, n: Node)
    ensures Has(items, n) <==> exists x :: x in items && x.node == n
  {
  }

  lemma PlacedAdd(items: seq<Item>, key: KeyFn, key': KeyFn, k: real, n: Node)
    requires Placed(items, key) && key(n) == None && key'(n) == Some(k)
    requires forall m :: m != n ==> key'(m) == key(m) && key(m) != Some(k)
    ensures Placed(Insert(items, k, n), key')
  {
    hide Insert, Below, Has;
    forall i | 0 <= i < |items| ensures items[i].key != k { assert key(items[i].node) == Some(items[i].key); }
    InsertIs(items, k, n);
    InsertInOrder(items, k, n);
    var r := Insert(items, k, n);
    forall i | 0 <= i < |r| ensures key'(r[i].node) == Some(r[i].key) { assert r[i] in items || r[i] == Item(k, n); }
    forall m | key'(m).Some? ensures Has(r, m) {
      HasIn(items, m);
      HasIn(r, m);
      assert Item(k, n) in r;
    }
  }

  lemma {:induction false} DropHas(items: seq<Item>, n: Node)
    ensures forall x :: x in DropNode(items, n) <==> x in items && x.node != n
  {
    if items == [] {
    } else {
      DropHas(items[1..], n);
      Around([], items[0], items[1..]);
      assert items == [] + [items[0]] + items[1..];
    }
  }

  lemma {:induction false} DropKeeps(items: seq<Item>, n: Node)
    requires InKeyOrder(items)
    ensures InKeyOrder(DropNode(items, n))
    ensures forall x :: x in DropNode(items, n) <==> x in items && x.node != n
  {
    DropHas(items, n);
    if items == [] {
    } else {
      DropKeeps(items[1..], n);
      var rest := DropNode(items[1..], n);
      assert forall x :: x in items[1..] ==> items[0].key < x.key;
      assert forall i :: 0 <= i < |rest| ==> rest[i] in items[1..];
    }
  }

  lemma PlacedDrop(items: seq<Item>, key: KeyFn, key': KeyFn, n: Node)
    requires Placed(items, key) && key'(n) == None && forall m :: m != n ==> key'(m) == key(m)
    ensures Placed(DropNode(items, n), key')
  {
    DropKeeps(items, n);
    var rest := DropNode(items, n);
    forall i | 0 <= i < |rest| ensures key'(rest[i].node) == Some(rest[i].key) {
      assert rest[i] in items;
      var j :| 0 <= j < |items| && items[j] == rest[i];
    }
    forall m | key'(m).Some? ensures Has(rest, m) {
      assert Has(items, m);
      var i :| 0 <= i < |items| && items[i].node == m;
      assert items[i] in rest;
    }
  }

  lemma NodesDistinct(items: seq<Item>, key: KeyFn)
    requires Placed(items, key)
    ensures forall i, j :: 0 <= i < j < |items| ==> items[i].node != items[j].node
  {
  }

  // ---- As the page keeps them

  function Tail(retry: bool): seq<Node> { if retry then [RetryRow] else [] }

  /** The map holds exactly the items' nodes under their keys. */
  ghost predicate InMap(items: seq<Item>, placed: map<real, Node>) {
    && (forall x :: x in items ==> x.key in placed && placed[x.key] == x.node && x.node != RetryRow)
    && (forall k :: k in placed ==> Item(k, placed[k]) in items)
  }

  /** The map of placed nodes and the reply's children show the items, the retry row last. */
  ghost predicate Shows(items: seq<Item>, retry: bool, placed: map<real, Node>, children: seq<Node>) {
    InMap(items, placed) && children == Nodes(items) + Tail(retry)
  }

  function IndexOf(list: seq<Node>, n: Node): (i: nat)
    ensures i <= |list| && (n in list ==> i < |list| && list[i] == n)
    ensures forall j :: 0 <= j < i ==> list[j] != n
  {
    if list == [] || list[0] == n then 0 else 1 + IndexOf(list[1..], n)
  }

  /** A new child before another child, or last. */
  function InsertBefore(children: seq<Node>, n: Node, ref: Option<Node>): seq<Node> {
    if ref == None then children + [n]
    else
      var p := IndexOf(children, ref.value);
      children[..p] + [n] + children[p..]
  }

  function Remove(children: seq<Node>, n: Node): seq<Node> {
    if children == [] then []
    else (if children[0] == n then [] else [children[0]]) + Remove(children[1..], n)
  }

  /** The least key above k, if there is one. */
  ghost predicate NextKey(placed: map<real, Node>, k: real, after: Option<real>) {
    && (after.Some? ==> after.value in placed && after.value > k)
    && (forall x :: x in placed && x > k ==> after.Some? && after.value <= x)
  }

  lemma SomeKey(keys: set<real>)
    ensures (forall x :: x !in keys) <==> keys == {}
  {
    if forall x :: x !in keys { assert keys == {}; }
  }

  method LeastAbove(placed: map<real, Node>, k: real) returns (after: Option<real>)
    ensures NextKey(placed, k, after)
  {
    after := None;
    var keys := placed.Keys;
    while keys != {}
      invariant keys <= placed.Keys
      invariant after.Some? ==> after.value in placed && after.value > k
      invariant forall x :: x in placed && x !in keys && x > k ==> after.Some? && after.value <= x
      decreases |keys|
    {
      SomeKey(keys);
      var x :| x in keys;
      if x > k && (after == None || x < after.value) { after := Some(x); }
      keys := keys - {x};
    }
  }

  lemma InsertInMap(items: seq<Item>, placed: map<real, Node>, k: real, n: Node)
    requires InMap(items, placed) && k !in placed && n != RetryRow
    ensures InMap(Insert(items, k, n), placed[k := n])
  {
    InsertIs(items, k, n);
  }

  /** The first item with a higher key is the first with the least key above. */
  lemma NextIsBelow(items: seq<Item>, placed: map<real, Node>, k: real, after: Option<real>)
    requires InKeyOrder(items) && InMap(items, placed) && NextKey(placed, k, after)
    ensures var p := Below(items, k);
            if after.Some? then p < |items| && items[p] == Item(after.value, placed[after.value]) else p == |items|
  {
    var p := Below(items, k);
    if p < |items| { assert items[p] in items; }
    if after.Some? {
      assert Item(after.value, placed[after.value]) in items;
      var q :| 0 <= q < |items| && items[q] == Item(after.value, placed[after.value]);
      assert items[p].key <= items[q].key;
    }
  }

  lemma FirstIndex(list: seq<Node>, n: Node, p: nat)
    requires p < |list| && list[p] == n && forall i :: 0 <= i < p ==> list[i] != n
    ensures IndexOf(list, n) == p
  {
  }

  /** The child the page inserts before is the first item with a higher key, then the retry row. */
  lemma InsertShows(items: seq<Item>, retry: bool, placed: map<real, Node>, children: seq<Node>, k: real, n: Node, after: Option<real>)
    requires InKeyOrder(items) && Shows(items, retry, placed, children) && k !in placed && n != RetryRow
    requires forall i, j :: 0 <= i < j < |items| ==> items[i].node != items[j].node
    requires NextKey(placed, k, after)
    ensures var ref := if after.Some? then Some(placed[after.value]) else if retry then Some(RetryRow) else None;
            Shows(Insert(items, k, n), retry, placed[k := n], InsertBefore(children, n, ref))
  {
    hide IndexOf, Below;
    var p := Below(items, k);
    NextIsBelow(items, placed, k, after);
    InsertInMap(items, placed, k, n);
    assert forall i :: 0 <= i < |items| ==> children[i] == items[i].node && items[i] in items;
    if after.Some? {
      FirstIndex(children, placed[after.value], p);
    } else if retry {
      FirstIndex(children, RetryRow, p);
    }
    InsertNodes(items, retry, k, n);
  }

  lemma NodesConcat(a: seq<Item>, b: seq<Item>)
    ensures Nodes(a + b) == Nodes(a) + Nodes(b)
  {
  }

  lemma NodesOne(x: Item)
    ensures Nodes([x]) == [x.node]
  {
  }

  lemma Cut(a: seq<Node>, b: seq<Node>, c: seq<Node>)
    ensures (a + b + c)[..|a|] == a && (a + b + c)[|a|..] == b + c
  {
  }

  lemma InsertNodes(items: seq<Item>, retry: bool, k: real, n: Node)
    ensures var p, c := Below(items, k), Nodes(items) + Tail(retry);
            c[..p] + [n] + c[p..] == Nodes(Insert(items, k, n)) + Tail(retry)
  {
    hide Nodes, Below;
    var p := Below(items, k);
    var a, b := items[..p], items[p..];
    assert items == a + b;
    NodesConcat(a, b);
    NodesConcat(a, [Item(k, n)]);
    NodesConcat(a + [Item(k, n)], b);
    NodesOne(Item(k, n));
    assert |Nodes(a)| == p;
    Cut(Nodes(a), Nodes(b), Tail(retry));
    assert Nodes(a) + [n] + (Nodes(b) + Tail(retry)) == Nodes(a) + [n] + Nodes(b) + Tail(retry);
  }

  lemma RemoveCons(x: Node, rest: seq<Node>, n: Node)
    ensures Remove([x] + rest, n) == (if x == n then [] else [x]) + Remove(rest, n)
  {
    assert ([x] + rest)[1..] == rest;
  }

  lemma {:induction false} RemoveShows(items: seq<Item>, retry: bool, n: Node)
    requires n != RetryRow
    ensures Remove(Nodes(items) + Tail(retry), n) == Nodes(DropNode(items, n)) + Tail(retry)
  {
    if items == [] {
      RemoveTail(retry, n);
    } else {
      hide Nodes, Remove;
      var x, rest := items[0], items[1..];
      RemoveShows(rest, retry, n);
      assert items == [x] + rest;
      NodesConcat([x], rest);
      NodesOne(x);
      assert Nodes(items) + Tail(retry) == [x.node] + (Nodes(rest) + Tail(retry));
      RemoveCons(x.node, Nodes(rest) + Tail(retry), n);
      NodesConcat([x], DropNode(rest, n));
    }
  }

  lemma RemoveTail(retry: bool, n: Node)
    requires n != RetryRow
    ensures Remove(Nodes([]) + Tail(retry), n) == Nodes(DropNode([], n)) + Tail(retry)
  {
    assert Nodes([]) + Tail(retry) == Tail(retry);
    if retry { assert [RetryRow][1..] == []; }
  }

  /** Deleting a node's key from the map and the node from the children shows the items without it. */
  lemma DropShows(items: seq<Item>, retry: bool, placed: map<real, Node>, children: seq<Node>, n: Node)
    requires InKeyOrder(items) && Shows(items, retry, placed, children) && n != RetryRow
    ensures Shows(DropNode(items, n), retry, map k | k in placed && placed[k] != n :: placed[k], Remove(children, n))
  {
    hide DropNode;
    RemoveShows(items, retry, n);
    DropKeeps(items, n);
  }
}
