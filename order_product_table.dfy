/** The storefront's live estimate table: a quantity per product id, kept in
    step with the product snapshots, products grouped by category, and the
    grand total. */
module OrderProductTable {
  import opened Js
  import opened Text
  import opened Seqs
  import opened Dict
  import D = Dict

  /** A product row as the table reads it from a snapshot. The stored price
      may be the form's text; `price` is what the table's multiplications
      make of it, `Number(p.price)`, NaN for text that is not a number. */
  datatype TableProduct = TableProduct(id: string, category: Option<string>, price: JsNumber)

  type QtyMap = Dict<JsNumber>

  function Ids(ps: seq<TableProduct>): (r: seq<string>)
    ensures |r| == |ps|
    ensures forall i :: 0 <= i < |ps| ==> r[i] == ps[i].id
  {
    if ps == [] then [] else [ps[0].id] + Ids(ps[1..])
  }

  /** `qty[id] || 0`. */
  function KeptQty(qty: QtyMap, id: string): real {
    match Lookup(qty, id)
      case None => 0.0
      case Some(q) => q.OrZero()
  }

  // ---------------------------------------------------------------------------
  // Grouping

  /** `p.category || "Uncategorized"`. */
  function Category(p: TableProduct): string {
    OrStr(p.category, "Uncategorized")
  }

  /** The products of one category, in catalog order. */
  function GroupOf(ps: seq<TableProduct>, cat: string): (r: seq<TableProduct>)
    ensures |r| <= |ps|
    ensures forall x :: x in r ==> x in ps && Category(x) == cat
  {
    if ps == [] then []
    else
      var init := ps[..|ps| - 1];
      var last := ps[|ps| - 1];
      assert forall x :: x in init ==> x in ps;
      GroupOf(init, cat) + (if Category(last) == cat then [last] else [])
  }

  /** A product lies in the group of its own category and in no other. */
  lemma {:induction false} ExactlyOneGroup(ps: seq<TableProduct>, p: TableProduct, cat: string)
    requires p in ps
    ensures p in GroupOf(ps, cat) <==> cat == Category(p)
  {
    if ps != [] {
      var init := ps[..|ps| - 1];
      assert ps == init + [ps[|ps| - 1]];
      if p in init {
        ExactlyOneGroup(init, p, cat);
      }
    }
  }

  /** A group is the catalog filtered by category. */
  lemma {:induction false} GroupOfIsFilter(ps: seq<TableProduct>, cat: string)
    ensures GroupOf(ps, cat) == Filter(ps, (x: TableProduct) => Category(x) == cat)
  {
    if ps != [] {
      var init := ps[..|ps| - 1];
      var last := ps[|ps| - 1];
      GroupOfIsFilter(init, cat);
      assert ps == init + [last];
      FilterAppend(init, [last], (x: TableProduct) => Category(x) == cat);
      assert [last][1..] == [];
    }
  }

  /** A category has a non-empty group exactly when some product has it. */
  lemma GroupNonEmptyIff(ps: seq<TableProduct>, cat: string)
    ensures GroupOf(ps, cat) != [] <==> exists j :: 0 <= j < |ps| && Category(ps[j]) == cat
  {
    if exists j :: 0 <= j < |ps| && Category(ps[j]) == cat {
      var j :| 0 <= j < |ps| && Category(ps[j]) == cat;
      ExactlyOneGroup(ps, ps[j], cat);
    }
    var g := GroupOf(ps, cat);
    if g != [] {
      assert g[0] in ps;
    }
  }

  /** The total number of products over all groups. */
  function GroupSizes(groups: Dict<seq<TableProduct>>): nat {
    if groups == [] then 0 else |groups[0].value| + GroupSizes(groups[1..])
  }

  lemma {:induction false} GroupSizesAssign(d: Dict<seq<TableProduct>>, k: string, v: seq<TableProduct>)
    ensures GroupSizes(Assign(d, k, v)) + (if Lookup(d, k).Some? then |Lookup(d, k).value| else 0)
      == GroupSizes(d) + |v|
  {
    if d != [] && d[0].key != k {
      GroupSizesAssign(d[1..], k, v);
    }
  }

  /** The groups of the products `ps`: one key per category that occurs,
      holding that category's products in catalog order. */
  ghost predicate GroupedAs(groups: Dict<seq<TableProduct>>, ps: seq<TableProduct>) {
    D.Valid(groups)
    && (forall k :: k in Keys(groups) <==> GroupOf(ps, k) != [])
    && (forall k :: k in Keys(groups) ==> Lookup(groups, k) == Some(GroupOf(ps, k)))
  }

  /** `if (!acc[cat]) acc[cat] = []; acc[cat].push(p)`. */
  function Push(groups: Dict<seq<TableProduct>>, p: TableProduct): Dict<seq<TableProduct>> {
    var members := match Lookup(groups, Category(p)) case None => [] case Some(g) => g;
    Assign(groups, Category(p), members + [p])
  }

  /** Appending a product adds it to the end of its own category's group only. */
  lemma GroupOfSnoc(ps: seq<TableProduct>, p: TableProduct, k: string)
    ensures GroupOf(ps + [p], k) == GroupOf(ps, k) + (if Category(p) == k then [p] else [])
  {
    assert (ps + [p])[..|ps|] == ps;
  }

  lemma PushLookupAt(groups: Dict<seq<TableProduct>>, ps: seq<TableProduct>, p: TableProduct, k: string)
    requires Category(p) in Keys(groups) ==> Lookup(groups, Category(p)) == Some(GroupOf(ps, Category(p)))
    requires Category(p) !in Keys(groups) ==> GroupOf(ps, Category(p)) == []
    requires k in Keys(groups) ==> Lookup(groups, k) == Some(GroupOf(ps, k))
    requires k in Keys(Push(groups, p))
    ensures Lookup(Push(groups, p), k) == Some(GroupOf(ps + [p], k))
  {
    var cat := Category(p);
    var members := match Lookup(groups, cat) case None => [] case Some(g) => g;
    assert members == GroupOf(ps, cat);
    var next := Assign(groups, cat, members + [p]);
    assert next == Push(groups, p);
    GroupOfSnoc(ps, p, k);
    if k == cat {
      assert Lookup(next, k) == Some(members + [p]);
      assert GroupOf(ps + [p], k) == GroupOf(ps, k) + [p];
    } else {
      assert Lookup(next, k) == Lookup(groups, k);
      assert k in Keys(groups);
      assert GroupOf(ps + [p], k) == GroupOf(ps, k) + [];
      assert GroupOf(ps, k) + [] == GroupOf(ps, k);
    }
  }

  lemma PushLookups(groups: Dict<seq<TableProduct>>, ps: seq<TableProduct>, p: TableProduct)
    requires GroupedAs(groups, ps)
    ensures forall k :: k in Keys(Push(groups, p)) ==> Lookup(Push(groups, p), k) == Some(GroupOf(ps + [p], k))
  {
    forall k | k in Keys(Push(groups, p)) ensures Lookup(Push(groups, p), k) == Some(GroupOf(ps + [p], k)) {
      assert Category(p) in Keys(groups) ==> Lookup(groups, Category(p)) == Some(GroupOf(ps, Category(p)));
      PushLookupAt(groups, ps, p, k);
    }
  }

  lemma PushKeys(groups: Dict<seq<TableProduct>>, ps: seq<TableProduct>, p: TableProduct)
    requires GroupedAs(groups, ps)
    ensures forall k :: k in Keys(Push(groups, p)) <==> GroupOf(ps + [p], k) != []
  {
    var next := Push(groups, p);
    assert forall k :: k in Keys(next) <==> k in Keys(groups) || k == Category(p);
    forall k ensures GroupOf(ps + [p], k) != [] <==> GroupOf(ps, k) != [] || k == Category(p) {
      GroupOfSnoc(ps, p, k);
    }
  }

  lemma PushStep(groups: Dict<seq<TableProduct>>, ps: seq<TableProduct>, p: TableProduct)
    requires GroupedAs(groups, ps)
    ensures GroupedAs(Push(groups, p), ps + [p])
    ensures GroupSizes(Push(groups, p)) == GroupSizes(groups) + 1
  {
    var cat := Category(p);
    var members := match Lookup(groups, cat) case None => [] case Some(g) => g;
    PushLookups(groups, ps, p);
    PushKeys(groups, ps, p);
    GroupSizesAssign(groups, cat, members + [p]);
    AssignValid(groups, cat, members + [p]);
  }

  /** The categories of `ps`, each once, in the order they first occur: the
      order in which the `reduce` creates the group arrays. */
  function FirstSeen(ps: seq<TableProduct>): (r: seq<string>)
    ensures forall k :: k in r <==> exists j :: 0 <= j < |ps| && Category(ps[j]) == k
    ensures Distinct(r)
  {
    if ps == [] then []
    else
      var init := ps[..|ps| - 1];
      var cat := Category(ps[|ps| - 1]);
      var f := FirstSeen(init);
      assert forall j :: 0 <= j < |init| ==> init[j] == ps[j];
      if cat in f then f else f + [cat]
  }

  /** Pushing a product appends its category to the keys when it is new and
      leaves the keys alone otherwise, as `FirstSeen` does. */
  lemma PushKeysOrder(groups: Dict<seq<TableProduct>>, ps: seq<TableProduct>, p: TableProduct)
    requires Keys(groups) == FirstSeen(ps)
    ensures Keys(Push(groups, p)) == FirstSeen(ps + [p])
  {
    assert (ps + [p])[..|ps|] == ps;
  }

  /** The `reduce` that groups the products: each product is pushed onto the
      array of its category, a new array starting when a category is first
      seen. The groups partition the catalog, and `Object.entries` lists them
      in the order their categories first occur. */
  method GroupByCategory(products: seq<TableProduct>) returns (groups: Dict<seq<TableProduct>>)
    ensures GroupedAs(groups, products)
    ensures Keys(groups) == FirstSeen(products)
    ensures GroupSizes(groups) == |products|
  {
    groups := Empty();
    var i := 0;
    while i < |products|
      invariant 0 <= i <= |products|
      invariant GroupedAs(groups, products[..i])
      invariant Keys(groups) == FirstSeen(products[..i])
      invariant GroupSizes(groups) == i
    {
      assert products[..i + 1] == products[..i] + [products[i]];
      PushStep(groups, products[..i], products[i]);
      PushKeysOrder(groups, products[..i], products[i]);
      groups := Push(groups, products[i]);
      i := i + 1;
    }
    assert products[..i] == products;
  }

  // ---------------------------------------------------------------------------
  // Grand total

  /** `products.find(p => p.id === id)`: a product with that id when there is
      one; `FindFirst` shows it is the first. */
  function FindProduct(ps: seq<TableProduct>, id: string): (r: Option<TableProduct>)
    ensures r.None? <==> id !in Ids(ps)
    ensures r.Some? ==> r.value in ps && r.value.id == id
  {
    if ps == [] then None
    else if ps[0].id == id then Some(ps[0])
    else
      assert Ids(ps) == [ps[0].id] + Ids(ps[1..]);
      FindProduct(ps[1..], id)
  }

  /** No product before index `i` has the id `id`. */
  predicate NoIdBefore(ps: seq<TableProduct>, id: string, i: nat)
    requires i <= |ps|
  {
    forall j :: 0 <= j < i ==> ps[j].id != id
  }

  /** `find` stops at the first match: when the product at index `i` is the
      first with the id, the search returns it, whatever follows. */
  lemma {:induction false} FindFirst(ps: seq<TableProduct>, id: string, i: nat)
    requires i < |ps| && ps[i].id == id && NoIdBefore(ps, id, i)
    ensures FindProduct(ps, id) == Some(ps[i])
  {
    if i > 0 {
      assert ps[1..][i - 1] == ps[i];
      assert NoIdBefore(ps[1..], id, i - 1) by {
        forall j | 0 <= j < i - 1 ensures ps[1..][j].id != id {
          assert ps[1..][j] == ps[j + 1];
        }
      }
      FindFirst(ps[1..], id, i - 1);
    }
  }

  /** With distinct ids the search finds the product itself. */
  lemma {:induction false} FindDistinct(ps: seq<TableProduct>, i: nat)
    requires Distinct(Ids(ps)) && i < |ps|
    ensures FindProduct(ps, ps[i].id) == Some(ps[i])
  {
    if i > 0 {
      assert Ids(ps)[0] != Ids(ps)[i];
      assert Distinct(Ids(ps[1..])) by {
        forall a, b | 0 <= a < b < |ps| - 1 ensures Ids(ps[1..])[a] != Ids(ps[1..])[b] {
          assert Ids(ps)[a + 1] != Ids(ps)[b + 1];
        }
      }
      FindDistinct(ps[1..], i - 1);
    }
  }

  /** One quantity entry's share: `prod ? prod.price * q : 0`. */
  function EntryTerm(ps: seq<TableProduct>, e: Entry<JsNumber>): JsNumber {
    match FindProduct(ps, e.key)
      case None => Finite(0.0)
      case Some(p) => p.price.Mul(e.value)
  }

  /** `Object.entries(qty).reduce(...)`, folded from the left. The total is
      NaN exactly when some entry's share is NaN: one NaN quantity or price
      of a listed product spoils the sum. */
  function GrandTotal(ps: seq<TableProduct>, qty: QtyMap): (r: JsNumber)
    ensures r.NaN? <==> exists i :: 0 <= i < |qty| && EntryTerm(ps, qty[i]).NaN?
  {
    if qty == [] then Finite(0.0)
    else
      var k := |qty| - 1;
      var init := qty[..k];
      assert forall i :: 0 <= i < k ==> init[i] == qty[i];
      GrandTotal(ps, init).Add(EntryTerm(ps, qty[k]))
  }

  /** Entries whose id names no product add nothing. */
  lemma {:induction false} UnknownEntryAddsNothing(ps: seq<TableProduct>, qty: QtyMap, id: string, q: JsNumber)
    requires id !in Ids(ps)
    ensures GrandTotal(ps, qty + [Entry(id, q)]) == GrandTotal(ps, qty).Add(Finite(0.0))
  {
    assert (qty + [Entry(id, q)])[..|qty|] == qty;
  }

  /** The row's total cell: `(qty[prod.id] || 0) * prod.price`. */
  function RowTotal(qty: QtyMap, p: TableProduct): (r: JsNumber)
    ensures r.NaN? <==> p.price.NaN?
    ensures r.Finite? ==> r.n == KeptQty(qty, p.id) * p.price.n
  {
    Finite(KeptQty(qty, p.id)).Mul(p.price)
  }

  predicate AllFinite(qty: QtyMap) {
    forall i :: 0 <= i < |qty| ==> qty[i].value.Finite?
  }

  /** The quantity entry at index `i` names the product at index `i`, so its
      share is that row's total. */
  lemma {:induction false} EntryTermIsRowTotal(ps: seq<TableProduct>, qty: QtyMap, i: nat)
    requires Valid(qty) && Distinct(Ids(ps)) && Keys(qty) == Ids(ps) && AllFinite(qty)
    requires i < |qty|
    ensures EntryTerm(ps, qty[i]) == RowTotal(qty, ps[i])
  {
    var e := qty[i];
    assert e.key == Keys(qty)[i] == ps[i].id;
    FindDistinct(ps, i);
    LookupAt(qty, i);
    assert e.value == Finite(KeptQty(qty, ps[i].id));
  }

  /** The sum of the row totals the table shows for `rows`. */
  function RowsTotal(qty: QtyMap, rows: seq<TableProduct>): JsNumber {
    if rows == [] then Finite(0.0)
    else RowsTotal(qty, rows[..|rows| - 1]).Add(RowTotal(qty, rows[|rows| - 1]))
  }

  /** Summing entry by entry: when each entry contributes the total of the row
      beside it, the entries add up to the rows. */
  lemma {:induction false} GrandTotalRows(ps: seq<TableProduct>, qty: QtyMap, entries: QtyMap, rows: seq<TableProduct>)
    requires |entries| == |rows|
    requires forall i :: 0 <= i < |entries| ==> EntryTerm(ps, entries[i]) == RowTotal(qty, rows[i])
    ensures GrandTotal(ps, entries) == RowsTotal(qty, rows)
    decreases |entries|
  {
    if entries != [] {
      var k := |entries| - 1;
      var init, initRows := entries[..k], rows[..k];
      forall i | 0 <= i < k ensures EntryTerm(ps, init[i]) == RowTotal(qty, initRows[i]) {
        assert init[i] == entries[i] && initRows[i] == rows[i];
      }
      GrandTotalRows(ps, qty, init, initRows);
    }
  }

  /** When the quantity keys are the product ids, in catalog order, and every
      quantity is a number, the grand total is the sum of the rows' totals. */
  lemma {:induction false} GrandTotalIsRowSum(ps: seq<TableProduct>, qty: QtyMap)
    requires Valid(qty) && Distinct(Ids(ps)) && Keys(qty) == Ids(ps) && AllFinite(qty)
    ensures GrandTotal(ps, qty) == RowsTotal(qty, ps)
  {
    forall i | 0 <= i < |qty| ensures EntryTerm(ps, qty[i]) == RowTotal(qty, ps[i]) {
      EntryTermIsRowTotal(ps, qty, i);
    }
    GrandTotalRows(ps, qty, qty, ps);
  }

  /** The quantity map a snapshot produces: `newQty[p.id] = qty[p.id] || 0`
      for each product in order. */
  function KeptEntries(qty: QtyMap, ps: seq<TableProduct>): (r: QtyMap)
    ensures |r| == |ps|
    ensures forall i :: 0 <= i < |ps| ==> r[i] == Entry(ps[i].id, Finite(KeptQty(qty, ps[i].id)))
  {
    if ps == [] then []
    else
      var init := ps[..|ps| - 1];
      assert forall i :: 0 <= i < |init| ==> init[i] == ps[i];
      KeptEntries(qty, init) + [Entry(ps[|ps| - 1].id, Finite(KeptQty(qty, ps[|ps| - 1].id)))]
  }

  /** With distinct product ids the new map has exactly those ids as keys, in
      order, and each holds the product's kept quantity. */
  lemma {:induction false} KeptEntriesFacts(qty: QtyMap, ps: seq<TableProduct>)
    requires Distinct(Ids(ps))
    ensures Keys(KeptEntries(qty, ps)) == Ids(ps)
    ensures D.Valid(KeptEntries(qty, ps)) && AllFinite(KeptEntries(qty, ps))
    ensures forall j :: 0 <= j < |ps| ==> Lookup(KeptEntries(qty, ps), ps[j].id) == Some(Finite(KeptQty(qty, ps[j].id)))
  {
    var r := KeptEntries(qty, ps);
    KeptEntriesKeys(qty, ps);
    assert D.Valid(r);
    forall j | 0 <= j < |ps|
      ensures Lookup(r, ps[j].id) == Some(Finite(KeptQty(qty, ps[j].id)))
    {
      assert r[j].key == ps[j].id;
      LookupAt(r, j);
    }
  }

  /** The new map's keys are the product ids, in order. */
  lemma {:induction false} KeptEntriesKeys(qty: QtyMap, ps: seq<TableProduct>)
    ensures Keys(KeptEntries(qty, ps)) == Ids(ps)
  {
    var r := KeptEntries(qty, ps);
    assert forall j :: 0 <= j < |ps| ==> Keys(r)[j] == r[j].key == ps[j].id;
  }

  /** The next product's id is not yet a key of the map built so far. */
  lemma {:induction false} NextIdIsNew(qty: QtyMap, ps: seq<TableProduct>, i: nat)
    requires Distinct(Ids(ps)) && i < |ps|
    ensures ps[i].id !in Keys(KeptEntries(qty, ps[..i]))
  {
    var pre := ps[..i];
    KeptEntriesKeys(qty, pre);
    forall j | 0 <= j < i ensures Ids(pre)[j] != ps[i].id {
      assert Ids(ps)[j] != Ids(ps)[i];
    }
  }

  /** Extending the products by one extends the new map by that product's entry. */
  lemma {:induction false} KeptEntriesSnoc(qty: QtyMap, ps: seq<TableProduct>, i: nat)
    requires i < |ps|
    ensures KeptEntries(qty, ps[..i + 1]) == KeptEntries(qty, ps[..i]) + [Entry(ps[i].id, Finite(KeptQty(qty, ps[i].id)))]
  {
    assert ps[..i + 1][..i] == ps[..i];
  }

  /** One step of the snapshot loop appends the next product's entry. */
  lemma {:induction false} SnapshotStep(qty: QtyMap, ps: seq<TableProduct>, i: nat)
    requires Distinct(Ids(ps)) && i < |ps|
    ensures Assign(KeptEntries(qty, ps[..i]), ps[i].id, Finite(KeptQty(qty, ps[i].id)))
      == KeptEntries(qty, ps[..i + 1])
  {
    NextIdIsNew(qty, ps, i);
    AssignNewKeyAppends(KeptEntries(qty, ps[..i]), ps[i].id, Finite(KeptQty(qty, ps[i].id)));
    KeptEntriesSnoc(qty, ps, i);
  }

  // ---------------------------------------------------------------------------
  // The component

  class EstimateTable {
    var products: seq<TableProduct>
    var qty: QtyMap

    /** Quantity keys are distinct, and so are the product ids the store lists. */
    predicate Valid()
      reads this
    {
      D.Valid(qty) && Distinct(Ids(products))
    }

    /** The quantity keys are exactly the product ids, in catalog order. */
    predicate Reconciled()
      reads this
    {
      Keys(qty) == Ids(products)
    }

    constructor ()
      ensures Valid() && Reconciled() && products == [] && qty == []
    {
      products := [];
      qty := [];
    }

    /** A products snapshot: the new quantity map holds one key per product,
        keeping a surviving product's quantity and starting new ones at 0;
        keys of removed products are dropped. */
    method ReceiveSnapshot(prods: seq<TableProduct>)
      requires Valid()
      requires Distinct(Ids(prods))
      modifies this
      ensures Valid() && Reconciled() && products == prods
      ensures AllFinite(qty)
      ensures forall j :: 0 <= j < |prods| ==> Lookup(qty, prods[j].id) == Some(Finite(KeptQty(old(qty), prods[j].id)))
    {
      var prev := qty;
      var newQty := Empty();
      var i := 0;
      while i < |prods|
        invariant 0 <= i <= |prods|
        invariant newQty == KeptEntries(prev, prods[..i])
      {
        SnapshotStep(prev, prods, i);
        newQty := Assign(newQty, prods[i].id, Finite(KeptQty(prev, prods[i].id)));
        i := i + 1;
      }
      assert prods[..i] == prods;
      KeptEntriesFacts(prev, prods);
      products := prods;
      qty := newQty;
    }

    /** `handleQtyChange`: `qty[id] := Number(value)`; every other entry keeps
        its value, and a product's id keeps its place. */
    method HandleQtyChange(id: string, value: string)
      requires Valid()
      modifies this
      ensures Valid() && products == old(products)
      ensures qty == Assign(old(qty), id, ParseDecimal(value))
      ensures Lookup(qty, id) == Some(ParseDecimal(value))
      ensures forall k :: k != id ==> Lookup(qty, k) == Lookup(old(qty), k)
      ensures old(Reconciled()) && id in Ids(products) ==> Reconciled()
    {
      AssignValid(qty, id, ParseDecimal(value));
      qty := Assign(qty, id, ParseDecimal(value));
    }

    function Total(): JsNumber
      reads this
    {
      GrandTotal(products, qty)
    }
  }
}
