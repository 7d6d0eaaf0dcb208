/** The static estimate page: three fixed products, one quantity per product,
    and the grand total. */
module EstimateOrder {
  import opened Js
  import opened Text

  datatype Product = Product(id: int, name: string, brand: string, packing: string, price: real)

  const Products: seq<Product> := [
    Product(1, "Rocket", "Vadivel", "10 pcs", 120.0),
    Product(2, "Garland", "Supreme", "5 pcs", 200.0),
    Product(3, "Flower Pot", "Starvell", "6 pcs", 150.0)
  ]

  /** `qty.reduce((sum, q, idx) => sum + q * products[idx].price, 0)`, folded
      from the left over the first `n` quantities. */
  function TotalOf(qty: seq<JsNumber>, n: nat): (r: JsNumber)
    requires n <= |qty| <= |Products|
    ensures r.NaN? <==> exists i :: 0 <= i < n && qty[i].NaN?
  {
    if n == 0 then Finite(0.0)
    else TotalOf(qty, n - 1).Add(qty[n - 1].Times(Products[n - 1].price))
  }

  /** The grand total over all quantities: NaN exactly when some quantity is
      NaN, and a number of at least 0 when every quantity is one. */
  function Total(qty: seq<JsNumber>): (r: JsNumber)
    requires |qty| <= |Products|
    ensures r.NaN? <==> exists i :: 0 <= i < |qty| && qty[i].NaN?
    ensures (forall i :: 0 <= i < |qty| ==> qty[i].Finite? && qty[i].n >= 0.0) ==> r.Finite? && r.n >= 0.0
  {
    if forall i :: 0 <= i < |qty| ==> qty[i].Finite? && qty[i].n >= 0.0 then
      TotalNonNegative(qty, |qty|);
      TotalOf(qty, |qty|)
    else
      TotalOf(qty, |qty|)
  }

  /** The row's total cell: `qty[idx] * prod.price`. */
  function RowTotal(qty: seq<JsNumber>, idx: nat): JsNumber
    requires idx < |qty| && idx < |Products|
  {
    qty[idx].Times(Products[idx].price)
  }

  /** The sum of the row totals shown in the first `n` rows. */
  function RowSum(qty: seq<JsNumber>, n: nat): real
    requires n <= |qty| <= |Products|
    requires forall i :: 0 <= i < |qty| ==> qty[i].Finite?
  {
    if n == 0 then 0.0 else RowSum(qty, n - 1) + RowTotal(qty, n - 1).n
  }

  /** With numeric quantities the grand total is the sum of the rows. */
  lemma {:induction false} TotalIsRowSum(qty: seq<JsNumber>, n: nat)
    requires n <= |qty| <= |Products|
    requires forall i :: 0 <= i < |qty| ==> qty[i].Finite?
    ensures TotalOf(qty, n) == Finite(RowSum(qty, n))
  {
    if n > 0 {
      TotalIsRowSum(qty, n - 1);
    }
  }

  /** With non-negative quantities no row and no total is negative. */
  lemma {:induction false} TotalNonNegative(qty: seq<JsNumber>, n: nat)
    requires n <= |qty| <= |Products|
    requires forall i :: 0 <= i < |qty| ==> qty[i].Finite? && qty[i].n >= 0.0
    ensures TotalOf(qty, n).Finite? && TotalOf(qty, n).n >= 0.0
  {
    if n > 0 {
      TotalNonNegative(qty, n - 1);
      assert Products[n - 1].price > 0.0;
      assert qty[n - 1].n * Products[n - 1].price >= 0.0;
    }
  }

  /** All-zero quantities total 0. */
  lemma {:induction false} ZeroTotal(qty: seq<JsNumber>, n: nat)
    requires n <= |qty| <= |Products|
    requires forall i :: 0 <= i < |qty| ==> qty[i] == Finite(0.0)
    ensures TotalOf(qty, n) == Finite(0.0)
  {
    if n > 0 {
      ZeroTotal(qty, n - 1);
      var price := Products[n - 1].price;
      assert qty[n - 1].Times(price) == Finite(0.0 * price);
    }
  }

  class Estimate {
    var qty: seq<JsNumber>

    /** One quantity per product. */
    predicate Valid()
      reads this
    {
      |qty| == |Products|
    }

    /** `useState(products.map(() => 0))`: every quantity 0, so the total is 0. */
    constructor ()
      ensures Valid()
      ensures forall i :: 0 <= i < |qty| ==> qty[i] == Finite(0.0)
      ensures Total(qty) == Finite(0.0)
    {
      qty := [Finite(0.0), Finite(0.0), Finite(0.0)];
      new;
      ZeroTotal(qty, 3);
    }

    /** `handleQtyChange`: a copy of the array with index `idx` set to `Number(value)`. */
    method HandleQtyChange(idx: nat, value: string)
      requires Valid() && idx < |Products|
      modifies this
      ensures Valid()
      ensures qty[idx] == ParseDecimal(value)
      ensures forall i :: 0 <= i < |qty| && i != idx ==> qty[i] == old(qty)[i]
    {
      qty := qty[idx := ParseDecimal(value)];
    }

    function GrandTotal(): JsNumber
      requires Valid()
      reads this
    {
      Total(qty)
    }
  }
}
