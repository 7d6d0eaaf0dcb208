/** The admin catalog form: derived discount fields, the auto-incremented
    product code, the submit and edit field mapping, search and pagination. */
module ProductManagement {
  import opened Js
  import opened Text
  import opened Seqs

  /** A field value: a string (what inputs produce) or a number (what the
      handlers compute). */
  datatype Value = Str(s: string) | Num(x: JsNumber)

  /** A form or a product record: a JavaScript object with string keys. */
  type Record = map<string, Value>

  /** JavaScript truthiness of a field; a missing field is `undefined`. */
  predicate Truthy(r: Record, k: string) {
    k in r && match r[k]
      case Str(s) => s != ""
      case Num(x) => x.Finite? && x.n != 0.0
  }

  /** `Number(r[k])`; `Number(undefined)` is NaN. */
  function NumberOf(r: Record, k: string): JsNumber {
    if k !in r then NaN
    else match r[k]
      case Str(s) => ParseDecimal(s)
      case Num(x) => x
  }

  /** `Number(r[k]) || 0`. */
  function NumberOrZero(r: Record, k: string): real {
    NumberOf(r, k).OrZero()
  }

  const InitialKeys: set<string> := {
    "code", "category", "name", "unit", "rsPrice", "rsDiscountPercent", "rsDiscountAmount",
    "rsRate", "wsPrice", "wsDiscountPercent", "wsDiscountAmount", "wsAmount", "caseQty",
    "stock", "image"}

  /** `initialForm`: every field the empty string. */
  function InitialForm(): (r: Record)
    ensures r.Keys == InitialKeys
    ensures forall k :: k in r ==> r[k] == Str("")
  {
    map k | k in InitialKeys :: Str("")
  }

  // ---------------------------------------------------------------------------
  // Derived discount fields

  function DiscountAmount(price: real, percent: real): real {
    price * percent / 100.0
  }

  /** `Math.max(price - amount, 0)`. */
  function DiscountedRate(price: real, percent: real): (r: real)
    ensures r >= 0.0 && r >= price - DiscountAmount(price, percent)
    ensures r == 0.0 || r == price - DiscountAmount(price, percent)
  {
    MaxReal(price - DiscountAmount(price, percent), 0.0)
  }

  /** With no discount the rate is the price; with a non-negative price and a
      percentage between 0 and 100 the rate lies between 0 and the price. */
  lemma RateBounds(price: real, percent: real)
    ensures percent == 0.0 && price >= 0.0 ==> DiscountedRate(price, percent) == price
    ensures price >= 0.0 && 0.0 <= percent <= 100.0 ==> 0.0 <= DiscountedRate(price, percent) <= price
  {
    if price >= 0.0 && 0.0 <= percent <= 100.0 {
      assert price * percent <= price * 100.0;
      assert 0.0 <= price * percent;
    }
  }

  const DerivedKeys: set<string> := {"rsDiscountAmount", "rsRate", "wsDiscountAmount", "wsAmount"}

  /** The recomputation both `handleChange` and `handleSubmit` run: the RS
      discount amount and rate, then the WS discount amount and amount. */
  function Derive(f: Record): (r: Record)
    ensures r.Keys == f.Keys + DerivedKeys
    ensures forall k :: k in f && k !in DerivedKeys ==> r[k] == f[k]
    ensures r["rsDiscountAmount"] == Num(Finite(DiscountAmount(NumberOrZero(f, "rsPrice"), NumberOrZero(f, "rsDiscountPercent"))))
    ensures r["rsRate"] == Num(Finite(DiscountedRate(NumberOrZero(f, "rsPrice"), NumberOrZero(f, "rsDiscountPercent"))))
    ensures r["wsDiscountAmount"] == Num(Finite(DiscountAmount(NumberOrZero(f, "wsPrice"), NumberOrZero(f, "wsDiscountPercent"))))
    ensures r["wsAmount"] == Num(Finite(DiscountedRate(NumberOrZero(f, "wsPrice"), NumberOrZero(f, "wsDiscountPercent"))))
  {
    var rsPrice := NumberOrZero(f, "rsPrice");
    var rsPercent := NumberOrZero(f, "rsDiscountPercent");
    var wsPrice := NumberOrZero(f, "wsPrice");
    var wsPercent := NumberOrZero(f, "wsDiscountPercent");
    f["rsDiscountAmount" := Num(Finite(DiscountAmount(rsPrice, rsPercent)))]
     ["rsRate" := Num(Finite(DiscountedRate(rsPrice, rsPercent)))]
     ["wsDiscountAmount" := Num(Finite(DiscountAmount(wsPrice, wsPercent)))]
     ["wsAmount" := Num(Finite(DiscountedRate(wsPrice, wsPercent)))]
  }

  /** The derived rates are never negative, and the derivation does not read
      its own outputs: deriving twice is deriving once. */
  lemma DeriveProperties(f: Record)
    ensures var r := Derive(f);
      r["rsRate"].x.Finite? && r["rsRate"].x.n >= 0.0
      && r["wsAmount"].x.Finite? && r["wsAmount"].x.n >= 0.0
    ensures Derive(Derive(f)) == Derive(f)
  {
    var r := Derive(f);
    DeriveKeepsInput(f, "rsPrice");
    DeriveKeepsInput(f, "rsDiscountPercent");
    DeriveKeepsInput(f, "wsPrice");
    DeriveKeepsInput(f, "wsDiscountPercent");
    var rr := Derive(r);
    assert rr.Keys == r.Keys;
    forall k | k in r ensures rr[k] == r[k] {
      if k !in DerivedKeys {
        assert k in f;
      }
    }
  }

  /** The derivation drops no field. */
  lemma DeriveGrowsKeys(f: Record)
    ensures f.Keys <= Derive(f).Keys
  {
  }

  /** An input of the derivation reads the same before and after it. */
  lemma DeriveKeepsInput(f: Record, k: string)
    requires k !in DerivedKeys
    ensures NumberOrZero(Derive(f), k) == NumberOrZero(f, k)
  {
    var r := Derive(f);
    assert (k in r) == (k in f);
    if k in f {
      assert r[k] == f[k];
    }
  }

  /** The record `handleSubmit` writes: the derived fields, then
      `price := rsPrice` and `rsrate := rsRate`. */
  function PrepareProduct(f: Record): (p: Record)
    requires "rsPrice" in f
    ensures p.Keys == f.Keys + DerivedKeys + {"price", "rsrate"}
    ensures p["price"] == f["rsPrice"] && p["rsrate"] == Derive(f)["rsRate"]
    ensures forall k :: k in f && k !in DerivedKeys && k != "price" && k != "rsrate" ==> p[k] == f[k]
  {
    var d := Derive(f);
    d["price" := d["rsPrice"]]["rsrate" := d["rsRate"]]
  }

  /** `handleEdit`'s form: the record over `initialForm`, with `rsPrice` taken
      from `price` and `rsRate` from `rsrate` (or the empty string). */
  function EditForm(prod: Record): (f: Record)
    ensures f.Keys == InitialKeys + prod.Keys
    ensures f["rsPrice"] == (if Truthy(prod, "price") then prod["price"] else Str(""))
    ensures f["rsRate"] == (if Truthy(prod, "rsrate") then prod["rsrate"] else Str(""))
    ensures forall k :: k in prod && k != "rsPrice" && k != "rsRate" ==> f[k] == prod[k]
    ensures forall k :: k in InitialKeys && k !in prod && k != "rsPrice" && k != "rsRate" ==> f[k] == Str("")
  {
    var base := InitialForm() + prod;
    assert "rsPrice" in base && "rsRate" in base by {
      RateFieldsAreInitial();
    }
    base
      ["rsPrice" := if Truthy(prod, "price") then prod["price"] else Str("")]
      ["rsRate" := if Truthy(prod, "rsrate") then prod["rsrate"] else Str("")]
  }

  lemma RateFieldsAreInitial()
    ensures "rsPrice" in InitialKeys && "rsRate" in InitialKeys
  {
  }

  /** Editing a record that was written by `handleSubmit` brings back its price
      as `rsPrice` whenever that price was truthy. */
  lemma EditAfterSubmit(f: Record)
    requires "rsPrice" in f && Truthy(f, "rsPrice")
    ensures EditForm(PrepareProduct(f))["rsPrice"] == f["rsPrice"]
  {
  }

  // ---------------------------------------------------------------------------
  // Auto-increment code

  /** `Number(p.code || 0)`. */
  function CodeNumber(p: Record): JsNumber {
    if Truthy(p, "code") then NumberOf(p, "code") else Finite(0.0)
  }

  /** `products.reduce((max, p) => Math.max(max, Number(p.code || 0)), 0)`.
      One non-numeric code makes the result NaN. */
  function MaxCode(products: seq<Record>): (r: JsNumber)
    ensures r.NaN? <==> exists i :: 0 <= i < |products| && CodeNumber(products[i]).NaN?
    ensures r.Finite? ==> r.n >= 0.0 && forall i :: 0 <= i < |products| ==> r.n >= CodeNumber(products[i]).n
    ensures r.Finite? ==> r.n == 0.0 || exists i :: 0 <= i < |products| && r.n == CodeNumber(products[i]).n
  {
    if products == [] then Finite(0.0)
    else
      var init := products[..|products| - 1];
      assert forall i :: 0 <= i < |init| ==> init[i] == products[i];
      MaxCode(init).Max(CodeNumber(products[|products| - 1]))
  }

  /** `maxCode + 1`: NaN as soon as one code is not a number; otherwise at
      least 1, above every code, and one more than the largest code (or 1). */
  function NextCode(products: seq<Record>): (r: JsNumber)
    ensures r.NaN? <==> exists i :: 0 <= i < |products| && CodeNumber(products[i]).NaN?
    ensures r.Finite? ==> r.n >= 1.0 && forall i :: 0 <= i < |products| ==> r.n > CodeNumber(products[i]).n
    ensures r.Finite? ==> r.n == 1.0 || exists i :: 0 <= i < |products| && r.n == CodeNumber(products[i]).n + 1.0
  {
    MaxCode(products).Plus(1.0)
  }

  /** When every code is numeric the next code is larger than each of them, so
      it differs from every existing code. */
  lemma NextCodeIsFresh(products: seq<Record>)
    requires forall i :: 0 <= i < |products| ==> CodeNumber(products[i]).Finite?
    ensures NextCode(products).Finite?
    ensures forall i :: 0 <= i < |products| ==> NextCode(products).n > CodeNumber(products[i]).n
    ensures NextCode(products).n >= 1.0
  {
  }

  // ---------------------------------------------------------------------------
  // Search and pagination

  function TextField(p: Record, k: string): Option<string> {
    if k in p && p[k].Str? then Some(p[k].s) else None
  }

  /** `p.name?.toLowerCase().includes(term) || p.category?...`: a product with
      neither field is never listed, even for an empty search. */
  predicate ProductMatches(p: Record, search: string) {
    (TextField(p, "name").Some? && Contains(Lower(TextField(p, "name").value), Lower(search)))
    || (TextField(p, "category").Some? && Contains(Lower(TextField(p, "category").value), Lower(search)))
  }

  function FilteredProducts(products: seq<Record>, search: string): (r: seq<Record>)
    ensures forall p :: p in r <==> p in products && ProductMatches(p, search)
  {
    var r := Filter(products, (p: Record) => ProductMatches(p, search));
    forall p ensures p in r <==> p in products && ProductMatches(p, search) {
      FilterMembership(products, (q: Record) => ProductMatches(q, search), p);
    }
    r
  }

  /** An empty search lists exactly the products with a name or a category. */
  lemma EmptySearchListsNamed(products: seq<Record>)
    ensures forall p :: p in FilteredProducts(products, "") <==>
      p in products && (TextField(p, "name").Some? || TextField(p, "category").Some?)
  {
    forall p | p in products
      ensures ProductMatches(p, "") <==> TextField(p, "name").Some? || TextField(p, "category").Some?
    {
      if TextField(p, "name").Some? { ContainsEmpty(Lower(TextField(p, "name").value)); }
      if TextField(p, "category").Some? { ContainsEmpty(Lower(TextField(p, "category").value)); }
    }
  }

  const PageSize: nat := 10

  /** `filtered.slice((page - 1) * pageSize, page * pageSize)`. */
  function Paginate<T>(filtered: seq<T>, page: nat): (r: seq<T>)
    requires page >= 1
    ensures |r| <= PageSize
  {
    Slice(filtered, (page - 1) * PageSize, page * PageSize)
  }

  /** `Math.ceil(n / pageSize)`. */
  function TotalPages(n: nat): (t: nat)
    ensures t * PageSize >= n && (t == 0 || (t - 1) * PageSize < n)
  {
    (n + PageSize - 1) / PageSize
  }

  /** Pages 1 to k, one after the other. */
  function FirstPages<T>(filtered: seq<T>, k: nat): seq<T> {
    if k == 0 then [] else FirstPages(filtered, k - 1) + Paginate(filtered, k)
  }

  lemma {:induction false} FirstPagesPrefix<T>(filtered: seq<T>, k: nat)
    requires (k - 1) * PageSize < |filtered| || k == 0
    ensures k * PageSize <= |filtered| ==> FirstPages(filtered, k) == filtered[..k * PageSize]
    ensures k * PageSize > |filtered| ==> FirstPages(filtered, k) == filtered
  {
    if k > 0 {
      FirstPagesPrefix(filtered, k - 1);
      var start := (k - 1) * PageSize;
      assert FirstPages(filtered, k - 1) == filtered[..start];
      if k * PageSize <= |filtered| {
        assert Paginate(filtered, k) == filtered[start..k * PageSize];
        assert filtered[..start] + filtered[start..k * PageSize] == filtered[..k * PageSize];
      } else {
        assert Paginate(filtered, k) == filtered[start..];
        assert filtered[..start] + filtered[start..] == filtered;
      }
    }
  }

  /** Pages 1 to totalPages partition the filtered list: they hold every
      product once, in order. */
  lemma PagesPartition<T>(filtered: seq<T>)
    ensures FirstPages(filtered, TotalPages(|filtered|)) == filtered
  {
    var t := TotalPages(|filtered|);
    FirstPagesPrefix(filtered, t);
    if t * PageSize <= |filtered| {
      assert filtered[..t * PageSize] == filtered;
    }
  }

  // ---------------------------------------------------------------------------
  // The component

  /** A write `handleSubmit` issues. */
  datatype ProductWrite = AddProduct(doc: Record) | UpdateProduct(id: string, doc: Record)

  class CatalogForm {
    var form: Record
    var products: seq<Record>
    var editId: Option<string>
    var search: string
    var page: nat

    /** The form always holds every field of `initialForm`, and the page is at least 1. */
    predicate Valid()
      reads this
    {
      InitialKeys <= form.Keys && page >= 1
    }

    predicate Editing()
      reads this
    {
      TruthyStr(editId)
    }

    constructor ()
      ensures Valid() && form == InitialForm() && products == [] && editId.None?
      ensures search == "" && page == 1
    {
      form := InitialForm();
      products := [];
      editId := None;
      search := "";
      page := 1;
    }

    /** The auto-increment effect, run when `products` or `editId` changed. */
    method CodeEffect()
      requires Valid()
      modifies this
      ensures Valid()
      ensures !Editing() ==> form == old(form)["code" := Num(NextCode(products))]
      ensures Editing() ==> form == old(form)
      ensures products == old(products) && editId == old(editId) && search == old(search) && page == old(page)
    {
      if !TruthyStr(editId) {
        form := form["code" := Num(NextCode(products))];
      }
    }

    /** A snapshot of the products collection. */
    method ReceiveProducts(list: seq<Record>)
      requires Valid()
      modifies this
      ensures Valid() && products == list
      ensures !Editing() ==> form == old(form)["code" := Num(NextCode(list))]
      ensures Editing() ==> form == old(form)
      ensures editId == old(editId) && search == old(search) && page == old(page)
    {
      products := list;
      CodeEffect();
    }

    /** `handleChange`: sets the named field and recomputes the derived fields. */
    method HandleChange(name: string, value: string)
      requires Valid()
      modifies this
      ensures Valid()
      ensures form == Derive(old(form)[name := Str(value)])
      ensures products == old(products) && editId == old(editId) && search == old(search) && page == old(page)
    {
      var f := form[name := Str(value)];
      DeriveGrowsKeys(f);
      form := Derive(f);
    }

    /** `handleReset`: the initial form and no edit id; the code effect runs
        only if `editId` changed. */
    method HandleReset()
      requires Valid()
      modifies this
      ensures Valid() && editId.None?
      ensures old(editId).Some? ==> form == InitialForm()["code" := Num(NextCode(products))]
      ensures old(editId).None? ==> form == InitialForm()
      ensures products == old(products) && search == old(search) && page == old(page)
    {
      var changed := editId.Some?;
      form := InitialForm();
      editId := None;
      if changed {
        CodeEffect();
      }
    }

    /** `handleSubmit`: writes the prepared record, as an update when editing
        and as a new product otherwise, then resets. A failed write rejects the
        handler before the reset. */
    method HandleSubmit(writeOk: bool) returns (write: ProductWrite)
      requires Valid()
      modifies this
      ensures Valid()
      ensures old(Editing()) ==> write == UpdateProduct(old(editId).value, PrepareProduct(old(form)))
      ensures !old(Editing()) ==> write == AddProduct(PrepareProduct(old(form)))
      ensures writeOk ==> editId.None? && form.Keys >= InitialKeys
      ensures writeOk && old(editId).None? ==> form == InitialForm()
      ensures writeOk && old(editId).Some? ==> form == InitialForm()["code" := Num(NextCode(products))]
      ensures !writeOk ==> form == old(form) && editId == old(editId)
      ensures products == old(products) && search == old(search) && page == old(page)
    {
      var product := PrepareProduct(form);
      if TruthyStr(editId) {
        write := UpdateProduct(editId.value, product);
      } else {
        write := AddProduct(product);
      }
      if writeOk {
        HandleReset();
      }
    }

    /** `handleEdit`: the product's id becomes the edit id and its fields fill
        the form; the code effect does nothing while editing. */
    method HandleEdit(prod: Record)
      requires Valid()
      requires "id" in prod && prod["id"].Str? && prod["id"].s != ""
      modifies this
      ensures Valid() && Editing()
      ensures editId == Some(prod["id"].s) && form == EditForm(prod)
      ensures products == old(products) && search == old(search) && page == old(page)
    {
      editId := Some(prod["id"].s);
      form := EditForm(prod);
      CodeEffect();
    }

    method SetSearch(value: string)
      requires Valid()
      modifies this
      ensures Valid() && search == value
      ensures form == old(form) && products == old(products) && editId == old(editId) && page == old(page)
    {
      search := value;
    }

    /** The Prev button, disabled on page 1. */
    method PrevPage()
      requires Valid()
      modifies this
      ensures Valid()
      ensures old(page) == 1 ==> page == 1
      ensures old(page) != 1 ==> page == old(page) - 1
      ensures form == old(form) && products == old(products) && editId == old(editId) && search == old(search)
    {
      if page != 1 {
        page := page - 1;
      }
    }

    /** The Next button, disabled on the last page. With no products the last
        page is 0, so the button stays enabled. */
    method NextPage()
      requires Valid()
      modifies this
      ensures Valid()
      ensures old(page) == TotalPages(|FilteredProducts(products, search)|) ==> page == old(page)
      ensures old(page) != TotalPages(|FilteredProducts(products, search)|) ==> page == old(page) + 1
      ensures form == old(form) && products == old(products) && editId == old(editId) && search == old(search)
    {
      if page != TotalPages(|FilteredProducts(products, search)|) {
        page := page + 1;
      }
    }

    /** The rows on the current page. */
    function Shown(): (r: seq<Record>)
      requires Valid()
      reads this
      ensures |r| <= PageSize
      ensures forall p :: p in r ==> p in products && ProductMatches(p, search)
    {
      var f := FilteredProducts(products, search);
      var r := Paginate(f, page);
      assert forall p :: p in r ==> p in f by {
        var e := if page * PageSize <= |f| then page * PageSize else |f|;
        if (page - 1) * PageSize < e {
          assert r == f[(page - 1) * PageSize..e];
        }
      }
      r
    }
  }
}
