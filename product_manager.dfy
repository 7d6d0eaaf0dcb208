/** The browser-local product list: products held in component state and
    mirrored into local storage under `products`. The JSON copy is modelled as
    the list itself; the clock that supplies new ids is a parameter. */
module ProductManager {
  import opened Seqs

  /** The five form inputs. */
  datatype ProductForm = ProductForm(name: string, brand: string, price: string, category: string, image: string)

  datatype Field = Name | Brand | Price | Category | Image

  /** `{ ...form, id: Date.now() }`. */
  datatype LocalProduct = LocalProduct(fields: ProductForm, id: int)

  function EmptyForm(): ProductForm {
    ProductForm("", "", "", "", "")
  }

  /** `{ ...form, [name]: value }`. */
  function SetField(f: ProductForm, field: Field, value: string): (r: ProductForm)
    ensures field == Name ==> r == f.(name := value)
    ensures field == Brand ==> r == f.(brand := value)
    ensures field == Price ==> r == f.(price := value)
    ensures field == Category ==> r == f.(category := value)
    ensures field == Image ==> r == f.(image := value)
  {
    match field
      case Name => f.(name := value)
      case Brand => f.(brand := value)
      case Price => f.(price := value)
      case Category => f.(category := value)
      case Image => f.(image := value)
  }

  /** `products.filter(p => p.id !== id)`. */
  function WithoutId(ps: seq<LocalProduct>, id: int): (r: seq<LocalProduct>)
    ensures forall p :: p in r <==> p in ps && p.id != id
  {
    var r := Filter(ps, (p: LocalProduct) => p.id != id);
    forall p ensures p in r <==> p in ps && p.id != id {
      FilterMembership(ps, (q: LocalProduct) => q.id != id, p);
    }
    r
  }

  /** Deleting distributes over the list, so what remains keeps its order. */
  lemma WithoutIdAppend(a: seq<LocalProduct>, b: seq<LocalProduct>, id: int)
    ensures WithoutId(a + b, id) == WithoutId(a, id) + WithoutId(b, id)
  {
    FilterAppend(a, b, (p: LocalProduct) => p.id != id);
  }

  /** Adding a product under an id no entry has, then deleting that id,
      restores the original list. */
  lemma AddThenDelete(ps: seq<LocalProduct>, form: ProductForm, freshId: int)
    requires forall i :: 0 <= i < |ps| ==> ps[i].id != freshId
    ensures WithoutId(ps + [LocalProduct(form, freshId)], freshId) == ps
  {
    WithoutIdAppend(ps, [LocalProduct(form, freshId)], freshId);
    FilterAll(ps, (p: LocalProduct) => p.id != freshId);
    assert WithoutId([LocalProduct(form, freshId)], freshId) == [] by {
      assert [LocalProduct(form, freshId)][1..] == [];
    }
  }

  /** If the clock repeats an id, deleting it removes both entries. */
  lemma DeleteRemovesEveryMatch(ps: seq<LocalProduct>, id: int)
    ensures forall i :: 0 <= i < |WithoutId(ps, id)| ==> WithoutId(ps, id)[i].id != id
    ensures |WithoutId(ps, id)| <= |ps|
  {
    var r := WithoutId(ps, id);
    assert forall i :: 0 <= i < |r| ==> r[i] in r;
  }

  class Manager {
    var products: seq<LocalProduct>
    var form: ProductForm
    /** The copy in local storage. */
    var stored: seq<LocalProduct>

    /** The stored copy equals the list on screen. */
    predicate Valid()
      reads this
    {
      stored == products
    }

    /** `useState(initialProducts)`: the list starts as the snapshot read from
        local storage when the module loaded (an empty list if none), which is
        reused on every mount. Storage holds `current`, which differs from that
        snapshot after a write followed by a remount without a reload; the two
        agree again after the first add or delete. */
    constructor (snapshot: seq<LocalProduct>, current: seq<LocalProduct>)
      ensures products == snapshot && stored == current && form == EmptyForm()
      ensures Valid() <==> snapshot == current
    {
      products := snapshot;
      stored := current;
      form := EmptyForm();
    }

    method HandleChange(field: Field, value: string)
      modifies this
      ensures form == SetField(old(form), field, value)
      ensures products == old(products) && stored == old(stored)
    {
      form := SetField(form, field, value);
    }

    /** `addProduct`: appends the form with a fresh id, saves the list and
        clears the form. */
    method AddProduct(now: int)
      modifies this
      ensures products == old(products) + [LocalProduct(old(form), now)]
      ensures Valid() && form == EmptyForm()
    {
      products := products + [LocalProduct(form, now)];
      stored := products;
      form := EmptyForm();
    }

    /** `deleteProduct`: drops every entry with that id and saves the list. */
    method DeleteProduct(id: int)
      modifies this
      ensures products == WithoutId(old(products), id)
      ensures Valid() && form == old(form)
    {
      products := WithoutId(products, id);
      stored := products;
    }
  }
}
