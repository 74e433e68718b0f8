/**
 * The products page: the active/inactive switch with its optimistic update
 * and reload on failure, and the search and type filters.
 */
module Products {
  import opened Wrappers
  import opened Text
  import opened Seqs

  datatype Product = Product(id: string, name: string, kind: string, price: real, stock: int, status: string)

  /** The switch: an active product becomes inactive, anything else becomes active. */
  function NextStatus(current: string): (r: string)
    ensures r == "inactive" <==> current == "active"
    ensures r == "active" <==> current != "active"
    ensures current == "active" || current == "inactive" ==> r != current
  {
    if current == "active" then "inactive" else "active"
  }

  /** Two switches bring an active or inactive product back to where it was. */
  lemma NextStatusTwice(current: string)
    requires current == "active" || current == "inactive"
    ensures NextStatus(NextStatus(current)) == current
  {
  }

  /** The optimistic map: the product with that id takes the status, every other is unchanged. */
  function WithStatus(products: seq<Product>, id: string, status: string): (r: seq<Product>)
    ensures |r| == |products|
    ensures forall i :: 0 <= i < |products| ==>
      r[i] == if products[i].id == id then products[i].(status := status) else products[i]
  {
    UpdateWhere(products, (p: Product) => p.id == id, (p: Product) => p.(status := status))
  }

  function Matches(term: string, filterType: string): Product -> bool {
    (p: Product) => Contains(ToLower(p.name), ToLower(term)) && (filterType == "all" || p.kind == filterType)
  }

  /** `filteredProducts`: name contains the term, ignoring ASCII case, and the type is the chosen one unless "all". */
  function Shown(products: seq<Product>, term: string, filterType: string): (r: seq<Product>)
    ensures forall p :: p in r <==>
      p in products && Contains(ToLower(p.name), ToLower(term)) && (filterType == "all" || p.kind == filterType)
  {
    Filter(products, Matches(term, filterType))
  }

  /** With an empty search and "All Types" every product is shown, in order. */
  lemma NoFilterShowsAll(products: seq<Product>)
    ensures Shown(products, "", "all") == products
  {
    forall p | p in products
      ensures Matches("", "all")(p)
    {
      assert StartsWith(ToLower(p.name), ToLower(""));
    }
    FilterKeepsAll(products, Matches("", "all"));
  }

  /** The products page's state. */
  class ProductsPage {
    var products: seq<Product>
    var searchTerm: string
    var filterType: string
    var loading: bool

    constructor()
      ensures products == [] && searchTerm == "" && filterType == "all" && loading
    {
      products := [];
      searchTerm := "";
      filterType := "all";
      loading := true;
    }

    /** `loadProducts`: nothing without a user; a failed request (`response == None`) keeps the list. */
    method Load(user: Option<string>, response: Option<seq<Product>>)
      modifies this
      ensures searchTerm == old(searchTerm) && filterType == old(filterType)
      ensures user.None? ==> products == old(products) && loading == old(loading)
      ensures user.Some? ==> !loading
      ensures user.Some? && response.Some? ==> products == response.value
      ensures user.Some? && response.None? ==> products == old(products)
    {
      if user.None? {
        return;
      }
      loading := true;
      if response.Some? {
        products := response.value;
      }
      loading := false;
    }

    /**
     * `toggleProductStatus`: the new status is shown at once; when the update
     * request fails (`putOk` false) the list is reloaded, with `reload` the
     * outcome of that request.
     */
    method ToggleProductStatus(id: string, currentStatus: string, user: Option<string>,
                               putOk: bool, reload: Option<seq<Product>>)
      modifies this
      ensures searchTerm == old(searchTerm) && filterType == old(filterType)
      ensures putOk ==>
        products == WithStatus(old(products), id, NextStatus(currentStatus)) && loading == old(loading)
      ensures !putOk && user.Some? && reload.Some? ==> products == reload.value && !loading
      ensures !putOk && (user.None? || reload.None?) ==>
        products == WithStatus(old(products), id, NextStatus(currentStatus))
      ensures !putOk && user.None? ==> loading == old(loading)
      ensures !putOk && user.Some? && reload.None? ==> !loading
    {
      products := WithStatus(products, id, NextStatus(currentStatus));
      if !putOk {
        Load(user, reload);
      }
    }

    method SetSearchTerm(term: string)
      modifies this
      ensures searchTerm == term && products == old(products) && filterType == old(filterType)
    {
      searchTerm := term;
    }

    method SetFilterType(t: string)
      modifies this
      ensures filterType == t && products == old(products) && searchTerm == old(searchTerm)
    {
      filterType := t;
    }
  }
}
