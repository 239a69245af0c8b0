// The product list screen: the search filter derived from the shared search term, the
// availability and bestseller check boxes, and the delete confirmation.

module ProductsList {
  import opened Platform
  import opened Sequences
  import opened Text
  import opened AdminContext

  /** The product's lower-cased name, category, brand or description includes the
    * lower-cased term. */
  predicate Matches(p: Product, term: string)
  {
    var t := Lower(term);
    Contains(Lower(p.name), t) || Contains(Lower(p.category), t)
    || Contains(Lower(p.brand), t) || Contains(Lower(p.description), t)
  }

  /** The list the screen shows for a search term: the whole list for an empty term,
    * otherwise the matching products. */
  function SearchFilter(products: seq<Product>, search: string): (r: seq<Product>)
    ensures search == "" ==> r == products
    ensures search != "" ==> forall p :: p in r <==> p in products && Matches(p, search)
  {
    if search == "" then products else Filter(products, (p: Product) => Matches(p, search))
  }

  /** With a term, each matching product is kept as often as it occurs, and no other
    * product is kept. */
  lemma SearchFilterCounts(products: seq<Product>, search: string)
    requires search != ""
    ensures forall p :: multiset(SearchFilter(products, search))[p] == if Matches(p, search) then multiset(products)[p] else 0
  {
    FilterMultiplicity(products, (p: Product) => Matches(p, search));
  }

  /** The filtered list is always the product list with some products left out, in the
    * original order. */
  lemma SearchFilterKeepsOrder(products: seq<Product>, search: string)
    ensures IsSubsequence(SearchFilter(products, search), products)
  {
    if search == "" {
      SubsequenceReflexive(products);
    } else {
      FilterIsSubsequence(products, (p: Product) => Matches(p, search));
    }
  }

  /** The search ignores the case of the term. */
  lemma SearchIgnoresCase(products: seq<Product>, search: string)
    ensures SearchFilter(products, Lower(search)) == SearchFilter(products, search)
  {
    LowerIdempotent(search);
    if search != "" {
      assert Lower(search) != [];
      FilterCongruent(products, (p: Product) => Matches(p, Lower(search)), (p: Product) => Matches(p, search));
    }
  }

  /** Two sample products for a worked search. */
  const Phone := Product("p1", "iPhone 12", "Smartphone", "Apple", "", true, false)
  const Laptop := Product("p2", "Dell XPS", "Laptop", "Dell", "", true, false)

  /** "lap" is found in the laptop's category. */
  lemma LaptopMatchesLap()
    ensures Matches(Laptop, "lap")
  {
    assert Lower("lap") == "lap";
    assert Lower("Laptop") == "laptop";
    assert OccursAt("laptop", "lap", 0);
  }

  /** "lap" occurs in none of the phone's fields. */
  lemma PhoneMissesLap()
    ensures !Matches(Phone, "lap")
  {
    var t := Lower("lap");
    assert t == "lap";
    PhoneFieldMissesLap(Phone.name);
    PhoneFieldMissesLap(Phone.category);
    PhoneFieldMissesLap(Phone.brand);
    FirstCharAbsent(Lower(""), "lap");
    assert !Contains(Lower(Phone.name), t);
    assert !Contains(Lower(Phone.category), t);
    assert !Contains(Lower(Phone.brand), t);
    assert !Contains(Lower(Phone.description), t);
  }

  /** None of the phone's name, category and brand contains "lap" once lower-cased. */
  lemma PhoneFieldMissesLap(text: string)
    requires text == Phone.name || text == Phone.category || text == Phone.brand
    ensures !Contains(Lower(text), "lap")
  {
    if text == Phone.name {
      assert Lower(text) == "iphone 12";
    } else if text == Phone.category {
      assert Lower(text) == "smartphone";
    } else {
      assert Lower(text) == "apple";
    }
    FirstCharAbsent(Lower(text), "lap");
  }

  /** Searching "lap" over a phone and a laptop finds only the laptop, by its category. */
  lemma SearchExample()
    ensures SearchFilter([Phone, Laptop], "lap") == [Laptop]
  {
    LaptopMatchesLap();
    PhoneMissesLap();
    var keep := (p: Product) => Matches(p, "lap");
    assert [Phone, Laptop][1..] == [Laptop];
    assert Filter([Laptop], keep) == [Laptop];
  }

  /** The check box handler: `available` is flipped on the products with the item's id. */
  function ToggleAvailable(products: seq<Product>, id: string): (r: seq<Product>)
    ensures |r| == |products|
    ensures forall i :: 0 <= i < |r| ==> r[i].(available := products[i].available) == products[i]
    ensures forall i :: 0 <= i < |r| ==> (r[i].available != products[i].available <==> products[i].id == id)
  {
    seq(|products|, i requires 0 <= i < |products| =>
      var p := products[i];
      if p.id == id then p.(available := !p.available) else p)
  }

  /** The check box handler: `bestseller` is flipped on the products with the item's id. */
  function ToggleBestseller(products: seq<Product>, id: string): (r: seq<Product>)
    ensures |r| == |products|
    ensures forall i :: 0 <= i < |r| ==> r[i].(bestseller := products[i].bestseller) == products[i]
    ensures forall i :: 0 <= i < |r| ==> (r[i].bestseller != products[i].bestseller <==> products[i].id == id)
  {
    seq(|products|, i requires 0 <= i < |products| =>
      var p := products[i];
      if p.id == id then p.(bestseller := !p.bestseller) else p)
  }

  /** Clicking the availability box twice restores the list. */
  lemma ToggleAvailableTwice(products: seq<Product>, id: string)
    ensures ToggleAvailable(ToggleAvailable(products, id), id) == products
  {
    var once := ToggleAvailable(products, id);
    var twice := ToggleAvailable(once, id);
    forall i | 0 <= i < |products| ensures twice[i] == products[i] {
      assert once[i].id == products[i].id;
    }
  }

  /** Clicking the bestseller box twice restores the list. */
  lemma ToggleBestsellerTwice(products: seq<Product>, id: string)
    ensures ToggleBestseller(ToggleBestseller(products, id), id) == products
  {
    var once := ToggleBestseller(products, id);
    var twice := ToggleBestseller(once, id);
    forall i | 0 <= i < |products| ensures twice[i] == products[i] {
      assert once[i].id == products[i].id;
    }
  }

  /** `prev.filter(p => p._id !== id)`. */
  function WithoutProduct(products: seq<Product>, id: string): (r: seq<Product>)
    ensures forall p :: p in r <==> p in products && p.id != id
  {
    Filter(products, (p: Product) => p.id != id)
  }

  /** The remaining products occur as often as before, and none has the deleted id. */
  lemma WithoutProductCounts(products: seq<Product>, id: string)
    ensures forall p :: multiset(WithoutProduct(products, id))[p] == if p.id != id then multiset(products)[p] else 0
  {
    FilterMultiplicity(products, (p: Product) => p.id != id);
  }

  lemma WithoutProductKeepsOrder(products: seq<Product>, id: string)
    ensures IsSubsequence(WithoutProduct(products, id), products)
  {
    FilterIsSubsequence(products, (p: Product) => p.id != id);
  }

  class ProductsListView {
    const store: AdminStore
    var showModal: bool
    var selectedProduct: Option<Product>

    constructor (store: AdminStore)
      ensures this.store == store
      ensures !showModal && selectedProduct == None
    {
      this.store := store;
      showModal := false;
      selectedProduct := None;
    }

    /** The mount effect: products are fetched only while a token is held. */
    method FetchProducts(o: Outcome<seq<Product>>)
      modifies store, store.browser
      ensures store.aToken != "" ==>
        && store.State() == (if o.Success? then old(store.State()).(products := o.value) else old(store.State()))
        && store.Effects([AllProducts], if o.Success? then [] else [Error(o.message)])
      ensures store.aToken == "" ==> store.State() == old(store.State()) && store.Effects([], [])
    {
      if store.aToken != "" {
        store.GetProducts(o);
      }
    }

    /** The effect that runs whenever the search term or the product list changes. */
    method SyncFilter()
      modifies store
      ensures store.State() == old(store.State()).(filterProducts := SearchFilter(store.products, store.search))
    {
      store.filterProducts := SearchFilter(store.products, store.search);
    }

    /** The delete button of a card: remember the product and open the modal. */
    method AskDelete(item: Product)
      modifies this
      ensures showModal && selectedProduct == Some(item)
    {
      selectedProduct := Some(item);
      showModal := true;
    }

    /** The modal's cancel button closes it and keeps the selection. */
    method CancelDelete()
      modifies this
      ensures !showModal && selectedProduct == old(selectedProduct)
    {
      showModal := false;
    }

    /** Confirming a delete: the request is awaited, then every product with that id is
      * dropped whatever the response, the modal closes and the selection is cleared.
      * Without a selection nothing happens. */
    method HandleDelete(o: Call<()>)
      modifies this, store, store.browser
      ensures old(selectedProduct).None? ==>
        && showModal == old(showModal) && selectedProduct == None
        && store.State() == old(store.State()) && store.Effects([], [])
      ensures old(selectedProduct).Some? ==>
        var id := old(selectedProduct).value.id;
        && !showModal && selectedProduct == None
        && store.State() == old(store.State()).(products := WithoutProduct(old(store.products), id))
        && store.Effects([Request.DeleteProduct(id)],
             [if o.Returned? then Info("Delete successfully !") else Error(o.message)])
    {
      if selectedProduct.Some? {
        var id := selectedProduct.value.id;
        store.DeleteProduct(id, o);
        store.products := WithoutProduct(store.products, id);
        showModal := false;
        selectedProduct := None;
      }
    }

    /** The availability check box: the request is fired and the local list is patched
      * at once, whatever the response. */
    method ToggleAvailability(item: Product, o: Outcome<string>)
      modifies store, store.browser
      ensures store.State() == old(store.State()).(products := ToggleAvailable(old(store.products), item.id))
      ensures store.Effects([Request.ChangeAvailability(item.id)],
        [if o.Success? then Info(o.value) else Error(o.message)])
    {
      store.ChangeAvailability(item.id, o);
      store.products := ToggleAvailable(store.products, item.id);
    }

    /** The bestseller check box: the request is fired and the local list is patched at
      * once, whatever the response. */
    method ToggleBestsellerBox(item: Product, o: Outcome<()>)
      modifies store, store.browser
      ensures store.State() == old(store.State()).(products := ToggleBestseller(old(store.products), item.id))
      ensures store.Effects([ChangeBestseller(item.id)],
        [match o
         case Success(_) => Info("Change bestseller status successfully")
         case Failure(_) => Error("Can't find data")
         case Exception(m) => Error(m)])
    {
      store.ChangeBestsellerStatus(item.id, o);
      store.products := ToggleBestseller(store.products, item.id);
    }
  }
}
