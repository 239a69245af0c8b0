// The product update screen: the fetched product fills the form, its specification
// object becomes an ordered list of editable rows, the rows are edited, and on submit
// they are folded back into an object.

module UpdateProduct {
  import opened Platform
  import opened Sequences
  import opened Text
  import opened AdminContext

  /** A field value of the fetched product: missing, a string or a number. */
  datatype Scalar = Absent | Str(s: string) | Num(n: int)

  /** The values JavaScript treats as false in `value || ''`. */
  predicate Falsy(v: Scalar)
  {
    v == Absent || v == Str("") || v == Num(0)
  }

  /** `value || ''`. */
  function OrEmpty(v: Scalar): (r: Scalar)
    ensures r == Str("") <==> Falsy(v)
    ensures !Falsy(v) ==> r == v
    ensures r != Absent
  {
    if Falsy(v) then Str("") else v
  }

  /** The text FormData stores for a value. */
  function Render(v: Scalar): string
  {
    match v
    case Absent => "undefined"
    case Str(s) => s
    case Num(n) => if n >= 0 then Decimal(n) else "-" + Decimal(-n)
  }

  /** The product record the backend returns; `specifications` is an object, given by its
    * entries in insertion order, or missing. */
  datatype FetchedProduct = FetchedProduct(
    name: Scalar, category: Scalar, brand: Scalar, description: Scalar,
    price: Scalar, stockQuantity: Scalar, imageUrl: Scalar,
    specifications: Option<seq<(string, string)>>)

  /** The form's fields. */
  datatype FormData = FormData(
    productId: string, name: Scalar, category: Scalar, brand: Scalar, description: Scalar,
    price: Scalar, stockQuantity: Scalar, imageUrl: Scalar)

  datatype FormField = Name | Category | Brand | Description | Price | StockQuantity

  /** One editable specification row; only rows added in the editor have an editable key. */
  datatype SpecRow = SpecRow(key: string, value: string, isNew: bool)

  /** The keys of an object's entries are pairwise distinct. */
  predicate DistinctKeys(entries: seq<(string, string)>)
  {
    forall i, j :: 0 <= i < j < |entries| ==> entries[i].0 != entries[j].0
  }

  /** The form before the product arrives: every field is ''. */
  function EmptyForm(prId: string): FormData
  {
    FormData(prId, Str(""), Str(""), Str(""), Str(""), Str(""), Str(""), Str(""))
  }

  /** The form filled from a fetched product: every missing or falsy field becomes ''. */
  function LoadForm(prId: string, p: FetchedProduct): (f: FormData)
    ensures f.productId == prId
    ensures f.name == OrEmpty(p.name) && f.category == OrEmpty(p.category)
    ensures f.brand == OrEmpty(p.brand) && f.description == OrEmpty(p.description)
    ensures f.price == OrEmpty(p.price) && f.stockQuantity == OrEmpty(p.stockQuantity)
    ensures f.imageUrl == OrEmpty(p.imageUrl)
  {
    FormData(prId, OrEmpty(p.name), OrEmpty(p.category), OrEmpty(p.brand), OrEmpty(p.description),
      OrEmpty(p.price), OrEmpty(p.stockQuantity), OrEmpty(p.imageUrl))
  }

  /** `product.specifications || {}`. */
  function SpecEntries(p: FetchedProduct): seq<(string, string)>
  {
    if p.specifications.Some? then p.specifications.value else []
  }

  /** `Object.entries(spec).map(([key, value]) => ({key, value, isNew: false}))`. */
  function LoadRows(entries: seq<(string, string)>): (rows: seq<SpecRow>)
    ensures |rows| == |entries|
    ensures forall i :: 0 <= i < |rows| ==>
      rows[i].key == entries[i].0 && rows[i].value == entries[i].1 && !rows[i].isNew
  {
    if entries == [] then []
    else [SpecRow(entries[0].0, entries[0].1, false)] + LoadRows(entries[1..])
  }

  /** No row after `i` has the key of row `i`. */
  predicate LastWithKey(rows: seq<SpecRow>, i: int)
    requires 0 <= i < |rows|
  {
    forall j :: i < j < |rows| ==> rows[j].key != rows[i].key
  }

  /** The submit handler's `reduce`, folded from the last row: rows with an empty key are
    * skipped and a `__proto__` key is lost in the assignment, so the object has neither;
    * empty values are kept. */
  function SpecObject(rows: seq<SpecRow>): (r: map<string, string>)
    ensures forall k :: k in r ==> k != "" && k != ProtoKey
  {
    if rows == [] then map[]
    else
      var last := rows[|rows| - 1];
      var m := SpecObject(rows[..|rows| - 1]);
      if last.key != "" then Assign(m, last.key, last.value) else m
  }

  /** The object's keys are exactly the non-empty keys of the rows other than `__proto__`. */
  lemma {:induction false} SpecObjectKeys(rows: seq<SpecRow>, k: string)
    ensures k in SpecObject(rows) <==> k != "" && k != ProtoKey && exists i :: 0 <= i < |rows| && rows[i].key == k
  {
    if rows != [] {
      var init := rows[..|rows| - 1];
      SpecObjectKeys(init, k);
      assert forall i :: 0 <= i < |init| ==> init[i] == rows[i];
      if k != "" && k != ProtoKey && exists i :: 0 <= i < |rows| && rows[i].key == k {
        var i :| 0 <= i < |rows| && rows[i].key == k;
        if i < |init| {
          assert init[i].key == k;
        }
      }
    }
  }

  /** A later row with the same key overwrites an earlier one: the last row with a
    * non-empty key gives its value (a `__proto__` row gives none, by `SpecObjectKeys`). */
  lemma {:induction false} SpecObjectLastWins(rows: seq<SpecRow>, i: int)
    requires 0 <= i < |rows| && rows[i].key != "" && rows[i].key != ProtoKey && LastWithKey(rows, i)
    ensures rows[i].key in SpecObject(rows)
    ensures SpecObject(rows)[rows[i].key] == rows[i].value
  {
    var init := rows[..|rows| - 1];
    var last := rows[|rows| - 1];
    if i < |init| {
      assert forall j :: 0 <= j < |init| ==> init[j] == rows[j];
      assert LastWithKey(init, i);
      SpecObjectLastWins(init, i);
      assert last.key != rows[i].key;
    }
  }

  /** The keys of an object's entries, in order. */
  function KeysOf(entries: seq<(string, string)>): seq<string>
  {
    if entries == [] then [] else [entries[0].0] + KeysOf(entries[1..])
  }

  /** Round trip: submitting freshly loaded rows yields the original object, provided it
    * has no empty key, except that a `__proto__` entry is lost. */
  lemma RoundTrip(entries: seq<(string, string)>)
    requires DistinctKeys(entries)
    requires forall i :: 0 <= i < |entries| ==> entries[i].0 != ""
    ensures var obj := SpecObject(LoadRows(entries));
      && (forall k :: k in obj <==> k != ProtoKey && exists i :: 0 <= i < |entries| && entries[i].0 == k)
      && (forall i :: 0 <= i < |entries| && entries[i].0 != ProtoKey ==>
            entries[i].0 in obj && obj[entries[i].0] == entries[i].1)
  {
    var rows := LoadRows(entries);
    var obj := SpecObject(rows);
    forall k ensures k in obj <==> k != ProtoKey && exists i :: 0 <= i < |entries| && entries[i].0 == k {
      SpecObjectKeys(rows, k);
    }
    forall i | 0 <= i < |entries| && entries[i].0 != ProtoKey
      ensures entries[i].0 in obj && obj[entries[i].0] == entries[i].1
    {
      assert LastWithKey(rows, i);
      SpecObjectLastWins(rows, i);
    }
  }

  /** A loaded entry with an empty key is not sent back. */
  lemma EmptyKeyDropped(entries: seq<(string, string)>)
    ensures "" !in SpecObject(LoadRows(entries))
  {
    SpecObjectKeys(LoadRows(entries), "");
  }

  /** A fetched `__proto__` specification is loaded as a row but lost on submit. */
  lemma ProtoKeyLost(value: string)
    ensures LoadRows([(ProtoKey, value)]) == [SpecRow(ProtoKey, value, false)]
    ensures SpecObject(LoadRows([(ProtoKey, value)])) == map[]
  {
    var rows := LoadRows([(ProtoKey, value)]);
    assert rows[..0] == [];
  }

  /** The keys of the rows that came from the fetched product, in order. */
  function LoadedKeys(rows: seq<SpecRow>): seq<string>
  {
    if rows == [] then []
    else (if rows[0].isNew then [] else [rows[0].key]) + LoadedKeys(rows[1..])
  }

  lemma {:induction false} LoadedKeysOfLoad(entries: seq<(string, string)>)
    ensures LoadedKeys(LoadRows(entries)) == KeysOf(entries)
  {
    if entries != [] {
      LoadedKeysOfLoad(entries[1..]);
      assert LoadRows(entries)[1..] == LoadRows(entries[1..]);
    }
  }

  /** Appending a row added in the editor leaves the loaded keys alone. */
  lemma {:induction false} LoadedKeysAppendNew(rows: seq<SpecRow>, r: SpecRow)
    requires r.isNew
    ensures LoadedKeys(rows + [r]) == LoadedKeys(rows)
  {
    if rows == [] {
      assert LoadedKeys([r]) == [] + LoadedKeys([]);
    } else {
      LoadedKeysAppendNew(rows[1..], r);
      assert (rows + [r])[1..] == rows[1..] + [r];
    }
  }

  /** Replacing a row by one of the same kind, with the same key when it was loaded,
    * leaves the loaded keys alone. */
  lemma {:induction false} LoadedKeysUpdate(rows: seq<SpecRow>, i: nat, r: SpecRow)
    requires i < |rows|
    requires r.isNew == rows[i].isNew && (r.isNew || r.key == rows[i].key)
    ensures LoadedKeys(rows[i := r]) == LoadedKeys(rows)
  {
    if i == 0 {
      assert rows[i := r][1..] == rows[1..];
    } else {
      LoadedKeysUpdate(rows[1..], i - 1, r);
      assert rows[i := r][1..] == rows[1..][i - 1 := r];
    }
  }

  /** Removing a row keeps the other loaded keys, in order. */
  lemma {:induction false} LoadedKeysRemove(rows: seq<SpecRow>, i: nat)
    ensures IsSubsequence(LoadedKeys(RemoveAt(rows, i)), LoadedKeys(rows))
  {
    if i >= |rows| {
      SubsequenceReflexive(LoadedKeys(rows));
    } else if i == 0 {
      assert RemoveAt(rows, i) == rows[1..];
      if rows[0].isNew {
        assert LoadedKeys(rows) == [] + LoadedKeys(rows[1..]) == LoadedKeys(rows[1..]);
        SubsequenceReflexive(LoadedKeys(rows[1..]));
      } else {
        SubsequenceOfCons(rows[0].key, LoadedKeys(rows[1..]));
      }
    } else {
      LoadedKeysRemove(rows[1..], i - 1);
      var rest := RemoveAt(rows[1..], i - 1);
      assert RemoveAt(rows, i) == [rows[0]] + rest;
      assert RemoveAt(rows, i)[1..] == rest;
      if rows[0].isNew {
        assert LoadedKeys(rows) == [] + LoadedKeys(rows[1..]) == LoadedKeys(rows[1..]);
        assert LoadedKeys(RemoveAt(rows, i)) == [] + LoadedKeys(rest) == LoadedKeys(rest);
      } else {
        SubsequenceCons(rows[0].key, LoadedKeys(rest), LoadedKeys(rows[1..]));
      }
    }
  }

  class UpdateProductForm {
    const store: AdminStore
    const prId: string
    var formData: FormData
    var specifications: seq<SpecRow>
    var image: Option<ImageFile>
    var loading: bool
    /** The keys of the specification object as it was fetched. */
    ghost var fetchedKeys: seq<string>

    /** Rows that came from the fetched product keep their keys and their order. */
    ghost predicate Valid()
      reads this
    {
      IsSubsequence(LoadedKeys(specifications), fetchedKeys)
    }

    constructor (store: AdminStore, prId: string)
      ensures Valid()
      ensures this.store == store && this.prId == prId
      ensures formData == EmptyForm(prId) && specifications == [] && image == None && loading
      ensures fetchedKeys == []
    {
      this.store := store;
      this.prId := prId;
      formData := EmptyForm(prId);
      specifications := [];
      image := None;
      loading := true;
      fetchedKeys := [];
      SubsequenceReflexive<string>([]);
    }

    /** The mount effect: the product fills the form and its specifications become rows,
      * one per entry, none of them new; a failed fetch keeps the empty form. Either way
      * loading ends. */
    method FetchProduct(o: Call<FetchedProduct>)
      requires Valid()
      modifies this, store.browser
      ensures Valid() && !loading && image == old(image)
      ensures o.Returned? ==>
        formData == LoadForm(prId, o.value) && specifications == LoadRows(SpecEntries(o.value))
      ensures o.Threw? ==> formData == old(formData) && specifications == old(specifications)
      ensures fetchedKeys == if o.Returned? then KeysOf(SpecEntries(o.value)) else old(fetchedKeys)
      ensures store.Effects([GetProduct(prId)], if o.Threw? then [Error(o.message)] else [])
    {
      store.browser.Send(GetProduct(prId));
      match o {
        case Returned(p) =>
          formData := LoadForm(prId, p);
          specifications := LoadRows(SpecEntries(p));
          fetchedKeys := KeysOf(SpecEntries(p));
          LoadedKeysOfLoad(SpecEntries(p));
          SubsequenceReflexive(fetchedKeys);
        case Threw(m) =>
          store.browser.Toast(Error(m));
      }
      loading := false;
    }

    /** `handleInputChange`: one named field takes the typed text. */
    method ChangeInput(field: FormField, value: string)
      requires Valid()
      modifies this
      ensures Valid() && specifications == old(specifications) && image == old(image) && loading == old(loading)
      ensures fetchedKeys == old(fetchedKeys)
      ensures formData == match field
        case Name => old(formData).(name := Str(value))
        case Category => old(formData).(category := Str(value))
        case Brand => old(formData).(brand := Str(value))
        case Description => old(formData).(description := Str(value))
        case Price => old(formData).(price := Str(value))
        case StockQuantity => old(formData).(stockQuantity := Str(value))
    {
      match field
      case Name => formData := formData.(name := Str(value));
      case Category => formData := formData.(category := Str(value));
      case Brand => formData := formData.(brand := Str(value));
      case Description => formData := formData.(description := Str(value));
      case Price => formData := formData.(price := Str(value));
      case StockQuantity => formData := formData.(stockQuantity := Str(value));
    }

    /** `handleImageChange`: the picked file, or none. */
    method ChangeImage(file: Option<ImageFile>)
      requires Valid()
      modifies this
      ensures Valid() && image == file
      ensures fetchedKeys == old(fetchedKeys)
      ensures formData == old(formData) && specifications == old(specifications) && loading == old(loading)
    {
      image := file;
    }

    /** `handleAddSpec`: exactly one blank new row at the end. */
    method AddSpec()
      requires Valid()
      modifies this
      ensures Valid()
      ensures fetchedKeys == old(fetchedKeys)
      ensures specifications == old(specifications) + [SpecRow("", "", true)]
      ensures formData == old(formData) && image == old(image) && loading == old(loading)
    {
      LoadedKeysAppendNew(specifications, SpecRow("", "", true));
      specifications := specifications + [SpecRow("", "", true)];
    }

    /** `handleSpecKeyChange`: the key input is enabled only on rows added in the editor. */
    method ChangeSpecKey(index: nat, newKey: string)
      requires Valid()
      requires index < |specifications| && specifications[index].isNew
      modifies this
      ensures Valid()
      ensures fetchedKeys == old(fetchedKeys)
      ensures |specifications| == |old(specifications)|
      ensures specifications[index] == old(specifications)[index].(key := newKey)
      ensures forall j :: 0 <= j < |specifications| && j != index ==> specifications[j] == old(specifications)[j]
      ensures formData == old(formData) && image == old(image) && loading == old(loading)
    {
      var updated := specifications;
      updated := updated[index := updated[index].(key := newKey)];
      LoadedKeysUpdate(specifications, index, updated[index]);
      specifications := updated;
    }

    /** `handleSpecValueChange`: only the value of row `index` changes. */
    method ChangeSpecValue(index: nat, newValue: string)
      requires Valid()
      requires index < |specifications|
      modifies this
      ensures Valid()
      ensures fetchedKeys == old(fetchedKeys)
      ensures |specifications| == |old(specifications)|
      ensures specifications[index] == old(specifications)[index].(value := newValue)
      ensures forall j :: 0 <= j < |specifications| && j != index ==> specifications[j] == old(specifications)[j]
      ensures formData == old(formData) && image == old(image) && loading == old(loading)
    {
      var updated := specifications;
      updated := updated[index := updated[index].(value := newValue)];
      LoadedKeysUpdate(specifications, index, updated[index]);
      specifications := updated;
    }

    /** `handleRemoveSpec`: row `index` is spliced out, the others keep their order. */
    method RemoveSpec(index: nat)
      requires Valid()
      modifies this
      ensures Valid()
      ensures fetchedKeys == old(fetchedKeys)
      ensures specifications == RemoveAt(old(specifications), index)
      ensures formData == old(formData) && image == old(image) && loading == old(loading)
    {
      LoadedKeysRemove(specifications, index);
      SubsequenceTransitive(LoadedKeys(RemoveAt(specifications, index)), LoadedKeys(specifications), fetchedKeys);
      specifications := RemoveAt(specifications, index);
    }

    /** The FormData fields in the order the handler appends them: `productId` first, then
      * every entry of the form, which holds `productId` again. */
    function Fields(): seq<(string, string)>
      reads this
    {
      [("productId", prId), ("productId", formData.productId), ("name", Render(formData.name)),
       ("category", Render(formData.category)), ("brand", Render(formData.brand)),
       ("description", Render(formData.description)), ("price", Render(formData.price)),
       ("stock_quantity", Render(formData.stockQuantity)), ("image_url", Render(formData.imageUrl))]
    }

    /** `handleSubmit`: one update request carrying the rows folded into an object; on
      * success the screen goes to the product list. The editor's state is kept. */
    method Submit(o: Call<()>)
      modifies store.browser
      ensures store.browser.sent == old(store.browser.sent) + [Request.UpdateProduct(Fields(), SpecObject(specifications), image)]
      ensures store.browser.toasts == old(store.browser.toasts) +
        [if o.Returned? then Info("Product updated successfully!")
         else Error(if o.message == "" then "Failed to update product" else o.message)]
      ensures store.browser.location == if o.Returned? then "/products-list" else old(store.browser.location)
      ensures store.browser.stored == old(store.browser.stored)
    {
      var specObj := SpecObject(specifications);
      store.browser.Send(Request.UpdateProduct(Fields(), specObj, image));
      match o
      case Returned(_) =>
        store.browser.Toast(Info("Product updated successfully!"));
        store.browser.Navigate("/products-list");
      case Threw(m) =>
        store.browser.Toast(Error(if m == "" then "Failed to update product" else m));
    }
  }
}
