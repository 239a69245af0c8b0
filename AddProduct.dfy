// The add-product screen: a form whose specification rows are edited as a list that
// never becomes empty, and a submit handler that checks for an image, folds the non-blank
// rows into an object, sends one request and resets the form on success.

module AddProduct {
  import opened Platform
  import opened Sequences
  import opened Text
  import opened AdminContext

  /** One specification row `{key, value}`. */
  datatype SpecField = SpecField(key: string, value: string)

  /** The two inputs of a row, as `handleSpecificationChange` names them. */
  datatype RowInput = Key | Value

  /** The plain inputs of the form. */
  datatype Input = Name | Brand | Price | Category | Description | Stock

  /** Every state cell of the form except the loading flag. */
  datatype Draft = Draft(
    productImg: Option<ImageFile>, name: string, brand: string, price: string, category: string,
    description: string, stock: string, specifications: seq<SpecField>)

  /** The form as mounted and as reset after a successful submit: category 'Laptop' and one
    * blank specification row. */
  const InitialDraft := Draft(None, "", "", "", "Laptop", "", "", [SpecField("", "")])

  /** A row is kept when neither its key nor its value is blank. */
  predicate Kept(row: SpecField)
  {
    !IsBlank(row.key) && !IsBlank(row.value)
  }

  /** The handler's test `item.key.trim() && item.value.trim()` is `Kept`. */
  lemma KeptIffTrimmed(row: SpecField)
    ensures Kept(row) <==> Trim(row.key) != "" && Trim(row.value) != ""
  {
  }

  /** No kept row after `i` has the key of row `i`. */
  predicate LastKeptWithKey(rows: seq<SpecField>, i: int)
    requires 0 <= i < |rows|
  {
    forall j :: i < j < |rows| && Kept(rows[j]) ==> rows[j].key != rows[i].key
  }

  /** The object the submit handler builds, folded from the last row: a row is kept only
    * if both its key and value are non-blank, and the key and value are stored untrimmed;
    * a kept `__proto__` row is lost in the assignment. */
  function SpecificationsObject(rows: seq<SpecField>): map<string, string>
  {
    if rows == [] then map[]
    else
      var last := rows[|rows| - 1];
      var m := SpecificationsObject(rows[..|rows| - 1]);
      if Kept(last) then Assign(m, last.key, last.value) else m
  }

  /** The object's keys are exactly the keys of the kept rows, other than `__proto__`. */
  lemma {:induction false} SpecificationsObjectKeys(rows: seq<SpecField>, k: string)
    ensures k in SpecificationsObject(rows) <==>
      k != ProtoKey && exists i :: 0 <= i < |rows| && Kept(rows[i]) && rows[i].key == k
  {
    if rows != [] {
      var init := rows[..|rows| - 1];
      SpecificationsObjectKeys(init, k);
      assert forall i :: 0 <= i < |init| ==> init[i] == rows[i];
      if k != ProtoKey && exists i :: 0 <= i < |rows| && Kept(rows[i]) && rows[i].key == k {
        var i :| 0 <= i < |rows| && Kept(rows[i]) && rows[i].key == k;
        if i < |init| {
          assert Kept(init[i]) && init[i].key == k;
        }
      }
    }
  }

  /** No blank key and no blank value reaches the object. */
  lemma {:induction false} SpecificationsObjectNonBlank(rows: seq<SpecField>)
    ensures forall k :: k in SpecificationsObject(rows) ==> !IsBlank(k) && !IsBlank(SpecificationsObject(rows)[k])
  {
    if rows != [] {
      SpecificationsObjectNonBlank(rows[..|rows| - 1]);
    }
  }

  /** Among kept rows with the same key, the last one's value is stored (a `__proto__` row
    * stores none, by `SpecificationsObjectKeys`). */
  lemma {:induction false} SpecificationsObjectLastWins(rows: seq<SpecField>, i: int)
    requires 0 <= i < |rows| && Kept(rows[i]) && rows[i].key != ProtoKey && LastKeptWithKey(rows, i)
    ensures rows[i].key in SpecificationsObject(rows)
    ensures SpecificationsObject(rows)[rows[i].key] == rows[i].value
  {
    var init := rows[..|rows| - 1];
    var last := rows[|rows| - 1];
    if i < |init| {
      assert forall j :: 0 <= j < |init| ==> init[j] == rows[j];
      assert LastKeptWithKey(init, i);
      SpecificationsObjectLastWins(init, i);
      assert Kept(last) ==> last.key != rows[i].key;
    }
  }

  /** Folding one more row into the object. */
  lemma SpecificationsObjectStep(rows: seq<SpecField>, i: int)
    requires 0 <= i < |rows|
    ensures var m := SpecificationsObject(rows[..i]);
      SpecificationsObject(rows[..i + 1]) == if Kept(rows[i]) then Assign(m, rows[i].key, rows[i].value) else m
  {
    var prefix := rows[..i + 1];
    assert prefix[..i] == rows[..i] && prefix[i] == rows[i];
  }

  /** The `forEach` loop of the submit handler. */
  method BuildSpecificationsObject(rows: seq<SpecField>) returns (obj: map<string, string>)
    ensures obj == SpecificationsObject(rows)
  {
    obj := map[];
    var i := 0;
    while i < |rows|
      invariant 0 <= i <= |rows|
      invariant obj == SpecificationsObject(rows[..i])
    {
      var item := rows[i];
      SpecificationsObjectStep(rows, i);
      KeptIffTrimmed(item);
      if Trim(item.key) != "" && Trim(item.value) != "" {
        obj := Assign(obj, item.key, item.value);
      }
      i := i + 1;
    }
    assert rows[..i] == rows;
  }

  /** The blank rows of the freshly mounted form yield an empty object. */
  lemma InitialRowsSendNothing()
    ensures SpecificationsObject(InitialDraft.specifications) == map[]
  {
    assert !Kept(SpecField("", ""));
  }

  class AddProductForm {
    const store: AdminStore
    var productImg: Option<ImageFile>
    var name: string
    var brand: string
    var price: string
    var category: string
    var description: string
    var stock: string
    var specifications: seq<SpecField>
    var isLoading: bool

    /** There is always at least one specification row. */
    ghost predicate Valid()
      reads this
    {
      |specifications| >= 1
    }

    function State(): Draft
      reads this
    {
      Draft(productImg, name, brand, price, category, description, stock, specifications)
    }

    /** The text fields in the order the submit handler appends them after the image. */
    function Fields(): seq<(string, string)>
      reads this
    {
      [("name", name), ("brand", brand), ("price", price), ("category", category),
       ("description", description), ("stock_quantity", stock)]
    }

    constructor (store: AdminStore)
      ensures Valid() && this.store == store
      ensures State() == InitialDraft && !isLoading
    {
      this.store := store;
      productImg, name, brand, price, category := None, "", "", "", "Laptop";
      description, stock, specifications := "", "", [SpecField("", "")];
      isLoading := false;
    }

    /** The `onChange` of a plain input. */
    method SetInput(input: Input, text: string)
      requires Valid()
      modifies this
      ensures Valid() && isLoading == old(isLoading)
      ensures State() == match input
        case Name => old(State()).(name := text)
        case Brand => old(State()).(brand := text)
        case Price => old(State()).(price := text)
        case Category => old(State()).(category := text)
        case Description => old(State()).(description := text)
        case Stock => old(State()).(stock := text)
    {
      match input
      case Name => name := text;
      case Brand => brand := text;
      case Price => price := text;
      case Category => category := text;
      case Description => description := text;
      case Stock => stock := text;
    }

    /** The file input: the first picked file, or none. */
    method SelectImage(file: Option<ImageFile>)
      requires Valid()
      modifies this
      ensures Valid() && isLoading == old(isLoading)
      ensures State() == old(State()).(productImg := file)
    {
      productImg := file;
    }

    /** `handleSpecificationChange`: only the named input of row `index` changes. */
    method ChangeSpecification(index: nat, input: RowInput, text: string)
      requires Valid() && index < |specifications|
      modifies this
      ensures Valid() && isLoading == old(isLoading)
      ensures |specifications| == |old(specifications)|
      ensures specifications[index] == match input
        case Key => old(specifications)[index].(key := text)
        case Value => old(specifications)[index].(value := text)
      ensures forall j :: 0 <= j < |specifications| && j != index ==> specifications[j] == old(specifications)[j]
      ensures State() == old(State()).(specifications := specifications)
    {
      var updated := specifications;
      match input {
        case Key => updated := updated[index := updated[index].(key := text)];
        case Value => updated := updated[index := updated[index].(value := text)];
      }
      specifications := updated;
    }

    /** `addSpecificationField`: one blank row at the end. */
    method AddSpecificationField()
      requires Valid()
      modifies this
      ensures Valid() && isLoading == old(isLoading)
      ensures State() == old(State()).(specifications := old(specifications) + [SpecField("", "")])
    {
      var updated := specifications;
      updated := updated + [SpecField("", "")];
      specifications := updated;
    }

    /** `removeSpecificationField`: row `index` is spliced out only while more than one
      * row is left, so the list never becomes empty. */
    method RemoveSpecificationField(index: nat)
      requires Valid() && index < |specifications|
      modifies this
      ensures Valid() && isLoading == old(isLoading)
      ensures old(|specifications|) > 1 ==> specifications == RemoveAt(old(specifications), index)
      ensures old(|specifications|) == 1 ==> specifications == old(specifications)
      ensures State() == old(State()).(specifications := specifications)
    {
      if |specifications| > 1 {
        specifications := RemoveAt(specifications, index);
      }
    }

    /** `onSubmitHandler`. Without an image it shows an error and sends nothing. Otherwise
      * it sends one request whose specifications are the non-blank rows folded into an
      * object; a reported success resets every field, a failure keeps them. The loading
      * flag is false once the handler finishes. */
    method Submit(o: Outcome<string>)
      requires Valid()
      modifies this, store.browser
      ensures Valid() && !isLoading
      ensures old(productImg).None? ==>
        State() == old(State()) && store.Effects([], [Error("Image not selected")])
      ensures old(productImg).Some? ==>
        && store.Effects(
             [Request.AddProduct(old(Fields()), SpecificationsObject(old(specifications)), old(productImg).value)],
             [if o.Success? then Info(o.value + " Product added") else Error(o.message)])
        && State() == if o.Success? then InitialDraft else old(State())
    {
      isLoading := true;
      if productImg.None? {
        isLoading := false;
        store.browser.Toast(Error("Image not selected"));
      } else {
        var specificationsObj := BuildSpecificationsObject(specifications);
        store.browser.Send(Request.AddProduct(Fields(), specificationsObj, productImg.value));
        if o.Success? {
          store.browser.Toast(Info(o.value + " Product added"));
          Reset();
        } else {
          store.browser.Toast(Error(o.message));
        }
      }
      isLoading := false;
    }

    /** The field resets after a reported success. */
    method Reset()
      modifies this
      ensures Valid() && State() == InitialDraft && isLoading == old(isLoading)
    {
      productImg := None;
      name := "";
      brand := "";
      price := "";
      category := "Laptop";
      description := "";
      stock := "";
      specifications := [SpecField("", "")];
    }
  }
}
