/** The product create/edit form: its default values, the price-tier list
    edits, the required-field rule and the decision taken on confirm. */
module ProductModal {
  import opened Optional
  import opened Seqs
  import opened Entities
  import StoreContext

  /** The tier `addNewPrice` appends. */
  const EmptyPrice: Price := Price("", Str(""))

  /** The form's values when no product is being edited: one empty price tier. */
  const DefaultProduct: Product := Product(None, "", true, "", Str(""), None, [EmptyPrice], Str(""))

  /** The form's starting product: the one being edited, else the default. The
      deep copy `JSON.parse(JSON.stringify(...))` is the same value. */
  function Initial(initProduct: Option<Product>): (p: Product)
    ensures initProduct.Some? ==> p == initProduct.value
    ensures initProduct.None? ==> p.id.None? && p.prices == [EmptyPrice] && p.category.None? && p.enable
  {
    if initProduct.Some? then initProduct.value else DefaultProduct
  }

  // ---------------------------------------------------------------- price tiers

  /** `addNewPrice(values)`: the form values with one empty tier added at the end. */
  function WithNewPrice(values: Product): (p: Product)
    ensures |p.prices| == |values.prices| + 1
    ensures p.prices[..|values.prices|] == values.prices
    ensures p.prices[|values.prices|] == EmptyPrice
    ensures p.(prices := values.prices) == values
  {
    values.(prices := values.prices + [EmptyPrice])
  }

  /** Where `splice(idx, 1)` starts on an array of length `len`: a negative index
      counts from the end, and the start is clamped to `[0, len]`. */
  function SpliceStart(len: nat, idx: int): (k: nat)
    ensures k <= len
    ensures 0 <= idx <= len ==> k == idx
    ensures idx < 0 && len + idx >= 0 ==> k == len + idx
    ensures idx > len ==> k == len
    ensures idx < 0 && len + idx < 0 ==> k == 0
  {
    if idx < 0 then (if len + idx < 0 then 0 else len + idx)
    else if idx > len then len
    else idx
  }

  /** The tiers after `splice(idx, 1)`: the one at the start position is gone,
      unless the start is past the end, which deletes nothing. */
  function Spliced(prices: seq<Price>, idx: int): (r: seq<Price>)
    ensures SpliceStart(|prices|, idx) < |prices| ==> |r| == |prices| - 1
    ensures SpliceStart(|prices|, idx) == |prices| ==> r == prices
    ensures multiset(r) <= multiset(prices)
  {
    var k := SpliceStart(|prices|, idx);
    if k < |prices| then
      assert prices == prices[..k] + [prices[k]] + prices[k + 1..];
      prices[..k] + prices[k + 1..]
    else prices
  }

  /** The copy-then-splice of `deletePrice`: copy the tiers into a fresh array,
      shift the tail left over the removed slot, and drop the last slot. */
  method WithoutPriceAt(prices: seq<Price>, idx: int) returns (r: seq<Price>)
    ensures r == Spliced(prices, idx)
  {
    var copy := new Price[|prices|](i requires 0 <= i < |prices| => prices[i]);
    var start := SpliceStart(copy.Length, idx);
    if start < copy.Length {
      var k := start;
      while k < copy.Length - 1
        invariant start <= k <= copy.Length - 1
        invariant forall j :: 0 <= j < start ==> copy[j] == prices[j]
        invariant forall j :: start <= j < k ==> copy[j] == prices[j + 1]
        invariant forall j :: k <= j < copy.Length ==> copy[j] == prices[j]
      {
        copy[k] := copy[k + 1];
        k := k + 1;
      }
      r := copy[..copy.Length - 1];
      assert r == prices[..start] + prices[start + 1..];
    } else {
      r := copy[..];
    }
  }

  /** Deleting tier `idx` of the list: the list is one shorter, the tiers before
      it stay, the ones after it move up one, and nothing else is lost. */
  lemma SplicedRemovesOne(prices: seq<Price>, idx: nat)
    requires idx < |prices|
    ensures |Spliced(prices, idx)| == |prices| - 1
    ensures forall j :: 0 <= j < idx ==> Spliced(prices, idx)[j] == prices[j]
    ensures forall j :: idx <= j < |prices| - 1 ==> Spliced(prices, idx)[j] == prices[j + 1]
    ensures multiset(Spliced(prices, idx)) + multiset{prices[idx]} == multiset(prices)
  {
    assert prices == prices[..idx] + [prices[idx]] + prices[idx + 1..];
  }

  /** The delete button is shown only for tiers after the first, so a deletion
      it offers keeps the first tier and never empties the list. */
  lemma OfferedDeletionKeepsFirstTier(prices: seq<Price>, idx: nat)
    requires 0 < idx < |prices|
    ensures |Spliced(prices, idx)| >= 1
    ensures Spliced(prices, idx)[0] == prices[0]
  {
    SplicedRemovesOne(prices, idx);
  }

  // ---------------------------------------------------------------- validation

  /** Formik's `validate`: "Required" for each of name, count and cost that is
      falsy; the price tiers are not checked. */
  method Validate(values: Product) returns (errors: map<string, string>)
    ensures "name" in errors <==> values.name == ""
    ensures "count" in errors <==> Falsy(values.count)
    ensures "cost" in errors <==> Falsy(values.cost)
    ensures errors.Keys <= {"name", "count", "cost"}
    ensures forall k :: k in errors ==> errors[k] == "Required"
  {
    errors := map[];
    if values.name == "" {
      errors := errors["name" := "Required"];
    }
    if Falsy(values.count) {
      errors := errors["count" := "Required"];
    }
    if Falsy(values.cost) {
      errors := errors["cost" := "Required"];
    }
  }

  // ---------------------------------------------------------------- confirm

  datatype Decision = CreateProduct | SkipUnchanged | UpdateProduct

  /** `handleConfirm`: a new product is created; an edited one is skipped when
      the store's first product with its id serialises equal to it, else updated.
      Serialisations are compared as values (key order is not modelled). */
  function ConfirmDecision(initProduct: Option<Product>, storeProducts: seq<Product>, edited: Product): (d: Decision)
    ensures d == CreateProduct <==> initProduct.None?
    ensures d == SkipUnchanged ==> edited in storeProducts
    ensures initProduct.Some? && edited !in storeProducts ==> d == UpdateProduct
  {
    if initProduct.None? then CreateProduct
    else if Find(storeProducts, (p: Product) => p.id == edited.id) == Some(edited) then SkipUnchanged
    else UpdateProduct
  }

  predicate UniqueIds(products: seq<Product>)
  {
    forall i, j :: 0 <= i < |products| && 0 <= j < |products| && products[i].id == products[j].id ==> i == j
  }

  /** An edit equal to the store's first product with its id is skipped, even
      when a later product with that id differs from it. */
  lemma UnchangedIsSkipped(initProduct: Option<Product>, storeProducts: seq<Product>, edited: Product, k: nat)
    requires initProduct.Some?
    requires k < |storeProducts| && storeProducts[k] == edited
    requires forall j :: 0 <= j < k ==> storeProducts[j].id != edited.id
    ensures ConfirmDecision(initProduct, storeProducts, edited) == SkipUnchanged
  {
    var f := FindIndex(storeProducts, (p: Product) => p.id == edited.id);
    assert storeProducts[k].id == edited.id;
    assert f.Some? && f.value == k;
  }

  /** Skipping is safe: when product ids are unique and the edit is judged
      unchanged, dispatching `UPDATE_PRODUCT` would not have changed the state. */
  lemma SkipIsSafe(state: StoreContext.State, initProduct: Option<Product>, edited: Product)
    requires StoreContext.HasProducts(state) && UniqueIds(StoreContext.ProductsOf(state))
    requires ConfirmDecision(initProduct, StoreContext.ProductsOf(state), edited) == SkipUnchanged
    ensures StoreContext.Reduce(state, StoreContext.UpdateProduct(edited)) == Ok(state)
  {
    var ps := StoreContext.ProductsOf(state);
    var k := FindIndex(ps, (p: Product) => p.id == edited.id).value;
    forall i | 0 <= i < |ps| && ps[i].id == edited.id ensures ps[i] == edited {
      assert ps[k].id == edited.id;
    }
    StoreContext.UpdateProductUnchanged(state, edited);
  }

  /** An edit that differs from the store's first product with its id is sent as
      an update, even when a later product with that id equals it. */
  lemma ChangedIsUpdated(initProduct: Option<Product>, storeProducts: seq<Product>, edited: Product, k: nat)
    requires initProduct.Some?
    requires k < |storeProducts| && storeProducts[k].id == edited.id && storeProducts[k] != edited
    requires forall j :: 0 <= j < k ==> storeProducts[j].id != edited.id
    ensures ConfirmDecision(initProduct, storeProducts, edited) == UpdateProduct
  {
    var f := FindIndex(storeProducts, (p: Product) => p.id == edited.id);
    assert storeProducts[k].id == edited.id;
    assert f.Some? && f.value == k;
  }

  // ---------------------------------------------------------------- form state

  /** The modal's `product` state. */
  class Form {
    const initProduct: Option<Product>
    var product: Product

    constructor (initProduct: Option<Product>)
      ensures this.initProduct == initProduct && product == Initial(initProduct)
    {
      this.initProduct := initProduct;
      product := Initial(initProduct);
    }

    /** Takes the current form values and appends a tier. */
    method AddNewPrice(values: Product)
      modifies this
      ensures product == WithNewPrice(values)
    {
      product := WithNewPrice(values);
    }

    /** Works on the stored `product`, not on the form's current values. */
    method DeletePrice(idx: int)
      modifies this
      ensures product == old(product).(prices := Spliced(old(product).prices, idx))
    {
      var newPrices := WithoutPriceAt(product.prices, idx);
      product := product.(prices := newPrices);
    }

    method HandleImageUpload(image: string)
      modifies this
      ensures product == old(product).(thumbnail := image)
    {
      product := product.(thumbnail := image);
    }

    /** Resets the form (closing the modal is left to the caller's callback). */
    method HandleCancel()
      modifies this
      ensures product == Initial(initProduct)
    {
      product := Initial(initProduct);
    }
  }
}
