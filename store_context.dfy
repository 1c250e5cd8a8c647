/** The application state and its reducer `userReducer`. The state is a
    JavaScript object whose fields may be absent (`None`); reading a property of
    an absent field throws a TypeError, which the model returns as
    `TypeError(<the expression that was undefined>)`, while spreading an absent
    object (`{...undefined}`) yields an empty object. */
module StoreContext {
  import opened Optional
  import opened Seqs
  import opened Entities

  /** `state.store`. */
  datatype Store = Store(
    name: Option<string>,
    products: Option<seq<Product>>,
    categories: Option<seq<Category>>,
    tax: Option<TaxSetting>,
    orders: Option<seq<Order>>)

  const EmptyStore: Store := Store(None, None, None, None, None)

  /** The whole state: what sign-in returned, plus `authenticated`. A top-level
      `categories` field exists only if a sign-in payload carried one. */
  datatype State = State(
    authenticated: Option<bool>,
    token: Option<string>,
    store: Option<Store>,
    categories: Option<seq<Category>>)

  /** `{}`: the initial state and the state after sign-out. */
  const EmptyState: State := State(None, None, None, None)

  /** One constructor per entry of `ACTIONS`, each with its payload; `Unknown`
      stands for any other action type. */
  datatype Action =
    | SignIn(session: State)
    | SignUp(session: State)
    | SignOut
    | AddProduct(product: Product)
    | AddCategory(category: Category)
    | DeleteProduct(productId: Id)
    | DeleteCategory(categoryId: Id)
    | UpdateTax(tax: TaxSetting)
    | UpdateProduct(product: Product)
    | Unknown(kind: string)

  /** `{...state.store}`: the store, or an empty object when there is none. */
  function Spread(store: Option<Store>): (r: Store)
    ensures store.Some? ==> r == store.value
    ensures store.None? ==> r == EmptyStore
  {
    if store.Some? then store.value else EmptyStore
  }

  /** `state.store.products.filter(product => product._id !== payload)`. */
  function WithoutProduct(products: seq<Product>, productId: Id): (r: seq<Product>)
    ensures |r| <= |products|
    ensures forall p :: p in r ==> p in products && p.id != Some(productId)
  {
    Filter(products, (p: Product) => p.id != Some(productId))
  }

  /** `categories.filter(category => category._id !== payload)`. */
  function WithoutCategory(categories: seq<Category>, categoryId: Id): (r: seq<Category>)
    ensures |r| <= |categories|
    ensures forall c :: c in r ==> c in categories && c.id != categoryId
  {
    Filter(categories, (c: Category) => c.id != categoryId)
  }

  /** `products.map(prod => prod._id === payload._id ? payload : prod)`: the
      payload at every position whose product has its id, the others kept. */
  function Replaced(products: seq<Product>, product: Product): (r: seq<Product>)
    ensures |r| == |products|
    ensures forall i :: 0 <= i < |products| ==>
      r[i] == if products[i].id == product.id then product else products[i]
  {
    MapSeqEverywhere(products, (q: Product) => if q.id == product.id then product else q);
    MapSeq(products, (q: Product) => if q.id == product.id then product else q)
  }

  // ---------------------------------------------------------------- frames

  /** The fields of the store an action may touch. */
  datatype StoreField = ProductsField | CategoriesField | TaxField

  /** The store with one field blanked out, so that two stores that agree on
      everything else compare equal. */
  function Erase(st: Store, f: StoreField): Store
  {
    match f
    case ProductsField => st.(products := None)
    case CategoriesField => st.(categories := None)
    case TaxField => st.(tax := None)
  }

  /** `next` is `{...state, store: {...state.store, <f>: ...}}`: besides field `f`
      of the store, nothing in the state or its store differs. */
  predicate OnlyChanged(state: State, next: State, f: StoreField)
  {
    && next.(store := state.store) == state
    && next.store.Some?
    && Erase(next.store.value, f) == Erase(Spread(state.store), f)
  }

  predicate HasProducts(state: State)
  {
    state.store.Some? && state.store.value.products.Some?
  }

  predicate HasCategories(state: State)
  {
    state.store.Some? && state.store.value.categories.Some?
  }

  function ProductsOf(state: State): seq<Product>
    requires HasProducts(state)
  {
    state.store.value.products.value
  }

  function CategoriesOf(state: State): seq<Category>
    requires HasCategories(state)
  {
    state.store.value.categories.value
  }

  // ---------------------------------------------------------------- the reducer

  function Reduce(state: State, action: Action): (r: Result<State>)
    // SIGN_IN, SIGN_UP: the payload, marked authenticated.
    ensures action.SignIn? ==> r == Ok(action.session.(authenticated := Some(true)))
    ensures action.SignUp? ==> r == Ok(action.session.(authenticated := Some(true)))
    // SIGN_OUT: the empty object.
    ensures action.SignOut? ==> r == Ok(EmptyState)
    // ADD_PRODUCT: the payload becomes the last product; nothing else changes.
    ensures action.AddProduct? ==> (r.Ok? <==> HasProducts(state))
    ensures action.AddProduct? && r.Ok? ==>
      OnlyChanged(state, r.value, ProductsField) &&
      HasProducts(r.value) && ProductsOf(r.value) == ProductsOf(state) + [action.product]
    // ADD_CATEGORY: the payload becomes the last category; nothing else changes.
    ensures action.AddCategory? ==> (r.Ok? <==> HasCategories(state))
    ensures action.AddCategory? && r.Ok? ==>
      OnlyChanged(state, r.value, CategoriesField) &&
      HasCategories(r.value) && CategoriesOf(r.value) == CategoriesOf(state) + [action.category]
    // DELETE_PRODUCT: the products with another id.
    ensures action.DeleteProduct? ==> (r.Ok? <==> HasProducts(state))
    ensures action.DeleteProduct? && r.Ok? ==>
      OnlyChanged(state, r.value, ProductsField) &&
      HasProducts(r.value) && ProductsOf(r.value) == WithoutProduct(ProductsOf(state), action.productId)
    // DELETE_CATEGORY: filters the TOP-LEVEL `state.categories` into the store.
    ensures action.DeleteCategory? ==> (r.Ok? <==> state.categories.Some?)
    ensures action.DeleteCategory? && r.Ok? ==>
      OnlyChanged(state, r.value, CategoriesField) &&
      HasCategories(r.value) &&
      CategoriesOf(r.value) == WithoutCategory(state.categories.value, action.categoryId)
    // UPDATE_TAX: only the store's tax, which never fails.
    ensures action.UpdateTax? ==>
      r.Ok? && OnlyChanged(state, r.value, TaxField) && r.value.store.value.tax == Some(action.tax)
    // UPDATE_PRODUCT: every product with the payload's id replaced by the payload.
    ensures action.UpdateProduct? ==> (r.Ok? <==> HasProducts(state))
    ensures action.UpdateProduct? && r.Ok? ==>
      OnlyChanged(state, r.value, ProductsField) &&
      HasProducts(r.value) && ProductsOf(r.value) == Replaced(ProductsOf(state), action.product)
    // Any other action: the state itself.
    ensures action.Unknown? ==> r == Ok(state)
  {
    match action
    case SignIn(payload) => Ok(payload.(authenticated := Some(true)))
    case SignUp(payload) => Ok(payload.(authenticated := Some(true)))
    case SignOut => Ok(EmptyState)
    case AddProduct(payload) =>
      if state.store.None? then TypeError("state.store")
      else if state.store.value.products.None? then TypeError("state.store.products")
      else Ok(state.(store := Some(state.store.value.(products := Some(state.store.value.products.value + [payload])))))
    case AddCategory(payload) =>
      if state.store.None? then TypeError("state.store")
      else if state.store.value.categories.None? then TypeError("state.store.categories")
      else Ok(state.(store := Some(state.store.value.(categories := Some(state.store.value.categories.value + [payload])))))
    case DeleteProduct(payload) =>
      if state.store.None? then TypeError("state.store")
      else if state.store.value.products.None? then TypeError("state.store.products")
      else Ok(state.(store := Some(state.store.value.(products := Some(WithoutProduct(state.store.value.products.value, payload))))))
    case DeleteCategory(payload) =>
      if state.categories.None? then TypeError("state.categories")
      else Ok(state.(store := Some(Spread(state.store).(categories := Some(WithoutCategory(state.categories.value, payload))))))
    case UpdateTax(payload) =>
      Ok(state.(store := Some(Spread(state.store).(tax := Some(payload)))))
    case UpdateProduct(payload) =>
      if state.store.None? then TypeError("state.store")
      else if state.store.value.products.None? then TypeError("state.store.products")
      else Ok(state.(store := Some(state.store.value.(products := Some(Replaced(state.store.value.products.value, payload))))))
    case Unknown(_) => Ok(state)
  }

  /** The reducer with `DELETE_CATEGORY` filtering `state.store.categories`, as the
      other category case (`ADD_CATEGORY`) does. */
  function ReduceIntended(state: State, action: Action): (r: Result<State>)
    ensures action.DeleteCategory? ==> (r.Ok? <==> HasCategories(state))
    ensures action.DeleteCategory? && r.Ok? ==>
      OnlyChanged(state, r.value, CategoriesField) &&
      HasCategories(r.value) &&
      CategoriesOf(r.value) == WithoutCategory(CategoriesOf(state), action.categoryId)
    ensures !action.DeleteCategory? ==> r == Reduce(state, action)
  {
    match action
    case DeleteCategory(payload) =>
      if state.store.None? then TypeError("state.store")
      else if state.store.value.categories.None? then TypeError("state.store.categories")
      else Ok(state.(store := Some(state.store.value.(categories := Some(WithoutCategory(state.store.value.categories.value, payload))))))
    case _ => Reduce(state, action)
  }

  // ---------------------------------------------------------------- properties

  /** `DELETE_PRODUCT` keeps exactly the products with another id, in order, and
      dispatching it twice is dispatching it once. */
  lemma DeleteProductSpec(state: State, productId: Id)
    requires HasProducts(state)
    ensures var next := Reduce(state, DeleteProduct(productId));
      && next.Ok?
      && (forall p :: p in ProductsOf(next.value) <==> p in ProductsOf(state) && p.id != Some(productId))
      && Reduce(next.value, DeleteProduct(productId)) == next
  {
    var keep := (p: Product) => p.id != Some(productId);
    forall p ensures p in Filter(ProductsOf(state), keep) <==> p in ProductsOf(state) && keep(p) {
      FilterMembership(ProductsOf(state), keep, p);
    }
    FilterIdempotent(ProductsOf(state), keep);
  }

  /** Deleting an id no product has leaves the state as it was. */
  lemma DeleteAbsentProduct(state: State, productId: Id)
    requires HasProducts(state)
    requires forall i :: 0 <= i < |ProductsOf(state)| ==> ProductsOf(state)[i].id != Some(productId)
    ensures Reduce(state, DeleteProduct(productId)) == Ok(state)
  {
    FilterAllKept(ProductsOf(state), (p: Product) => p.id != Some(productId));
  }

  /** `UPDATE_PRODUCT` keeps the length and order, puts the payload at every
      position whose product has the payload's id, and leaves the others. */
  lemma UpdateProductSpec(state: State, product: Product)
    requires HasProducts(state)
    ensures var next := Reduce(state, UpdateProduct(product));
      var ps := ProductsOf(state);
      && next.Ok?
      && |ProductsOf(next.value)| == |ps|
      && forall i :: 0 <= i < |ps| ==>
           ProductsOf(next.value)[i] == if ps[i].id == product.id then product else ps[i]
  {
    MapSeqEverywhere(ProductsOf(state), (q: Product) => if q.id == product.id then product else q);
  }

  /** Every product that already equals the payload whenever it shares its id:
      then `UPDATE_PRODUCT` changes nothing. */
  lemma UpdateProductUnchanged(state: State, product: Product)
    requires HasProducts(state)
    requires forall i :: 0 <= i < |ProductsOf(state)| && ProductsOf(state)[i].id == product.id ==>
      ProductsOf(state)[i] == product
    ensures Reduce(state, UpdateProduct(product)) == Ok(state)
  {
    MapSeqIdentity(ProductsOf(state), (q: Product) => if q.id == product.id then product else q);
  }

  /** After sign-out the store is gone: every product or category action throws,
      and `UPDATE_TAX` builds a store holding the tax alone. */
  lemma AfterSignOut(p: Product, c: Category, id: Id, t: TaxSetting)
    ensures Reduce(EmptyState, AddProduct(p)) == TypeError("state.store")
    ensures Reduce(EmptyState, UpdateProduct(p)) == TypeError("state.store")
    ensures Reduce(EmptyState, DeleteProduct(id)) == TypeError("state.store")
    ensures Reduce(EmptyState, AddCategory(c)) == TypeError("state.store")
    ensures Reduce(EmptyState, DeleteCategory(id)) == TypeError("state.categories")
    ensures Reduce(EmptyState, UpdateTax(t)) == Ok(EmptyState.(store := Some(EmptyStore.(tax := Some(t)))))
  {
  }

  /** The defect of `DELETE_CATEGORY`: with a store holding one category and no
      top-level `categories`, deleting that category throws, where the intended
      reducer removes it. */
  lemma DeleteCategoryDefect(c: Category)
    ensures var st := EmptyState.(store := Some(EmptyStore.(categories := Some([c]))));
      && Reduce(st, DeleteCategory(c.id)) == TypeError("state.categories")
      && ReduceIntended(st, DeleteCategory(c.id)) == Ok(EmptyState.(store := Some(EmptyStore.(categories := Some([])))))
  {
  }

  /** As written, the store's own categories never influence `DELETE_CATEGORY`:
      whatever they are, they are overwritten by the filtered top-level list. */
  lemma DeleteCategoryIgnoresStoreCategories(state: State, cats: seq<Category>, categoryId: Id)
    requires state.store.Some?
    ensures var other := state.(store := Some(state.store.value.(categories := Some(cats))));
      Reduce(state, DeleteCategory(categoryId)) == Reduce(other, DeleteCategory(categoryId))
  {
  }

  /** The intended `DELETE_CATEGORY` keeps exactly the other categories and is
      idempotent. */
  lemma DeleteCategoryIntendedSpec(state: State, categoryId: Id)
    requires HasCategories(state)
    ensures var next := ReduceIntended(state, DeleteCategory(categoryId));
      && next.Ok?
      && (forall c :: c in CategoriesOf(next.value) <==> c in CategoriesOf(state) && c.id != categoryId)
      && ReduceIntended(next.value, DeleteCategory(categoryId)) == next
  {
    var keep := (c: Category) => c.id != categoryId;
    forall c ensures c in Filter(CategoriesOf(state), keep) <==> c in CategoriesOf(state) && keep(c) {
      FilterMembership(CategoriesOf(state), keep, c);
    }
    FilterIdempotent(CategoriesOf(state), keep);
  }
}
