/** The cart handlers: adding a product to the current user's cart and
    listing that cart. */
module CartController {
  import opened Wrappers
  import opened Store

  /** POST add-to-cart. `productID` and `quantity` are the body's fields;
      `current` is the user the session resolved. */
  method AddToCart(db: Database, current: nat, productID: Option<nat>, quantity: Option<int>)
    returns (r: Result<CartItem>)
    requires db.Valid()
    modifies db
    ensures db.Valid()
    ensures productID.None? || FalsyNumber(quantity) ==> r == Err(ApiError(400, "fields missing"))
    ensures productID.Some? && !FalsyNumber(quantity) && productID.value >= |old(db.products)|
            ==> r == Err(ApiError(404, "Product not found"))
    ensures productID.Some? && !FalsyNumber(quantity) && productID.value < |old(db.products)|
            ==> (r.Ok? <==> quantity.value <= old(db.products)[productID.value].quantity)
    ensures productID.Some? && !FalsyNumber(quantity) && productID.value < |old(db.products)|
            && quantity.value > old(db.products)[productID.value].quantity
            ==> r == Err(ApiError(400, "Insufficient product stock"))
    ensures r.Err? ==> unchanged(db)
    ensures r.Ok? ==>
            && productID.Some? && quantity.Some?
            && r.value == CartItem(|old(db.carts)|, productID.value, current, quantity.value)
            && db.carts == old(db.carts) + [r.value]
    ensures db.products == old(db.products) && db.users == old(db.users)
    ensures db.categories == old(db.categories) && db.serial == old(db.serial)
  {
    if productID.None? || FalsyNumber(quantity) {
      return Err(ApiError(400, "fields missing"));
    }
    var p := productID.value;
    if p >= |db.products| {
      return Err(ApiError(404, "Product not found"));
    }
    var product := db.products[p];
    if product.quantity < quantity.value {
      return Err(ApiError(400, "Insufficient product stock"));
    }
    var item := db.InsertCartItem(product.id, current, quantity.value);
    r := Ok(item);
  }

  /** GET cart details: `Cart.find({ owner })`, in natural order. */
  function GetCartDetails(carts: seq<CartItem>, owner: nat): (r: seq<CartItem>)
    ensures forall c :: c in r <==> c in carts && c.owner == owner
    ensures |r| <= |carts|
    ensures forall c :: c in carts && c.owner == owner ==> multiset(r)[c] == multiset(carts)[c]
  {
    if carts == [] then []
    else
      var rest := GetCartDetails(carts[1..], owner);
      assert carts == [carts[0]] + carts[1..];
      if carts[0].owner == owner then [carts[0]] + rest else rest
  }
}
