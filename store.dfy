/** The document store: the users, products, categories and carts
    collections, in insertion order, with the writes the handlers make. */
module Store {
  import opened Wrappers
  import Text
  import opened UserModel

  /** A product document as `Product.create` stores it. */
  datatype Product = Product(
    id: nat,
    title: string,
    description: string,
    specifications: string,
    quantity: int,
    price: int,
    owner: nat,
    category: nat,
    image: string)

  /** A category document; `parent` is the `_id` of another category or null. */
  datatype Category = Category(id: nat, name: string, description: string, parent: Option<nat>)

  /** A cart record: one product, one owner, one quantity. */
  datatype CartItem = CartItem(id: nat, product: nat, owner: nat, quantity: int)

  /** The filter `{ $or: [{ username }, { email }] }`. A clause whose value is
      absent matches nothing; a present value is cast through the schema's
      lowercase and trim setters before it is compared. */
  datatype UserQuery = UserQuery(username: Option<string>, email: Option<string>)

  predicate MatchesQuery(u: User, q: UserQuery) {
    (q.username.Some? && u.username == Text.Canonical(q.username.value))
    || (q.email.Some? && u.email == Text.Canonical(q.email.value))
  }

  /** `User.findOne(q)` from position `from` on: the first match in natural order. */
  function FindUserFrom(users: seq<User>, q: UserQuery, from: nat): (r: Option<nat>)
    requires from <= |users|
    ensures r.Some? ==> from <= r.value < |users| && MatchesQuery(users[r.value], q)
    ensures r.Some? ==> forall k :: from <= k < r.value ==> !MatchesQuery(users[k], q)
    ensures r.None? ==> forall k :: from <= k < |users| ==> !MatchesQuery(users[k], q)
    decreases |users| - from
  {
    if from == |users| then None
    else if MatchesQuery(users[from], q) then Some(from)
    else FindUserFrom(users, q, from + 1)
  }

  /** `User.findOne(q)`: the position of the first user matching `q`, or none. */
  function FindUser(users: seq<User>, q: UserQuery): (r: Option<nat>)
    ensures r.Some? ==> r.value < |users| && MatchesQuery(users[r.value], q)
    ensures r.Some? ==> forall k :: 0 <= k < r.value ==> !MatchesQuery(users[k], q)
    ensures r.None? <==> forall k :: 0 <= k < |users| ==> !MatchesQuery(users[k], q)
  {
    FindUserFrom(users, q, 0)
  }

  /** `Category.findOne({ name })` from position `from` on. An absent name
      finds nothing. */
  function FindCategoryFrom(categories: seq<Category>, name: Option<string>, from: nat): (r: Option<nat>)
    requires from <= |categories|
    ensures r.Some? ==> name.Some? && from <= r.value < |categories| && categories[r.value].name == name.value
    ensures r.Some? ==> forall k :: from <= k < r.value ==> categories[k].name != name.value
    ensures r.None? ==> name.None? || forall k :: from <= k < |categories| ==> categories[k].name != name.value
    decreases |categories| - from
  {
    if name.None? || from == |categories| then None
    else if categories[from].name == name.value then Some(from)
    else FindCategoryFrom(categories, name, from + 1)
  }

  /** `Category.findOne({ name })`: the first category of that name, or none. */
  function FindCategory(categories: seq<Category>, name: Option<string>): (r: Option<nat>)
    ensures r.Some? ==> name.Some? && r.value < |categories| && categories[r.value].name == name.value
    ensures r.Some? ==> forall k :: 0 <= k < r.value ==> categories[k].name != name.value
    ensures r.None? <==> name.None? || forall k :: 0 <= k < |categories| ==> categories[k].name != name.value
  {
    FindCategoryFrom(categories, name, 0)
  }

  /** No stored user has this user name or this e-mail address. */
  ghost predicate Unclaimed(users: seq<User>, username: string, email: string) {
    forall k :: 0 <= k < |users| ==> users[k].username != username && users[k].email != email
  }

  class Database {
    var users: seq<User>
    var products: seq<Product>
    var categories: seq<Category>
    var carts: seq<CartItem>
    /** The token generator: every token issued carries a serial below it. */
    var serial: nat

    /** Each `_id` is the document's position; user names and e-mail addresses
        are unique (the schema's `unique: true`); every stored refresh token was
        issued before the generator's current serial. */
    ghost predicate Valid()
      reads this
    {
      && (forall i :: 0 <= i < |users| ==> users[i].id == i)
      && (forall i, j :: 0 <= i < j < |users| ==>
            users[i].username != users[j].username && users[i].email != users[j].email)
      && (forall i :: 0 <= i < |users| && users[i].refreshToken.Some? ==>
            users[i].refreshToken.value.serial < serial)
      && (forall i :: 0 <= i < |products| ==> products[i].id == i)
      && (forall i :: 0 <= i < |categories| ==> categories[i].id == i)
      && (forall i :: 0 <= i < |carts| ==> carts[i].id == i)
    }

    constructor ()
      ensures Valid()
      ensures users == [] && products == [] && categories == [] && carts == [] && serial == 0
    {
      users, products, categories, carts, serial := [], [], [], [], 0;
    }

    /** The next serial of the token generator; never issued before. */
    method IssueSerial() returns (s: nat)
      requires Valid()
      modifies this`serial
      ensures Valid()
      ensures s == old(serial) && serial == old(serial) + 1
    {
      s := serial;
      serial := serial + 1;
    }

    /** `User.create(u)`: appends a user whose name and e-mail are not taken. */
    method InsertUser(u: User)
      requires Valid()
      requires u.id == |users| && u.refreshToken.None?
      requires Unclaimed(users, u.username, u.email)
      modifies this`users
      ensures Valid()
      ensures users == old(users) + [u]
    {
      users := users + [u];
    }

    /** Writes a whole user document back, keeping its `_id`. The document may
        not take another user's name or e-mail address, nor hold a token the
        generator has not issued. */
    method WriteUser(u: User)
      requires Valid()
      requires u.id < |users|
      requires forall k :: 0 <= k < |users| && k != u.id ==>
                 users[k].username != u.username && users[k].email != u.email
      requires u.refreshToken.Some? ==> u.refreshToken.value.serial < serial
      modifies this`users
      ensures Valid()
      ensures users == old(users)[u.id := u]
    {
      users := users[u.id := u];
    }

    /** `doc.save()`: runs the pre-save hook and writes the document back. The
        handlers save documents they loaded, so name and e-mail are the stored ones. */
    method Save(d: Document)
      requires Valid()
      requires d.record.id < |users|
      requires d.record.username == users[d.record.id].username
      requires d.record.email == users[d.record.id].email
      requires d.record.refreshToken.Some? ==> d.record.refreshToken.value.serial < serial
      modifies this`users
      ensures Valid()
      ensures users == old(users)[d.record.id := PreSave(d)]
    {
      WriteUser(PreSave(d));
    }

    /** `user.switchRole(newRole)`: sets `activeRole` and saves when `newRole`
        is one of the granted roles, otherwise throws and changes nothing. The
        save validates the whole document, so it also throws, changing nothing,
        when a required field of the stored user is empty. */
    method SwitchRole(id: nat, newRole: string) returns (r: Result<()>)
      requires Valid() && id < |users|
      modifies this`users
      ensures Valid()
      ensures r.Ok? <==> && (exists k :: 0 <= k < |old(users)[id].role| && RoleName(old(users)[id].role[k]) == newRole)
                         && HasRequiredFields(old(users)[id])
      ensures r.Ok? ==> users == old(users)[id := old(users)[id].(activeRole := ParseRole(newRole).value)]
      ensures r.Ok? ==> RoleName(users[id].activeRole) == newRole && users[id].activeRole in users[id].role
      ensures r.Err? ==> users == old(users) && r.error.status == 500
      ensures r.Err? ==> r.error.message == (if HasRequiredFields(old(users)[id]) || !(exists k :: 0 <= k < |old(users)[id].role| && RoleName(old(users)[id].role[k]) == newRole)
                                             then "User does not have the specified role" else "User validation failed")
    {
      var u := users[id];
      if exists k :: 0 <= k < |u.role| && RoleName(u.role[k]) == newRole {
        var k :| 0 <= k < |u.role| && RoleName(u.role[k]) == newRole;
        assert ParseRole(newRole) == Some(u.role[k]);
        if !HasRequiredFields(u) {
          return Err(ApiError(500, "User validation failed"));
        }
        Save(Document(u.(activeRole := ParseRole(newRole).value), None));
        r := Ok(());
      } else {
        r := Err(ApiError(500, "User does not have the specified role"));
      }
    }

    /** `Category.create(...)`: appends a category. */
    method InsertCategory(name: string, description: string, parent: Option<nat>) returns (c: Category)
      requires Valid()
      modifies this`categories
      ensures Valid()
      ensures c == Category(|old(categories)|, name, description, parent)
      ensures categories == old(categories) + [c]
    {
      c := Category(|categories|, name, description, parent);
      categories := categories + [c];
    }

    /** `Product.create(...)`: appends a product. */
    method InsertProduct(title: string, description: string, specifications: string, quantity: int,
                         price: int, owner: nat, category: nat, image: string) returns (p: Product)
      requires Valid()
      modifies this`products
      ensures Valid()
      ensures p == Product(|old(products)|, title, description, specifications, quantity, price, owner, category, image)
      ensures products == old(products) + [p]
    {
      p := Product(|products|, title, description, specifications, quantity, price, owner, category, image);
      products := products + [p];
    }

    /** `Cart.create(...)`: appends a cart record. */
    method InsertCartItem(product: nat, owner: nat, quantity: int) returns (c: CartItem)
      requires Valid()
      modifies this`carts
      ensures Valid()
      ensures c == CartItem(|old(carts)|, product, owner, quantity)
      ensures carts == old(carts) + [c]
    {
      c := CartItem(|carts|, product, owner, quantity);
      carts := carts + [c];
    }
  }
}
