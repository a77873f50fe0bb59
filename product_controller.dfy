/** The product handlers: listing a product (with find-or-create of its
    category and an image upload), a seller's products, and the products of
    a category joined with their owner and category. */
module ProductController {
  import opened Wrappers
  import opened UserModel
  import opened Store

  /** What the image host answers; `url` may be missing or empty. */
  datatype UploadResponse = UploadResponse(url: Option<string>)

  /** The categories after find-or-create: unchanged when one named `name`
      exists, otherwise with one new category whose parent is the category
      named `parentName`, if any. Find-or-create never duplicates: afterwards
      the category it settled on is the first one of that name, and nothing
      but that one category may have been added. */
  function WithCategory(categories: seq<Category>, name: string, description: string,
                        parentName: Option<string>): (r: seq<Category>)
    ensures FindCategory(categories, Some(name)).Some? ==> r == categories
    ensures FindCategory(categories, Some(name)).None? ==>
              r == categories + [Category(|categories|, name, description, FindCategory(categories, parentName))]
    ensures |categories| <= |r| <= |categories| + 1 && r[..|categories|] == categories
    ensures FindCategory(r, Some(name)) == Some(CategoryFor(categories, name))
  {
    if FindCategory(categories, Some(name)).Some? then categories
    else
      var r := categories + [Category(|categories|, name, description, FindCategory(categories, parentName))];
      assert r[|categories|].name == name;
      r
  }

  /** The `_id` of the category find-or-create settles on. */
  function CategoryFor(categories: seq<Category>, name: string): nat {
    match FindCategory(categories, Some(name))
    case Some(i) => i
    case None => |categories|
  }

  /** The upload of the file at `path`: an empty path uploads nothing and
      answers null; otherwise the image host's answer (null on failure). */
  function Uploaded(path: string, upload: Option<UploadResponse>): (r: Option<UploadResponse>)
    ensures path == "" ==> r.None?
    ensures path != "" ==> r == upload
  {
    if path == "" then None else upload
  }

  /** Some required product field is missing or falsy. */
  predicate DetailsMissing(title: Option<string>, description: Option<string>, specifications: Option<string>,
                           quantity: Option<int>, price: Option<int>, categoryName: Option<string>,
                           categoryDescription: Option<string>)
    ensures !DetailsMissing(title, description, specifications, quantity, price, categoryName, categoryDescription) ==>
              && title.Some? && title.value != "" && description.Some? && description.value != ""
              && specifications.Some? && specifications.value != ""
              && quantity.Some? && quantity.value != 0 && price.Some? && price.value != 0
              && categoryName.Some? && categoryName.value != ""
              && categoryDescription.Some? && categoryDescription.value != ""
  {
    Falsy(title) || Falsy(description) || Falsy(specifications) || FalsyNumber(quantity)
    || FalsyNumber(price) || Falsy(categoryName) || Falsy(categoryDescription)
  }

  /** POST list-product by the seller `seller`. `imagePath` is the path of the
      uploaded file, if one came with the request; `upload` is what the image
      host answers for it. */
  method ListProduct(db: Database, seller: nat, title: Option<string>, description: Option<string>,
                     specifications: Option<string>, quantity: Option<int>, price: Option<int>,
                     categoryName: Option<string>, categoryDescription: Option<string>,
                     categoryParentName: Option<string>, imagePath: Option<string>,
                     upload: Option<UploadResponse>) returns (r: Result<Product>)
    requires db.Valid()
    modifies db
    ensures db.Valid()
    ensures db.users == old(db.users) && db.carts == old(db.carts) && db.serial == old(db.serial)
    ensures DetailsMissing(title, description, specifications, quantity, price, categoryName, categoryDescription)
            ==> r == Err(ApiError(400, "Details are Missing")) && unchanged(db)
    ensures !DetailsMissing(title, description, specifications, quantity, price, categoryName, categoryDescription)
            ==> db.categories == WithCategory(old(db.categories), categoryName.value, categoryDescription.value, categoryParentName)
    ensures (!DetailsMissing(title, description, specifications, quantity, price, categoryName, categoryDescription)
             && imagePath.None?) ==> r == Err(ApiError(400, "Image Missing"))
    ensures !DetailsMissing(title, description, specifications, quantity, price, categoryName, categoryDescription)
            && imagePath.Some? && Falsy(UploadedUrl(imagePath.value, upload))
            ==> r == Err(ApiError(500, "Failed to upload image to Cloudinary"))
    ensures r.Ok? <==>
            && !DetailsMissing(title, description, specifications, quantity, price, categoryName, categoryDescription)
            && imagePath.Some? && !Falsy(UploadedUrl(imagePath.value, upload))
    ensures r.Err? ==> db.products == old(db.products)
    ensures r.Ok? ==>
            && !DetailsMissing(title, description, specifications, quantity, price, categoryName, categoryDescription)
            && imagePath.Some? && !Falsy(UploadedUrl(imagePath.value, upload))
            && r.value == Product(|old(db.products)|, title.value, description.value, specifications.value,
                                  quantity.value, price.value, seller,
                                  CategoryFor(old(db.categories), categoryName.value),
                                  UploadedUrl(imagePath.value, upload).value)
            && db.products == old(db.products) + [r.value]
  {
    if DetailsMissing(title, description, specifications, quantity, price, categoryName, categoryDescription) {
      return Err(ApiError(400, "Details are Missing"));
    }
    var category: nat;
    var found := FindCategory(db.categories, categoryName);
    if found.Some? {
      category := found.value;
    } else {
      var parent := FindCategory(db.categories, categoryParentName);
      var created := db.InsertCategory(categoryName.value, categoryDescription.value, parent);
      category := created.id;
    }
    if imagePath.None? {
      return Err(ApiError(400, "Image Missing"));
    }
    var url := UploadedUrl(imagePath.value, upload);
    if Falsy(url) {
      return Err(ApiError(500, "Failed to upload image to Cloudinary"));
    }
    var p := db.InsertProduct(title.value, description.value, specifications.value, quantity.value,
                              price.value, seller, category, url.value);
    r := Ok(p);
  }

  /** `imageUrl?.url` for the upload of the file at `path`: present only when
      a non-empty path was uploaded and the answer carries a url. */
  function UploadedUrl(path: string, upload: Option<UploadResponse>): (r: Option<string>)
    ensures r.Some? <==> path != "" && upload.Some? && upload.value.url.Some?
    ensures r.Some? ==> r == upload.value.url
  {
    match Uploaded(path, upload)
    case None => None
    case Some(resp) => resp.url
  }

  /** GET user products: `Product.find({ owner })`, in natural order. */
  function GetUserProducts(products: seq<Product>, owner: nat): (r: seq<Product>)
    ensures forall p :: p in r <==> p in products && p.owner == owner
    ensures |r| <= |products|
    ensures forall p :: p in products && p.owner == owner ==> multiset(r)[p] == multiset(products)[p]
  {
    if products == [] then []
    else
      var rest := GetUserProducts(products[1..], owner);
      assert products == [products[0]] + products[1..];
      if products[0].owner == owner then [products[0]] + rest else rest
  }

  /** One row of the category query after its `$project`: the product's `_id`,
      title, description, specifications, quantity and image, the owner's
      e-mail and the category's name. (The projected `ownerDetails.name` is
      not a User field, so nothing is carried for it.) */
  datatype ProductRow = ProductRow(id: nat, title: string, description: string, specifications: string,
                                   quantity: int, image: string, ownerEmail: string, categoryName: string)

  /** A product survives the pipeline for category `cat`: it matches, and both
      `$lookup`s find the document that `$unwind` needs. */
  predicate Joins(p: Product, users: seq<User>, categories: seq<Category>, cat: nat) {
    p.category == cat && p.owner < |users| && p.category < |categories|
  }

  /** The `$project` stage over the joined documents. The `$lookup`s match
      `_id`, which is read here as an index: that is sound because the store
      keeps each document's `_id` equal to its position (`Database.Valid`). */
  function Project(p: Product, users: seq<User>, categories: seq<Category>): ProductRow
    requires p.owner < |users| && p.category < |categories|
  {
    ProductRow(p.id, p.title, p.description, p.specifications, p.quantity, p.image,
               users[p.owner].email, categories[p.category].name)
  }

  /** How many products of `products` survive the pipeline for `cat` and
      project to `row`. */
  function Occurrences(products: seq<Product>, users: seq<User>, categories: seq<Category>, cat: nat,
                       row: ProductRow): nat
  {
    if products == [] then 0
    else
      (if Joins(products[0], users, categories, cat) && Project(products[0], users, categories) == row then 1 else 0)
      + Occurrences(products[1..], users, categories, cat, row)
  }

  /** The aggregation `$match`, `$lookup` + `$unwind` on users, `$lookup` +
      `$unwind` on categories, `$project`, in natural order: each row as often
      as surviving products project to it. The joins look users and
      categories up by position, which is their `_id` in a valid store. */
  function CategoryRows(products: seq<Product>, users: seq<User>, categories: seq<Category>, cat: nat)
    : (r: seq<ProductRow>)
    ensures |r| <= |products|
    ensures forall row :: multiset(r)[row] == Occurrences(products, users, categories, cat, row)
    ensures forall p :: p in products && Joins(p, users, categories, cat) ==> Project(p, users, categories) in r
    ensures forall row :: row in r ==> exists p :: p in products && Joins(p, users, categories, cat)
                                                  && row == Project(p, users, categories)
  {
    if products == [] then []
    else
      var rest := CategoryRows(products[1..], users, categories, cat);
      assert products == [products[0]] + products[1..];
      if Joins(products[0], users, categories, cat)
      then [Project(products[0], users, categories)] + rest
      else rest
  }

  /** No product with the row's `_id` means no occurrence of the row. */
  lemma {:induction false} NoOccurrences(products: seq<Product>, users: seq<User>, categories: seq<Category>,
                                         cat: nat, row: ProductRow)
    requires forall k :: 0 <= k < |products| ==> products[k].id != row.id
    ensures Occurrences(products, users, categories, cat, row) == 0
  {
    if products != [] {
      NoOccurrences(products[1..], users, categories, cat, row);
    }
  }

  /** With distinct `_id`s, as in the store, the pipeline yields exactly one
      row for each product of the category whose owner and category exist. */
  lemma {:induction false} OneRowPerProduct(products: seq<Product>, users: seq<User>, categories: seq<Category>,
                                            cat: nat, k: nat)
    requires forall i, j :: 0 <= i < j < |products| ==> products[i].id != products[j].id
    requires k < |products| && Joins(products[k], users, categories, cat)
    ensures multiset(CategoryRows(products, users, categories, cat))[Project(products[k], users, categories)] == 1
  {
    OneOccurrence(products, users, categories, cat, k);
  }

  lemma {:induction false} OneOccurrence(products: seq<Product>, users: seq<User>, categories: seq<Category>,
                                         cat: nat, k: nat)
    requires forall i, j :: 0 <= i < j < |products| ==> products[i].id != products[j].id
    requires k < |products| && Joins(products[k], users, categories, cat)
    ensures Occurrences(products, users, categories, cat, Project(products[k], users, categories)) == 1
  {
    var row := Project(products[k], users, categories);
    if k == 0 {
      NoOccurrences(products[1..], users, categories, cat, row);
    } else {
      assert products[0].id != products[k].id;
      OneOccurrence(products[1..], users, categories, cat, k - 1);
    }
  }

  /** POST products by category name. Called with the collections of a valid
      store, where `_id` is the position the joins index by. */
  function GetProductAccToCategory(products: seq<Product>, users: seq<User>, categories: seq<Category>,
                                   categoryName: Option<string>): (r: Result<seq<ProductRow>>)
    ensures Falsy(categoryName) ==> r == Err(ApiError(400, "Category name is required"))
    ensures !Falsy(categoryName) && FindCategory(categories, categoryName).None?
            ==> r == Err(ApiError(404, "Category not found"))
    ensures r.Ok? <==> !Falsy(categoryName) && FindCategory(categories, categoryName).Some?
    ensures r.Ok? ==> forall row :: multiset(r.value)[row]
                        == Occurrences(products, users, categories, FindCategory(categories, categoryName).value, row)
    ensures r.Ok? ==> forall row :: row in r.value ==> row.categoryName == categoryName.value
    ensures r.Ok? ==> forall p :: (p in products && p.category == FindCategory(categories, categoryName).value
                                  && p.owner < |users|) ==> Project(p, users, categories) in r.value
    ensures r.Ok? ==> forall row :: row in r.value ==>
              exists p :: p in products && p.category == FindCategory(categories, categoryName).value
                          && p.owner < |users| && row == Project(p, users, categories)
  {
    if Falsy(categoryName) then Err(ApiError(400, "Category name is required"))
    else match FindCategory(categories, categoryName)
      case None => Err(ApiError(404, "Category not found"))
      case Some(cat) => Ok(CategoryRows(products, users, categories, cat))
  }
}
