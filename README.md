# OneMove marketplace: user/session store and request handlers

This project models the core of the OneMove marketplace server and of its
login page. The server keeps users, products, categories and cart records in
a document store. Its handlers register and log in users, issue and rotate
refresh tokens, change passwords and account details, and toggle an
account's active role between buyer and seller. Sellers list products under
find-or-create categories. Buyers add products to a cart. The browser page
validates its two forms, builds the request bodies and picks the message
and the page to show.

Modules, one per source file or component:

- `Wrappers` (`wrappers.dfy`): `Option`, the handler outcome `Result` with an `ApiError(status, message)`, and JavaScript truthiness of optional strings and numbers.
- `Text` (`text.dfy`): `trim` and `toLowerCase`, and `Canonical`, the value the schema's `lowercase` and `trim` setters store.
- `UserModel` (`user_model.dfy`): the User schema. It covers roles and their enum, creation defaults, the pre-save password hook, password comparison, and the two token claim sets with their verification.
- `Store` (`store.dfy`): the collections as a `Database` class, one `seq` per collection in insertion order. It also holds the `findOne` lookups, and the writes (`Save` runs the pre-save hook, `SwitchRole` is the document method). `Valid()` is the store invariant: each `_id` is the document's position, user names and e-mail addresses are unique, and every stored refresh token came from the token generator.
- `UserController`, `CartController`, `ProductController`: one method per handler, over `db: Database`. Each method states the error for each guard, in the source's order. It also states that a failed request changes nothing, unless the source leaves a write behind, and it states the whole new state on success.
- `LoginForm` (`login_form.dfy`): the page's form logic. It has pure functions plus a `LoginComponent` class that holds the state the two submit handlers write.

How the source's inputs become Dafny values:

- Request fields are `Option` values: an absent field is `None`.
- The user that the session middleware resolved is the parameter `current`.
- Tokens are values `Jwt(claims, key, serial)`. A counter in the store hands out the serials, so every issued token is new.
- `jwt.verify` is `Verify(token, key, expired)`. The clock's verdict `expired` is an input.
- `bcrypt.hash` is the stand-in `Hash`. Like bcrypt, it looks only at the first 72 characters of the password, and it has no salt. Two passwords are accepted for each other exactly when their first 72 characters agree (`OnlyAssignedPasswordMatches`, `LongPasswordsCollide`).
- The image host's answer is an input of `ListProduct`.
- The server's answer to the page is an input of the page's submit methods.

The model follows the code where it departs from the usual authentication design:

- A wrong password is refused with 404, not 401.
- Every refresh failure after the presence check comes back as 404, not 401.
- A missing user in update-role gives 400.
- `activeRole` defaults to buyer even for a seller-only account, so "active role is granted" holds only after a successful toggle (`SellerOnlyAccountStartsAsBuyer`).
- The refresh answer carries no refresh token (see Findings).
- Logout does not clear the stored refresh token (see Findings).

How the database layer behaves is not visible in this code. The model assumes the following:

- A filter clause whose value is absent matches no document.
- User filters pass through the schema's lowercase and trim setters before they are compared.
- An update drops every key whose value is undefined before it is sent, as Mongoose 7 and later do. Logout's `$set: { refreshToken: undefined }` therefore writes nothing. An absent field in update-details leaves the stored value unchanged.
- An explicit empty `role` array passes `required`. A role outside the enum fails validation with 500.
- The unique index on `email` refuses a duplicate with 500.

## Model

| member | source | states |
|---|---|---|
| `Text.Trim` | server/src/models/user.model.js:12 | the trimmed string is a contiguous slice of the input, only white space is cut on either side, and it neither starts nor ends with white space |
| `Text.TrimEmptyIffAllSpace` | server/src/controllers/user.controller.js:36 | `s.trim() === ""` holds exactly when `s` is white space only |
| `Text.TrimIdempotent` | server/src/models/user.model.js:12 | trimming a trimmed value changes nothing |
| `Text.ToLower` | server/src/controllers/user.controller.js:53 | keeps the length, turns every upper-case letter into its lower-case letter, and keeps every other character |
| `Text.Canonical` | server/src/models/user.model.js:7-21 | the stored user name or e-mail is the lower-cased input with only its leading and trailing white space cut; it has no upper-case letter and neither starts nor ends with white space |
| `Text.ToLowerKeepsSpace` | server/src/models/user.model.js:11-12 | lower-casing leaves a string white space only exactly when it was |
| `Text.CanonicalEmptyIffTrimEmpty` | server/src/models/user.model.js:7-21 | the user name and e-mail setters store "" exactly for a value whose trim is "" |
| `Text.CanonicalOfLower` | server/src/controllers/user.controller.js:53 | lower-casing the user name before the schema's setters run does not change what is stored |
| `UserModel.ParseRole` | server/src/models/user.model.js:38 | a role string passes the enum iff it is "buyer" or "seller", and it casts back to the same name |
| `UserModel.ParseRoles` | server/src/models/user.model.js:35-40 | a role array validates iff every element is in the enum, and then keeps its elements in order |
| `UserModel.Verify` | server/src/controllers/user.controller.js:156-159 | a token verifies iff it was signed with the given secret and is not expired, and then yields exactly its claims |
| `UserModel.NewUser` | server/src/models/user.model.js:7-45 | a created user has no refresh token, its user name and e-mail in stored form, its full name trimmed, a password digest that matches the given password, role defaulting to ["buyer"], and active role "buyer" whatever role is |
| `UserModel.SellerOnlyAccountStartsAsBuyer` | server/src/models/user.model.js:35-45 | an account created with role ["seller"] has an active role outside its role list |
| `UserModel.PreSave` | server/src/models/user.model.js:63-69 | saving rehashes the password only when one was assigned (and the saved digest then matches it), and stores every other field unchanged |
| `UserModel.IsPasswordCorrect` | server/src/models/user.model.js:72-74 | a password is accepted iff the stored digest is its digest; no other field takes part |
| `UserModel.OnlyAssignedPasswordMatches` | server/src/models/user.model.js:63-74 | after a save that assigned a password p, a password q is accepted iff its first 72 characters equal those of p; for passwords of at most 72 characters that is exactly q == p |
| `UserModel.LongPasswordsCollide` | server/src/models/user.model.js:67-74 | two different passwords that agree in their first 72 characters are accepted for each other |
| `UserModel.GenerateAccessToken` | server/src/models/user.model.js:77-91 | the access token verifies with the access secret to exactly the claims _id, email, username, fullname and role, and fails with the refresh secret |
| `UserModel.GenerateRefreshToken` | server/src/models/user.model.js:94-104 | the refresh token verifies with the refresh secret to exactly the claim _id, and fails with the access secret |
| `UserModel.Sanitize` | server/src/controllers/user.controller.js:57-59 | the returned user carries _id, username, email, fullname, role and activeRole as stored |
| `UserModel.SanitizeHidesSecrets` | server/src/controllers/user.controller.js:98-100 | two documents that differ only in password and refresh token give the same returned user |
| `Store.FindUser` | server/src/controllers/user.controller.js:80-82 | the lookup returns the first user in natural order matching the user name or the e-mail clause, or none iff no user matches |
| `Store.FindCategory` | server/src/controllers/product.controller.js:19 | the lookup returns the first category with that name, or none iff the name is absent or no category has it |
| `Store.Database.constructor` | server/src/models/user.model.js:5-50 | a new store is empty and satisfies the store invariant |
| `Store.Database.InsertUser` | server/src/controllers/user.controller.js:49-55 | creating a user whose name and e-mail are free appends exactly that user and keeps the invariant |
| `Store.Database.WriteUser` | server/src/controllers/user.controller.js:232-243 | `findByIdAndUpdate` writes one user document back under its _id, leaves every other user unchanged, and keeps the invariant |
| `Store.Database.Save` | server/src/models/user.model.js:63-69 | saving a loaded document replaces that user by the pre-save result, leaves every other user unchanged, and keeps the invariant |
| `Store.Database.SwitchRole` | server/src/models/user.model.js:53-60 | switchRole succeeds iff the new role is among the granted roles and the stored username, email and fullname are non-empty (the save validates `required`); it then sets only activeRole, which is granted afterwards; otherwise it throws 500, with the role message when the role is not granted and the validation message otherwise, and changes nothing |
| `Store.Database.InsertCategory` | server/src/controllers/product.controller.js:23-29 | appends exactly one category with the next id |
| `Store.Database.InsertProduct` | server/src/controllers/product.controller.js:47-56 | appends exactly one product with the next id |
| `Store.Database.InsertCartItem` | server/src/controllers/cart.controller.js:26-30 | appends exactly one cart record with the next id |
| `UserController.GenerateAccessAndRefreshToken` | server/src/controllers/user.controller.js:9-18 | issues two new tokens for the user, stores exactly the refresh token on that user, and changes no other user and no password |
| `UserController.BlankIffWhiteSpace` | server/src/controllers/user.controller.js:35-39 | a registration field is refused as blank iff it is present and white space only; an absent field is not blank |
| `UserController.RegisterUser` | server/src/controllers/user.controller.js:33-67 | errors in order: a present blank field gives 400, then a taken user name or e-mail gives 409; success iff also all fields are present and the roles validate; success appends exactly one user (lower-cased user name) and returns it without password or token; a failure changes nothing |
| `UserController.CreateUser` | server/src/controllers/user.controller.js:49-55 | once the lookup found nothing, creation succeeds iff every field is present, the full name, e-mail and user name are still non-empty after the setters trim them, the password is non-empty and the roles validate; it then appends exactly the registered user (user name lower-cased first); otherwise 500 and no change |
| `UserController.UnblankPassesRequired` | server/src/controllers/user.controller.js:36-55 | after the blank check passed, validation succeeds iff all fields are present and the roles validate: the setters empty no field |
| `UserController.InsertRegistered` | server/src/controllers/user.controller.js:49-55 | a validated registration appends exactly the registered user and returns its public view, keeping the store invariant |
| `UserController.LoginUser` | server/src/controllers/user.controller.js:70-121 | errors in order: no identifier gives 400, then no password gives 400, then no matching user gives 404, then a wrong password gives 404; success iff an identifier and a password are given, a user matches and the password is correct; a failure stores nothing; success issues two new tokens, stores exactly the issued refresh token on the matched user only, returns that token, and returns the user without password or token |
| `UserController.LogoutUser` | server/src/controllers/user.controller.js:124-145 | as written: always succeeds and changes nothing stored, the refresh token included, because the undefined value is dropped from the update |
| `UserController.LogoutUserIntended` | server/src/controllers/user.controller.js:124-133 | as intended: always succeeds, removes the current user's stored refresh token, and changes nothing else |
| `UserController.Incoming` | server/src/controllers/user.controller.js:148-149 | the refresh token is the cookie's when there is one, else the body's, and none iff neither is given |
| `UserController.RefreshAccessToken` | server/src/controllers/user.controller.js:147-196 | no token gives 401; any other failure gives 404 and changes nothing; success iff the token verifies, names a stored user and equals that user's stored token; success rotates the stored token to a new one that differs from the presented one, and the answer has no refresh token |
| `UserController.RefreshAccessTokenIntended` | server/src/controllers/user.controller.js:176-192 | the same checks; success answers with the new refresh token, which is the one now stored and differs from the presented one |
| `UserController.ReplayedRefreshFails` | server/src/controllers/user.controller.js:161-177 | after a successful refresh, presenting the same refresh token again fails with 404 |
| `UserController.RefreshSurvivesLogout` | server/src/controllers/user.controller.js:124-133 | as written, a refresh token honoured before logout is still honoured after it |
| `UserController.RefreshAfterLogoutFails` | server/src/controllers/user.controller.js:124-169 | with the intended logout, any refresh token of that user is refused afterwards |
| `UserController.RefreshedSessionCannotRefreshAgain` | server/src/controllers/user.controller.js:176-188 | as written, the client holds no refresh token after one refresh, so its next refresh fails with 401 |
| `UserController.IntendedRefreshChains` | server/src/controllers/user.controller.js:176-192 | with the corrected answer, the token a refresh hands out is honoured by the next refresh, and the token it replaced fails with 404 |
| `UserController.ChangeCurrentPassword` | server/src/controllers/user.controller.js:198-217 | new and confirm passwords differing gives 401 before any lookup; a wrong old password gives 400; a failure changes nothing; success iff the two match, the user exists and the old password is correct; afterwards only that user's digest changed, and it matches the new password |
| `UserController.WithDetails` | server/src/controllers/user.controller.js:232-243 | a present full name or e-mail replaces the stored one in stored form, an absent one is kept, and no other field changes |
| `UserController.UpdateAccountDetails` | server/src/controllers/user.controller.js:225-246 | both fields falsy gives 400; an unknown user gives an empty answer and no change; an e-mail taken by another user is refused; the user is updated iff a field is truthy, the user exists and a given e-mail is free; success writes only that user's details and answers with the user without password, refresh token included |
| `UserController.ToggledRole` | server/src/controllers/user.controller.js:256-266 | from seller the toggle succeeds iff buyer is granted, from buyer iff seller is granted; the target is granted and differs from the current role; a refusal is 400 |
| `UserController.ToggleTwiceRestores` | server/src/controllers/user.controller.js:256-267 | for an account granted both roles, two toggles restore the active role |
| `UserController.UpdateRole` | server/src/controllers/user.controller.js:248-270 | an unknown user gives 400; otherwise it succeeds iff the toggle does, and then sets only activeRole, to a granted role; a failure changes nothing |
| `CartController.AddToCart` | server/src/controllers/cart.controller.js:7-44 | a missing product id or a falsy quantity (0 included) gives 400; an unknown product gives 404; for a known product, success iff the quantity is at most the stock, and a larger quantity gives 400 "Insufficient product stock"; success appends exactly one record {product, owner = current user, quantity}; stock and other tables never change |
| `CartController.GetCartDetails` | server/src/controllers/cart.controller.js:46-58 | returns exactly the cart records owned by the user, each as often as it is stored |
| `ProductController.WithCategory` | server/src/controllers/product.controller.js:19-30 | find-or-create keeps the categories when one has the name, else appends one with that name and the named parent, if there is one; it never duplicates: the settled category is the first of its name afterwards, the old categories are a prefix, and at most one was added |
| `ProductController.DetailsMissing` | server/src/controllers/product.controller.js:15-17 | when no required field is missing, every text field is present and non-empty and quantity and price are present and non-zero |
| `ProductController.Uploaded` | server/src/utils/Cloudinary.js:10-27 | an empty path uploads nothing and answers null; otherwise the answer is the image host's |
| `ProductController.UploadedUrl` | server/src/controllers/product.controller.js:39-45 | the image url is present iff a non-empty path was uploaded and the answer carries a url, and it is that url |
| `ProductController.ListProduct` | server/src/controllers/product.controller.js:11-69 | a missing or falsy required field gives 400 before any write; otherwise the category find-or-create happens even when the image is missing (400) or the upload fails (500); success iff no field is missing, an image came and the upload gave a url; no product is created on failure; success appends one product owned by the seller, in the settled category, with the uploaded URL |
| `ProductController.GetUserProducts` | server/src/controllers/product.controller.js:71-79 | returns exactly the products owned by the user, each as often as it is stored |
| `ProductController.CategoryRows` | server/src/controllers/product.controller.js:117-157 | each row occurs exactly as often as products of the category whose owner and category documents exist project to it; no other row occurs |
| `ProductController.OneRowPerProduct` | server/src/controllers/product.controller.js:117-157 | with distinct _ids, each product of the category whose owner and category exist yields exactly one row |
| `ProductController.GetProductAccToCategory` | server/src/controllers/product.controller.js:101-166 | a missing name gives 400; an unknown category gives 404; success iff the name is truthy and a category has it; the rows, with their counts, are the projected products of the first category of that name whose owner exists |
| `LoginForm.IdentifierKeyFor` | client/src/components/Login/Login.jsx:31-35 | the identifier goes under `email` iff it contains "@", else under `username` |
| `LoginForm.LoginRequest` | client/src/components/Login/Login.jsx:26-35 | no body is sent iff the identifier or the password is empty; the body carries both unchanged |
| `LoginForm.SentLoginPassesPresenceChecks` | client/src/components/Login/Login.jsx:26-35 | any body the page sends names exactly one of email and username, non-empty, and a password, so it passes the server's two presence checks |
| `LoginForm.CollectRoles` | client/src/components/Login/Login.jsx:83-91 | the role list contains "buyer" iff buyer is selected and "seller" iff seller is selected, buyer first, without repetition, and is empty iff neither is selected |
| `LoginForm.Join` | client/src/components/Login/Login.jsx:69 | in the joined message each error sits at its offset (after the errors before it, each followed by one separator), one separator precedes each error but the first, and the text ends with the last error |
| `LoginForm.ErrorMessage` | client/src/components/Login/Login.jsx:67-72 | the message is the errors joined with ", " when the list is non-empty, else a truthy message, else the default |
| `LoginForm.RouteAfterLogin` | client/src/components/Login/Login.jsx:56-62 | a login leads to "/products" iff the active role is "buyer", else to "/Dashboard" |
| `LoginForm.LoginComponent.LoginFormSubmit` | client/src/components/Login/Login.jsx:25-75 | empty fields set a message and send nothing; a successful answer fills the user context and routes by active role; an unsuccessful answer sets the failure message; a rejection sets the error message and switches to the register view |
| `LoginForm.LoginComponent.RegisterFormSubmit` | client/src/components/Login/Login.jsx:77-117 | an empty field or no selected role sends nothing and says why; a sent body carries the four fields and the role list; success switches to the login view; a rejection sets the error message |

## Findings

| source | as written | input that shows it | evidently intended | confidence | as-written member | corrected member |
|---|---|---|---|---|---|---|
| server/src/controllers/user.controller.js:176-188 | the handler destructures `newrefreshToken` from the token helper's result, which only has `refreshToken`; the stored token rotates, but the answer and the cookie carry no new refresh token | a user with a valid stored refresh token refreshes once, then refreshes again with what the first answer gave | the answer carries the new refresh token, so the session can be refreshed again | high (not executed) | `UserController.RefreshedSessionCannotRefreshAgain` | `UserController.IntendedRefreshChains` |
| server/src/controllers/user.controller.js:124-133 | logout updates with `$set: { refreshToken: undefined }`; the undefined value is dropped from the update, so the stored refresh token is kept | a user logs out, then refreshes with the refresh token stored before the logout | logout removes the stored refresh token (`$unset`), so no later refresh succeeds | medium (not executed; holds where undefined values are dropped from updates, as in Mongoose 7 and later) | `UserController.RefreshSurvivesLogout` | `UserController.RefreshAfterLogoutFails` |

`RefreshAccessToken` is the handler as written and is the one the other
scenarios use. `LogoutUser` is logout as written and `LogoutUserIntended`
the corrected logout. `RefreshAccessTokenIntended` is the corrected flow, and the
as-written handler is defined through it. The only difference is the refresh
token in the answer.

## Left out

- JWT signing, signatures, `iat`/`exp` and the secrets and lifetimes read from the environment (RFC 7519): tokens are plain values and `Verify` checks only the signing secret and the clock's verdict. Two tokens issued in the same second for the same user would be equal in the source; here the generator's serial keeps them apart.
- bcrypt: `Hash` is a stand-in without salt or cost. It keeps the first 72 characters of the password, so the model does not say which passwords a salted hash would confuse beyond that truncation.
- OnlyAssignedPasswordMatches: bcrypt's limit is 72 bytes of the UTF-8 encoding; the model counts 72 characters, which agrees only for single-byte (ASCII) passwords.
- Mongoose and MongoDB themselves: async I/O, `asyncHandler`, the response envelopes, `select`, aggregation mechanics, `_id` casting (an id that is not a valid ObjectId fails with 500 in the source; ids here are numbers), and store failures in general. The database-layer assumptions listed above stand in for that behaviour.
- The `Product`, `Category` and `Cart` schemas are not part of this model: their fields are taken from what the handlers write, and any validation those schemas add (for example a minimum quantity) is not modelled.
- `getCurrentUser` only echoes the user the session middleware attached; the middleware (`verifyJWT`) is not part of this model, so `current` is an input.
- `getProductSold` and `getAllProducts` are unfiltered or single-field `find` queries outside the modelled core.
- `GenerateAccessAndRefreshToken`: its 500 path (user not found) is not reachable here, because its two callers pass a user they just loaded.
- Request fields that are not strings (a number where the handler calls `trim`) and the string body of a multipart request: in `ListProduct`, `quantity` and `price` are numbers from a JSON body; a multipart body would deliver "0" as a non-empty string that passes the check.
- Prices are whole numbers; floating point is not modelled.
- `Text.ToLower` lower-cases ASCII letters only, and `Text.IsSpace` knows ASCII white space, no-break space and the byte-order mark; full Unicode case mapping and white space are not modelled.
- The image upload (`uploadOnCloudinary`, file deletion) is an input of `ListProduct`; only "no response or no url" versus "a url" is modelled.
- Cookies and their flags (RFC 6265), `clearCookie`, and the string "undefined" the refresh handler writes into the refresh cookie.
- Concurrent requests (racing refreshes), timestamps, and the page's JSX, styles, hooks and the 100 ms delay before navigation.
- `UserController.UpdateAccountDetails`: for a taken e-mail address only the status (500) is stated, not the database's message.
