# Admin access control and input acceptance of a catalogue storefront

This project models the part of a small catalogue storefront that decides who
may use the admin panel and what the admin panel accepts:

- the **route gate** (`middleware.ts`): requests under `/admin` without a valid
  session are redirected to `/admin/login`; the login page with a valid session
  is redirected to `/admin/dashboard`; the matcher `/admin/:path*` selects the
  gated paths;
- the **session gate** (`lib/auth.ts`): the `auth-token` cookie of the request,
  verified by an abstract token codec that fails closed, and the cookie jar that
  `setAuthCookie` and `removeAuthCookie` update;
- the **login and logout actions** (`actions/auth.ts`), with one message for an
  unknown email and for a wrong password;
- the **mutating server actions** over the category, product and settings tables
  (`actions/category.ts`, `actions/product.ts`, `actions/settings.ts`): session
  guard, then form validation, then one store call whose failure is reported
  with a fixed message; and their listing reads;
- the **image upload** (`actions/upload.ts`): session, presence, `image/` type
  and 5 MiB size checks before one blob write;
- the **validation schemas** (`validations/*.ts`) as functions that accept a form
  or report the first failing field's message.

Modules, one per source file: `Middleware`, `Session`, `AuthActions`,
`CategoryActions`, `ProductActions`, `SettingsActions`, `UploadActions`,
`CategoryValidation`, `ProductValidation`, `SettingsValidation`. Shared helpers:
`Common` (JavaScript `undefined`/`null`/string values, form fields, action
results), `FieldRules` (the schema library's per-field rules and its "first
issue" reporting), `JsText` (JavaScript `parseInt` and integer-to-decimal
rendering), `Collation` (the text order of sorted listings) and `Listing` (what
"each selected record once" means).

The tables whose rows the actions change in place are classes
(`CategoryTable`, `ProductTable`, `SettingsTable`, `BlobStore`, and the
request's `CookieJar`); their methods state the whole new table. Everything
outside the process is a parameter: the token codec (`TokenCodec`, with `sign`
for `createToken` and `verify` for the library check that returns the payload
or throws), the user table, the login form schema and the password-hash check
(their code is not part of this model), the schema library's URL predicate, the
store's ids, creation times and failures (`fault`), the clock, and the blob
service's answer.

Where the code behaves in a way a reader of the forms and schemas might not
expect, the model follows the code:

- an empty `auth-token` value is falsy in JavaScript, so both the gate and
  `getSession` treat it as no cookie, and the verifier is never consulted;
- the gate's own prefix test is `startsWith('/admin')`, but the matcher only
  hands it `/admin` and paths below `/admin/`, so `/administrator` is never
  gated (`Middleware.PrefixOnlyPathNotGated`);
- the URL fields of the settings schema are optional, but a form without such a
  field hands the schema `null`, not `undefined`, and is refused
  (`SettingsActions.MissingLinkRefused`).

## Model

| member | source | states |
|---|---|---|
| `Middleware.Decide` | middleware.ts:5-30 | an `/admin` path other than the login page redirects to `/admin/login` exactly when there is no session (no cookie, an empty one, or one that fails verification); the login page redirects to the dashboard exactly when there is a session; everything else passes through |
| `Middleware.Handle` | middleware.ts:32-34 | with the matcher: a path not starting with `/admin` always passes through, and a request passes exactly when the matcher does not select it or the gate lets it through; the login redirect happens exactly on matched paths other than the login page without a session; the dashboard redirect exactly on the login page with one |
| `Middleware.RedirectSettles` | middleware.ts:9-26 | no redirect loop: a redirect never targets the requested path, and the target, requested with the same cookie, passes through |
| `Middleware.PrefixOnlyPathNotGated` | middleware.ts:8 | `/administrator` without a session would be redirected by the gate's prefix test, yet passes because the matcher does not select it |
| `Middleware.GateAgreesWithSession` | middleware.ts:11-20 | on a gated path other than the login page, the gate passes exactly when `getSession` finds a session in the same jar |
| `Session.VerifyToken` | lib/auth.ts:14-21 | fails closed: no session exactly when the library rejects the token, else its payload |
| `Session.GetSession` | lib/auth.ts:23-30 | no `auth-token` cookie, or an empty one, gives no session whatever the codec; otherwise the session is `verifyToken` of the cookie value |
| `Session.AuthCookieOptions` | lib/auth.ts:35-40 | the cookie is `httpOnly`, `sameSite` lax, path `/`, max-age 604800 s (7 days), `secure` only in production |
| `Session.SetAuthCookie` | lib/auth.ts:32-41 | `auth-token` now holds the token with those options, every other cookie is unchanged, and the session is the token's |
| `Session.RemoveAuthCookie` | lib/auth.ts:43-46 | only `auth-token` is removed, after which there is no session for any codec |
| `Session.SignedTokenIsSession` | lib/auth.ts:6-12 | for a codec whose verify undoes sign, a cookie holding a signed token is a session for exactly the signed claims |
| `AuthActions.Authenticate` | actions/auth.ts:9-33 | a form failing validation reports its first issue; otherwise the login is accepted exactly when the email is a user's and the password matches that user's hash, and every other case reports `Email veya şifre hatalı` |
| `AuthActions.UnknownEmailLooksLikeWrongPassword` | actions/auth.ts:25-33 | a form with an unknown email and a form with a known email and a wrong password get the identical rejection |
| `AuthActions.Login` | actions/auth.ts:9-43 | every rejection returns its message and leaves the cookie jar as it was; an accepted login writes a token signed for the user's id and email into `auth-token` and redirects to `/admin/dashboard` |
| `AuthActions.LoginOpensSession` | actions/auth.ts:35-42 | with a sound codec, the cookie an accepted login writes is a session for the user: the gate lets the dashboard through and sends the login page on to the dashboard |
| `AuthActions.Logout` | actions/auth.ts:45-48 | removes only `auth-token`, redirects to `/admin/login`, and afterwards the gate sends `/admin/dashboard` to the login page |
| `AuthActions.CheckAuth` | actions/auth.ts:50-52 | a session exactly when the request's cookie holds a non-empty token the codec verifies, carrying that token's claims |
| `CategoryActions.CategoryTable.Create` | actions/category.ts:8-36 | without a session: `Yetkisiz erişim` and no write; an invalid form: its first issue and no write; else success exactly when the store call succeeds, adding exactly one category with the submitted name, and otherwise the fixed message and no write |
| `CategoryActions.CategoryTable.Update` | actions/category.ts:38-67 | the same guard and validation; on success only the name of the record with that id changes, every other record is unchanged; a missing id or store failure gives the fixed message and no write |
| `CategoryActions.CategoryTable.Delete` | actions/category.ts:69-85 | without a session nothing is removed; on success exactly the record with that id is removed; a missing id or store failure gives the fixed message and no write |
| `CategoryActions.CategoryTable.GetCategories` | actions/category.ts:87-98 | every category exactly once, ascending by name; the empty list when the store fails |
| `CategoryActions.InsertKeepsSorted` | actions/category.ts:89-93 | inserting a category after every name that sorts no later keeps a listing ascending by name |
| `Collation.TextLeqTotal` | actions/category.ts:90-92 | any two names are ordered one way or the other |
| `Collation.TextLeqTransitive` | actions/category.ts:90-92 | the name order is transitive |
| `ProductActions.StockRule` | actions/product.ts:36 | an absent or empty stock is `null`; a non-empty stock is its `parseInt` when that is a number, and is refused as not a number only when it is non-empty and `parseInt` gives NaN |
| `ProductActions.StockOfDigits` | actions/product.ts:36 | a stock made of decimal digits is stored as the number they denote |
| `ProductActions.StockRoundTrip` | actions/product.ts:78 | a stock submitted as the decimal text of n is stored as n |
| `JsText.DecimalRoundTrip` | actions/product.ts:36 | `parseInt` reads back the decimal text of every non-negative integer |
| `ProductActions.FormRecord` | actions/product.ts:30-37 | the stored product keeps the validated name and category id, its id and creation time; its description, price and image are the submitted text of those fields, `null` exactly when the field is absent; and its stock is `null` exactly when the stock field is absent or empty, else the field's `parseInt` |
| `ProductActions.StockDroppedAsWritten` | validations/product.ts:3-6 | as written the parsed data has no stock, so the stock rule applied to it always gives `null` |
| `ProductActions.StockFindingWitness` | actions/product.ts:23-36 | a valid form whose stock is the decimal text of n (such as "5") passes the schema, yet the parsed data yields no stock while the rule on the raw field yields n |
| `ProductActions.CreateAsWrittenDiffers` | actions/product.ts:30-37 | as written, the record `createProduct` sends agrees with the one the form describes only for a form with no description, price or image field and no stock: those columns are never sent and the stock is `null` |
| `ProductActions.UpdateAsWrittenKeepsColumns` | actions/product.ts:72-80 | as written, `updateProduct` leaves the description, price and image columns as they were and clears the stock, changing only name and category id |
| `ProductActions.UpdateAsWrittenDiffers` | actions/product.ts:72-80 | as written, an update agrees with the record the form describes only when the form's description, price and image equal the stored ones and the form has no stock |
| `ProductActions.ProductTable.Create` | actions/product.ts:8-47 | without a session: `Yetkisiz erişim` and no write; an invalid form: its first issue before any store access; else success exactly when the store call succeeds, adding exactly the record the form describes |
| `ProductActions.ProductTable.Update` | actions/product.ts:49-89 | the same guard and validation; on success only the record with that id changes, keeping its creation time; other products are unchanged |
| `ProductActions.ProductTable.Delete` | actions/product.ts:91-108 | without a session nothing is removed; on success only the product with that id is removed |
| `ProductActions.ProductTable.GetProducts` | actions/product.ts:110-125 | exactly the products of the given category (all products when it is absent or empty), each once, newest first; the empty list when the store fails |
| `ProductActions.InsertKeepsNewestFirst` | actions/product.ts:117-119 | inserting a product after every product created no earlier keeps a listing newest first |
| `ProductActions.ProductTable.GetProduct` | actions/product.ts:127-139 | the record with that id, or none when there is none or the store fails |
| `SettingsActions.SettingsTable.Save` | actions/settings.ts:8-58 | without a session or with an invalid form: the message and no write; on success the first record is updated when one exists and exactly one record is created otherwise, so the table never gains a second record |
| `SettingsActions.SettingsTable.GetSiteSettings` | actions/settings.ts:60-67 | the first record, or none when there is none or the store fails |
| `SettingsActions.OrNull` | actions/settings.ts:36-38 | the empty-to-null step is `null` exactly for an absent or empty value and the value otherwise |
| `SettingsActions.SavedLinks` | actions/settings.ts:35-38 | a saved record holds the WhatsApp number as submitted, each submitted non-empty link, and `null` for each empty link |
| `SettingsActions.MissingLinkRefused` | actions/settings.ts:14-19 | a form with no `instagramUrl` field (and a valid number) is refused with the union's message |
| `UploadActions.PreCheck` | actions/upload.ts:7-26 | the checks run in the order session, presence, `image/` type, size at most 5242880 bytes; the first failing one names the message, and none fails exactly when all four hold |
| `UploadActions.BlobNameParts` | actions/upload.ts:30-31 | the blob name `<timestamp>-<name>` gives back the timestamp through `parseInt` and the file name after its first `-` |
| `UploadActions.UploadImage` | actions/upload.ts:6-42 | a failing check returns its message and stores nothing; otherwise one `put` under the timestamped name, returning the service's URL or the failure message built from the thrown error |
| `FieldRules.MinLengthIssue` | validations/product.ts:4-5 | a string field passes exactly when it has at least the minimum length; a short string reports the field's message, a `null` one the type message |
| `FieldRules.OptionalUrlIssue` | validations/settings.ts:5-7 | a link passes exactly when it is absent, empty or a URL; a non-empty non-URL reports the URL message, `null` the union's message |
| `FieldRules.FirstIssue` | actions/category.ts:20-22 | the reported issue is the first field's issue in declaration order, and there is none exactly when no field fails |
| `CategoryValidation.CategorySchema` | validations/category.ts:3-5 | accepted exactly when the name has at least one character, carrying that name; an empty name reports `Kategori adı gereklidir` |
| `CategoryValidation.BlankNameAccepted` | validations/category.ts:4 | a name made only of spaces is accepted: the length check does not trim |
| `ProductValidation.ProductSchema` | validations/product.ts:3-6 | accepted exactly when name and category id are non-empty; an empty name reports its message first, then an empty category id its own |
| `ProductValidation.ParsedField` | validations/product.ts:3-6 | every key other than the two declared reads `undefined` from the parsed data |
| `SettingsValidation.SettingsSchema` | validations/settings.ts:3-8 | accepted exactly when the number has at least 10 characters and each link is absent, empty or a URL; otherwise the message of the earliest failing field in declaration order, including the type message when the number field is missing |
| `SettingsValidation.RejectedLinkMessage` | validations/settings.ts:5-7 | with a long enough number, a non-empty link in any of the three positions that the URL predicate refuses, after earlier links that are accepted, is reported with `Geçerli bir URL giriniz`, whatever the later links hold |

## Left out

- Token cryptography (HS256 signing, the 7-day expiry clock, the fallback secret): the codec is a pair of functions, and `RoundTrips` is assumed only as a precondition of the lemmas that need it.
- The store's internals: uniqueness of names and emails, foreign keys and the cascade from a category to its products, and `createdAt` stamping; ids, creation times and failures are parameters.
- `revalidatePath` cache invalidation, and the `include: { category: true }` join of the product reads (the model returns the product records alone).
- `redirect` is a returned value, not control flow.
- A database error inside `login` is an uncaught exception, not modelled.
- A `verifyPassword` that throws (actions/auth.ts:29) is an uncaught exception, not modelled; the password check is a total predicate.
- The `console.error` logging in the upload failure path (actions/upload.ts:39) is output only and not modelled.
- `CategoryActions.CategoryTable.GetCategories`: the name order is code-point order; the database's collation may order case and accents differently.
- `ProductActions.ProductTable.GetProducts`: products with the same creation time are listed in an order the model fixes and the store does not promise.
- `JsText.DecimalRoundTrip` and `UploadActions.BlobNameParts`: numbers are unbounded integers, so both lemmas describe JavaScript only for integers below 10^21 (where `${n}` switches to exponent notation) that `parseInt` reads without rounding (about 16 digits); the stocks and `Date.now()` timestamps the actions handle are far below that.
- `ProductActions.StockRule`: a stock that is not a number is treated as a store refusal of the write; the integer column's range and `parseInt`'s floating-point rounding of very long digit strings are not modelled.
- In the corrected model, the product columns `price`, `description` and `imageUrl` are stored as the submitted text; conversion to the column types is the store's.
- `ProductActions.ProductTable.Create`: writes the corrected record `FormRecord`, not what the code as written sends (`RecordAsWritten`: no description, price or image, stock `null`); whether the store accepts a product without those columns depends on its schema, which is not part of this model, and the admin page's product type treats `price` and `imageUrl` as always present.
- `ProductActions.ProductTable.Update`: writes the corrected record `FormRecord`, not what the code as written leaves (`UpdateAsWritten`: description, price and image unchanged, stock cleared).
- `FieldRules.MinLengthIssue`: string length is counted in characters, where the schema library counts UTF-16 code units.
- Form fields holding a `File` where text is expected, and a `file` field holding text, are not modelled.
- The blob service's own naming (a random suffix may be added) and its URL scheme: the URL is the service's answer.
- Concurrency between requests, and all React pages and components.

## Findings

| source | as written | input that shows it | evidently intended | confidence | as-written member | corrected member |
|---|---|---|---|---|---|---|
| validations/product.ts:3-6 | the schema declares only `name` and `categoryId`, and the schema library drops undeclared keys, so `result.data.stock` read in actions/product.ts:36 is `undefined`; the stock rule always stores `null` | a product form with name "Granit", categoryId "c1" and stock "5" | stock 5, taken from the submitted field | high, assuming the library's default stripping of unknown keys; not executed | `ProductActions.StockFindingWitness` | `ProductActions.FormRecord` |
| actions/product.ts:30-37 | for the same reason `createProduct` sends no `description`, `price` or `imageUrl`, whatever the form holds | a product form with name "Granit", categoryId "c1" and price "100" | price "100" stored with the product | high, assuming the library's default stripping of unknown keys; not executed | `ProductActions.CreateAsWrittenDiffers` | `ProductActions.FormRecord` |
| actions/product.ts:72-80 | `updateProduct` sends `undefined` for `description`, `price` and `imageUrl`, which the store leaves unchanged, and `null` for the stock, which clears it | updating a product stored with price "100" and stock 3 from a form with price "120" and stock "3" | price "120" and stock 3 after the update | high, assuming the library's default stripping of unknown keys; not executed | `ProductActions.UpdateAsWrittenDiffers` | `ProductActions.FormRecord` |
