# Beauty Universe storefront — a Dafny model of its core logic

Beauty Universe is a bilingual (Arabic/French) storefront for salon
equipment and cosmetics. This project models the parts of it that decide
something:

- how product image references become storage paths and signed URLs (`Storage`);
- the catalogue page's category filter, search and stable sorts (`Catalogue`);
- the checkout form's validation, the order it sends and the submit state
  machine (`Checkout`);
- the admin console's product form: save guard, normalisation, edit
  mapping, category labels, delete and search (`Admin`);
- the translation tables, `t`, the text direction and the saved language
  (`I18n`);
- the product page's lookup, related products, product number and quantity
  stepper (`ProductDetail`).

The model is functional. Records are immutable datatypes, and nullable
fields are `Option`s. Every backend call, `new URL`, and the storage
signer is passed in as a function. Those functions are *oracles*: stand-ins
for behaviour the model does not define, so each property holds for any
answer they give.

- `UrlPathname`: a URL's pathname, or `None` where `new URL` throws.
- `Signer`: the signed URL, or `None`/`""` on error.
- `fails`/`insertFails`: whether a database write errors.

`String.prototype.toLowerCase` is likewise a parameter. JavaScript numbers
are modelled as integers. `Array.prototype.sort` is stable since ECMAScript
2019, so it is modelled as a stable insertion sort by an integer key
(`Seqs.SortBy`). A comparator `b - a` becomes the key `-x`.

Helper modules: `Opt` (`Option` and JavaScript truthiness for nullable
strings), `Seqs` (filter, slice, subsequence, stable sort) and `Strings`
(`startsWith`, `includes`/`indexOf`, `split`/`join`, ECMAScript `trim`,
decimal rendering and `padStart`).

The product page reads `products` from `src/data/products.ts`. That file
exports only the `Product` interface (snake_case, string id) and
`categories`, so the page's product type is modelled abstractly:
`ProductDetail.DetailProduct` has an integer id, a category and opaque
details.

## Model

| member | source | states |
|---|---|---|
| Opt.BlankNullRoundTrip | src/pages/Admin.tsx:140-146 | `x \|\| ""` (opening the dialog) followed by `x \|\| null` (saving) is the identity on every nullable string except `""`. That one empty string becomes null, because the two conversions are inverse everywhere else. |
| Seqs.SortByFacts | src/pages/Products.tsx:79-92 | The stable sort returns a permutation of its input, ordered by non-decreasing key. Elements with equal keys keep their relative order. |
| Seqs.FilterIsSubseq | src/pages/Products.tsx:62-76 | `filter` keeps an order-preserving subsequence of its input. |
| Seqs.FilterAll | src/pages/Admin.tsx:242-246 | `filter` returns its input unchanged exactly when every element passes. |
| Strings.IndexOf | src/integrations/supabase/storage.ts:12 | `indexOf` is -1 exactly when the pattern does not occur. Otherwise it is an occurrence with no earlier one. |
| Strings.Split | src/integrations/supabase/storage.ts:16 | `split` returns at least one piece, and no piece contains the separator. |
| Strings.JoinSplit | src/integrations/supabase/storage.ts:16-22 | Joining the pieces of a split with the same separator rebuilds the string. |
| Strings.SplitJoin | src/integrations/supabase/storage.ts:16-22 | Splitting a join of separator-free pieces gives the pieces back. |
| Strings.SegmentsOfWellFormed | src/integrations/supabase/storage.ts:16 | For a path with no leading, trailing or doubled `/`, `split("/").filter(Boolean)` loses nothing: it equals the plain split, and joining the segments rebuilds the path. |
| Strings.JoinWellFormed | src/integrations/supabase/storage.ts:22 | Joining non-empty, slash-free segments with `/` gives a well-formed path. |
| Strings.Trim | src/pages/Checkout.tsx:49 | ECMAScript `trim` returns a slice of the string with only white space before and after it. The result is empty exactly when the string is all white space, and otherwise it begins and ends with a non-space character. |
| Strings.PadStart | src/pages/ProductDetail.tsx:56 | `padStart` never cuts its input. The input ends the result, preceded only by pad characters, up to the requested width. |
| Strings.ParseNatToDecimal | src/pages/ProductDetail.tsx:56 | `toString()` of a non-negative integer reads back as that integer. |
| Storage.ExtractStoragePath | src/integrations/supabase/storage.ts:6-33 | An empty reference gives null. A `product-images/` prefix is stripped exactly once. Any other non-URL value, including an upper-case `HTTP://`, is returned verbatim. A URL yields a path only when it parses and its pathname holds `/storage/v1/object/`, and that path is well formed. The value of a URL's path is fixed by `Storage.UrlSuccess` and `Storage.ObjectUrlPath`. |
| Storage.UrlFailures | src/integrations/supabase/storage.ts:10-25 | A URL gives null when parsing throws, when the pathname lacks the object prefix, when fewer than three segments follow it, or when the second segment is not `product-images`. |
| Storage.UrlSuccess | src/integrations/supabase/storage.ts:12-22 | When the pathname holds the object prefix, at least three non-empty segments follow it and the second is `product-images`, the result is the segments after the bucket joined by `/`. |
| Storage.ObjectUrlPath | src/integrations/supabase/storage.ts:11-22 | For any pathname `<pre>/storage/v1/object/<kind>/product-images/<path>` whose first object prefix follows `<pre>`, the result is the non-empty pieces of `<path>` joined by `/`. Doubled, leading and trailing slashes are dropped, and a path with no piece gives null. |
| Storage.ObjectUrlRoundTrip | src/integrations/supabase/storage.ts:11-22 | A URL whose pathname is `/storage/v1/object/<kind>/product-images/<path>` yields exactly `<path>`. |
| Storage.BucketPathRoundTrip | src/integrations/supabase/storage.ts:28-30 | `product-images/` followed by a path yields that path. |
| Storage.UpperCaseSchemeIsAPath | src/integrations/supabase/storage.ts:9 | The scheme test is case-sensitive, so an `HTTP://` object URL is returned as-is. |
| Storage.NormalizeProductImageValue | src/integrations/supabase/storage.ts:35-42 | Null and `""` are unchanged. A non-empty reference never becomes empty. Any change is to the extracted path, and a missing or empty extracted path leaves the original. |
| Storage.NormalizeObjectUrl | src/integrations/supabase/storage.ts:35-42 | An object URL of the product bucket normalises to its object path. |
| Storage.NormalizeBareBucketPrefix | src/integrations/supabase/storage.ts:28-29 | The bare reference `product-images/` extracts to `""`, so normalisation keeps it. |
| Storage.NormalizeStripsOncePerPass | src/integrations/supabase/storage.ts:28-29 | For every non-empty path, one normalisation strips the bucket prefix once, so a doubled prefix needs two passes to reach the path. |
| Storage.ResolveProductImageUrl | src/integrations/supabase/storage.ts:44-56 | The signer is asked exactly when a non-empty path was extracted, for that path in `product-images`, for 3600 seconds. A missing or failed signature returns the reference unchanged. A non-empty reference always resolves to a non-empty URL. |
| Storage.ResolveProductImageUrls | src/integrations/supabase/storage.ts:58-69 | One result per product, in order: entry i is the resolution of product i's reference. Empty references are unchanged and non-empty ones stay non-empty. |
| Storage.ResolveProductMainImageUrl | src/integrations/supabase/storage.ts:71-80 | A non-empty main image path takes precedence over the image URL, and then the result is always usable. |
| Storage.ResolveProductGalleryUrls | src/integrations/supabase/storage.ts:82-92 | A null or empty gallery gives `[]`. Otherwise the URLs are exactly the non-empty resolutions of the gallery paths, each as many times as it is resolved. The result is never longer than the input and holds no empty URL. |
| Storage.GalleryOfNonEmptyPaths | src/integrations/supabase/storage.ts:85-91 | A gallery of non-empty paths loses no entry. Each entry is that path's resolution, in order. |
| Storage.GalleryKeepsOrder | src/integrations/supabase/storage.ts:87-91 | The gallery is an order-preserving subsequence of the per-path resolutions. |
| Catalogue.FilteredAndSorted | src/pages/Products.tsx:58-95 | A product is shown iff it is in the catalogue, in the selected category (or `all`), and matches the query. The query matches the lowered name or category, or the Arabic fields. The shown list is a permutation of the filtered list, and `Catalogue.ShownCounts` gives each product's count. The default sort keeps catalogue order. Each other sort orders by price ascending or descending, by rating (null or 0 counts as 5), or new-first, and is stable. |
| Catalogue.SelectedFacts | src/pages/Products.tsx:61-76 | The two filters keep exactly the products that pass both predicates, as an order-preserving subsequence. A product that passes is kept as many times as it occurs in the catalogue, and one that fails is dropped every time. |
| Catalogue.ShownCounts | src/pages/Products.tsx:58-95 | A product that passes the category filter and the search is shown as many times as it occurs in the catalogue. Any other product is never shown. |
| Catalogue.SortFacts | src/pages/Products.tsx:79-92 | Every sort option permutes the filtered list, orders it by the option's key and keeps equal keys in filtered order. |
| Catalogue.NoFiltersShowEverything | src/pages/Products.tsx:58-95 | With category `all`, an empty query and the default sort, the catalogue is shown unchanged. |
| Checkout.WilayaNumbering | src/pages/Checkout.tsx:15-28 | The wilaya table has 58 entries. Entry i starts with its two-digit number i+1 followed by ` - `. |
| Checkout.Validate | src/pages/Checkout.tsx:49-57 | A submit is accepted iff the trimmed name and phone are non-empty, a wilaya is chosen and the cart is non-empty. Missing fields are reported before an empty cart. |
| Checkout.TrimmedOrNull | src/pages/Checkout.tsx:67-68 | `s.trim() \|\| null` is null exactly for all-space input. Otherwise it is the trimmed text, with no space at either end. |
| Checkout.BuildPayload | src/pages/Checkout.tsx:62-78 | The order holds the trimmed name and phone, the wilaya and delivery type, the trimmed-or-null address and notes, and one line per cart line in cart order. Each line maps back to its cart line. The total is passed through. |
| Checkout.PayloadItemsRoundTrip | src/pages/Checkout.tsx:69-76 | Mapping the order lines back gives exactly the cart. |
| Checkout.HandleSubmit | src/pages/Checkout.tsx:46-91 | While an order is in flight nothing happens (the button is disabled). A rejected submit changes nothing. An accepted one inserts the built order. The cart is cleared and success shown iff the insert succeeded, and the in-flight flag is down afterwards. |
| Checkout.ViewOf | src/pages/Checkout.tsx:93-120 | The success view takes precedence. Otherwise the empty-cart view shows iff the cart is empty, and the form shows in every other case. |
| Checkout.SubmitOutcomeView | src/pages/Checkout.tsx:80-120 | Once the insert answers, a success shows the success screen although the cleared cart is empty. A failure, submitted from the form, shows the form again because the cart is kept. |
| Checkout.WilayaNotCheckedAgainstTable | src/pages/Checkout.tsx:49 | Any non-empty wilaya passes validation, even one not in the table. |
| Admin.Normalize | src/pages/Admin.tsx:137-152 | Blank description, Arabic description and image become null, and a zero original price becomes null. A zero rating is written as 5, so no zero rating is ever written. Every other field is written as typed. |
| Admin.HandleSave | src/pages/Admin.tsx:125-190 | A form without both names or with a zero price makes no call. Otherwise a non-empty id updates that row, and no id or an empty one inserts. Only a successful write closes the dialog and reloads the list. |
| Admin.EmptyProductRejected | src/pages/Admin.tsx:55-70 | The default form cannot be saved. |
| Admin.HandleDelete | src/pages/Admin.tsx:192-206 | The list is reloaded iff the delete succeeded, and the confirmation is dismissed either way. |
| Admin.OpenEditDialog | src/pages/Admin.tsx:208-229 | No product gives the default form. A stored product's null texts show blank. A null or zero rating shows as 5 and a null stock as 0. Null `is_new`/`is_sale` show unset and a null `is_active` shows set. |
| Admin.RecordFormRecordRoundTrip | src/pages/Admin.tsx:137-152 | Opening a stored product and saving it unedited writes back exactly the stored values iff no text is `""`, the original price is not 0, the rating is set and non-zero, and stock and flags are set. |
| Admin.FormRecordFormRoundTrip | src/pages/Admin.tsx:137-152 | Saving a form and reopening the written row gives the form back iff its original price is not 0 and its rating is not 0. |
| Admin.EditSavesAsUpdate | src/pages/Admin.tsx:154-159 | A valid stored product with a non-empty id, saved from its edit dialog, updates its own row. |
| Admin.CategoryLabel | src/pages/Admin.tsx:234-238 | `categories.find(...)?.label \|\| ""`: the label of the first category with the id, or `""` when there is none. |
| Admin.HandleCategoryChange | src/pages/Admin.tsx:233-240 | The category and its Arabic label are set, and no other form field changes. |
| Admin.CategoryLabels | src/pages/Admin.tsx:46-53 | Each selector category gets its own label. An unknown id gets an empty label. |
| Admin.EmptyProductCategoryConsistent | src/pages/Admin.tsx:55-70 | The default form's category and label agree with the selector. |
| Admin.FilteredProducts | src/pages/Admin.tsx:242-246 | The search keeps an order-preserving subsequence: exactly the products whose lowered name contains the lowered query, or whose Arabic name contains the query, each as often as in the list. An empty query keeps everything. |
| I18n.TableOf | src/hooks/useLanguage.tsx:12-237 | An object literal holds exactly its listed keys. The final line's text is kept, and every value comes from some line. |
| I18n.LastLineWins | src/hooks/useLanguage.tsx:12-237 | For a key listed more than once, the text of its last line is the one the object holds. |
| I18n.SameKeys | src/hooks/useLanguage.tsx:12-237 | The Arabic and French tables list the same keys in the same order, so they have the same key set. |
| I18n.TableValues | src/hooks/useLanguage.tsx:12-237 | No text in either table is empty, and no key starts with `cart.`. |
| I18n.T | src/hooks/useLanguage.tsx:261-263 | `t` gives the language's text for a key whose text is non-empty, and the key itself otherwise. |
| I18n.LookupFacts | src/hooks/useLanguage.tsx:261-263 | A key of the tables is translated in both languages. Any other key, including every `cart.` key, comes back verbatim. |
| I18n.CartKeysUntranslated | src/components/CartDrawer.tsx:19 | Every key in the `cart.` namespace, including the drawer's `cart.title`, comes back verbatim in both languages. |
| I18n.Dir | src/hooks/useLanguage.tsx:265 | The direction is right-to-left exactly for `ar`. |
| I18n.Init | src/hooks/useLanguage.tsx:251-254 | The corrected start-up (the as-written one is `I18n.InitialCodeAsWritten`). It keeps the saved entry. No entry, `""` or `ar` selects Arabic, and `fr` selects French. |
| I18n.InitialLanguage | src/hooks/useLanguage.tsx:251-254 | The corrected choice of language: French exactly for a saved `fr`, otherwise Arabic. |
| I18n.InitialCodeAsWritten | src/hooks/useLanguage.tsx:251-254 | As written: the code is the saved entry whenever that is non-empty, unchecked, and `ar` otherwise. |
| I18n.SetLanguage | src/hooks/useLanguage.tsx:256-259 | The language changes, and its own code (`ar` or `fr`) is saved, which selects it again. |
| I18n.SetLanguageRestores | src/hooks/useLanguage.tsx:251-259 | A start-up after `setLanguage(l)` restores `l`, in memory and in the saved entry. |
| I18n.TAsWritten | src/hooks/useLanguage.tsx:251-263 | With the unchecked code, the lookup for `ar` or `fr` is that language's `t`, and any other code counts as a throw. Codes naming inherited members are an exception; see Left out. |
| I18n.UnknownSavedLanguageThrows | src/hooks/useLanguage.tsx:251-263 | A saved entry `en` makes every lookup throw. |
| I18n.InitialLanguageAgrees | src/hooks/useLanguage.tsx:251-254 | The corrected start-up agrees with the code on every entry the hook can save, and its lookups never throw. |
| ProductDetail.FindProduct | src/pages/ProductDetail.tsx:13 | The result is the first product whose id equals the route number. It is none exactly when no id matches or the route number is not an integer. |
| ProductDetail.ViewFor | src/pages/ProductDetail.tsx:17-32 | The not-found view shows iff no catalogue product has the route's id. |
| ProductDetail.AllRelated | src/pages/ProductDetail.tsx:37-47 | At most 4 entries, never the current product. Same-category entries come before other-category ones, and each group keeps catalogue order. With 4 or more same-category others only they are shown. The length is min(4, number of other products). |
| ProductDetail.RelatedPicks | src/pages/ProductDetail.tsx:37-47 | The picks are the first same-category others (at most 4), then the first other-category products, each in catalogue order, as `slice(0, ...)` takes them. |
| ProductDetail.CountSplit | src/pages/ProductDetail.tsx:38-45 | The other products split into same-category and other-category ones, with no overlap and none lost. |
| ProductDetail.ProductNumber | src/pages/ProductDetail.tsx:56 | `BU-`, then zeros, then the id's decimal digits (for \|id\| < 10^21, where JavaScript prints plain digits), at least 4 characters after `BU-`. |
| ProductDetail.ProductNumberRoundTrip | src/pages/ProductDetail.tsx:56 | For a non-negative id, the characters after `BU-` are digits that read back as the id (plain digits, so for ids below 10^21). |
| ProductDetail.Decrement | src/pages/ProductDetail.tsx:172 | Minus lowers the quantity by one but never below 1. |
| ProductDetail.Increment | src/pages/ProductDetail.tsx:181 | Plus raises the quantity by exactly one. |
| ProductDetail.Press | src/pages/ProductDetail.tsx:15-181 | From a quantity of at least 1, no sequence of presses goes below 1, and each plus raises it by at most one. |
| ProductDetail.QuantityStaysPositive | src/pages/ProductDetail.tsx:15-181 | Starting from the initial quantity 1, no sequence of presses shows less than 1. |
| ProductDetail.DecrementUndoesIncrement | src/pages/ProductDetail.tsx:172-181 | Minus undoes plus for every quantity of at least 1. |

## Left out

- `new URL` parsing: a parameter giving the pathname, or nothing where the constructor throws. The URL grammar is not modelled.
- Supabase I/O is not modelled. Signed-URL creation, the product queries with their `created_at` ordering and the `is_active` filter, inserts, updates and deletes are all oracles or inputs. `Promise.all` concurrency is not modelled: results are computed in order.
- The cart store (`@/hooks/useCart`) is not part of this model. Checkout takes the cart lines and `totalPrice` as given.
- `toLowerCase`: a parameter, so every property holds for any lowering. Unicode case mapping is not modelled.
- JavaScript numbers: modelled as integers. `NaN`, fractions and `-0` are not modelled, including the `!price` test on `NaN` and `Number(id)` of a non-numeric route.
- ProductDetail.ProductNumber: holds only for \|id\| < 10^21, where JavaScript's `toString` prints plain digits. Exponent notation (`1e21.toString()` is `"1e+21"`) and the precision lost by ids beyond 2^53 are not modelled, because the model's ids are unbounded integers.
- ProductDetail.FindProduct: `Number(id)` is given as `routeNumber`, with `None` for `NaN` or a fraction, because string-to-number conversion is not modelled.
- Discount percentages (`Math.round` of a float division) are not modelled, because they involve floating point.
- `localStorage` is one cell holding the saved `language` entry. The `dir`/`lang` attributes written to the document are not modelled.
- I18n.T: keys inherited from `Object.prototype` (such as `toString`) are treated as missing, because the model's tables are plain maps.
- Authentication, the admin redirect, and loading and saving flags (`isSaving`, `loadingProducts`) are not modelled. They drive only rendering.
- The checkout form's HTML `required` attributes and the wording of toasts in each language are not modelled.
- The product page's image gallery state (`selectedImage`) and add-to-cart are not modelled. The second calls the cart store.
- TestAdmin's WhatsApp message, the Auth form (validation is delegated to a library), and the presentational components are not modelled.
- I18n.TAsWritten: a saved code that names a member inherited from `Object.prototype` (such as `constructor`, `toString` or `__proto__`) does not throw in JavaScript, because `translations[code]` is then that member and the lookup falls back to the key. The model counts every code other than `ar` and `fr` as a throw.
- ProductDetail.Press: states an upper bound of one per plus press rather than the exact count, because minus presses at 1 are absorbed.

## Findings

| source | as written | input that shows it | evidently intended | confidence | as-written member | corrected member |
|---|---|---|---|---|---|---|
| src/hooks/useLanguage.tsx:251-263 | The saved `language` entry is cast to `Language` unchecked whenever it is non-empty. `t` then reads `translations[language][key]`, which throws when `translations[language]` is undefined. | A saved entry `en`, left by another page on the same origin or an earlier version: every `t(...)` throws while rendering. | Use the saved entry only when it is `ar` or `fr`, and otherwise start in Arabic. | medium, not executed | I18n.UnknownSavedLanguageThrows | I18n.InitialLanguageAgrees |
