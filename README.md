# Product and provider catalogue: REST handlers and product form

This project models the logic of a small catalogue admin application. Two
REST handlers serve the `products` and `providers` collections. A client-side
form edits one product.

- `Products.ProductCollection` and `Providers.ProviderCollection` are the two
  handlers. Each is a class that owns its collection, a map from id to
  document. It has one method per HTTP verb (`HandleGet`, `HandlePost`,
  `HandlePut`, `HandleDelete`) and a dispatcher `Handle`, which answers 405
  to any other method.
- `Listing` holds the listing query and the arithmetic both handlers share.
  It covers the defaults (page 1, limit 5, sort by `createdAt`, descending),
  when a filter applies, the skip/limit window and `totalPages`. `Paginate`
  is a reference definition of paging (consecutive chunks of `limit`
  records), and the lemmas tie the handlers' windows and page count to it.
- `Ordering` is the order the store sorts by. Keys compare by kind first:
  missing/null, numbers, strings, object ids, dates. Within a kind they
  compare by value. The sort is specified as an insertion sort, with lemmas
  proving its result is sorted and is a permutation of its input.
- `ProductFormModel.ProductForm` is the form component. It holds the
  `product` prop, the form data and the error list. Its methods are the
  change handler, the validation and the submit decision (PUT, POST or
  nothing).
- `Catalog.DeleteProvider` shows the two collections side by side.

What the store does on its own enters each operation as a parameter:

- `isValidId` is the object-id syntax check. It is fixed when the collection
  is constructed.
- `storeFails` makes the store call throw, which drives the 500 branches.
- `newId` is the id the driver assigns to a new document.
- `now` is the clock. It feeds `createdAt` and `updatedAt`, as the schema's
  timestamps would.

The database connection is treated as already open.

## Model

| member | source | states |
|---|---|---|
| `Listing.FilterOf` | pages/api/products.ts:24-25 | a filter is present exactly when both `filterBy` and `filterValue` are non-empty, and then it is `{filterBy: filterValue}` |
| `Listing.SortField` | pages/api/products.ts:17 | the sort field is `sortBy`, or `createdAt` when the query has none |
| `Listing.IsDescending` | pages/api/products.ts:18-23 | the order is descending exactly when `order` is absent or is "desc"; any other value sorts ascending |
| `Listing.PageOf` | pages/api/products.ts:15 | the page is the query's `page`, or 1 when it is absent |
| `Listing.LimitOf` | pages/api/products.ts:16 | the limit is the query's `limit`, or 5 when it is absent |
| `Listing.Skip` | pages/api/products.ts:30 | page 1 skips nothing; a page from 1 on with a non-negative limit skips a non-negative number of records; a page below 1 with a positive limit skips a negative number, which the store rejects |
| `Listing.Window` | pages/api/products.ts:30-31 | the result is the records from position `skip` on, in order: at most the absolute value of `limit` of them, or all of them when the limit is 0; nothing when `skip` is past the end |
| `Listing.TotalPages` | pages/api/products.ts:35 | for a positive limit, the unique `t` with `(t-1)*limit < count <= t*limit` (that is, `ceil(count/limit)`); null when the limit is 0; the ceiling of the negative quotient for a negative limit |
| `Listing.TotalPagesSmallCounts` | pages/api/products.ts:34-35 | 0 matching records give 0 pages, and 1 to `limit` records give exactly 1 page (both directions) |
| `Listing.TotalPagesStep` | pages/api/providers.ts:33-34 | a further full page of records adds exactly one to `totalPages` |
| `Listing.PaginateCount` | pages/api/products.ts:34-35 | cutting the records into pages of `limit` gives exactly `totalPages` pages, none of them empty |
| `Listing.PaginateFlattens` | pages/api/products.ts:28-31 | the pages, concatenated, are the sorted records in order |
| `Listing.PageIsWindow` | pages/api/products.ts:30-31 | page `p` (1 to `totalPages`) is the window that skips `(p-1)*limit` records and takes `limit` |
| `Listing.PastLastPageEmpty` | pages/api/providers.ts:30-34 | a page past `totalPages` skips every record and its window is empty |
| `Ordering.TextLeqTotal` | pages/api/products.ts:29 | any two strings are comparable |
| `Ordering.TextLeqTransitive` | pages/api/products.ts:29 | string order is transitive |
| `Ordering.BeforeTotal` | pages/api/products.ts:23 | in either direction, any two sort keys are comparable |
| `Ordering.BeforeTransitive` | pages/api/products.ts:23 | in either direction, the key order is transitive |
| `Ordering.InsertSorted` | pages/api/providers.ts:28-29 | inserting one record into a sorted list keeps it sorted |
| `Ordering.InsertPermutes` | pages/api/providers.ts:28-29 | inserting adds exactly that record |
| `Ordering.SortSorted` | pages/api/products.ts:28-29 | the sorted list is ordered by the `sortBy` key, ascending or descending |
| `Ordering.SortPermutes` | pages/api/products.ts:28-29 | the sorted list holds the same records, each as often |
| `Common.OrNull` | pages/api/products.ts:57 | a falsy provider becomes null: the result is present exactly when the input is truthy, and is then the input |
| `Http.MethodNotAllowed` | pages/api/products.ts:129-132 | status 405, an `Allow` header listing GET, POST, PUT and DELETE, and the plain-text body "Method <verb> Not Allowed" |
| `Products.HasRequiredFields` | pages/api/products.ts:48 | a body passes only with a name and a price present; an empty name or a price of 0 fails; a non-empty name with a negative price passes |
| `Products.Matches` | pages/api/products.ts:24-28 | with no filter every product matches; a filter on a field other than name, description and provider matches nothing; a product without a provider or description never matches a filter on that field |
| `Products.SortKey` | pages/api/products.ts:29 | the sort key is missing exactly when the field is not a product field or the product lacks that optional field; `createdAt` and `updatedAt` give dates, `_id` gives the record's own id |
| `Products.ProductCollection.constructor` | models/Product.ts:22-23 | a new collection is empty and keeps the given id-syntax check |
| `Products.CheckUpdate` | pages/api/products.ts:74-80 | a malformed id is reported as "Invalid product ID" whatever the body holds; only with a valid id is a missing name or zero/absent price reported; nothing is reported exactly when both pass |
| `Products.ScanStep` | pages/api/products.ts:28 | visiting one more id keeps the scanned list equal to the matching records among the visited ids, and keeps its length equal to their number |
| `Products.ScanComplete` | pages/api/products.ts:34 | once every id is visited, the list holds exactly the matching records and its length is `countDocuments(filter)` |
| `Products.ProductCollection.MatchingEntries` | pages/api/products.ts:28 | returns every product that matches the filter, each paired with its id, and no other; its length is the count of matching ids |
| `Products.ProductCollection.HandleGet` | pages/api/products.ts:13-43 | on a store failure (or a negative skip the store rejects), 500 "Error fetching products". Otherwise 200, with the window of a sorted arrangement of exactly the matching products, skipping `(page-1)*limit` and taking `limit` (defaults 1 and 5). The sort is by `sortBy` (default `createdAt`), descending iff `order` is "desc" (its default). `totalPages` is `ceil(count/limit)`, where `count` is over the same filter and does not involve `page` |
| `Products.ProductCollection.HandlePost` | pages/api/products.ts:45-68 | a falsy name, or a price that is absent or 0, gives 400 "Name and price are required" with no change. A store failure or duplicate id gives 500 with no change. Otherwise exactly one product is added under the new id, with the given name, price and description, provider null when falsy, and both timestamps `now`; the reply is 201 with that product |
| `Products.ProductCollection.HandlePut` | pages/api/products.ts:70-105 | an invalid id gives 400 before the body is checked, and a missing name or price then gives 400; neither changes the store. A store failure gives 500. An absent id gives 404 and inserts nothing. Otherwise only that product changes: name, price, description, provider (null when falsy) and `updatedAt` are overwritten and `createdAt` is kept. The reply is 200 with the new document. The set of ids never changes |
| `Products.ProductCollection.HandleDelete` | pages/api/products.ts:107-127 | an invalid id gives 400, a store failure 500 and an absent id 404, each with no change; otherwise exactly that product is removed and the reply is 200 "Product deleted successfully" |
| `Products.ProductCollection.Handle` | pages/api/products.ts:6-134 | any method other than GET/POST/PUT/DELETE gets 405 with `Allow: GET, POST, PUT, DELETE` and no change. Every status is one of 200, 201, 400, 404, 405, 500. Any status other than 200/201 leaves the store unchanged, and GET never changes it. Only POST adds ids. No product other than the one named by `id` is altered or removed |
| `Providers.HasRequiredFields` | pages/api/providers.ts:46 | a body passes only with a name and an address present; an empty name or address fails; a non-empty name and address pass with phone and description absent |
| `Providers.Matches` | pages/api/providers.ts:24-28 | with no filter every provider matches; a filter on a field other than name, address, phone and description matches nothing; a provider without a phone or description never matches a filter on that field |
| `Providers.SortKey` | pages/api/providers.ts:29 | the sort key is missing exactly when the field is not a provider field or the provider lacks that optional field; `createdAt` and `updatedAt` give dates, `_id` gives the record's own id |
| `Providers.ProviderCollection.constructor` | models/Provider.ts:22-23 | a new collection is empty and keeps the given id-syntax check |
| `Providers.CheckUpdate` | pages/api/providers.ts:71-77 | a malformed id is reported as "Invalid provider ID" whatever the body holds; only with a valid id is a missing name or address reported; nothing is reported exactly when both pass |
| `Providers.ScanStep` | pages/api/providers.ts:28 | visiting one more id keeps the scanned list equal to the matching providers among the visited ids, and keeps its length equal to their number |
| `Providers.ScanComplete` | pages/api/providers.ts:33 | once every id is visited, the list holds exactly the matching providers and its length is `countDocuments(filter)` |
| `Providers.ProviderCollection.MatchingEntries` | pages/api/providers.ts:28 | returns every provider that matches the filter, each paired with its id, and no other; its length is the count of matching ids |
| `Providers.ProviderCollection.HandleGet` | pages/api/providers.ts:13-41 | the same window, sort and `totalPages = ceil(count/limit)` as for products, over the providers; the listed records are the stored providers themselves (no join) |
| `Providers.ProviderCollection.HandlePost` | pages/api/providers.ts:43-65 | a missing or empty name or address gives 400 "Name and address are required" with no change. A store failure or duplicate id gives 500 with no change. Otherwise exactly one provider is added, with name, address, phone and description as given (the last two optional) and both timestamps `now`; the reply is 201 |
| `Providers.ProviderCollection.HandlePut` | pages/api/providers.ts:67-101 | an invalid id gives 400 before the body is checked, and a missing name or address then gives 400; neither changes the store. A store failure gives 500. An absent id gives 404 and inserts nothing. Otherwise only that provider's name, address, phone, description and `updatedAt` are replaced, and the reply is 200 |
| `Providers.ProviderCollection.HandleDelete` | pages/api/providers.ts:103-122 | an invalid id gives 400, a store failure 500 and an absent id 404, each with no change; otherwise exactly that provider is removed and the reply is 200 "Provider deleted successfully" |
| `Providers.ProviderCollection.Handle` | pages/api/providers.ts:6-129 | unsupported methods get 405 with `Allow: GET, POST, PUT, DELETE` and no change. Statuses are limited to 200, 201, 400, 404, 405 and 500. Non-2xx replies and GET leave the store unchanged, only POST adds ids, and only the provider named by `id` can be altered or removed |
| `Catalog.DeleteProvider` | pages/api/providers.ts:103-122 | deleting a provider leaves the product collection exactly as it was. Products that referenced the provider still reference it, so the reference dangles |
| `ProductFormModel.InitialFormData` | components/ProductForm.tsx:23-29 | with no prop, the blank form; with a prop, its id, name and price, and its description and provider when it has them; description and provider are never absent at first render |
| `ProductFormModel.SyncedFormData` | components/ProductForm.tsx:34-45 | with a prop, exactly a copy of it (absent fields stay absent); with none, the blank form, with no id |
| `ProductFormModel.MountKeepsValidation` | components/ProductForm.tsx:23-45 | the first-render data and the data after the effect's mount run fail exactly the same checks, with the same messages |
| `ProductFormModel.FormErrors` | components/ProductForm.tsx:71-77 | the list is empty iff name is non-empty, price > 0 and provider is non-empty. Each message is present iff its own check fails. The messages always appear in the order name, price, provider |
| `ProductFormModel.ChangeKeepsOtherChecks` | components/ProductForm.tsx:67-75 | a change to one field does not alter whether the other fields' checks fail |
| `ProductFormModel.BlankFormRejected` | components/ProductForm.tsx:23-29 | the blank form (no prop) fails all three checks, with the three messages in order, both at first render and after a reset |
| `ProductFormModel.SubmitRequest` | components/ProductForm.tsx:80-93 | nothing is sent iff the form has errors. Otherwise the form data is sent: by PUT to `/api/products/{_id}` when the prop has a truthy `_id`, and by POST to `/api/products` otherwise |
| `ProductFormModel.ApplyChange` | components/ProductForm.tsx:62-69 | the named field takes the new value and every other field, `_id` included, is unchanged |
| `ProductFormModel.ProductForm.constructor` | components/ProductForm.tsx:22-45 | after the first render and the `[product]` effect's run on mount, the form data is a copy of the prop (or the blank form when there is none), and the error list is empty |
| `ProductFormModel.ProductForm.ReceiveProduct` | components/ProductForm.tsx:34-45 | after a new prop arrives, the form data is a copy of the product, or the blank form when the prop is null |
| `ProductFormModel.ProductForm.HandleChange` | components/ProductForm.tsx:62-69 | the form data becomes the single-field update of the previous form data |
| `ProductFormModel.ProductForm.ValidateForm` | components/ProductForm.tsx:71-78 | `errors` is set to exactly the ordered message list, and the result is true iff name is non-empty, price > 0 and provider is non-empty |
| `ProductFormModel.ProductForm.HandleSubmit` | components/ProductForm.tsx:80-93 | the errors are refreshed; the request sent is the submit decision (none when invalid); `onSuccess` is called only when a request was sent and succeeded |

## Left out

- Database connection (`utils/mongodb.ts`, `lib/mongodb.ts`): opening and caching the connection, environment checks and logging. The `connectToDatabase()` call at the top of each handler is treated as done.
- `populate("provider")` in the product listing: this join is done by the database library, so the model lists products with their provider id.
- Object-id syntax: `isValidId` is a parameter of each collection, not the library's real rules.
- Products.ProductCollection.Handle: ids are compared as the strings the request carries, not as the object id the store casts them to. An upper-case hex id, or another spelling the cast maps to the same object id, is a different key in the model: PUT and DELETE answer 404 where the store would find the record, and a `provider` filter matches only the same string. The guarantee that only the record named by `id` is touched is about that string. The same holds for Products.ProductCollection.HandlePut and Products.ProductCollection.HandleDelete.
- Providers.ProviderCollection.Handle: the same string comparison of ids applies, and to Providers.ProviderCollection.HandlePut and Providers.ProviderCollection.HandleDelete.
- Products.ProductCollection.Handle: `storeFails` stands for a store call that throws before it writes anything. A write that the store commits before the error reaches the handler (a connection lost after `save`, `findByIdAndUpdate` or `findByIdAndDelete` took effect) is not modelled. In the program the reply is then 500 while the change stands, so "a reply other than 200/201 leaves the store unchanged" holds only under this assumption. The same holds for the 500 branches of Products.ProductCollection.HandlePost, Products.ProductCollection.HandlePut and Products.ProductCollection.HandleDelete.
- Products.ProductCollection.HandleGet: each request runs alone. GET's `find` and `countDocuments` are two separate store queries, and a write landing between them would make `totalPages` disagree with the listed window. The model reads both from the same table, so it does not capture concurrent requests.
- Providers.ProviderCollection.Handle: the same two assumptions apply to the provider handler. A 500 reply means nothing was written, and each request runs alone, with nothing interleaved between the two queries of Providers.ProviderCollection.HandleGet.
- Type casting in filters: a filter on a field other than the string fields (`name`, `description`, `provider` for products; `name`, `address`, `phone`, `description` for providers) matches no record. Filtering on price, dates or `_id` needs the library's casting, and a cast error on a malformed provider id is not modelled.
- Sort keys: sorting on an unknown or empty field name treats every key as missing, so all records tie and any order is allowed.
- Products.ProductCollection.HandleGet: the order among records with equal sort keys is the one the insertion sort produces. The store leaves that order unspecified.
- Query strings that are not numbers (`Number(page)` giving NaN) and array-valued query parameters: page and limit are integers here. A negative skip is answered 500 and limit 0 means no limit. `totalPages` for limit 0 (Infinity or NaN in JSON) is null.
- Products.ProductCollection.HandlePut: when a body field such as `description` is absent, the update sets it to absent. The model does not capture the library's habit of stripping undefined keys from updates, which would keep the old value.
- Providers.ProviderCollection.HandlePut: same as above for `phone` and `description`.
- JavaScript numbers: prices are integers, so floating point and NaN are not modelled. Truthiness is absent, `""` or 0.
- Form inputs: an input delivers its value as a string, and the price check coerces it. The model stores the price as its integer value.
- Schema validation on `save`: it is folded into `storeFails`, as is any other exception the store raises.
- Clocks: `createdAt` and `updatedAt` take the `now` parameter.
- React rendering: JSX, the provider dropdown fetch, and the axios calls themselves (modelled only as the returned request and a success flag) are not modelled.
- Presentation pages, list components, the provider form, the navigation bar and the delete modal are not part of this model. So are `pages/api/products/[id].ts` and `pages/api/providers/[id].ts`.
