# Market map editor and data API, modelled in Dafny

The repository is a small web application for editing "market maps". A
market map has an id, a name, an ordered list of buckets (`categories`) and
a list of firms. Each firm has an id, a name, a bucket, a subcategory and an
optional product. This project models two pieces of that application and
proves properties of them.

**The data API (api/data.js).**
- `RateLimit`: the per-client fixed-window rate limiter. A client gets 100
  requests per 60000 ms window. The window restarts only when `now` is
  strictly later than its reset time. A periodic sweep deletes closed
  windows.
- `Validation`: the shape check and sanitisation of a POST/PUT body. Request
  bodies are dynamic JSON values (`JsonValue.Json`), so JavaScript
  truthiness, `Array.isArray`, reading a property of `null` and `toString`
  are modelled as the code uses them. The method `ValidateBody` runs the
  handler's loops. It is proved equal to the function `Validate`, and the
  lemmas about `Validate` state what is accepted, what is refused and for
  which reason, and what an accepted body looks like after sanitising.
- `MarketStore`: `getMarketMaps` and `setMarketMaps` against an abstract
  store. The store is a class with the stored value (`cell`) and the log of
  published values (`published`).
- `DataApi.Handle`: the handler. It checks the rate limit first, then sets
  the CORS headers, then dispatches on the HTTP method.

**The browser client (index.tsx).**
- `Editor`: the `App` state updates as functions on the collection of maps.
  Each comes with a lemma that it keeps the document valid: in every map the
  buckets are duplicate-free and every firm's bucket is listed. It also
  models the submit guards of the three forms.
- `Matrix`: the grouping of the matrix view. The rows are the sorted
  distinct subcategories. `MatrixData` is the nested loop that fills the
  table, proved to put each firm into the cell of its bucket and
  subcategory, and nowhere else.

`JsText` models the string operations in ASCII: `trim`, `substring`,
`toLowerCase`, `replace(/\s+/g, '-')` and the default `sort` order. `Seqs`
holds `Array.prototype.filter` and its facts.

Behaviour of the code that the model makes explicit:
- Sanitising happens after the shape check. A firm whose name is only white
  space passes the shape check and is stored with the name `""`. Sending that
  stored document back is then refused with "Invalid firm structure"
  (`Validation.BlankNameStoredThenRefused`).
- A `null` map, firm or category entry makes a property read throw. The
  handler answers 500, not 400 (`Validation.CheckMapReasons`,
  `DataApi.Refusal`).
- A request over the rate limit gets 429 before the CORS headers are set.
  A DELETE below the limit gets 405, although the `Access-Control-Allow-Methods`
  header the code sets lists DELETE (`DataApi.Handle`).
- Creating a map named "constructor" or "__proto__" is refused as a
  duplicate. `marketMaps[slug]` finds the property that every object
  inherits under that name (`Editor.CreateMap`).
- The client stores firm names untrimmed. Its guards only check that the
  trimmed name is not empty.
- Adding or saving a firm keeps the document valid only when the firm's
  chosen bucket is listed. The add-firm form can hold a bucket that was
  since renamed or deleted.

## Model

| member | source | states |
|---|---|---|
| JsText.Trim | api/data.js:183-193 | `trim()` removes only white space, from both ends; the result starts and ends with a non-space; an already trimmed string is unchanged |
| JsText.Prefix | api/data.js:183-193 | `substring(0, n)` is a prefix of length at most `n`; a string within the cap is unchanged |
| JsText.Hyphenate | index.tsx:557 | `replace(/\s+/g, '-')` leaves no white space, turns a non-empty string into a non-empty one and leaves a string without white space unchanged |
| JsText.TrimStartRun | index.tsx:557 | a run of white space of any length followed by a non-space is matched whole, so the remainder starts right after it |
| JsText.HyphenateRun | index.tsx:557 | a word, a maximal white-space run of any length and the rest become the word, one hyphen and the hyphenated rest |
| JsText.Slug | index.tsx:557 | the map id has no white space and no upper-case letter, is non-empty for a non-empty name, and is the lower-cased name when the name has no white space |
| JsText.SlugRun | index.tsx:557 | in the map id a word followed by a white-space run becomes the lower-cased word and a single hyphen |
| JsText.SlugRunLength | index.tsx:557 | names differing only in the length of one white-space run give the same map id |
| JsText.BeforeTransitive | index.tsx:419 | the default sort order is transitive |
| JsText.BeforeTotal | index.tsx:419 | any two distinct strings are ordered one way or the other |
| JsText.BeforeIrreflexive | index.tsx:419 | no string sorts before itself |
| Seqs.Keep | index.tsx:537 | `filter` keeps exactly the elements satisfying the test, in their original order |
| Seqs.KeepCount | index.tsx:537 | `filter` keeps each passing element as many times as it occurs and drops every other |
| Seqs.KeepDistinct | index.tsx:605 | filtering a duplicate-free list leaves it duplicate-free |
| JsonValue.FalsyValues | api/data.js:163 | exactly `null`, `false`, `0` and `""` are falsy; every array and object is truthy, empty or not |
| JsonValue.LookupFirst | api/data.js:170 | reading a property gives the value of the first field with that key, and `undefined` exactly when no field has it |
| JsonValue.NatText | api/data.js:183 | the decimal text of a number: non-empty, all digits, no leading zero, and its digits denote the number |
| JsonValue.ToText | api/data.js:183-193 | `toString()` gives a string itself, `true`/`false` for a boolean, and for a number an optional `-` exactly when it is negative followed by the decimal digits of its magnitude |
| JsonValue.Get | api/data.js:170 | reading a property throws exactly on `null`, and finds a value only on an object |
| JsonValue.SetField | api/data.js:183-185 | after assigning a field, reading it gives the new value; an existing field keeps the object's size |
| JsonValue.SetFieldElsewhere | api/data.js:183-185 | assigning one field leaves every other field's value unchanged |
| JsonValue.Entries | api/data.js:169 | `Object.entries` of the saved data: an array's items, or an object's values in property order, one per property (partner: `WithEntries`) |
| JsonValue.WithEntries | api/data.js:169 | writing back the sanitised maps keeps the container's kind and keys and sets exactly the new values |
| Validation.Clean | api/data.js:183-193 | `toString().trim().substring(0, cap)` gives a string within the cap and leaves a trimmed string within the cap unchanged |
| Validation.Each | api/data.js:169-194 | a loop that stops at the first fault succeeds exactly when every step does; on failure it reports the first failing step's reason |
| Validation.EachPrefixFail | api/data.js:169-194 | once the loop fails on a prefix, the whole loop fails for the same reason |
| Validation.AssignLabels | api/data.js:183-185 | the three assignments give name, category and subcategory the new values and leave every other property as it was |
| Validation.CleanProduct | api/data.js:186-188 | a truthy product becomes `Clean(product, 200)`, at most 200 characters; a falsy one leaves the firm as it was; every other property is untouched |
| Validation.CleanFirm | api/data.js:183-188 | sanitising a firm gives an object; its field values are stated by `CleanFirmSanitised` |
| Validation.CleanFirmSanitised | api/data.js:183-188 | the sanitised firm has name `Clean(name, 200)`, category and subcategory `Clean(…, 100)`, a truthy product `Clean(product, 200)`, and every other property, its id among them, as it was |
| Validation.SanitisedFirmCapped | api/data.js:183-188 | a sanitised firm has name ≤ 200, category and subcategory ≤ 100, and a truthy product ≤ 200 characters |
| Validation.CheckFirm | api/data.js:176-189 | one firm passes exactly when id, name, category and subcategory are truthy, and the result is the sanitised firm; a `null` firm, and only that, crashes; any other bad firm gives "Invalid firm structure" |
| Validation.CheckCategory | api/data.js:193 | a category entry passes exactly when it is not `null`, a refused one always crashes, and a passed one becomes `Clean(entry, 100)`, at most 100 characters |
| Validation.RebuildMap | api/data.js:191-193 | the rebuilt map is an object; what it holds is stated by `RebuildMapAssigns` and `RebuildMapElsewhere` |
| Validation.RebuildMapAssigns | api/data.js:191-193 | the rebuilt map reads back name `Clean(name, 100)` and exactly the given firms and categories |
| Validation.RebuildMapElsewhere | api/data.js:191-193 | every other property of the map, its id among them, is as it was |
| Validation.SanitisedMapCapped | api/data.js:191-193 | a sanitised map has a name ≤ 100, categories all strings ≤ 100 and every firm capped |
| Validation.CheckMap | api/data.js:169-194 | one iteration of the map loop never reports "Invalid data format", and an accepted map is an object |
| Validation.CheckMapAccepts | api/data.js:169-194 | a map passes exactly when its shape, every firm's shape and every category entry are acceptable; it is then capped, and it is the input with the name, each category entry and each firm sanitised in place and every other property kept |
| Validation.EachFirstFault | api/data.js:176-180 | the firm and category loops stop at the first failing entry and report its reason |
| Validation.CheckMapFirstFirm | api/data.js:170-180 | a map of good shape is refused for the reason of its first bad firm |
| Validation.CheckMapCategories | api/data.js:191-193 | when every firm passes, the map passes exactly when no category entry is `null`, and otherwise crashes |
| Validation.CheckMapReasons | api/data.js:169-193 | "Invalid market map structure" exactly for a non-null map of bad shape; "Invalid firm structure" exactly when the first bad firm is non-null; a crash exactly for a null map, a null first bad firm, or good firms and a null category entry |
| Validation.Validate | api/data.js:163-194 | a body that is not a truthy object or array is refused as "Invalid data format"; an accepted body keeps its kind and its number of entries |
| Validation.RefusedAsFormat | api/data.js:163-166 | "Invalid data format" exactly when the body is not a truthy object or array |
| Validation.AcceptedIffWellShaped | api/data.js:163-194 | a body is accepted exactly when it is an object or array all of whose maps are acceptable |
| Validation.AcceptedIsSanitised | api/data.js:183-196 | an accepted body keeps its kind, keys and entry count, and every map in it is capped and is its input map sanitised in place |
| Validation.RefusalNamesFirstFault | api/data.js:169-180 | a refused object is refused for the reason of its first unacceptable map, all earlier maps being acceptable |
| Validation.CleanFirmTidy | api/data.js:183-188 | sanitising leaves a firm whose labels are already trimmed and within their caps exactly as it was |
| Validation.CheckMapTidy | api/data.js:169-194 | a map whose name, category entries and firms are already trimmed and within their caps passes unchanged |
| Validation.TidyBodyUnchanged | api/data.js:163-196 | a body of such maps is accepted and stored exactly as sent |
| Validation.BlankNameStoredThenRefused | api/data.js:176-188 | a firm whose name is only white space passes and is stored with the name `""`; that stored firm, sent back, is refused as "Invalid firm structure" |
| Validation.SanitizeFirms | api/data.js:176-189 | the firm loop computes `Each(firms, CheckFirm)` |
| Validation.SanitizeCategories | api/data.js:193 | the category loop computes `Each(categories, CheckCategory)` |
| Validation.SanitizeMap | api/data.js:169-194 | one iteration of the map loop computes `CheckMap` |
| Validation.ValidateBody | api/data.js:163-194 | the handler's validation loops compute `Validate` |
| RateLimit.Touch | api/data.js:31-43 | a new client's first request, or one after its window closed, counts 1 in a fresh window ending 60000 ms after `now`; a request in an open window adds 1 to the count and keeps the reset time |
| RateLimit.Replay | api/data.js:31-46 | a sequence of requests of one client gives one verdict per request and leaves every other client's entry unchanged |
| RateLimit.OneWindow | api/data.js:28-46 | for a client with no open window, requests within 60000 ms of the first are admitted exactly for the first 100; the entry ends at that count and that window |
| RateLimit.ResetBoundary | api/data.js:35-41 | for every `now > resetTime` the count restarts at 1 with a new window and is admitted; for every `now <= resetTime`, `now == resetTime` included, the count grows within the same window, and a client already at 100 or more is refused |
| RateLimit.SweepUnobservable | api/data.js:49-56 | sweeping at `now` changes no verdict and no entry of any later request |
| RateLimit.RateLimiter.constructor | api/data.js:27 | the table starts empty |
| RateLimit.RateLimiter.CheckRateLimit | api/data.js:31-46 | only the caller's entry changes, to `Touch` of its old entry; the answer is whether its count is at most 100 |
| RateLimit.RateLimiter.Sweep | api/data.js:49-56 | the loop deletes exactly the entries with `now > resetTime` and keeps the rest unchanged |
| MarketStore.Store.constructor | api/data.js:95-129 | a store starts with the given value and no publications |
| MarketStore.Store.SetMarketMaps | api/data.js:116-129 | the value is stored, then the same value is published; a failing step stops there and is reported |
| MarketStore.Store.GetMarketMaps | api/data.js:95-113 | a stored value is returned unchanged; an empty store is initialised with the default data, which is returned even if that write fails; a read error returns the default and writes nothing |
| DataApi.ClientId | api/data.js:134 | the client id is the forwarded address if non-empty, else the socket address if non-empty, else `unknown` |
| DataApi.Refusal | api/data.js:163-180 | the three shape faults are answered 400 and a crash 500, each with an error message |
| DataApi.InitialDataAccepted | api/data.js:59-92 | the default map data passes the validation of lines 163-194 and is stored back exactly as it is |
| DataApi.Handle | api/data.js:132-206 | the rate check comes first and a refused request gets 429 without CORS headers and without touching the store; OPTIONS gets 200; GET gets 200 with the stored or default maps; a refused body gets its 400/500 answer and is never written; an accepted body is written in sanitised form and answered 200, or 500 if the write fails; every other method gets 405 |
| Editor.AddFirm | index.tsx:521-527 | the active map's firms become the old firms followed by the new firm; its buckets and every other map are unchanged |
| Editor.AddFirmValid | index.tsx:521-527 | adding a firm to a listed bucket keeps the document valid |
| Editor.DeleteFirm | index.tsx:533-541 | after confirmation exactly the firms with that id are removed and the rest keep their order; without it nothing changes |
| Editor.DeleteFirmCounts | index.tsx:533-541 | every firm with another id stays as many times as it was there |
| Editor.DeleteFirmValid | index.tsx:533-541 | deleting a firm keeps the document valid |
| Editor.SaveFirm | index.tsx:543-550 | the firm list keeps its length, order and ids; exactly the firms with the saved id are replaced |
| Editor.SaveFirmValid | index.tsx:543-550 | saving a firm with a listed bucket keeps the document valid |
| Editor.CreateMap | index.tsx:556-568 | a taken slug changes nothing; otherwise exactly one map is added under the slug, with the given name, bucket `New Bucket` and no firms, and it becomes active |
| Editor.CreateMapValid | index.tsx:556-568 | creating a map keeps the document valid and the active map exists |
| Editor.AddColumn | index.tsx:571-581 | only a non-empty name not yet listed is appended; otherwise nothing changes |
| Editor.AddColumnValid | index.tsx:571-581 | adding a bucket keeps the buckets duplicate-free and every firm's bucket listed |
| Editor.EditColumn | index.tsx:583-597 | only a non-empty new name, different and not listed, applies; the bucket is renamed in place and its firms move with it, all else kept |
| Editor.EditColumnValid | index.tsx:583-597 | renaming a bucket keeps the buckets duplicate-free and every firm's bucket listed |
| Editor.DeleteColumn | index.tsx:599-610 | after confirmation the bucket and exactly its firms are removed, the rest in order (multiplicities in `DeleteColumnCounts`); without it nothing changes |
| Editor.DeleteColumnCounts | index.tsx:599-610 | every other bucket and every firm of another bucket stays as many times as it was there; the deleted bucket and its firms are gone |
| Editor.DeleteColumnValid | index.tsx:599-610 | deleting a bucket keeps the document valid |
| Editor.SubmitEdit | index.tsx:163-170 | the edited firm is saved exactly when name and subcategory are not blank and a bucket is chosen; it keeps its id |
| Editor.SubmitNew | index.tsx:266-278 | a new firm is handed over exactly when name and subcategory are not blank and a bucket is chosen |
| Editor.SubmitMapName | index.tsx:369-376 | a map is created exactly when the name is not blank, and with the trimmed name |
| Matrix.InsertSorted | index.tsx:417-420 | adding a value to a strictly sorted list keeps it strictly sorted and adds exactly that value |
| Matrix.Subcategories | index.tsx:417-420 | the rows are strictly sorted and are exactly the subcategories of the firms |
| Matrix.SortedUnique | index.tsx:417-420 | the sorted list of a set of values is unique |
| Matrix.Cell | index.tsx:430-434 | a cell holds exactly the firms of its bucket and subcategory, in their original order |
| Matrix.PushedIsCell | index.tsx:430-434 | pushing firm by firm yields the cell's firms |
| Matrix.ListedFirmInOneCell | index.tsx:430-434 | a firm of a listed bucket has a row and sits in its own cell and in no other |
| Matrix.UnlistedFirmInNoCell | index.tsx:430-434 | a firm of an unlisted bucket is in no cell |
| Matrix.NewRow | index.tsx:425-427 | the inner loop makes one empty cell per subcategory |
| Matrix.NewTable | index.tsx:424-428 | the outer loop makes one row of empty cells per bucket |
| Matrix.PlaceShaped | index.tsx:430-434 | placing a firm adds no row and no cell |
| Matrix.PlaceFilled | index.tsx:430-434 | placing the next firm extends exactly that firm's cell |
| Matrix.Push | index.tsx:431-433 | one push appends the firm to its cell when that cell exists |
| Matrix.PlaceAll | index.tsx:430-434 | the firm loop keeps the table's shape and fills every cell with its firms |
| Matrix.MatrixData | index.tsx:422-436 | the table has a row per bucket, a cell per subcategory in each row, and each cell holds exactly its firms in order |

## Left out

- Redis as a service is not modelled: connecting, `REDIS_URL`, and `JSON.stringify`/`JSON.parse` of the stored text. A stored value is read back as the same value. Success or failure of the store is an input.
- Concurrency is not modelled. That covers overlapping requests, the asynchronous store, and the `setInterval` timer; the sweep is a method called at an explicit instant.
- `Date.now()` is an input: the rate limiter's `now`, and the new firm's id in `Editor.AddFirm`. The ids are not proved unique, and the code does not make them unique.
- JSON numbers are integers. Floating-point values, their `toString`, and values with their own `toString` are not modelled.
- Strings are sequences of code points with ASCII white space and ASCII case. JavaScript's UTF-16, its Unicode white space and its full `toLowerCase` are not modelled.
- A rejected body's partial in-place sanitising is not modelled, because it is never stored. Accepted bodies are rebuilt by value, which equals the in-place update since parsed JSON shares no objects.
- `DataApi.Handle`: for a GET, the store's state afterwards is not restated. `MarketStore.Store.GetMarketMaps` gives it.
- `Matrix.MatrixData`: a bucket named like an inherited property of `Object.prototype` is not modelled. Such a name can make `data[firm.category]` truthy without that bucket being listed.
- `Editor.CreateMap`: only the lower-case inherited names `constructor` and `__proto__` are taken as existing. These are the only ones a lower-cased slug can equal.
- The client reducers read the state passed to them. Stale closures over `activeMap`/`marketMaps` in `handleAddColumn`, `handleEditColumn` and `handleCreateMap` are not modelled.
- The reducers require that the active map exists. The App renders the editing controls only in that case (index.tsx:656-667).
- Not modelled, because each is I/O or presentation:
  - React rendering, modals and keyboard handling;
  - `localStorage`, file import/export;
  - the live-update stream in api/sync.js and the health check in api/test.js.
- Full idempotence of sanitising is not claimed. A cut at 200 or 100 characters can leave trailing white space that a second pass would remove.
