# JSON-to-RSS feed handler, modelled in Dafny

The repository is a small web service. It turns a JSON array from a remote URL into an RSS 2.0 feed. The request's query parameters say which record fields become which item fields. All of its logic sits in one GET handler, and this project models that handler:

- **Parameter flattening** (`Params`). The query parser delivers each parameter as absent (`Absent`), as one string (`One`), or as a list of strings (`Many`). The handler keeps the first value. An empty list yields `undefined`, modelled as `None`. JavaScript truthiness then decides whether a value counts: `undefined` and `""` are both falsy.
- **Required-parameter check** (`Handler.Validate`, `Handler.Handle`). If `url`, `title`, `item_title`, `item_link` or `item_date` is missing or empty, the outcome is a 400 with body `Missing or malformed parameters`.
- **Feed construction** (`Feeds`). The envelope takes `id` and `link` from `url`. The description defaults to `''` and the copyright is empty. Then there is one item per fetched record, in source order. Each item field comes from a record field named by a request parameter (`Json.Lookup`). A missing key yields `Undefined`, not an error.

Three outside dependencies become parameters:

- The outbound fetch and JSON parse become `fetch: string -> seq<Record>`.
- JavaScript's value-to-string coercion (`'' + v`) becomes `Host.toStr`.
- The `Date` constructor becomes `Host.parseDate`.

Every property holds whatever values those parameters return. The model assumes none of them throws; see `Handler.Handle` under "Left out".

`Handler.Handle` is the handler as a pure function. `Handler.ServeFeed` follows the source statement by statement, with the `for … of` loop calling `addItem` once per record. It is proved to compute the same outcome as `Handle`.

The handler has no `data_path` descent into the fetched JSON and no `try`/`catch`. A failure in `fetch` or `json()` (src/index.ts:32-33) rejects the async handler, and no response is sent. The model has no such outcome.

## Model

| member | source | states |
|---|---|---|
| Params.First | src/index.ts:17-21 | A list parameter gives its first element, a single string gives itself, and an absent parameter or an empty list gives `None` (`undefined`) |
| Params.FirstOccurrenceWins | src/index.ts:26-29 | When a name is repeated in the query string, the first occurrence is the value used, and appending more occurrences never changes it |
| Params.Arg | src/index.ts:17 | A parameter the query does not mention reads as `undefined`; otherwise its value is flattened by `First` |
| Params.OrEmpty | src/index.ts:46 | `value \|\| ''` on a `string \| undefined` equals the value, with an absent value defaulting to `''` |
| Json.Lookup | src/index.ts:45 | `record[key]` is the field's value when present and `Undefined` when the key is missing |
| Feeds.NewFeed | src/index.ts:36-42 | The envelope has `id == link == url`, the given title, the description or `''` when it is absent, an empty copyright, and no items |
| Feeds.AddItem | src/index.ts:44 | `addItem` appends the item at the end and leaves the envelope and the earlier items unchanged |
| Params.Truthy | src/index.ts:22 | A `string \| undefined` is falsy exactly when it is `undefined` or the empty string |
| Feeds.OptionalField | src/index.ts:49-50 | The ternary yields `''` when the parameter is absent or empty, and otherwise the record field that parameter names |
| Feeds.ProjectItem | src/index.ts:44-51 | The item literal has `id == link == base + toStr(record[item_link])`, title `record[item_title]`, date parsed from `record[item_date]`, and description and image from their optional fields |
| Feeds.Project | src/index.ts:43-52 | There are exactly as many items as records, and item i is the projection of record i alone |
| Feeds.ProjectAppend | src/index.ts:43 | Projecting `a + b` equals projecting `a` followed by projecting `b`, so nothing is filtered, merged or reordered |
| Feeds.LinkExtendsBase | src/index.ts:46-47 | `id == link == base + toStr(record[item_link])`; the base is a prefix of the link, and with no base the link is the coerced field alone |
| Feeds.TitleIsField | src/index.ts:45 | The item title is the record's `item_title` field, or `Undefined` when the key is missing |
| Feeds.OptionalFieldsDefault | src/index.ts:49-50 | Description and image are `''` when their parameter is absent or empty; otherwise each is the record field that parameter names |
| Feeds.DateOnlyFromDateField | src/index.ts:48 | Two records that agree on the `item_date` field get equal dates |
| Handler.Validate | src/index.ts:22-23 | Validation succeeds exactly when all five required parameters have a non-empty first value, and the values it carries are those first values |
| Handler.Handle | src/index.ts:15-57 | The outcome is a 400 exactly when some required parameter is missing or empty, and its body is then `Missing or malformed parameters` |
| Handler.ServeFeed | src/index.ts:15-57 | The step-by-step handler, with its per-record `addItem` loop, yields the same outcome as `Handle` |
| Handler.BadRequestIgnoresSource | src/index.ts:22-23 | When a required parameter is missing, the outcome is the fixed 400 whatever the fetched source and host conversions would be |
| Handler.BadRequestIffSomeMissing | src/index.ts:22 | The 400 happens exactly when some required name is `undefined` or `""` after flattening |
| Handler.FeedEnvelope | src/index.ts:36-42 | A valid request yields a feed whose id and link are the `url` parameter and whose title is the `title` parameter; the description is the `description` parameter when non-empty and `''` otherwise; the copyright is empty |
| Handler.ItemsFollowSource | src/index.ts:43-52 | A valid request yields one item per record fetched from `url`; item i comes from record i under the field names of the request's parameters |
| Handler.ItemLinks | src/index.ts:46-47 | Every item's id and link equal `(base_item_link \|\| '') + toStr(record[item_link])` |

## Left out

- The built file `dist/index.js` is the compiled form of `src/index.ts` and holds the same handler. It is modelled once, from the TypeScript.
- Express wiring, the `PORT`/`ENDPOINT` environment configuration, `app.listen` and its logging are process plumbing.
- `fetch(url)` and `response.json()` are network I/O and host JSON parsing. They are the `fetch` parameter. Fetch or parse failures are not modelled, because the handler has no error handling for them.
- A fetched body that is not an array, or whose elements are not objects, is not modelled: records are `map<string, Value>`. JavaScript would throw in the loop or read properties of a non-object.
- Property lookup through the JavaScript prototype chain is not modelled. `item["toString"]` would find an inherited function, but `Json.Lookup` returns `Undefined` for any key the record does not hold itself.
- JavaScript string coercion and `new Date(...)` are host semantics. They are the uninterpreted `Host.toStr` and `Host.parseDate`.
- Query values that the parser turns into nested objects (`url[a]=b`) are not modelled. `Params.Param` covers the absent, single-string and list-of-strings shapes the handler's casts assume.
- `Params.Received` assumes how the query parser shapes repeated names. The parser is framework code and is not part of this model.
- `feed.rss2()` serialisation, `res.set('Content-Type', 'text/xml')` and `res.send` are an external library and the HTTP layer. `Handler.Outcome` stops at the feed value.
- There is no `data_path` descent, no data-shape 400 and no 500 response, because `src/index.ts` has none of them.
- Handler.Handle: assumes the fetch and the host conversions never throw. A record field whose string coercion throws makes `'' + item[itemLink]` (src/index.ts:46-47) throw. An example is `{"toString": 1}`, where `valueOf` returns an object and `toString` cannot be called. `new Date(...)` (src/index.ts:48) can throw the same way. In either case the source handler rejects and sends nothing, but the model returns `Ok`. The same assumption stands behind `Handler.FeedEnvelope`, `Handler.ItemsFollowSource` and `Handler.ItemLinks`, which prove `Ok` for every valid request.
- Concurrency between requests is not modelled, because no state is shared between them.
- JSON numbers are kept as reals rather than IEEE doubles. The handler only passes them through.
