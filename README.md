# processorders — a verified model of the order-joining core

processorders is an Azure Functions app. It joins the three CSV files of one
order into a single merged order. The three files are the order header, the
line items and the product information. They are uploaded to blob storage
with names of the form `<batch prefix>-<file type>.csv`.

- Event Grid posts each upload to the HTTP function `processorder`. That
  function parses the blob URL (`OrderBlobAttributes.Parse`). It then signals
  the durable entity `OrderReceived` keyed by the batch prefix, and starts the
  orchestration `combineorder` with that prefix.
- The entity records which of the three files have arrived, and their URLs.
  Once all three are in, `CheckOrderReceived` answers with a merge request.
- The orchestration posts the three URLs to the merge endpoint. On HTTP 200
  it runs two activities in turn. `savecombinedorders` adds one row to the
  `combinedorders` table. `deleteorders` deletes the three source blobs.

The Dafny project has one module per source file, plus two small shared ones:

| module | file | source |
|---|---|---|
| `Wrappers` | wrappers.dfy | `Option`, standing for C# `null` |
| `BlobUrl` | blob_url.dfy | processordersapi/orderblobattributes.cs |
| `CombineOrderRecords` | combine_order_records.dfy | the records at the end of processordersapi/combineorder.cs |
| `OrderJoin` | order_join.dfy | processordersapi/orderreceived.cs |
| `ProcessOrder` | process_order.dfy | processordersapi/processorder.cs |
| `CombineOrder` | combine_order.dfy | processordersapi/combineorder.cs |

How each part is modelled:

- **Parser.** `Parse` is a string function. It takes the last `/`-segment,
  the segment before it, splits the stem at its last `-`, and strips `.csv`.
  It is proved equal, in both directions, to the language of the regular
  expression `^\S*/([^/]+)/(([\d^-]+)-([\w]+))\.csv$`. That language is
  written out in `RegexMatches`.
- **Entity.** `OrderReceived` is a class whose methods update its fields in
  place. Each method is proved to follow a pure transition on the value
  `JoinState`. The order-independence and monotonicity lemmas are stated on
  that value.
- **Gateway.** `Run` appends to an effect trace held by a `DurableClient`
  object: first the entity signal, then the orchestration start.
- **Blob container.** It is a set of blob names. `DeleteOrders` is proved
  against the specification function `DeleteInTurn`.

## Where the code and its description differ

The model follows the code in each case below.

- **Deletes are not independent.** The three deletes in `deleteorders` sit
  in one `try` block (combineorder.cs:96-114). The first failure skips the
  rest. Blobs deleted before the failure stay deleted.
- **An absent blob is a failure.** Deleting it raises "The specified blob
  does not exist.", so deleting the same order twice reports an error
  (`DeleteTwiceFails`). Every upload whose PutBlob BlobCreated event parses
  starts a new orchestration (processorder.cs:70), and the entity stays
  complete once complete. Any
  orchestration that runs after the first successful merge therefore merges,
  saves and deletes again.
- **The stored text is the request, not the response.** The `content` saved
  to the table is the JSON posted to the merge endpoint, not the endpoint's
  response (combineorder.cs:55).
- **Unknown file types still start the orchestration.** An upload whose type
  is not one of the three known tags sends no signal, but the orchestration
  still starts (processorder.cs:70).

## Model

| member | source | states |
|---|---|---|
| BlobUrl.Parse | processordersapi/orderblobattributes.cs:17-41 | On a match: group 0 is the input, or the input less a final newline. Filename is BatchPrefix + "-" + Filetype. The prefix is non-empty digits, `^` and `-`. The tag is non-empty word characters with no `-`. The container is non-empty with no `/`. No match gives None, never an error. |
| BlobUrl.MatchedText | processordersapi/orderblobattributes.cs:9 | `$` lets the match end at the end of the input or just before a final '\n'. |
| BlobUrl.Cut | processordersapi/orderblobattributes.cs:9 | The cut pieces join back to the line. The extension has four characters. Neither the container nor the file name contains `/`. The tag contains no `-`. |
| BlobUrl.MatchLine | processordersapi/orderblobattributes.cs:28-38 | A result decomposes the line as head/container/prefix-tag.csv, each part in its character class. The groups are filled from that decomposition. |
| BlobUrl.ParseSound | processordersapi/orderblobattributes.cs:9 | Every record Parse returns is a match of the expression, with those groups. |
| BlobUrl.ParseComplete | processordersapi/orderblobattributes.cs:9 | Every match of the expression is the record Parse returns, so the groups are unique. |
| BlobUrl.ParseIsRegexMatch | processordersapi/orderblobattributes.cs:17-41 | Parse returns a record exactly when the expression matches with those groups. |
| BlobUrl.ParseNoneIsNoMatch | processordersapi/orderblobattributes.cs:28-40 | Parse returns None (null) exactly when the expression has no match. |
| BlobUrl.CutFinds | processordersapi/orderblobattributes.cs:9 | Pieces with no `/` in the container or file name and no `-` in the tag are the ones the cut finds in their join. |
| BlobUrl.MatchLineFinds | processordersapi/orderblobattributes.cs:9 | Any decomposition of a line into the expression's parts is the one the cut at the last `/`s and last `-` finds. |
| BlobUrl.SplitLastAt | processordersapi/orderblobattributes.cs:9 | A cut at a character with none after it is the cut at its last occurrence, as the greedy groups cut. |
| BlobUrl.ParseRoundTrip | processordersapi/orderblobattributes.cs:9 | Any URL built as head/container/prefix-tag.csv from parts in their classes parses back into those parts. This holds even when the prefix itself holds `-`, as in 2018-05-18-OrderLineItems. |
| BlobUrl.DocumentedExample | processordersapi/orderblobattributes.cs:20-26 | The URL in the comment beside Parse gives container `orders`, file name `20180518151300-OrderHeaderDetails`, prefix `20180518151300` and type `OrderHeaderDetails`. |
| OrderJoin.CompletionChecked | processordersapi/orderreceived.cs:60-71 | The completion flag becomes set once all three flags are set, and it is never cleared. Nothing else changes. |
| OrderJoin.Receive | processordersapi/orderreceived.cs:39-59 | A receive sets its slot's flag and URL and leaves the other two slots and the id alone. Completion becomes the old completion or all three flags. It preserves Consistent: each flag is set exactly when its URL is, and completion holds exactly when all three flags are set. |
| OrderJoin.OrderRequest | processordersapi/orderreceived.cs:73-88 | A request exists exactly when the order is complete. It carries the entity id as key, the three current URLs, and no content. |
| OrderJoin.ReceiveAllFromFresh | processordersapi/orderreceived.cs:16-71 | From the constructor's state, any signal sequence leaves these values. Each flag is set exactly when its kind arrived. Each URL is the last URL of its kind. Completion holds exactly when all three kinds arrived. |
| OrderJoin.CompleteIffAllKindsArrived | processordersapi/orderreceived.cs:60-64 | The order completes exactly when each of the three kinds has arrived at least once. |
| OrderJoin.LatestSomeIffKind | processordersapi/orderreceived.cs:42-57 | A slot's URL is set exactly when a signal of its kind has arrived. |
| OrderJoin.ArrivalOrderIrrelevant | processordersapi/orderreceived.cs:39-71 | Two signal sequences with the same last URL per kind lead to the same entity state. |
| OrderJoin.CompletionIgnoresOrder | processordersapi/orderreceived.cs:60-64 | Completion depends only on the multiset of signals, not their order. |
| OrderJoin.ReceiveAllMonotone | processordersapi/orderreceived.cs:39-71 | No signal sequence clears a received flag or the completion flag. |
| OrderJoin.LatestUrlWins | processordersapi/orderreceived.cs:42-43 | A second signal of the same kind overwrites the URL and changes nothing else. |
| OrderJoin.DifferentKindsCommute | processordersapi/orderreceived.cs:39-59 | Signals of different kinds commute. |
| OrderJoin.OrderReceived.constructor | processordersapi/orderreceived.cs:16-20 | The new entity has the given id, no slots filled, is not complete, and is Consistent. |
| OrderJoin.OrderReceived.HeaderReceived | processordersapi/orderreceived.cs:39-45 | The fields change exactly as Receive with a header signal, and Consistent is kept. |
| OrderJoin.OrderReceived.LineItemsReceived | processordersapi/orderreceived.cs:46-52 | The fields change exactly as Receive with a line-items signal, and Consistent is kept. |
| OrderJoin.OrderReceived.ProductInformationReceived | processordersapi/orderreceived.cs:53-59 | The fields change exactly as Receive with a product-information signal, and Consistent is kept. |
| OrderJoin.OrderReceived.CheckIfOrderReceived | processordersapi/orderreceived.cs:60-71 | The fields change exactly as CompletionChecked. |
| OrderJoin.OrderReceived.CheckOrderReceived | processordersapi/orderreceived.cs:73-88 | A read-only query (no modifies) that returns OrderRequest of the current state. |
| OrderJoin.ThreeArrivals | processordersapi/orderreceived.cs:39-88 | After header and line items the query answers null. After product information it answers the request with the key and the three URLs. |
| ProcessOrder.ValidationResponse | processordersapi/processorder.cs:45 | The body is `{"validationResponse" : "`, then the validation code, then `"}`. The code can be read back from between them. |
| ProcessOrder.TagOf | processordersapi/processorder.cs:56-66 | The switch's three cases, in both directions: `OrderHeaderDetails` is HeaderReceived, `OrderLineItems` is LineItemsReceived, `ProductInformation` is ProductInformationReceived. |
| ProcessOrder.ParseEventGridPayload | processordersapi/processorder.cs:103-129 | A record comes back only for a `Microsoft.Storage.BlobCreated` event with API `PutBlob` and a URL, and it is what Parse makes of that URL. A missing or unparsable URL gives None, never an error. |
| ProcessOrder.ParseEventGridPayloadIsMatch | processordersapi/processorder.cs:103-129 | A record comes back only for a PutBlob BlobCreated event whose URL matches the expression, with the match's groups. It is None exactly when the event type or API differs, the URL is missing, or the URL does not match. |
| ProcessOrder.SignalFor | processordersapi/processorder.cs:56-67 | A signal exists exactly when the tag is one of the three known tags (exact, case-sensitive). It names the matching operation and carries FullUrl. |
| ProcessOrder.SignalForSelects | processordersapi/processorder.cs:56-67 | The switch selects an operation exactly for a file carrying that operation's tag. |
| ProcessOrder.SignalsOfAccepted | processordersapi/processorder.cs:51-70 | The signals one event sends to the entity keyed `key` are exactly the switch's signal. It is sent only when the event parses, its batch prefix is `key` and its tag is known; otherwise none. |
| ProcessOrder.SignalsOfOneEvent | processordersapi/processorder.cs:51-67 | One event sends the entity keyed `key` an operation exactly when it is a parsed upload of that batch carrying that operation's tag. |
| ProcessOrder.KindsSentTo | processordersapi/processorder.cs:51-70 | Over a series of requests, the entity keyed `key` is sent an operation exactly when some event is a parsed upload of that batch carrying that operation's tag. |
| ProcessOrder.UploadsCompleteOrderIff | processordersapi/processorder.cs:51-70 | Feed the entity keyed `key` the signals Run sends it over a series of one-event requests. It ends complete exactly when, for each of the three tags, some event is a parsed upload with batch prefix `key` and that tag. Order, repeats, other batches and unknown types make no difference. |
| ProcessOrder.AcceptedEffects | processordersapi/processorder.cs:51-100 | No effect when parsing fails. Otherwise there is at most one signal, to the entity keyed by the batch prefix, present exactly when the tag is known. It is followed by the start of `combineorder` with the prefix, which happens even for an unknown tag. |
| ProcessOrder.DurableClient.constructor | processordersapi/processorder.cs:23-24 | A new client has recorded nothing. |
| ProcessOrder.DurableClient.SignalEntityAsync | processordersapi/processorder.cs:59 | Appends the entity signal to the trace. |
| ProcessOrder.DurableClient.StartNewAsync | processordersapi/processorder.cs:70 | Appends the orchestration start to the trace. |
| ProcessOrder.ValidationEventHasNoEffects | processordersapi/processorder.cs:109-110 | A validation event is not a BlobCreated event, so it leads to no signal and no orchestration start. |
| ProcessOrder.DispatchUpload | processordersapi/processorder.cs:51-70 | After the validation check, the trace grows by exactly AcceptedEffects of the event: the switch's signal, if any, and then the orchestration start, or nothing when parsing fails. |
| ProcessOrder.Run | processordersapi/processorder.cs:20-101 | Malformed JSON, or an array of two or more events, faults. A non-array or an empty array gives BadRequest "Expecting one item in the Event Grid message.". A validation event gets Ok with `{"validationResponse" : "<code>"}`. None of these has an effect. Any other single event gets Accepted, and the trace grows by exactly AcceptedEffects. For every single-event request, the trace grows by AcceptedEffects of that event, which is empty for a validation event. |
| CombineOrder.MergePayload | processordersapi/combineorder.cs:40-43 | The payload maps headerURL to orderHeaderDetailsCSVUrl, lineItemsURL to orderLineItemsCSVUrl and productionInformationURL to productInformationCSVUrl. |
| CombineOrder.CombinedOrdersRow | processordersapi/combineorder.cs:73-76 | The row has partition "BatchOrders", row key the entity key and text the request's content. |
| CombineOrder.TableCollector.constructor | processordersapi/combineorder.cs:66 | The collector starts with the given rows and the given Add error. |
| CombineOrder.TableCollector.Add | processordersapi/combineorder.cs:77 | Add appends the row, or raises its error and appends nothing. |
| CombineOrder.SaveCombinedOrders | processordersapi/combineorder.cs:64-87 | Adds one row: partition "BatchOrders", row key the entity key, text the request's content. Returns "CombinedOrders {key} saved.". If Add raises, no row is added and it returns the failure message with the error. |
| CombineOrder.DeleteInTurn | processordersapi/combineorder.cs:96-114 | The deletes run in turn and stop at the first URL the URI constructor rejects (with that exception's message) or the first absent blob (with the not-found message). They only remove blobs: what remains is a subset of the container. |
| CombineOrder.DeleteInTurnSucceedsIff | processordersapi/combineorder.cs:96-114 | The three deletes succeed exactly when every URL gives a blob name, every blob is there, and no blob is named twice. |
| CombineOrder.DeleteInTurnErrorIsFirstFailure | processordersapi/combineorder.cs:110-113 | A failed run reports either the not-found message or the message the URI constructor raised for one of the URLs. |
| CombineOrder.DeleteInTurnRemovesNamed | processordersapi/combineorder.cs:101-106 | Deleting removes only named blobs. On success it removes exactly the named ones. |
| CombineOrder.DeleteInTurnStopsAtFirstFailure | processordersapi/combineorder.cs:96-114 | Deleting a + b is deleting a, then b only if a succeeded. The first failure ends the run. |
| CombineOrder.DeleteTwiceFails | processordersapi/combineorder.cs:101-113 | After a successful delete, deleting the same order again fails with the not-found error and deletes nothing. |
| CombineOrder.BlobContainer.constructor | processordersapi/combineorder.cs:91 | The container starts with the given blob names. |
| CombineOrder.BlobContainer.Delete | processordersapi/combineorder.cs:102 | Deleting a present blob removes it. Deleting an absent one raises "The specified blob does not exist." and changes nothing. |
| CombineOrder.DeleteOrders | processordersapi/combineorder.cs:89-117 | The container ends as DeleteInTurn over the header, line-items and product-information names, in that order. Returns "Deleting CombinedOrders {key} completed." only if all three deletes succeed. Otherwise it returns "Deleting order {key} from blob storage failed: " with the first exception's own message (the URI error or the not-found error). |
| CombineOrder.ThreeDistinctBlobsDeleted | processordersapi/combineorder.cs:101-116 | Three distinct present blobs are all deleted, and no other blob is touched. |
| CombineOrder.MergedRequest | processordersapi/combineorder.cs:44-55 | The activities' request keeps the key and the three URLs, and its content is the JSON of the merge payload. |
| CombineOrder.MergedRequestOfCompleteOrder | processordersapi/combineorder.cs:40-57 | For a complete entity, the request the activities receive keeps the entity's key. Its content is the JSON of the three URLs, mapped header to orderHeaderDetailsCSVUrl, line items to orderLineItemsCSVUrl and product information to productInformationCSVUrl. The saved row carries that JSON. |
| CombineOrder.RunOrchestrator | processordersapi/combineorder.cs:19-62 | Posts to the merge endpoint exactly when the entity has a request, with the mapped payload. With no request, or a status other than 200, outputs are empty and no row or blob changes. On 200 the content is the posted JSON, save runs and then delete, and outputs are exactly the two results in that order. |

## Left out

- The Azure Functions and Durable Functions runtime is not modelled. This covers bindings, entity dispatch (`ctx.DispatchAsync`), replay, retries and the serialisation of operations on one entity. A run of entity operations is a sequence, and concurrent orchestrations are not modelled.
- Both durable clients of `processorder` are one `DurableClient` that records requests in order. `CallEntityAsync` is a direct call of `CheckOrderReceived` on the entity with the batch prefix as key.
- JSON is not modelled as text. Event bodies are the `RequestBody` and `EventGridEvent` records, and an empty body counts as not an array. The merge payload's JSON is `JsonOf(payload)`, which assumes Newtonsoft serialisation is injective. Missing JSON properties other than `data.url` are not modelled.
- The HTTP call to the merge endpoint is not modelled. Its status code is a parameter, and its response body is never used by the code.
- Table storage is a list of rows plus the error `Add` may raise. An upsert, a duplicate key, and a failure when the binding flushes after the activity returns are not modelled.
- Blob storage is a set of names in the `orders` container. Snapshots, leases and other service errors are not modelled.
- `new CloudBlockBlob(new Uri(url)).Name` is the parameter `nameOf`. It gives the blob name, or the message of the exception the URI constructor raises.
- Exception messages other than the missing-blob one are inputs: the URI constructor's through `nameOf`, the table binding's through the collector.
- BlobUrl.IsDigit, BlobUrl.IsWordChar: `\d` and `\w` are restricted to ASCII, while .NET also matches other Unicode digits and letters.
- BlobUrl.IsCsvExtension: case-insensitivity covers ASCII `c`, `s` and `v` only, not culture-specific case equivalents.
- Logging, the commented-out code, and the `responseMessage` string (never returned) are not modelled.
- `OrderReceived.Run`, the static dispatch function, is not modelled. It belongs to the runtime.
