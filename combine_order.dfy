/**
 * The `combineorder` orchestration and its two activities.
 *
 * RunOrchestrator asks the entity keyed by the batch prefix for its merge
 * request. If the order is complete it posts the three URLs to the merge
 * endpoint; only on an HTTP 200 answer does it store the posted JSON in the
 * request, save one row to the `combinedorders` table and delete the three
 * source blobs, collecting the two activities' messages as its output.
 *
 * DeleteOrders deletes the three blobs one after the other inside a single
 * try block: the first failure (a URL the URI constructor rejects, or a
 * blob that is not there) ends it, reported with that exception's message, and the blobs deleted before it stay deleted.
 */
module CombineOrder {
  import opened Wrappers
  import opened CombineOrderRecords
  import opened OrderJoin

  const StatusOK: int := 200
  const CombinedOrdersPartition: string := "BatchOrders"
  /** The message of the storage error for a missing blob. */
  const BlobNotFoundMessage: string := "The specified blob does not exist."

  /** The merge payload: the request's three URLs under their endpoint names. */
  function MergePayload(request: CombineOrderRequest): (payload: CombineOrderContent)
    ensures payload.orderHeaderDetailsCSVUrl == request.headerURL
    ensures payload.orderLineItemsCSVUrl == request.lineItemsURL
    ensures payload.productInformationCSVUrl == request.productionInformationURL
  {
    CombineOrderContent(request.headerURL, request.lineItemsURL, request.productionInformationURL)
  }

  // ---------------------------------------------------------------------
  // savecombinedorders
  // ---------------------------------------------------------------------

  /** The table row saved for a request: key under the fixed partition. */
  function CombinedOrdersRow(request: CombineOrderRequest): (row: CombinedOrdersTable)
    ensures row.PartitionKey == "BatchOrders"
    ensures row.RowKey == request.entityKey && row.Text == request.content
  {
    CombinedOrdersTable(CombinedOrdersPartition, request.entityKey, request.content)
  }

  function SavedMessage(key: string): string
  {
    "CombinedOrders " + key + " saved."
  }

  function SaveFailedMessage(key: string, error: string): string
  {
    "Storing entry " + key + " to combinedorders Table failed: " + error
  }

  /** The output of savecombinedorders, given the error (if any) the table
      binding raises on Add. */
  function SaveResult(request: CombineOrderRequest, addError: Option<string>): string
  {
    match addError
    case None => SavedMessage(request.entityKey)
    case Some(error) => SaveFailedMessage(request.entityKey, error)
  }

  /** The `combinedorders` table output binding (ICollector): the rows added
      so far, and the error its Add raises, if it raises one. */
  class TableCollector {
    var rows: seq<CombinedOrdersTable>
    const addError: Option<string>

    constructor (rows0: seq<CombinedOrdersTable>, failure: Option<string>)
      ensures rows == rows0 && addError == failure
    {
      rows := rows0;
      addError := failure;
    }

    method Add(row: CombinedOrdersTable) returns (error: Option<string>)
      modifies this
      ensures error == addError
      ensures rows == if addError.None? then old(rows) + [row] else old(rows)
    {
      error := addError;
      if addError.None? {
        rows := rows + [row];
      }
    }
  }

  /** The activity savecombinedorders: adds the request's row, or reports the
      error Add raised. */
  method SaveCombinedOrders(orderReceived: CombineOrderRequest, msg: TableCollector) returns (result: string)
    modifies msg
    ensures result == SaveResult(orderReceived, msg.addError)
    ensures msg.rows == old(msg.rows) + (if msg.addError.None? then [CombinedOrdersRow(orderReceived)] else [])
  {
    var combinedOrdersTable := CombinedOrdersTable(CombinedOrdersPartition, orderReceived.entityKey, orderReceived.content);
    var error := msg.Add(combinedOrdersTable);
    if error.Some? {
      return SaveFailedMessage(orderReceived.entityKey, error.value);
    }
    return SavedMessage(orderReceived.entityKey);
  }

  // ---------------------------------------------------------------------
  // deleteorders
  // ---------------------------------------------------------------------

  /** What `new CloudBlockBlob(new Uri(url)).Name` gives for a URL: the
      blob name, or the message of the exception the URI constructor raises. */
  datatype UriName = BlobName(name: string) | UriError(message: string)

  /** Where a run of deletions ends: the blobs left and the first error. */
  datatype DeleteOutcome = DeleteOutcome(remaining: set<string>, error: Option<string>)

  /** Deletes the named blobs one after the other, stopping at the first URL
      the URI constructor rejects (with its message) or the first blob that
      is not in the container (with the not-found message). */
  function DeleteInTurn(blobs: set<string>, names: seq<UriName>): (o: DeleteOutcome)
    ensures o.remaining <= blobs
    decreases |names|
  {
    if names == [] then DeleteOutcome(blobs, None)
    else match names[0]
      case UriError(message) => DeleteOutcome(blobs, Some(message))
      case BlobName(name) =>
        if name in blobs then DeleteInTurn(blobs - {name}, names[1..])
        else DeleteOutcome(blobs, Some(BlobNotFoundMessage))
  }

  /** The blob names among `names`. */
  function NamesOf(names: seq<UriName>): set<string>
    decreases |names|
  {
    if names == [] then {}
    else (if names[0].BlobName? then {names[0].name} else {}) + NamesOf(names[1..])
  }

  /** Every URL gives a name, every name is in the container, and no blob is
      named twice. */
  predicate AllDeletable(blobs: set<string>, names: seq<UriName>)
  {
    && (forall i :: 0 <= i < |names| ==> names[i].BlobName? && names[i].name in blobs)
    && (forall i, j :: 0 <= i < j < |names| ==> names[i] != names[j])
  }

  /** A run of deletions succeeds exactly when every blob is there, named by
      a valid URI, and named once. */
  lemma {:induction false} DeleteInTurnSucceedsIff(blobs: set<string>, names: seq<UriName>)
    ensures DeleteInTurn(blobs, names).error.None? <==> AllDeletable(blobs, names)
    decreases |names|
  {
    if names != [] {
      var rest := names[1..];
      if names[0].BlobName? && names[0].name in blobs {
        var name := names[0].name;
        DeleteInTurnSucceedsIff(blobs - {name}, rest);
        if AllDeletable(blobs, names) {
          forall i | 0 <= i < |rest| ensures rest[i].BlobName? && rest[i].name in blobs - {name} {
            assert rest[i] == names[i + 1] && names[0] != names[i + 1];
          }
          forall i, j | 0 <= i < j < |rest| ensures rest[i] != rest[j] {
            assert rest[i] == names[i + 1] && rest[j] == names[j + 1];
          }
        }
        if AllDeletable(blobs - {name}, rest) {
          forall i | 0 <= i < |names| ensures names[i].BlobName? && names[i].name in blobs {
            if i > 0 { assert names[i] == rest[i - 1]; }
          }
          forall i, j | 0 <= i < j < |names| ensures names[i] != names[j] {
            if i == 0 {
              assert names[j] == rest[j - 1];
            } else {
              assert names[i] == rest[i - 1] && names[j] == rest[j - 1];
            }
          }
        }
      }
    }
  }

  /** The error a failed run reports is the message of the first URL the URI
      constructor rejects, or the not-found message. */
  lemma {:induction false} DeleteInTurnErrorIsFirstFailure(blobs: set<string>, names: seq<UriName>)
    ensures var o := DeleteInTurn(blobs, names);
      o.error.Some? ==>
        o.error.value == BlobNotFoundMessage
        || exists i :: 0 <= i < |names| && names[i] == UriError(o.error.value)
    decreases |names|
  {
    if names != [] && names[0].BlobName? && names[0].name in blobs {
      DeleteInTurnErrorIsFirstFailure(blobs - {names[0].name}, names[1..]);
      var o := DeleteInTurn(blobs, names);
      if o.error.Some? && o.error.value != BlobNotFoundMessage {
        var i :| 0 <= i < |names[1..]| && names[1..][i] == UriError(o.error.value);
        assert names[i + 1] == UriError(o.error.value);
      }
    }
  }

  /** Deletion only removes blobs, and only named ones; when it succeeds it
      removes exactly the named ones. */
  lemma {:induction false} DeleteInTurnRemovesNamed(blobs: set<string>, names: seq<UriName>)
    ensures var o := DeleteInTurn(blobs, names);
      && blobs - o.remaining <= NamesOf(names)
      && (o.error.None? ==> o.remaining == blobs - NamesOf(names))
    decreases |names|
  {
    if names != [] && names[0].BlobName? && names[0].name in blobs {
      DeleteInTurnRemovesNamed(blobs - {names[0].name}, names[1..]);
    }
  }

  /** Running deletions over `a + b` is running them over `a` and, only if
      that succeeded, over `b` on what is left: the first failure ends it. */
  lemma {:induction false} DeleteInTurnStopsAtFirstFailure(blobs: set<string>, a: seq<UriName>, b: seq<UriName>)
    ensures var first := DeleteInTurn(blobs, a);
      DeleteInTurn(blobs, a + b) == if first.error.None? then DeleteInTurn(first.remaining, b) else first
    decreases |a|
  {
    if a == [] {
      assert a + b == b;
    } else {
      assert (a + b)[0] == a[0];
      assert (a + b)[1..] == a[1..] + b;
      if a[0].BlobName? && a[0].name in blobs {
        DeleteInTurnStopsAtFirstFailure(blobs - {a[0].name}, a[1..], b);
      }
    }
  }

  /** A second run over the same names fails at once: the first blob is
      already gone, so deleting an order twice reports an error. */
  lemma DeleteTwiceFails(blobs: set<string>, names: seq<UriName>)
    requires names != []
    requires DeleteInTurn(blobs, names).error.None?
    ensures var again := DeleteInTurn(DeleteInTurn(blobs, names).remaining, names);
      again.error == Some(BlobNotFoundMessage) && again.remaining == DeleteInTurn(blobs, names).remaining
  {
    DeleteInTurnSucceedsIff(blobs, names);
    DeleteInTurnRemovesNamed(blobs, names);
    assert names[0].name in NamesOf(names);
  }

  /** The container `orders`: the names of the blobs in it. */
  class BlobContainer {
    var blobs: set<string>

    constructor (blobs0: set<string>)
      ensures blobs == blobs0
    {
      blobs := blobs0;
    }

    /** blob.Delete(): removes the blob, or raises the not-found error. */
    method Delete(name: string) returns (error: Option<string>)
      modifies this
      ensures name in old(blobs) ==> error.None? && blobs == old(blobs) - {name}
      ensures name !in old(blobs) ==> error == Some(BlobNotFoundMessage) && blobs == old(blobs)
    {
      if name in blobs {
        blobs := blobs - {name};
        error := None;
      } else {
        error := Some(BlobNotFoundMessage);
      }
    }
  }

  /** The three names DeleteOrders deletes, in order. */
  function DeleteNames(request: CombineOrderRequest, nameOf: string -> UriName): seq<UriName>
  {
    [nameOf(request.headerURL), nameOf(request.lineItemsURL), nameOf(request.productionInformationURL)]
  }

  function DeletedMessage(key: string): string
  {
    "Deleting CombinedOrders " + key + " completed."
  }

  function DeleteFailedMessage(key: string, error: string): string
  {
    "Deleting order " + key + " from blob storage failed: " + error
  }

  /** The output of deleteorders for a given run of deletions. */
  function DeleteResult(request: CombineOrderRequest, outcome: DeleteOutcome): string
  {
    match outcome.error
    case None => DeletedMessage(request.entityKey)
    case Some(error) => DeleteFailedMessage(request.entityKey, error)
  }

  /** The activity deleteorders. */
  method DeleteOrders(orderReceived: CombineOrderRequest, blobContainer: BlobContainer, nameOf: string -> UriName)
    returns (result: string)
    modifies blobContainer
    ensures var outcome := DeleteInTurn(old(blobContainer.blobs), DeleteNames(orderReceived, nameOf));
      && blobContainer.blobs == outcome.remaining
      && result == DeleteResult(orderReceived, outcome)
  {
    var key := orderReceived.entityKey;
    ghost var names := DeleteNames(orderReceived, nameOf);
    assert names[1..][1..] == names[2..] && names[2..][1..] == [];

    var name := nameOf(orderReceived.headerURL);
    if name.UriError? {
      return DeleteFailedMessage(key, name.message);
    }
    var error := blobContainer.Delete(name.name);
    if error.Some? {
      return DeleteFailedMessage(key, error.value);
    }

    assert DeleteInTurn(old(blobContainer.blobs), names) == DeleteInTurn(blobContainer.blobs, names[1..]);
    name := nameOf(orderReceived.lineItemsURL);
    if name.UriError? {
      return DeleteFailedMessage(key, name.message);
    }
    error := blobContainer.Delete(name.name);
    if error.Some? {
      return DeleteFailedMessage(key, error.value);
    }

    assert DeleteInTurn(old(blobContainer.blobs), names) == DeleteInTurn(blobContainer.blobs, names[2..]);
    name := nameOf(orderReceived.productionInformationURL);
    if name.UriError? {
      return DeleteFailedMessage(key, name.message);
    }
    error := blobContainer.Delete(name.name);
    if error.Some? {
      return DeleteFailedMessage(key, error.value);
    }
    assert DeleteInTurn(old(blobContainer.blobs), names) == DeleteInTurn(blobContainer.blobs, []);
    return DeletedMessage(key);
  }

  /** Three distinct blobs that are all there are all deleted, and nothing
      else is. */
  /** Deleting a present blob and then the rest is deleting the rest from
      what is left. */
  lemma DeleteInTurnStep(blobs: set<string>, name: string, rest: seq<UriName>)
    requires name in blobs
    ensures DeleteInTurn(blobs, [BlobName(name)] + rest) == DeleteInTurn(blobs - {name}, rest)
  {
    assert ([BlobName(name)] + rest)[1..] == rest;
  }

  lemma ThreeDistinctBlobsDeleted(blobs: set<string>, request: CombineOrderRequest, nameOf: string -> UriName,
                                  h: string, l: string, p: string)
    requires DeleteNames(request, nameOf) == [BlobName(h), BlobName(l), BlobName(p)]
    requires h in blobs && l in blobs && p in blobs
    requires h != l && l != p && h != p
    ensures DeleteInTurn(blobs, DeleteNames(request, nameOf)) == DeleteOutcome(blobs - {h, l, p}, None)
  {
    assert [BlobName(h), BlobName(l), BlobName(p)] == [BlobName(h)] + ([BlobName(l)] + ([BlobName(p)] + []));
    DeleteInTurnStep(blobs, h, [BlobName(l)] + ([BlobName(p)] + []));
    DeleteInTurnStep(blobs - {h}, l, [BlobName(p)] + []);
    DeleteInTurnStep(blobs - {h} - {l}, p, []);
    assert blobs - {h} - {l} - {p} == blobs - {h, l, p};
  }

  // ---------------------------------------------------------------------
  // combineorder
  // ---------------------------------------------------------------------

  /** The request the activities receive after a successful merge: the
      entity's request with the posted JSON as its content. */
  function MergedRequest(request: CombineOrderRequest): (merged: CombineOrderRequest)
    ensures merged.entityKey == request.entityKey
    ensures && merged.headerURL == request.headerURL && merged.lineItemsURL == request.lineItemsURL
            && merged.productionInformationURL == request.productionInformationURL
    ensures merged.content == Some(JsonOf(CombineOrderContent(request.headerURL, request.lineItemsURL, request.productionInformationURL)))
  {
    request.(content := Some(JsonOf(MergePayload(request))))
  }

  /** The request handed to the activities carries the entity's key and
      URLs, and its content is exactly the JSON posted to the merge
      endpoint, which lists the three URLs of the completed order. */
  lemma MergedRequestOfCompleteOrder(s: JoinState)
    requires Consistent(s) && s.isCheckOrderReceived
    ensures OrderRequest(s).Some?
    ensures var merged := MergedRequest(OrderRequest(s).value);
      && merged.entityKey == s.id
      && merged.content == Some(JsonOf(CombineOrderContent(s.headerURL.value, s.lineItemsURL.value, s.productInformationURL.value)))
      && CombinedOrdersRow(merged) == CombinedOrdersTable(CombinedOrdersPartition, s.id, merged.content)
  {
  }

  /** The orchestrator. `entity` is the OrderReceived entity keyed by
      `batchPrefix`; `mergeStatus` is the status code the merge endpoint
      answers with; `posted` is the JSON body sent to it, if any. */
  method RunOrchestrator(batchPrefix: string, entity: OrderReceived, mergeStatus: int,
                         msg: TableCollector, blobContainer: BlobContainer, nameOf: string -> UriName)
    returns (outputs: seq<string>, posted: Option<JsonText>)
    requires entity.Valid() && entity.id == batchPrefix
    modifies msg, blobContainer
    ensures var request := OrderRequest(entity.State());
      && (posted.Some? <==> request.Some?)
      && (request.Some? ==> posted == Some(JsonOf(MergePayload(request.value))))
    ensures var request := OrderRequest(entity.State());
      (request.None? || mergeStatus != StatusOK) ==>
        && outputs == []
        && msg.rows == old(msg.rows)
        && blobContainer.blobs == old(blobContainer.blobs)
    ensures var request := OrderRequest(entity.State());
      (request.Some? && mergeStatus == StatusOK) ==>
        var merged := MergedRequest(request.value);
        var deletion := DeleteInTurn(old(blobContainer.blobs), DeleteNames(merged, nameOf));
        && outputs == [SaveResult(merged, msg.addError), DeleteResult(merged, deletion)]
        && msg.rows == old(msg.rows) + (if msg.addError.None? then [CombinedOrdersRow(merged)] else [])
        && blobContainer.blobs == deletion.remaining
  {
    outputs := [];
    posted := None;
    var orderReceived := entity.CheckOrderReceived();
    if orderReceived.Some? {
      var request := orderReceived.value;
      var content := CombineOrderContent(request.headerURL, request.lineItemsURL, request.productionInformationURL);
      var json := JsonOf(content);
      posted := Some(json);
      if mergeStatus == StatusOK {
        request := request.(content := Some(json));
        var saved := SaveCombinedOrders(request, msg);
        outputs := outputs + [saved];
        var deleted := DeleteOrders(request, blobContainer, nameOf);
        outputs := outputs + [deleted];
      }
    }
  }
}
