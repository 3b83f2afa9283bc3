/**
 * The HTTP entry point `processorder`, which Event Grid calls with a JSON
 * array of events. It answers BadRequest unless the array holds exactly one
 * event (two or more make SingleOrDefault throw), echoes the validation code
 * of a subscription-validation event, and otherwise answers Accepted. For a
 * PutBlob BlobCreated event whose URL parses, it first signals the order's
 * entity (for one of the three known file types) and then starts the
 * `combineorder` orchestration with the batch prefix as input.
 *
 * The durable-functions clients are one DurableClient object that records
 * the signals and starts in the order they are made.
 */
module ProcessOrder {
  import opened Wrappers
  import opened BlobUrl
  import opened OrderJoin

  const SubscriptionValidationEvent: string := "Microsoft.EventGrid.SubscriptionValidationEvent"
  const BlobCreatedEvent: string := "Microsoft.Storage.BlobCreated"
  const PutBlobApi: string := "PutBlob"
  const OrchestratorName: string := "combineorder"
  const EntityName: string := "OrderReceived"
  const NotOneItemMessage: string := "Expecting one item in the Event Grid message."

  /** The `data` object of an event: the storage API that wrote the blob, the
      blob URL (None where the JSON has no `url`, which makes Parse throw) and
      the subscription-validation code. */
  datatype EventData = EventData(api: string, url: Option<string>, validationCode: string)

  /** One Event Grid event. */
  datatype EventGridEvent = EventGridEvent(eventType: string, data: EventData)

  /** The request body as JSON deserialisation leaves it. */
  datatype RequestBody =
    | MalformedJson                        // DeserializeObject throws
    | NotAnArray                           // `data as JArray` is null
    | EventArray(items: seq<EventGridEvent>)

  /** The function's answer; Faulted stands for an exception that escapes
      Run, which the host turns into a server error. */
  datatype ActionResult = BadRequest(message: string) | Ok(body: string) | Accepted | Faulted

  datatype EntityId = EntityId(name: string, key: string)

  /** What Run asks of the durable-functions runtime. */
  datatype Effect =
    | SignalEntity(entity: EntityId, signal: Signal)
    | StartNew(orchestrator: string, input: string)

  /** The body of the answer to a subscription-validation event. */
  const ValidationOpen: string := "{\"validationResponse\" : \""
  const ValidationClose: string := "\"}"

  /** The body echoes the code between the fixed opening and closing text,
      so the code can be read back from it. */
  function ValidationResponse(code: string): (body: string)
    ensures |body| == |ValidationOpen| + |code| + |ValidationClose|
    ensures body[..|ValidationOpen|] == ValidationOpen
    ensures body[|ValidationOpen|..|body| - |ValidationClose|] == code
    ensures body[|body| - |ValidationClose|..] == ValidationClose
  {
    ValidationOpen + code + ValidationClose
  }

  /** The file-type tag that selects each entity operation. */
  function TagOf(op: Operation): (tag: string)
    ensures tag == "OrderHeaderDetails" <==> op == HeaderReceived
    ensures tag == "OrderLineItems" <==> op == LineItemsReceived
    ensures tag == "ProductInformation" <==> op == ProductInformationReceived
  {
    match op
    case HeaderReceived => "OrderHeaderDetails"
    case LineItemsReceived => "OrderLineItems"
    case ProductInformationReceived => "ProductInformation"
  }

  /** ParseEventGridPayload: the parsed blob URL of a PutBlob BlobCreated
      event, or None. A URL that is missing or does not parse is caught
      inside and gives None as well. */
  function ParseEventGridPayload(item: EventGridEvent): (r: Option<OrderBlobAttributes>)
    ensures r.Some? ==> && item.eventType == BlobCreatedEvent && item.data.api == PutBlobApi
                        && item.data.url.Some? && Parse(item.data.url.value) == r
  {
    if item.eventType == BlobCreatedEvent && item.data.api == PutBlobApi then
      match item.data.url
      case None => None
      case Some(url) => Parse(url)
    else None
  }

  /** ParseEventGridPayload accepts exactly the PutBlob BlobCreated events
      whose URL the expression matches, and returns the match's groups. */
  lemma ParseEventGridPayloadIsMatch(item: EventGridEvent)
    ensures var r := ParseEventGridPayload(item);
      && (r.Some? ==> && item.eventType == BlobCreatedEvent && item.data.api == PutBlobApi
                      && item.data.url.Some? && RegexMatches(item.data.url.value, r.value))
      && (r.None? <==> || item.eventType != BlobCreatedEvent || item.data.api != PutBlobApi
                       || item.data.url.None?
                       || forall a :: !RegexMatches(item.data.url.value, a))
  {
    if item.data.url.Some? {
      ParseNoneIsNoMatch(item.data.url.value);
      if Parse(item.data.url.value).Some? {
        ParseSound(item.data.url.value);
      }
    }
  }

  /** The switch on Filetype: the signal for one of the three known tags
      (matched exactly, case-sensitively), carrying the full URL. */
  function SignalFor(file: OrderBlobAttributes): (r: Option<Signal>)
    ensures r.Some? <==> exists op :: TagOf(op) == file.Filetype
    ensures r.Some? ==> TagOf(r.value.op) == file.Filetype && r.value.url == file.FullUrl
  {
    if file.Filetype == "OrderHeaderDetails" then
      assert TagOf(HeaderReceived) == file.Filetype;
      Some(Signal(HeaderReceived, file.FullUrl))
    else if file.Filetype == "OrderLineItems" then
      assert TagOf(LineItemsReceived) == file.Filetype;
      Some(Signal(LineItemsReceived, file.FullUrl))
    else if file.Filetype == "ProductInformation" then
      assert TagOf(ProductInformationReceived) == file.Filetype;
      Some(Signal(ProductInformationReceived, file.FullUrl))
    else TagOfIsKnown(); None
  }

  lemma TagOfIsKnown()
    ensures forall op :: TagOf(op) in {"OrderHeaderDetails", "OrderLineItems", "ProductInformation"}
  {
    forall op ensures TagOf(op) in {"OrderHeaderDetails", "OrderLineItems", "ProductInformation"} {
      match op
      case HeaderReceived =>
      case LineItemsReceived =>
      case ProductInformationReceived =>
    }
  }

  /** The switch selects `op` exactly for a file tagged for `op`. */
  lemma SignalForSelects(file: OrderBlobAttributes, op: Operation)
    ensures file.Filetype == TagOf(op) <==> SignalFor(file).Some? && SignalFor(file).value.op == op
  {
    match op
    case HeaderReceived =>
    case LineItemsReceived =>
    case ProductInformationReceived =>
  }

  /** What Run asks of the runtime for one event that is neither a batch
      error nor a validation event: nothing if the event does not parse;
      otherwise at most one signal to the entity keyed by the batch prefix,
      and then, always, the start of the orchestration with that prefix, even
      for an unknown file type. */
  function AcceptedEffects(item: EventGridEvent): (e: seq<Effect>)
    ensures e == [] <==> ParseEventGridPayload(item).None?
    ensures e != [] ==> var file := ParseEventGridPayload(item).value;
      && e[|e| - 1] == StartNew(OrchestratorName, file.BatchPrefix)
      && (|e| == 2 <==> SignalFor(file).Some?)
      && |e| <= 2
      && (|e| == 2 ==> e[0] == SignalEntity(EntityId(EntityName, file.BatchPrefix), SignalFor(file).value))
  {
    match ParseEventGridPayload(item)
    case None => []
    case Some(file) =>
      var signal := match SignalFor(file)
        case None => []
        case Some(sig) => [SignalEntity(EntityId(EntityName, file.BatchPrefix), sig)];
      signal + [StartNew(OrchestratorName, file.BatchPrefix)]
  }

  /** IDurableEntityClient and IDurableClient: they only record requests. */
  class DurableClient {
    var effects: seq<Effect>

    constructor ()
      ensures effects == []
    {
      effects := [];
    }

    method SignalEntityAsync(entity: EntityId, signal: Signal)
      modifies this
      ensures effects == old(effects) + [SignalEntity(entity, signal)]
    {
      effects := effects + [SignalEntity(entity, signal)];
    }

    method StartNewAsync(orchestrator: string, input: string)
      modifies this
      ensures effects == old(effects) + [StartNew(orchestrator, input)]
    {
      effects := effects + [StartNew(orchestrator, input)];
    }
  }

  /** A validation event is not a BlobCreated event, so it parses to nothing. */
  lemma ValidationEventHasNoEffects(item: EventGridEvent)
    requires item.eventType == SubscriptionValidationEvent
    ensures AcceptedEffects(item) == []
  {
    assert SubscriptionValidationEvent[10] != BlobCreatedEvent[10];
  }

  /** The part of Run after the validation check: parse the event and, for
      an order file, signal its entity and start the orchestration. */
  method DispatchUpload(item: EventGridEvent, client: DurableClient)
    modifies client
    ensures client.effects == old(client.effects) + AcceptedEffects(item)
  {
    var orderFile := ParseEventGridPayload(item);
    if orderFile.Some? {
      var file := orderFile.value;
      var entityId := EntityId(EntityName, file.BatchPrefix);
      var signal := SignalFor(file);
      if signal.Some? {
        client.SignalEntityAsync(entityId, signal.value);
      }
      client.StartNewAsync(OrchestratorName, file.BatchPrefix);
    }
  }

  /** The HTTP-triggered function. */
  method Run(body: RequestBody, client: DurableClient) returns (result: ActionResult)
    modifies client
    ensures (body.MalformedJson? || (body.EventArray? && |body.items| > 1))
            ==> result == Faulted && client.effects == old(client.effects)
    ensures (body.NotAnArray? || body == EventArray([]))
            ==> result == BadRequest(NotOneItemMessage) && client.effects == old(client.effects)
    ensures body.EventArray? && |body.items| == 1 && body.items[0].eventType == SubscriptionValidationEvent
            ==> result == Ok(ValidationResponse(body.items[0].data.validationCode))
                && client.effects == old(client.effects)
    ensures body.EventArray? && |body.items| == 1 && body.items[0].eventType != SubscriptionValidationEvent
            ==> result == Accepted && client.effects == old(client.effects) + AcceptedEffects(body.items[0])
    ensures body.EventArray? && |body.items| == 1
            ==> client.effects == old(client.effects) + AcceptedEffects(body.items[0])
  {
    if body.MalformedJson? {
      return Faulted;
    }
    if body.NotAnArray? {
      return BadRequest(NotOneItemMessage);
    }
    if |body.items| > 1 {
      return Faulted;
    }
    if |body.items| == 0 {
      return BadRequest(NotOneItemMessage);
    }
    var eventGridSoleItem := body.items[0];
    if eventGridSoleItem.eventType == SubscriptionValidationEvent {
      ValidationEventHasNoEffects(eventGridSoleItem);
      return Ok(ValidationResponse(eventGridSoleItem.data.validationCode));
    }
    DispatchUpload(eventGridSoleItem, client);
    return Accepted;
  }

  // ---------------------------------------------------------------------
  // A series of uploads
  // ---------------------------------------------------------------------

  /** The trace Run leaves for a series of requests that carry one event
      each (see Run's last ensures). */
  function TraceOf(items: seq<EventGridEvent>): seq<Effect>
    decreases |items|
  {
    if items == [] then [] else TraceOf(items[..|items| - 1]) + AcceptedEffects(items[|items| - 1])
  }

  /** The signals a trace sends to the entity keyed `key`, in order. */
  function SignalsTo(key: string, effects: seq<Effect>): seq<Signal>
    decreases |effects|
  {
    if effects == [] then []
    else
      var last := match effects[|effects| - 1]
        case SignalEntity(entity, sig) => if entity == EntityId(EntityName, key) then [sig] else []
        case StartNew(_, _) => [];
      SignalsTo(key, effects[..|effects| - 1]) + last
  }

  /** The event is a parsed upload of batch `key` tagged for `op`. */
  predicate UploadFor(key: string, item: EventGridEvent, op: Operation)
  {
    && ParseEventGridPayload(item).Some?
    && ParseEventGridPayload(item).value.BatchPrefix == key
    && ParseEventGridPayload(item).value.Filetype == TagOf(op)
  }

  /** Some event of the series is a parsed upload of batch `key` tagged for `op`. */
  predicate Uploaded(key: string, items: seq<EventGridEvent>, op: Operation)
  {
    exists i :: 0 <= i < |items| && UploadFor(key, items[i], op)
  }

  lemma {:induction false} SignalsToConcat(key: string, a: seq<Effect>, b: seq<Effect>)
    ensures SignalsTo(key, a + b) == SignalsTo(key, a) + SignalsTo(key, b)
    decreases |b|
  {
    if b == [] {
      assert a + b == a;
    } else {
      var init := b[..|b| - 1];
      assert (a + b)[..|a + b| - 1] == a + init;
      assert (a + b)[|a + b| - 1] == b[|b| - 1];
      SignalsToConcat(key, a, init);
    }
  }

  lemma SignalsToStart(key: string, start: Effect)
    requires start.StartNew?
    ensures SignalsTo(key, [start]) == []
  {
    assert [start][..0] == [];
  }

  lemma SignalsToSignalThenStart(key: string, signal: Effect, start: Effect)
    requires signal.SignalEntity? && start.StartNew?
    ensures SignalsTo(key, [signal, start])
         == if signal.entity == EntityId(EntityName, key) then [signal.signal] else []
  {
    assert [signal, start][..1] == [signal];
    SignalsToStart(key, start);
    assert [signal][..0] == [];
    assert SignalsTo(key, [signal]) == SignalsTo(key, []) + (if signal.entity == EntityId(EntityName, key) then [signal.signal] else []);
  }

  /** The signals one event sends to the entity keyed `key`: the switch's
      signal, when the event parses, its prefix is `key` and its tag is known. */
  lemma SignalsOfAccepted(key: string, item: EventGridEvent)
    ensures SignalsTo(key, AcceptedEffects(item))
         == if && ParseEventGridPayload(item).Some? && ParseEventGridPayload(item).value.BatchPrefix == key
               && SignalFor(ParseEventGridPayload(item).value).Some?
            then [SignalFor(ParseEventGridPayload(item).value).value]
            else []
  {
    match ParseEventGridPayload(item)
    case None =>
    case Some(file) =>
      var start := StartNew(OrchestratorName, file.BatchPrefix);
      match SignalFor(file)
      case None =>
        assert AcceptedEffects(item) == [start];
        SignalsToStart(key, start);
      case Some(sig) =>
        var signal := SignalEntity(EntityId(EntityName, file.BatchPrefix), sig);
        assert AcceptedEffects(item) == [signal, start];
        SignalsToSignalThenStart(key, signal, start);
  }

  /** One event sends the entity keyed `key` an operation exactly when it is
      a parsed upload of that batch tagged for the operation. */
  lemma SignalsOfOneEvent(key: string, item: EventGridEvent, op: Operation)
    ensures op in Kinds(SignalsTo(key, AcceptedEffects(item))) <==> UploadFor(key, item, op)
  {
    SignalsOfAccepted(key, item);
    var sigs := SignalsTo(key, AcceptedEffects(item));
    if ParseEventGridPayload(item).Some? {
      SignalForSelects(ParseEventGridPayload(item).value, op);
    }
    if sigs == [] {
      assert Kinds(sigs) == {};
    } else {
      assert Kinds(sigs) == {sigs[0].op};
    }
  }

  lemma UploadedSnoc(key: string, init: seq<EventGridEvent>, last: EventGridEvent, op: Operation)
    ensures Uploaded(key, init + [last], op) <==> Uploaded(key, init, op) || UploadFor(key, last, op)
  {
    if Uploaded(key, init + [last], op) {
      UploadedSnocSplits(key, init, last, op);
    }
    if Uploaded(key, init, op) {
      var i :| 0 <= i < |init| && UploadFor(key, init[i], op);
      assert (init + [last])[i] == init[i];
    }
    if UploadFor(key, last, op) {
      assert (init + [last])[|init|] == last;
    }
  }

  lemma UploadedSnocSplits(key: string, init: seq<EventGridEvent>, last: EventGridEvent, op: Operation)
    requires Uploaded(key, init + [last], op)
    ensures Uploaded(key, init, op) || UploadFor(key, last, op)
  {
    var items := init + [last];
    var i :| 0 <= i < |items| && UploadFor(key, items[i], op);
    if i < |init| {
      assert init[i] == items[i];
    } else {
      assert items[i] == last;
    }
  }

  lemma KindsConcat(a: seq<Signal>, b: seq<Signal>)
    ensures Kinds(a + b) == Kinds(a) + Kinds(b)
  {
    var ab := a + b;
    forall op | op in Kinds(ab) ensures op in Kinds(a) + Kinds(b) {
      var i :| 0 <= i < |ab| && ab[i].op == op;
      if i < |a| { assert a[i] == ab[i]; } else { assert b[i - |a|] == ab[i]; }
    }
    forall op | op in Kinds(a) ensures op in Kinds(ab) {
      var i :| 0 <= i < |a| && a[i].op == op;
      assert ab[i] == a[i];
    }
    forall op | op in Kinds(b) ensures op in Kinds(ab) {
      var i :| 0 <= i < |b| && b[i].op == op;
      assert ab[|a| + i] == b[i];
    }
  }

  /** Over a series of requests, the entity keyed `key` is sent an operation
      exactly when some event is a parsed upload of that batch tagged for it. */
  lemma {:induction false} KindsSentTo(key: string, items: seq<EventGridEvent>, op: Operation)
    ensures op in Kinds(SignalsTo(key, TraceOf(items))) <==> Uploaded(key, items, op)
    decreases |items|
  {
    if items == [] {
      assert Kinds([]) == {};
    } else {
      var init, last := items[..|items| - 1], items[|items| - 1];
      assert items == init + [last];
      KindsSentTo(key, init, op);
      UploadedSnoc(key, init, last, op);
      SignalsOfOneEvent(key, last, op);
      SignalsToConcat(key, TraceOf(init), AcceptedEffects(last));
      KindsConcat(SignalsTo(key, TraceOf(init)), SignalsTo(key, AcceptedEffects(last)));
    }
  }

  /** The entity of batch `key`, fed the signals Run sends it over a series
      of requests, is complete exactly when files of all three types with
      that batch prefix have been uploaded (in any order, with repeats, and
      whatever else was uploaded in between). */
  lemma UploadsCompleteOrderIff(key: string, items: seq<EventGridEvent>)
    ensures ReceiveAll(Fresh(key), SignalsTo(key, TraceOf(items))).isCheckOrderReceived
            <==> forall op :: Uploaded(key, items, op)
  {
    var sigs := SignalsTo(key, TraceOf(items));
    KindsSentTo(key, items, HeaderReceived);
    KindsSentTo(key, items, LineItemsReceived);
    KindsSentTo(key, items, ProductInformationReceived);
    CompleteIffAllKindsArrived(key, sigs);
    AllKindsIff(sigs);
  }

}
