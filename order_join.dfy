/**
 * The OrderReceived durable entity: one per order, keyed by the batch prefix.
 * It has three "received" slots (a flag and a URL each) and a completion flag.
 * The gateway fills the slots by signalling HeaderReceived, LineItemsReceived
 * or ProductInformationReceived; each of them re-checks completion. The
 * orchestrator asks CheckOrderReceived, which builds a merge request only once
 * the order is complete.
 *
 * JoinState is the entity's persisted state as a value and Receive its
 * transition; the class OrderReceived updates the same fields in place and is
 * proved to follow Receive.
 */
module OrderJoin {
  import opened Wrappers
  import opened CombineOrderRecords

  /** The three entity operations the gateway signals. */
  datatype Operation = HeaderReceived | LineItemsReceived | ProductInformationReceived

  const AllOperations: set<Operation> := {HeaderReceived, LineItemsReceived, ProductInformationReceived}

  /** One signal: the operation and its URL argument. */
  datatype Signal = Signal(op: Operation, url: string)

  /** The entity's fields (its persisted JSON properties). A URL that C#
      leaves null is None. */
  datatype JoinState = JoinState(
    id: string,
    header: bool,
    headerURL: Option<string>,
    lineItems: bool,
    lineItemsURL: Option<string>,
    productInformation: bool,
    productInformationURL: Option<string>,
    isCheckOrderReceived: bool)

  /** The state the constructor creates for the entity keyed `id`. */
  function Fresh(id: string): JoinState
  {
    JoinState(id, false, None, false, None, false, None, false)
  }

  /** The flag of the slot `op` fills. */
  function Received(s: JoinState, op: Operation): bool
  {
    match op
    case HeaderReceived => s.header
    case LineItemsReceived => s.lineItems
    case ProductInformationReceived => s.productInformation
  }

  /** The URL of the slot `op` fills. */
  function UrlOf(s: JoinState, op: Operation): Option<string>
  {
    match op
    case HeaderReceived => s.headerURL
    case LineItemsReceived => s.lineItemsURL
    case ProductInformationReceived => s.productInformationURL
  }

  predicate AllReceived(s: JoinState)
  {
    s.header && s.lineItems && s.productInformation
  }

  /** What holds of every state the entity reaches: a slot's flag is set
      exactly when its URL is, and the order is complete exactly when all
      three flags are set. */
  predicate Consistent(s: JoinState)
  {
    && (s.header <==> s.headerURL.Some?)
    && (s.lineItems <==> s.lineItemsURL.Some?)
    && (s.productInformation <==> s.productInformationURL.Some?)
    && (s.isCheckOrderReceived <==> AllReceived(s))
  }

  /** CheckIfOrderReceived: sets the completion flag once all three flags are
      set, and never clears it. */
  function CompletionChecked(s: JoinState): (t: JoinState)
    ensures t.isCheckOrderReceived == (s.isCheckOrderReceived || AllReceived(s))
    ensures t == s.(isCheckOrderReceived := t.isCheckOrderReceived)
  {
    if AllReceived(s) then s.(isCheckOrderReceived := true) else s
  }

  /** One entity operation: fill the slot, then re-check completion. */
  function Receive(s: JoinState, sig: Signal): (t: JoinState)
    ensures Received(t, sig.op) && UrlOf(t, sig.op) == Some(sig.url)
    ensures forall op :: op != sig.op ==> Received(t, op) == Received(s, op) && UrlOf(t, op) == UrlOf(s, op)
    ensures t.id == s.id
    ensures t.isCheckOrderReceived == (s.isCheckOrderReceived || AllReceived(t))
    ensures Consistent(s) ==> Consistent(t)
  {
    var filled :=
      match sig.op
      case HeaderReceived => s.(header := true, headerURL := Some(sig.url))
      case LineItemsReceived => s.(lineItems := true, lineItemsURL := Some(sig.url))
      case ProductInformationReceived => s.(productInformation := true, productInformationURL := Some(sig.url));
    CompletionChecked(filled)
  }

  /** CheckOrderReceived: the merge request for a complete order, else null.
      The request carries the entity's key and its three current URLs; its
      content stays unset. */
  function OrderRequest(s: JoinState): (r: Option<CombineOrderRequest>)
    requires Consistent(s)
    ensures r.Some? <==> s.isCheckOrderReceived
    ensures r.Some? ==> && r.value.entityKey == s.id
                        && s.headerURL == Some(r.value.headerURL)
                        && s.lineItemsURL == Some(r.value.lineItemsURL)
                        && s.productInformationURL == Some(r.value.productionInformationURL)
                        && r.value.content.None?
  {
    if s.isCheckOrderReceived then
      Some(CombineOrderRequest(s.id, s.headerURL.value, s.lineItemsURL.value, s.productInformationURL.value, None))
    else None
  }

  // ---------------------------------------------------------------------
  // Sequences of signals
  // ---------------------------------------------------------------------

  /** The state after the signals `sigs`, applied in order, to `s`. */
  function ReceiveAll(s: JoinState, sigs: seq<Signal>): JoinState
    decreases |sigs|
  {
    if sigs == [] then s else Receive(ReceiveAll(s, sigs[..|sigs| - 1]), sigs[|sigs| - 1])
  }

  /** The operations that occur in `sigs`. */
  function Kinds(sigs: seq<Signal>): set<Operation>
  {
    set i | 0 <= i < |sigs| :: sigs[i].op
  }

  /** The URL of the last signal of kind `op` in `sigs`. */
  function Latest(sigs: seq<Signal>, op: Operation): Option<string>
    decreases |sigs|
  {
    if sigs == [] then None
    else if sigs[|sigs| - 1].op == op then Some(sigs[|sigs| - 1].url)
    else Latest(sigs[..|sigs| - 1], op)
  }

  /** `t` is the entity `id` after exactly the signals `sigs`: every slot that
      some signal names is filled with the URL of the last such signal, no
      other slot is, and the order is complete iff all three kinds occurred. */
  ghost predicate Describes(t: JoinState, id: string, sigs: seq<Signal>)
  {
    && t.id == id
    && Consistent(t)
    && (forall op :: Received(t, op) == (op in Kinds(sigs)))
    && (forall op :: UrlOf(t, op) == Latest(sigs, op))
    && (t.isCheckOrderReceived <==> Kinds(sigs) == AllOperations)
  }

  lemma {:induction false} KindsSnoc(sigs: seq<Signal>, sig: Signal)
    ensures Kinds(sigs + [sig]) == Kinds(sigs) + {sig.op}
  {
    var all := sigs + [sig];
    forall op | op in Kinds(all) ensures op in Kinds(sigs) + {sig.op} {
      var i :| 0 <= i < |all| && all[i].op == op;
      if i < |sigs| { assert sigs[i] == all[i]; }
    }
    forall op | op in Kinds(sigs) ensures op in Kinds(all) {
      var i :| 0 <= i < |sigs| && sigs[i].op == op;
      assert all[i] == sigs[i];
    }
    assert all[|sigs|] == sig;
  }

  lemma AllKindsIff(sigs: seq<Signal>)
    ensures Kinds(sigs) == AllOperations
            <==> HeaderReceived in Kinds(sigs) && LineItemsReceived in Kinds(sigs) && ProductInformationReceived in Kinds(sigs)
  {
    forall op | op in Kinds(sigs) ensures op in AllOperations {
      assert op.HeaderReceived? || op.LineItemsReceived? || op.ProductInformationReceived?;
    }
  }

  /** Starting from the fresh entity, any sequence of signals leads to the
      state Describes gives: the entity's whole state is a function of which
      kinds arrived and the last URL of each kind. */
  lemma {:induction false} ReceiveAllFromFresh(id: string, sigs: seq<Signal>)
    ensures Describes(ReceiveAll(Fresh(id), sigs), id, sigs)
    decreases |sigs|
  {
    if sigs == [] {
      assert Kinds(sigs) == {};
    } else {
      var init, last := sigs[..|sigs| - 1], sigs[|sigs| - 1];
      assert sigs == init + [last];
      ReceiveAllFromFresh(id, init);
      KindsSnoc(init, last);
      var s := ReceiveAll(Fresh(id), init);
      var t := Receive(s, last);
      assert t == ReceiveAll(Fresh(id), sigs);
      forall op ensures UrlOf(t, op) == Latest(sigs, op) {
        if op != last.op { assert UrlOf(t, op) == UrlOf(s, op); }
      }
      assert Received(t, HeaderReceived) && Received(t, LineItemsReceived) && Received(t, ProductInformationReceived)
             <==> AllReceived(t);
      AllKindsIff(sigs);
    }
  }

  /** The order completes once each of the three kinds has arrived at least
      once, in any order and with any duplicates, and not before. */
  lemma CompleteIffAllKindsArrived(id: string, sigs: seq<Signal>)
    ensures ReceiveAll(Fresh(id), sigs).isCheckOrderReceived <==> Kinds(sigs) == AllOperations
  {
    ReceiveAllFromFresh(id, sigs);
  }

  lemma LatestSomeIffKind(sigs: seq<Signal>, op: Operation)
    ensures Latest(sigs, op).Some? <==> op in Kinds(sigs)
    decreases |sigs|
  {
    if sigs != [] {
      var init, last := sigs[..|sigs| - 1], sigs[|sigs| - 1];
      assert sigs == init + [last];
      KindsSnoc(init, last);
      LatestSomeIffKind(init, op);
    }
  }

  /** Arrival order does not matter: two signal sequences with the same last
      URL for each kind leave the entity in the same state. */
  lemma {:induction false} ArrivalOrderIrrelevant(id: string, a: seq<Signal>, b: seq<Signal>)
    requires forall op :: Latest(a, op) == Latest(b, op)
    ensures ReceiveAll(Fresh(id), a) == ReceiveAll(Fresh(id), b)
  {
    ReceiveAllFromFresh(id, a);
    ReceiveAllFromFresh(id, b);
    forall op ensures op in Kinds(a) <==> op in Kinds(b) {
      LatestSomeIffKind(a, op);
      LatestSomeIffKind(b, op);
    }
    assert Kinds(a) == Kinds(b);
    var s, t := ReceiveAll(Fresh(id), a), ReceiveAll(Fresh(id), b);
    assert UrlOf(s, HeaderReceived) == UrlOf(t, HeaderReceived);
    assert UrlOf(s, LineItemsReceived) == UrlOf(t, LineItemsReceived);
    assert UrlOf(s, ProductInformationReceived) == UrlOf(t, ProductInformationReceived);
    assert Received(s, HeaderReceived) == Received(t, HeaderReceived);
    assert Received(s, LineItemsReceived) == Received(t, LineItemsReceived);
    assert Received(s, ProductInformationReceived) == Received(t, ProductInformationReceived);
  }

  /** Completion does not depend on the order of the arrivals: any
      rearrangement of the same signals completes the order or not alike. */
  lemma {:induction false} CompletionIgnoresOrder(id: string, a: seq<Signal>, b: seq<Signal>)
    requires multiset(a) == multiset(b)
    ensures ReceiveAll(Fresh(id), a).isCheckOrderReceived == ReceiveAll(Fresh(id), b).isCheckOrderReceived
  {
    CompleteIffAllKindsArrived(id, a);
    CompleteIffAllKindsArrived(id, b);
    forall op | op in Kinds(a) ensures op in Kinds(b) {
      var i :| 0 <= i < |a| && a[i].op == op;
      assert a[i] in multiset(b);
      var j :| 0 <= j < |b| && b[j] == a[i];
    }
    forall op | op in Kinds(b) ensures op in Kinds(a) {
      var j :| 0 <= j < |b| && b[j].op == op;
      assert b[j] in multiset(a);
      var i :| 0 <= i < |a| && a[i] == b[j];
    }
  }

  /** No sequence of signals clears a received flag or the completion flag. */
  lemma {:induction false} ReceiveAllMonotone(s: JoinState, sigs: seq<Signal>)
    ensures var t := ReceiveAll(s, sigs);
      && (forall op :: Received(s, op) ==> Received(t, op))
      && (s.isCheckOrderReceived ==> t.isCheckOrderReceived)
    decreases |sigs|
  {
    if sigs != [] {
      ReceiveAllMonotone(s, sigs[..|sigs| - 1]);
    }
  }

  /** A duplicate signal of the same kind overwrites the URL (the latest wins)
      and changes nothing else. */
  lemma LatestUrlWins(s: JoinState, op: Operation, first: string, second: string)
    ensures Receive(Receive(s, Signal(op, first)), Signal(op, second)) == Receive(s, Signal(op, second))
  {
  }

  /** Signals of different kinds commute. */
  lemma DifferentKindsCommute(s: JoinState, a: Signal, b: Signal)
    requires a.op != b.op
    ensures Receive(Receive(s, a), b) == Receive(Receive(s, b), a)
  {
  }

  // ---------------------------------------------------------------------
  // The entity object
  // ---------------------------------------------------------------------

  class OrderReceived {
    var id: string
    var header: bool
    var headerURL: Option<string>
    var lineItems: bool
    var lineItemsURL: Option<string>
    var productInformation: bool
    var productInformationURL: Option<string>
    var isCheckOrderReceived: bool

    /** The fields as a value. */
    ghost function State(): JoinState
      reads this
    {
      JoinState(id, header, headerURL, lineItems, lineItemsURL,
                productInformation, productInformationURL, isCheckOrderReceived)
    }

    ghost predicate Valid()
      reads this
    {
      Consistent(State())
    }

    constructor (identifier: string)
      ensures Valid() && State() == Fresh(identifier)
    {
      id := identifier;
      header, headerURL := false, None;
      lineItems, lineItemsURL := false, None;
      productInformation, productInformationURL := false, None;
      isCheckOrderReceived := false;
    }

    method HeaderReceived(url: string)
      requires Valid()
      modifies this
      ensures Valid() && State() == Receive(old(State()), Signal(Operation.HeaderReceived, url))
    {
      header := true;
      headerURL := Some(url);
      CheckIfOrderReceived();
    }

    method LineItemsReceived(url: string)
      requires Valid()
      modifies this
      ensures Valid() && State() == Receive(old(State()), Signal(Operation.LineItemsReceived, url))
    {
      lineItems := true;
      lineItemsURL := Some(url);
      CheckIfOrderReceived();
    }

    method ProductInformationReceived(url: string)
      requires Valid()
      modifies this
      ensures Valid() && State() == Receive(old(State()), Signal(Operation.ProductInformationReceived, url))
    {
      productInformation := true;
      productInformationURL := Some(url);
      CheckIfOrderReceived();
    }

    method CheckIfOrderReceived()
      modifies this
      ensures State() == CompletionChecked(old(State()))
    {
      if header && lineItems && productInformation {
        isCheckOrderReceived := true;
      }
    }

    /** The query the orchestrator calls; it changes nothing. */
    method CheckOrderReceived() returns (orderRequest: Option<CombineOrderRequest>)
      requires Valid()
      ensures orderRequest == OrderRequest(State())
    {
      if isCheckOrderReceived {
        orderRequest := Some(CombineOrderRequest(id, headerURL.value, lineItemsURL.value, productInformationURL.value, None));
      } else {
        orderRequest := None;
      }
    }
  }

  /** Header and line items arrive, then product information: the order is
      incomplete after two arrivals and complete after the third, with the
      three URLs in the request. */
  method ThreeArrivals(key: string, u1: string, u2: string, u3: string)
    returns (afterTwo: Option<CombineOrderRequest>, afterThree: Option<CombineOrderRequest>)
    ensures afterTwo == None
    ensures afterThree == Some(CombineOrderRequest(key, u1, u2, u3, None))
  {
    var entity := new OrderReceived(key);
    entity.HeaderReceived(u1);
    entity.LineItemsReceived(u2);
    afterTwo := entity.CheckOrderReceived();
    entity.ProductInformationReceived(u3);
    afterThree := entity.CheckOrderReceived();
  }
}
