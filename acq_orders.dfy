/** Acquisition orders: the derived order status, note validation and lookup,
    the read-only aggregations over the order lines and receipts of an order,
    the deletion guard, the send-order workflow and the cascading delete.

    The search index that the source queries is modelled by `AcqStore`, an
    in-memory store holding the orders, order lines, receipts and the
    notifications created by `SendOrder`; every query of the source is a
    filter or a fold over its sequences.
 */
module AcqOrders {
  import opened Records

  // ---------------------------------------------------------------------------
  // Entities
  // ---------------------------------------------------------------------------

  /** Status stored on an order line. */
  datatype LineStatus = Approved | Ordered | PartiallyReceived | Received | Cancelled

  /** Status of an order; it is never stored but derived from its lines. */
  datatype OrderStatus = Pending | Ordered | PartiallyReceived | Received | Cancelled

  datatype Note = Note(noteType: string, content: string)

  datatype AcqOrder = AcqOrder(pid: string, notes: seq<Note>)

  /** An order line; amounts are in cents. */
  datatype OrderLine = OrderLine(
    pid: string,
    order: string,
    status: LineStatus,
    quantity: int,
    receivedQuantity: int,
    totalAmount: int,
    orderDate: Option<string>)

  /** A receipt; its amount is in cents. */
  datatype Receipt = Receipt(pid: string, order: string, totalAmount: int)

  datatype NotificationType = AcquisitionOrder

  /** The notification record `SendOrder` creates: its type, the order it
      refers to and the recipients (`None` when no list was given). */
  datatype Notification = Notification(
    notificationType: NotificationType,
    order: string,
    recipients: Option<seq<string>>)

  // ---------------------------------------------------------------------------
  // Order status
  // ---------------------------------------------------------------------------

  /** `RECEIVED_STATUSES` of the order line statuses. */
  predicate IsReceivedStatus(s: LineStatus)
  {
    s == LineStatus.Received || s == LineStatus.PartiallyReceived
  }

  /** Direct mapping used when exactly one distinct line status is left. */
  function SingleStatus(s: LineStatus): OrderStatus
  {
    match s
    case Approved => OrderStatus.Pending
    case Ordered => OrderStatus.Ordered
    case Received => OrderStatus.Received
    case PartiallyReceived => OrderStatus.PartiallyReceived
    case Cancelled => OrderStatus.Cancelled
  }

  /** The order status computed from the distinct statuses of the order's
      lines (the terms aggregation of the search). CANCELLED is dropped only
      when more than one distinct status is present; after that, two or more
      statuses are decided by precedence and a single one by `SingleStatus`. */
  function StatusOf(statuses: set<LineStatus>): (r: OrderStatus)
    ensures statuses == {} ==> r == OrderStatus.Pending
    ensures statuses == {LineStatus.Cancelled} ==> r == OrderStatus.Cancelled
  {
    var remaining :=
      if |statuses| > 1 && LineStatus.Cancelled in statuses
      then statuses - {LineStatus.Cancelled}
      else statuses;
    if |remaining| > 1 then
      if LineStatus.Received in remaining || LineStatus.PartiallyReceived in remaining
      then OrderStatus.PartiallyReceived
      else if LineStatus.Ordered in remaining then OrderStatus.Ordered
      else OrderStatus.Pending
    else if |remaining| == 1 then
      if LineStatus.Approved in remaining then SingleStatus(LineStatus.Approved)
      else if LineStatus.Ordered in remaining then SingleStatus(LineStatus.Ordered)
      else if LineStatus.Received in remaining then SingleStatus(LineStatus.Received)
      else if LineStatus.PartiallyReceived in remaining then SingleStatus(LineStatus.PartiallyReceived)
      else SingleStatus(LineStatus.Cancelled)
    else
      OrderStatus.Pending
  }

  /** Two distinct members make a set bigger than one. */
  lemma TwoMembers<T>(s: set<T>, a: T, b: T)
    requires a in s && b in s && a != b
    ensures |s| > 1
  {
    assert a in s - {b};
    assert |s - {b}| == |s| - 1;
  }

  /** A set of at most one element that holds `a` is `{a}`. */
  lemma AtMostOne<T>(s: set<T>, a: T)
    requires a in s && |s| <= 1
    ensures s == {a}
  {
    assert |s - {a}| == |s| - 1 == 0;
    assert s - {a} == {};
  }

  /** With a single distinct status the order status follows the table
      APPROVED->PENDING, ORDERED->ORDERED, RECEIVED->RECEIVED,
      PARTIALLY_RECEIVED->PARTIALLY_RECEIVED, CANCELLED->CANCELLED. */
  lemma SingleStatusTable(s: LineStatus)
    ensures StatusOf({s}) == SingleStatus(s)
    ensures StatusOf({s}) == match s
      case Approved => OrderStatus.Pending
      case Ordered => OrderStatus.Ordered
      case Received => OrderStatus.Received
      case PartiallyReceived => OrderStatus.PartiallyReceived
      case Cancelled => OrderStatus.Cancelled
  {
  }

  /** The statuses other than CANCELLED. */
  function Active(statuses: set<LineStatus>): (a: set<LineStatus>)
    ensures LineStatus.Cancelled !in a && a <= statuses
  {
    statuses - {LineStatus.Cancelled}
  }

  /** Independent description of the status as a decision table over which
      statuses are present. */
  function TableStatus(statuses: set<LineStatus>): OrderStatus
  {
    if statuses == {} then OrderStatus.Pending
    else if statuses == {LineStatus.Cancelled} then OrderStatus.Cancelled
    else if LineStatus.PartiallyReceived in statuses then OrderStatus.PartiallyReceived
    else if LineStatus.Received in statuses then
      (if LineStatus.Approved in statuses || LineStatus.Ordered in statuses
       then OrderStatus.PartiallyReceived
       else OrderStatus.Received)
    else if LineStatus.Ordered in statuses then OrderStatus.Ordered
    else OrderStatus.Pending
  }

  /** The order status agrees with the decision table for every set of line
      statuses. */
  lemma StatusMatchesTable(statuses: set<LineStatus>)
    ensures StatusOf(statuses) == TableStatus(statuses)
  {
    var remaining :=
      if |statuses| > 1 && LineStatus.Cancelled in statuses
      then statuses - {LineStatus.Cancelled}
      else statuses;
    if |remaining| > 1 {
      assert remaining == Active(statuses);
      assert statuses != {LineStatus.Cancelled};
      if LineStatus.Received in remaining && LineStatus.PartiallyReceived !in remaining {
        var other := OtherMember(remaining, LineStatus.Received);
        assert other == LineStatus.Approved || other == LineStatus.Ordered;
      }
    } else if |remaining| == 1 {
      assert remaining != {};
      var s :| s in remaining;
      AtMostOne(remaining, s);
      if |statuses| > 1 && LineStatus.Cancelled in statuses {
        assert statuses == {s, LineStatus.Cancelled};
        StatusOfPair(s);
      } else {
        assert statuses == {s};
        StatusOfSingleton(s);
      }
    } else {
      assert statuses == {};
    }
  }

  /** A set bigger than one holds a member other than any given one. */
  lemma OtherMember<T>(s: set<T>, a: T) returns (b: T)
    requires |s| > 1 || (a !in s && s != {})
    ensures b in s && b != a
  {
    assert |s - {a}| > 0;
    assert s - {a} != {};
    b :| b in s - {a};
  }

  lemma StatusOfSingleton(s: LineStatus)
    ensures StatusOf({s}) == TableStatus({s})
  {
    assert |{s}| == 1;
    match s
    case Cancelled =>
    case _ => assert LineStatus.Cancelled !in {s};
  }

  lemma StatusOfPair(s: LineStatus)
    requires s != LineStatus.Cancelled
    ensures StatusOf({s, LineStatus.Cancelled}) == TableStatus({s, LineStatus.Cancelled})
  {
    TwoMembers({s, LineStatus.Cancelled}, s, LineStatus.Cancelled);
    assert {s, LineStatus.Cancelled} - {LineStatus.Cancelled} == {s};
    assert {s, LineStatus.Cancelled} != {LineStatus.Cancelled} by {
      assert s !in {LineStatus.Cancelled};
    }
  }

  /** The order is CANCELLED exactly when every line is cancelled. */
  lemma CancelledIffAllCancelled(statuses: set<LineStatus>)
    ensures StatusOf(statuses) == OrderStatus.Cancelled <==> statuses == {LineStatus.Cancelled}
  {
    StatusMatchesTable(statuses);
  }

  /** The order is RECEIVED exactly when every non-cancelled line is received
      and at least one line is. */
  lemma ReceivedIff(statuses: set<LineStatus>)
    ensures StatusOf(statuses) == OrderStatus.Received <==> Active(statuses) == {LineStatus.Received}
  {
    StatusMatchesTable(statuses);
    if Active(statuses) == {LineStatus.Received} {
      assert LineStatus.Received in statuses;
    }
    if StatusOf(statuses) == OrderStatus.Received {
      forall s | s in Active(statuses) ensures s == LineStatus.Received {
      }
    }
  }

  /** The order is ORDERED exactly when a line is ordered and none is
      (partially) received. */
  lemma OrderedIff(statuses: set<LineStatus>)
    ensures StatusOf(statuses) == OrderStatus.Ordered <==>
      LineStatus.Ordered in statuses && forall s | s in statuses :: !IsReceivedStatus(s)
  {
    StatusMatchesTable(statuses);
  }

  /** The order is PARTIALLY_RECEIVED exactly when a line is partially
      received, or a line is received beside a line that is neither received
      nor cancelled. */
  lemma PartiallyReceivedIff(statuses: set<LineStatus>)
    ensures StatusOf(statuses) == OrderStatus.PartiallyReceived <==>
      LineStatus.PartiallyReceived in statuses ||
      (LineStatus.Received in statuses &&
       (LineStatus.Approved in statuses || LineStatus.Ordered in statuses))
  {
    StatusMatchesTable(statuses);
  }

  /** The order is PENDING exactly when it has no line, or every
      non-cancelled line is approved and one line is. */
  lemma PendingIff(statuses: set<LineStatus>)
    ensures StatusOf(statuses) == OrderStatus.Pending <==>
      statuses == {} || Active(statuses) == {LineStatus.Approved}
  {
    StatusMatchesTable(statuses);
    if StatusOf(statuses) == OrderStatus.Pending && statuses != {} {
      forall s | s in Active(statuses) ensures s == LineStatus.Approved {
      }
    }
    if Active(statuses) == {LineStatus.Approved} {
      assert LineStatus.Approved in statuses;
      assert LineStatus.PartiallyReceived !in Active(statuses);
      assert LineStatus.Received !in Active(statuses);
      assert LineStatus.Ordered !in Active(statuses);
    }
  }

  /** A cancelled line never changes the status of an order that has any
      other line: {X, CANCELLED} gives the same status as {X}. */
  lemma CancelledIgnoredBesideOthers(statuses: set<LineStatus>)
    requires Active(statuses) != {}
    ensures StatusOf(statuses + {LineStatus.Cancelled}) == StatusOf(Active(statuses))
  {
    StatusMatchesTable(statuses + {LineStatus.Cancelled});
    StatusMatchesTable(Active(statuses));
    var x :| x in Active(statuses);
    assert x in statuses + {LineStatus.Cancelled};
  }

  // ---------------------------------------------------------------------------
  // Notes
  // ---------------------------------------------------------------------------

  datatype Validation = Valid | Invalid(message: string)

  const DuplicateNoteMessage := "Can not have multiple notes of same type."

  /** The types of the notes, in order. */
  function NoteTypes(notes: seq<Note>): (types: seq<string>)
    ensures |types| == |notes|
    ensures forall i :: 0 <= i < |notes| ==> types[i] == notes[i].noteType
  {
    if notes == [] then [] else [notes[0].noteType] + NoteTypes(notes[1..])
  }

  predicate Distinct(s: seq<string>)
  {
    forall i, j :: 0 <= i < j < |s| ==> s[i] != s[j]
  }

  function Elements(s: seq<string>): set<string>
  {
    set x | x in s
  }

  lemma ElementsCons(s: seq<string>)
    requires s != []
    ensures Elements(s) == {s[0]} + Elements(s[1..])
  {
    assert s == [s[0]] + s[1..];
  }

  /** With a head that does not recur, the sequence is free of repeats
      exactly when its tail is. */
  lemma DistinctCons(s: seq<string>)
    requires s != [] && s[0] !in s[1..]
    ensures Distinct(s) <==> Distinct(s[1..])
  {
    var t := s[1..];
    if Distinct(t) {
      forall i, j | 0 <= i < j < |s| ensures s[i] != s[j] {
        assert s[j] == t[j - 1];
        if i > 0 {
          assert s[i] == t[i - 1];
        }
      }
    }
    if Distinct(s) {
      forall i, j | 0 <= i < j < |t| ensures t[i] != t[j] {
        assert t[i] == s[i + 1] && t[j] == s[j + 1];
      }
    }
  }

  /** A sequence has as many distinct elements as entries exactly when no
      entry repeats. */
  lemma {:induction false} ElementsCount(s: seq<string>)
    ensures |Elements(s)| <= |s|
    ensures |Elements(s)| == |s| <==> Distinct(s)
  {
    if s != [] {
      var t := s[1..];
      ElementsCount(t);
      ElementsCons(s);
      if s[0] in t {
        assert Elements(s) == Elements(t);
        var k :| 0 <= k < |t| && t[k] == s[0];
        assert s[0] == s[k + 1];
      } else {
        assert s[0] !in Elements(t);
        DistinctCons(s);
      }
    }
  }

  /** Validation of an order's notes: rejected exactly when two notes share
      a type. */
  function ExtendedValidation(notes: seq<Note>): (r: Validation)
    ensures r.Invalid? <==>
      exists i, j :: 0 <= i < j < |notes| && notes[i].noteType == notes[j].noteType
    ensures r.Invalid? ==> r.message == DuplicateNoteMessage
  {
    var types := NoteTypes(notes);
    ElementsCount(types);
    if |types| != |Elements(types)| then Invalid(DuplicateNoteMessage) else Valid
  }

  /** `notes[i]` is the first note of the given type. */
  predicate FirstOfType(notes: seq<Note>, noteType: string, i: int)
  {
    0 <= i < |notes| && notes[i].noteType == noteType &&
    forall j :: 0 <= j < i ==> notes[j].noteType != noteType
  }

  /** The content of the first note of the given type, if any. */
  function GetNote(notes: seq<Note>, noteType: string): (r: Option<string>)
    ensures r.None? <==> forall i :: 0 <= i < |notes| ==> notes[i].noteType != noteType
    ensures r.Some? ==> exists i :: FirstOfType(notes, noteType, i) && notes[i].content == r.value
  {
    if notes == [] then None
    else if notes[0].noteType == noteType then Some(notes[0].content)
    else
      var r := GetNote(notes[1..], noteType);
      if r.Some? then
        ghost var i :| FirstOfType(notes[1..], noteType, i) && notes[1..][i].content == r.value;
        assert FirstOfType(notes, noteType, i + 1);
        r
      else
        r
  }

  /** On notes that pass validation, looking a type up finds the one note of
      that type. */
  lemma {:induction false} GetNoteOfValidNotes(notes: seq<Note>, noteType: string, content: string)
    requires ExtendedValidation(notes) == Valid
    ensures GetNote(notes, noteType) == Some(content) <==> Note(noteType, content) in notes
  {
    if Note(noteType, content) in notes {
      var k :| 0 <= k < |notes| && notes[k] == Note(noteType, content);
      var r := GetNote(notes, noteType);
      var i :| FirstOfType(notes, noteType, i) && notes[i].content == r.value;
      assert i == k;
    }
  }

  // ---------------------------------------------------------------------------
  // Queries over the lines and receipts of an order
  // ---------------------------------------------------------------------------

  /** The lines of the given order, in store order (the term filter on
      `acq_order.pid`); each occurs as often as in the store. */
  function LinesOf(lines: seq<OrderLine>, order: string): (r: seq<OrderLine>)
    ensures forall l :: l in r <==> l in lines && l.order == order
    ensures forall l :: multiset(r)[l] == if l.order == order then multiset(lines)[l] else 0
    ensures |r| <= |lines|
  {
    Filter(lines, (l: OrderLine) => l.order == order)
  }

  /** The filter over a non-empty store, unfolded once. */
  lemma LinesOfCons(lines: seq<OrderLine>, order: string)
    requires lines != []
    ensures LinesOf(lines, order) ==
      (if lines[0].order == order then [lines[0]] else []) + LinesOf(lines[1..], order)
  {
  }

  /** The lines of every order but the given one, in store order. */
  function LinesNotOf(lines: seq<OrderLine>, order: string): (r: seq<OrderLine>)
    ensures forall l :: l in r <==> l in lines && l.order != order
    ensures forall l :: multiset(r)[l] == if l.order != order then multiset(lines)[l] else 0
    ensures |r| <= |lines|
  {
    Filter(lines, (l: OrderLine) => l.order != order)
  }

  /** The receipts of the given order, in store order; each occurs as often
      as in the store. */
  function ReceiptsOf(receipts: seq<Receipt>, order: string): (r: seq<Receipt>)
    ensures forall x :: x in r <==> x in receipts && x.order == order
    ensures forall x :: multiset(r)[x] == if x.order == order then multiset(receipts)[x] else 0
    ensures |r| <= |receipts|
  {
    Filter(receipts, (x: Receipt) => x.order == order)
  }

  /** The distinct statuses of the order's lines. */
  function LineStatuses(lines: seq<OrderLine>, order: string): set<LineStatus>
  {
    set l | l in lines && l.order == order :: l.status
  }

  /** `AcqOrder.status`, computed from the statuses of the order's lines in
      the store: PENDING for an order without lines, and CANCELLED exactly
      when the order has lines and every one of them is cancelled. */
  function OrderStatusOf(lines: seq<OrderLine>, order: string): (r: OrderStatus)
    ensures LinesOf(lines, order) == [] ==> r == OrderStatus.Pending
    ensures r == OrderStatus.Cancelled <==>
      LinesOf(lines, order) != [] && forall l | l in LinesOf(lines, order) :: l.status == LineStatus.Cancelled
  {
    LineStatusesOfLines(lines, order);
    CancelledIffAllCancelled(LineStatuses(lines, order));
    StatusOf(LineStatuses(lines, order))
  }

  /** The distinct statuses of an order's lines are empty exactly when it has
      no line, and are {CANCELLED} exactly when all of its lines are. */
  lemma LineStatusesOfLines(lines: seq<OrderLine>, order: string)
    ensures LineStatuses(lines, order) == {} <==> LinesOf(lines, order) == []
    ensures LineStatuses(lines, order) == {LineStatus.Cancelled} <==>
      LinesOf(lines, order) != [] && forall l | l in LinesOf(lines, order) :: l.status == LineStatus.Cancelled
  {
    var own := LinesOf(lines, order);
    var statuses := LineStatuses(lines, order);
    if own != [] {
      assert own[0] in own;
      assert own[0].status in statuses;
      if forall l | l in own :: l.status == LineStatus.Cancelled {
        forall x | x in statuses ensures x == LineStatus.Cancelled {
          var l :| l in lines && l.order == order && l.status == x;
          assert l in own;
        }
      }
      if statuses == {LineStatus.Cancelled} {
        forall l | l in own ensures l.status == LineStatus.Cancelled {
          assert l.status in statuses;
        }
      }
    } else {
      assert forall l | l in lines && l.order == order :: l in own;
      assert statuses == {};
    }
  }

  /** `AcqOrder.order_date`: the order date of the first line of the order
      that has one. */
  function OrderDate(lines: seq<OrderLine>, order: string): (r: Option<string>)
    ensures r.None? <==> forall l | l in lines && l.order == order :: l.orderDate.None?
    ensures r.Some? ==> exists l | l in lines && l.order == order :: l.orderDate == r
  {
    if lines == [] then None
    else if lines[0].order == order && lines[0].orderDate.Some? then lines[0].orderDate
    else
      assert forall l :: l in lines <==> l == lines[0] || l in lines[1..];
      OrderDate(lines[1..], order)
  }

  /** The numeric fields of an order line that the order sums. */
  datatype LineField = Quantity | ReceivedQuantity | TotalAmount

  function FieldOf(l: OrderLine, field: LineField): int
  {
    match field
    case Quantity => l.quantity
    case ReceivedQuantity => l.receivedQuantity
    case TotalAmount => l.totalAmount
  }

  /** Sum of a field over the non-cancelled lines of the order: `Quantity`
      gives `item_quantity`, `ReceivedQuantity` gives
      `item_received_quantity` and `TotalAmount` the provisional total. */
  function SumNonCancelled(lines: seq<OrderLine>, order: string, field: LineField): (total: int)
    ensures (forall l | l in lines && l.order == order && l.status != LineStatus.Cancelled :: FieldOf(l, field) >= 0)
      ==> total >= 0
    ensures (forall l | l in lines && l.order == order :: l.status == LineStatus.Cancelled) ==> total == 0
  {
    if lines == [] then 0
    else
      assert forall l :: l in lines[1..] ==> l in lines;
      (if lines[0].order == order && lines[0].status != LineStatus.Cancelled
       then FieldOf(lines[0], field) else 0)
      + SumNonCancelled(lines[1..], order, field)
  }

  /** Summing over a store made of two parts adds the sums of the parts. */
  lemma {:induction false} SumNonCancelledAppend(a: seq<OrderLine>, b: seq<OrderLine>, order: string, field: LineField)
    ensures SumNonCancelled(a + b, order, field) ==
      SumNonCancelled(a, order, field) + SumNonCancelled(b, order, field)
  {
    if a != [] {
      assert (a + b)[1..] == a[1..] + b;
      SumNonCancelledAppend(a[1..], b, order, field);
    } else {
      assert a + b == b;
    }
  }

  /** Only the order's own lines count: the sum over the store equals the
      sum over the lines of the order. */
  lemma {:induction false} SumNonCancelledOfOwnLines(lines: seq<OrderLine>, order: string, field: LineField)
    ensures SumNonCancelled(lines, order, field) == SumNonCancelled(LinesOf(lines, order), order, field)
  {
    if lines != [] {
      var rest := LinesOf(lines[1..], order);
      SumNonCancelledOfOwnLines(lines[1..], order, field);
      LinesOfCons(lines, order);
      if lines[0].order == order {
        var own := [lines[0]] + rest;
        assert own[0] == lines[0] && own[1..] == rest;
      } else {
        assert [] + rest == rest;
      }
    }
  }

  /** Sum of the amounts of the order's receipts: the expenditure total. */
  function ReceiptsTotal(receipts: seq<Receipt>, order: string): (total: int)
    ensures (forall x | x in receipts && x.order == order :: x.totalAmount >= 0) ==> total >= 0
    ensures (forall x | x in receipts :: x.order != order) ==> total == 0
  {
    if receipts == [] then 0
    else
      assert forall x :: x in receipts[1..] ==> x in receipts;
      (if receipts[0].order == order then receipts[0].totalAmount else 0)
      + ReceiptsTotal(receipts[1..], order)
  }

  /** A new receipt adds its amount to its own order's expenditure and
      nothing to the others'. */
  lemma {:induction false} ReceiptsTotalAppend(receipts: seq<Receipt>, r: Receipt, order: string)
    ensures ReceiptsTotal(receipts + [r], order) ==
      ReceiptsTotal(receipts, order) + (if r.order == order then r.totalAmount else 0)
  {
    if receipts != [] {
      assert (receipts + [r])[1..] == receipts[1..] + [r];
      ReceiptsTotalAppend(receipts[1..], r, order);
    }
  }

  // ---------------------------------------------------------------------------
  // Links and the deletion guard
  // ---------------------------------------------------------------------------

  const OrderLinesKey := "order_lines"
  const ReceiptsKey := "receipts"

  /** `get_links_to_me()`: the number of lines and receipts of the order,
      each kept only when it is not zero. */
  function LinkCounts(lines: seq<OrderLine>, receipts: seq<Receipt>, order: string): (links: map<string, nat>)
    ensures links.Keys <= {OrderLinesKey, ReceiptsKey}
    ensures forall k :: k in links ==> links[k] > 0
    ensures OrderLinesKey in links <==> LinesOf(lines, order) != []
    ensures OrderLinesKey in links ==> links[OrderLinesKey] == |LinesOf(lines, order)|
    ensures ReceiptsKey in links <==> ReceiptsOf(receipts, order) != []
    ensures ReceiptsKey in links ==> links[ReceiptsKey] == |ReceiptsOf(receipts, order)|
  {
    var all := map[OrderLinesKey := |LinesOf(lines, order)|, ReceiptsKey := |ReceiptsOf(receipts, order)|];
    map k | k in all && all[k] != 0 :: all[k]
  }

  /** `get_links_to_me(get_pids=True)`: the pids of the order's lines and
      receipts, each list kept only when it is not empty. */
  function LinkPids(lines: seq<OrderLine>, receipts: seq<Receipt>, order: string): (links: map<string, seq<string>>)
    ensures links.Keys <= {OrderLinesKey, ReceiptsKey}
    ensures forall k :: k in links ==> links[k] != []
    ensures OrderLinesKey in links <==> LinesOf(lines, order) != []
    ensures OrderLinesKey in links ==> links[OrderLinesKey] == MapSeq(LinesOf(lines, order), (l: OrderLine) => l.pid)
    ensures ReceiptsKey in links <==> ReceiptsOf(receipts, order) != []
    ensures ReceiptsKey in links ==> links[ReceiptsKey] == MapSeq(ReceiptsOf(receipts, order), (x: Receipt) => x.pid)
  {
    var all := map[OrderLinesKey := MapSeq(LinesOf(lines, order), (l: OrderLine) => l.pid),
                   ReceiptsKey := MapSeq(ReceiptsOf(receipts, order), (x: Receipt) => x.pid)];
    map k | k in all && all[k] != [] :: all[k]
  }

  /** Without the order lines, the links of an order are its receipt count,
      present exactly when it has receipts. */
  lemma ReceiptLinks(lines: seq<OrderLine>, receipts: seq<Receipt>, order: string)
    ensures LinkCounts(lines, receipts, order) - {OrderLinesKey} ==
      if ReceiptsOf(receipts, order) == [] then map[] else map[ReceiptsKey := |ReceiptsOf(receipts, order)|]
    ensures LinkCounts(lines, receipts, order) - {OrderLinesKey} != map[] <==> ReceiptsOf(receipts, order) != []
  {
    var links := LinkCounts(lines, receipts, order) - {OrderLinesKey};
    assert OrderLinesKey != ReceiptsKey;
    assert links.Keys <= {ReceiptsKey};
    assert ReceiptsKey in links <==> ReceiptsOf(receipts, order) != [];
    assert links != map[] <==> ReceiptsKey in links;
  }

  /** One entry of the structure explaining why an order cannot be deleted. */
  datatype Reason =
    | Others(status: OrderStatus)
    | Links(links: map<string, nat>)

  const OthersKey := "others"
  const LinksKey := "links"

  // ---------------------------------------------------------------------------
  // Order lines after the order was sent
  // ---------------------------------------------------------------------------

  /** A line after a successful dispatch: an APPROVED line of the order gets
      the order date; any other line is kept. */
  function StampLine(l: OrderLine, order: string, today: string): OrderLine
  {
    if l.order == order && l.status == LineStatus.Approved
    then l.(orderDate := Some(today))
    else l
  }

  function StampOrderDate(lines: seq<OrderLine>, order: string, today: string): (r: seq<OrderLine>)
    ensures |r| == |lines|
    ensures forall i :: 0 <= i < |lines| ==> r[i] == StampLine(lines[i], order, today)
  {
    seq(|lines|, i requires 0 <= i < |lines| => StampLine(lines[i], order, today))
  }

  /** After a successful dispatch every APPROVED line of the order carries the
      day's date, every other line is untouched, and no field but the order
      date of a line changes. */
  lemma StampOrderDateEffect(lines: seq<OrderLine>, order: string, today: string)
    ensures forall i :: 0 <= i < |lines| && lines[i].order == order && lines[i].status == LineStatus.Approved ==>
      StampOrderDate(lines, order, today)[i].orderDate == Some(today)
    ensures forall i :: 0 <= i < |lines| && !(lines[i].order == order && lines[i].status == LineStatus.Approved) ==>
      StampOrderDate(lines, order, today)[i] == lines[i]
    ensures forall i :: 0 <= i < |lines| ==>
      StampOrderDate(lines, order, today)[i] == lines[i].(orderDate := StampOrderDate(lines, order, today)[i].orderDate)
  {
  }

  /** Stamping writes only the order date, so within this model it changes
      no line status and no order's status. This holds only because the
      order line module, which moves a dated line to ORDERED on update, is
      not modelled: in the system a successful send makes the order ORDERED. */
  lemma StampKeepsStatuses(lines: seq<OrderLine>, order: string, today: string, other: string)
    ensures LineStatuses(StampOrderDate(lines, order, today), other) == LineStatuses(lines, other)
    ensures OrderStatusOf(StampOrderDate(lines, order, today), other) == OrderStatusOf(lines, other)
  {
    var stamped := StampOrderDate(lines, order, today);
    forall s | s in LineStatuses(lines, other) ensures s in LineStatuses(stamped, other) {
      var l :| l in lines && l.order == other && l.status == s;
      var i :| 0 <= i < |lines| && lines[i] == l;
      assert stamped[i] in stamped;
    }
    forall s | s in LineStatuses(stamped, other) ensures s in LineStatuses(lines, other) {
      var l :| l in stamped && l.order == other && l.status == s;
      var i :| 0 <= i < |stamped| && stamped[i] == l;
      assert lines[i] in lines;
    }
  }

  /** Stamping does not change any quantity or amount sum. */
  lemma {:induction false} StampKeepsSums(lines: seq<OrderLine>, order: string, today: string, other: string, field: LineField)
    ensures SumNonCancelled(StampOrderDate(lines, order, today), other, field) == SumNonCancelled(lines, other, field)
  {
    if lines != [] {
      assert StampOrderDate(lines, order, today)[1..] == StampOrderDate(lines[1..], order, today);
      StampKeepsSums(lines[1..], order, today, other, field);
    }
  }

  /** Sending twice on the same day stamps the same lines as sending once. */
  lemma StampIdempotent(lines: seq<OrderLine>, order: string, today: string)
    ensures StampOrderDate(StampOrderDate(lines, order, today), order, today) == StampOrderDate(lines, order, today)
  {
  }

  // ---------------------------------------------------------------------------
  // The store
  // ---------------------------------------------------------------------------

  /** In-memory stand-in for the records and the search index of the
      acquisition module. */
  class AcqStore {
    var orders: map<string, AcqOrder>
    var lines: seq<OrderLine>
    var receipts: seq<Receipt>
    var notifications: seq<Notification>

    constructor ()
      ensures orders == map[] && lines == [] && receipts == [] && notifications == []
    {
      orders := map[];
      lines := [];
      receipts := [];
      notifications := [];
    }

    /** `reasons_not_to_delete`: the order lines are not a reason (they are
        deleted with the order); the receipts are, and so is any status but
        PENDING. */
    method ReasonsNotToDelete(order: string) returns (cannotDelete: map<string, Reason>)
      ensures cannotDelete.Keys <= {OthersKey, LinksKey}
      ensures OthersKey in cannotDelete <==> OrderStatusOf(lines, order) != OrderStatus.Pending
      ensures OthersKey in cannotDelete ==> cannotDelete[OthersKey] == Others(OrderStatusOf(lines, order))
      ensures LinksKey in cannotDelete <==> ReceiptsOf(receipts, order) != []
      ensures LinksKey in cannotDelete ==>
        cannotDelete[LinksKey] == Links(map[ReceiptsKey := |ReceiptsOf(receipts, order)|])
      ensures cannotDelete == map[] <==>
        OrderStatusOf(lines, order) == OrderStatus.Pending && ReceiptsOf(receipts, order) == []
    {
      cannotDelete := map[];
      var links := LinkCounts(lines, receipts, order);
      links := links - {OrderLinesKey};
      ReceiptLinks(lines, receipts, order);
      var status := OrderStatusOf(lines, order);
      if status != OrderStatus.Pending {
        cannotDelete := cannotDelete[OthersKey := Others(status)];
      }
      if links != map[] {
        cannotDelete := cannotDelete[LinksKey := Links(links)];
      }
      assert OthersKey in cannotDelete ==> cannotDelete != map[];
      assert LinksKey in cannotDelete ==> cannotDelete != map[];
    }

    /** `send_order`: records an acquisition-order notification for the order
        and, when the dispatcher reports at least one sent message, dates
        every APPROVED line of the order with `today`. */
    method SendOrder(order: string, emails: Option<seq<string>>, sent: nat, today: string)
      returns (notif: Notification)
      modifies this
      ensures notif == Notification(AcquisitionOrder, order, emails)
      ensures notifications == old(notifications) + [notif]
      ensures lines == if sent > 0 then StampOrderDate(old(lines), order, today) else old(lines)
      ensures orders == old(orders) && receipts == old(receipts)
    {
      notif := Notification(AcquisitionOrder, order, emails);
      notifications := notifications + [notif];
      if sent > 0 {
        var i := 0;
        while i < |lines|
          invariant 0 <= i <= |lines| == |old(lines)|
          invariant forall j :: 0 <= j < i ==> lines[j] == StampLine(old(lines)[j], order, today)
          invariant forall j :: i <= j < |lines| ==> lines[j] == old(lines)[j]
          invariant notifications == old(notifications) + [notif]
          invariant orders == old(orders) && receipts == old(receipts)
        {
          if lines[i].order == order && lines[i].status == LineStatus.Approved {
            lines := lines[i := lines[i].(orderDate := Some(today))];
          }
          i := i + 1;
        }
      }
    }

    /** Deleting an order deletes its lines first, then the order itself. */
    method DeleteOrder(order: string)
      modifies this
      ensures lines == LinesNotOf(old(lines), order)
      ensures orders == old(orders) - {order}
      ensures receipts == old(receipts) && notifications == old(notifications)
    {
      if LinesOf(lines, order) != [] {
        lines := LinesNotOf(lines, order);
      } else {
        LinesNotOfNone(lines, order);
      }
      orders := orders - {order};
    }
  }

  /** Removing the lines of an order that has none changes nothing. */
  lemma LinesNotOfNone(lines: seq<OrderLine>, order: string)
    requires LinesOf(lines, order) == []
    ensures LinesNotOf(lines, order) == lines
  {
    assert forall l :: l in lines ==> l.order != order;
    FilterKeepsAll(lines, (l: OrderLine) => l.order != order);
  }

  /** After the cascade the deleted order has no line left, its status is
      PENDING, and every other order keeps exactly its lines. */
  lemma {:induction false} CascadeEffect(lines: seq<OrderLine>, order: string, other: string)
    requires other != order
    ensures LinesOf(LinesNotOf(lines, order), order) == []
    ensures OrderStatusOf(LinesNotOf(lines, order), order) == OrderStatus.Pending
    ensures LinesOf(LinesNotOf(lines, order), other) == LinesOf(lines, other)
  {
    assert LineStatuses(LinesNotOf(lines, order), order) == {};
    if lines != [] {
      CascadeEffect(lines[1..], order, other);
      var rest := LinesNotOf(lines[1..], order);
      if lines[0].order != order {
        assert LinesNotOf(lines, order) == [lines[0]] + rest;
        assert ([lines[0]] + rest)[1..] == rest;
      } else {
        assert LinesNotOf(lines, order) == rest;
        assert LinesOf(lines, other) == LinesOf(lines[1..], other);
      }
    }
  }
}
