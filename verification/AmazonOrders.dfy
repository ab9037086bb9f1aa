/** The Amazon order report: one line per order, collected from the rows of its items. */
module AmazonOrders {
  import opened Wrappers
  import opened Folds
  import opened Selection

  /** A row of the report with its columns read; the flags say what its status text contains, a missing price is 0. */
  datatype ItemRow = ItemRow(orderId: string, date: Option<int>, cancelled: bool, shipped: bool, currency: string,
                             priceCents: int, product: string)

  datatype Order = Order(cancelled: bool, shipped: bool, amountCents: int, currency: string, date: int, description: string)

  datatype OrderStatus = Cancelled | Shipped | Pending

  datatype OrderLine = OrderLine(orderId: string, date: int, description: string, currency: string, amountCents: int,
                                 euroCents: Option<int>, status: OrderStatus)

  predicate Accepted(r: ItemRow) {
    r.orderId != "" && r.date.Some?
  }

  function Belongs(id: string): ItemRow -> bool {
    (r: ItemRow) => Accepted(r) && r.orderId == id
  }

  /** What a row adds to the revenue of an order. */
  function Price(id: string): ItemRow -> int {
    (r: ItemRow) => if Belongs(id)(r) && !r.cancelled then r.priceCents else 0
  }

  function Revenue(): ItemRow -> int {
    (r: ItemRow) => if Accepted(r) && !r.cancelled then r.priceCents else 0
  }

  function LineAmount(): OrderLine -> int {
    (l: OrderLine) => l.amountCents
  }

  predicate Listed(rows: seq<ItemRow>, id: string) {
    exists r :: r in rows && Belongs(id)(r)
  }

  function Describe(r: ItemRow): string {
    if r.product != "" then r.product else "Amazon " + r.orderId
  }

  /** The order's record says about all its rows what it should, whatever their order. */
  predicate Summarizes(rows: seq<ItemRow>, id: string, o: Order) {
    && (o.cancelled <==> exists r :: r in rows && Belongs(id)(r) && r.cancelled)
    && (o.shipped <==> exists r :: r in rows && Belongs(id)(r) && r.shipped)
    && o.amountCents == Sum(rows, Price(id))
    && (exists r :: r in rows && Belongs(id)(r) && r.date == Some(o.date))
    && (forall r :: r in rows && Belongs(id)(r) ==> o.date <= r.date.value)
  }

  /** Currency and description come from the order's first row. */
  predicate TakenFromFirst(rows: seq<ItemRow>, id: string, o: Order) {
    exists k :: 0 <= k < |rows| && FirstRowOf(rows, id, k) && o.currency == rows[k].currency && o.description == Describe(rows[k])
  }

  predicate FirstRowOf(rows: seq<ItemRow>, id: string, k: nat) {
    k < |rows| && Belongs(id)(rows[k]) && forall j :: 0 <= j < k ==> !Belongs(id)(rows[j])
  }

  function Opened(r: ItemRow): Order
    requires Accepted(r)
  {
    Order(r.cancelled, r.shipped, if r.cancelled then 0 else r.priceCents, r.currency, r.date.value, Describe(r))
  }

  function Extended(o: Order, r: ItemRow): Order
    requires Accepted(r)
  {
    o.(cancelled := o.cancelled || r.cancelled, shipped := o.shipped || r.shipped,
       amountCents := o.amountCents + if r.cancelled then 0 else r.priceCents,
       date := if r.date.value < o.date then r.date.value else o.date)
  }

  function ToLine(id: string, o: Order): OrderLine {
    OrderLine(id, o.date, if o.cancelled then "Storniert: " + o.description else o.description, o.currency, o.amountCents,
              if o.currency == "EUR" then Some(o.amountCents) else None,
              if o.cancelled then Cancelled else if o.shipped then Shipped else Pending)
  }

  lemma SumNext(rows: seq<ItemRow>, r: ItemRow, f: ItemRow -> int)
    ensures Sum(rows + [r], f) == Sum(rows, f) + f(r)
  {
    SumAppend(rows, [r], f);
    SumCons(r, [], f);
  }

  lemma {:induction false} SumNone(rows: seq<ItemRow>, id: string)
    requires !Listed(rows, id)
    ensures Sum(rows, Price(id)) == 0
  {
    if rows != [] {
      SumNone(rows[1..], id);
      assert rows[0] in rows;
    }
  }

  lemma OpenedSummarizes(rows: seq<ItemRow>, r: ItemRow)
    requires Accepted(r) && !Listed(rows, r.orderId)
    ensures Summarizes(rows + [r], r.orderId, Opened(r)) && TakenFromFirst(rows + [r], r.orderId, Opened(r))
  {
    var all := rows + [r];
    SumNone(rows, r.orderId);
    SumNext(rows, r, Price(r.orderId));
    assert all[|rows|] == r;
    forall j | 0 <= j < |rows| ensures !Belongs(r.orderId)(all[j]) {
      assert all[j] in rows;
    }
    assert FirstRowOf(all, r.orderId, |rows|);
    assert r in all && forall x :: x in all && Belongs(r.orderId)(x) ==> x == r;
  }

  lemma ExtendedSummarizes(rows: seq<ItemRow>, r: ItemRow, o: Order)
    requires Accepted(r) && Summarizes(rows, r.orderId, o)
    ensures Summarizes(rows + [r], r.orderId, Extended(o, r))
  {
    var id, e, all := r.orderId, Extended(o, r), rows + [r];
    SumNext(rows, r, Price(id));
    assert forall x :: x in all <==> x in rows || x == r;
    var x :| x in rows && Belongs(id)(x) && x.date == Some(o.date);
    assert x in all && r in all;
  }

  lemma FirstStays(rows: seq<ItemRow>, r: ItemRow, id: string, o: Order, e: Order)
    requires TakenFromFirst(rows, id, o) && e.currency == o.currency && e.description == o.description
    ensures TakenFromFirst(rows + [r], id, e)
  {
    var k :| 0 <= k < |rows| && FirstRowOf(rows, id, k) && o.currency == rows[k].currency && o.description == Describe(rows[k]);
    assert FirstRowOf(rows + [r], id, k);
  }

  lemma OthersSummarized(rows: seq<ItemRow>, r: ItemRow, id: string, o: Order)
    requires Summarizes(rows, id, o) && !Belongs(id)(r)
    ensures Summarizes(rows + [r], id, o)
  {
    SumNext(rows, r, Price(id));
    assert forall x :: x in rows + [r] <==> x in rows || x == r;
  }

  // ----- the loop over the rows -----

  function Amounts(byOrder: map<string, Order>): map<string, int> {
    map id | id in byOrder :: byOrder[id].amountCents
  }

  /** What the record of an order must be after these rows. */
  predicate IsRecordOf(rows: seq<ItemRow>, id: string, o: Order) {
    Summarizes(rows, id, o) && TakenFromFirst(rows, id, o)
  }

  ghost predicate Keyed(rows: seq<ItemRow>, ids: seq<string>, byOrder: map<string, Order>) {
    && NoRepeats(ids)
    && (forall id :: id in ids <==> id in byOrder)
    && (forall id :: id in byOrder <==> Listed(rows, id))
  }

  ghost predicate Collected(rows: seq<ItemRow>, ids: seq<string>, byOrder: map<string, Order>) {
    && Keyed(rows, ids, byOrder)
    && (forall id :: id in byOrder ==> IsRecordOf(rows, id, byOrder[id]))
    && MapSum(Amounts(byOrder)) == Sum(rows, Revenue())
  }

  lemma ListedNext(rows: seq<ItemRow>, r: ItemRow, id: string)
    ensures Listed(rows + [r], id) <==> Listed(rows, id) || Belongs(id)(r)
  {
    assert forall x :: x in rows + [r] <==> x in rows || x == r;
    if Belongs(id)(r) {
      assert r in rows + [r];
    }
    if Listed(rows, id) {
      var x :| x in rows && Belongs(id)(x);
      assert x in rows + [r];
    }
  }

  lemma OtherRecordStays(rows: seq<ItemRow>, r: ItemRow, id: string, o: Order)
    requires IsRecordOf(rows, id, o) && !Belongs(id)(r)
    ensures IsRecordOf(rows + [r], id, o)
  {
    OthersSummarized(rows, r, id, o);
    FirstStays(rows, r, id, o, o);
  }

  lemma RejectedNext(rows: seq<ItemRow>, r: ItemRow, ids: seq<string>, byOrder: map<string, Order>)
    requires Collected(rows, ids, byOrder) && !Accepted(r)
    ensures Collected(rows + [r], ids, byOrder)
  {
    SumNext(rows, r, Revenue());
    forall id ensures Listed(rows + [r], id) <==> Listed(rows, id) {
      ListedNext(rows, r, id);
    }
    forall id | id in byOrder ensures IsRecordOf(rows + [r], id, byOrder[id]) {
      OtherRecordStays(rows, r, id, byOrder[id]);
    }
  }

  /** The record of the order after one more of its rows. */
  function Absorbed(byOrder: map<string, Order>, r: ItemRow): Order
    requires Accepted(r)
  {
    if r.orderId in byOrder then Extended(byOrder[r.orderId], r) else Opened(r)
  }

  function KeysAfter(ids: seq<string>, byOrder: map<string, Order>, id: string): seq<string> {
    if id in byOrder then ids else ids + [id]
  }

  lemma KeyedNext(rows: seq<ItemRow>, r: ItemRow, ids: seq<string>, byOrder: map<string, Order>, o: Order)
    requires Keyed(rows, ids, byOrder) && Accepted(r)
    ensures Keyed(rows + [r], KeysAfter(ids, byOrder, r.orderId), byOrder[r.orderId := o])
  {
    forall id ensures Listed(rows + [r], id) <==> Listed(rows, id) || id == r.orderId {
      ListedNext(rows, r, id);
    }
  }

  lemma RecordNext(rows: seq<ItemRow>, r: ItemRow, byOrder: map<string, Order>)
    requires Accepted(r) && (r.orderId in byOrder <==> Listed(rows, r.orderId))
    requires r.orderId in byOrder ==> IsRecordOf(rows, r.orderId, byOrder[r.orderId])
    ensures IsRecordOf(rows + [r], r.orderId, Absorbed(byOrder, r))
  {
    if r.orderId in byOrder {
      ExtendedSummarizes(rows, r, byOrder[r.orderId]);
      FirstStays(rows, r, r.orderId, byOrder[r.orderId], Absorbed(byOrder, r));
    } else {
      OpenedSummarizes(rows, r);
    }
  }

  lemma RevenueNext(rows: seq<ItemRow>, r: ItemRow, byOrder: map<string, Order>)
    requires Accepted(r) && MapSum(Amounts(byOrder)) == Sum(rows, Revenue())
    ensures MapSum(Amounts(byOrder[r.orderId := Absorbed(byOrder, r)])) == Sum(rows + [r], Revenue())
  {
    var o := Absorbed(byOrder, r);
    SumNext(rows, r, Revenue());
    MapSumPut(Amounts(byOrder), r.orderId, o.amountCents);
    assert Amounts(byOrder[r.orderId := o]) == Amounts(byOrder)[r.orderId := o.amountCents];
  }

  lemma AcceptedNext(rows: seq<ItemRow>, r: ItemRow, ids: seq<string>, byOrder: map<string, Order>)
    requires Collected(rows, ids, byOrder) && Accepted(r)
    ensures Collected(rows + [r], KeysAfter(ids, byOrder, r.orderId), byOrder[r.orderId := Absorbed(byOrder, r)])
  {
    KeyedNext(rows, r, ids, byOrder, Absorbed(byOrder, r));
    RecordNext(rows, r, byOrder);
    RevenueNext(rows, r, byOrder);
    var after := byOrder[r.orderId := Absorbed(byOrder, r)];
    forall id | id in after ensures IsRecordOf(rows + [r], id, after[id]) {
      if id != r.orderId {
        OtherRecordStays(rows, r, id, byOrder[id]);
      }
    }
  }

  /** The earliest and the latest date of the accepted rows. */
  predicate Spans(rows: seq<ItemRow>, start: Option<int>, end: Option<int>) {
    && (start.Some? <==> exists r :: r in rows && Accepted(r))
    && (end.Some? <==> start.Some?)
    && (start.Some? ==>
      && (forall r :: r in rows && Accepted(r) ==> start.value <= r.date.value <= end.value)
      && (exists r :: r in rows && Accepted(r) && r.date == start)
      && (exists r :: r in rows && Accepted(r) && r.date == end))
  }

  lemma SpansNext(rows: seq<ItemRow>, r: ItemRow, start: Option<int>, end: Option<int>, start': Option<int>, end': Option<int>)
    requires Spans(rows, start, end)
    requires start' == if Accepted(r) && (start.None? || r.date.value < start.value) then r.date else start
    requires end' == if Accepted(r) && (end.None? || r.date.value > end.value) then r.date else end
    ensures Spans(rows + [r], start', end')
  {
    assert forall x :: x in rows + [r] <==> x in rows || x == r;
    if start.Some? {
      var x :| x in rows && Accepted(x) && x.date == start;
      var y :| y in rows && Accepted(y) && y.date == end;
      assert x in rows + [r] && y in rows + [r];
    }
    assert r in rows + [r];
  }

  lemma NothingRead()
    ensures Read([], [], map[], [], None, None)
  {
    assert Amounts(map[]) == map[];
  }

  method AddRow(ghost before: seq<ItemRow>, r: ItemRow, ids: seq<string>, byOrder: map<string, Order>)
    returns (ids': seq<string>, byOrder': map<string, Order>)
    requires Collected(before, ids, byOrder) && Accepted(r)
    ensures Collected(before + [r], ids', byOrder')
  {
    AcceptedNext(before, r, ids, byOrder);
    if r.orderId !in byOrder {
      ids' := ids + [r.orderId];
      byOrder' := byOrder[r.orderId := Opened(r)];
    } else {
      ids' := ids;
      byOrder' := byOrder[r.orderId := Extended(byOrder[r.orderId], r)];
    }
  }

  ghost predicate Errors(rows: seq<ItemRow>, errors: seq<nat>) {
    forall n: nat :: n in errors <==> 2 <= n < |rows| + 2 && !Accepted(rows[n - 2])
  }

  lemma ErrorsNext(rows: seq<ItemRow>, r: ItemRow, errors: seq<nat>)
    requires Errors(rows, errors)
    ensures Errors(rows + [r], if Accepted(r) then errors else errors + [|rows| + 2])
  {
  }

  method UpdatePeriod(ghost before: seq<ItemRow>, r: ItemRow, start: Option<int>, end: Option<int>)
    returns (start': Option<int>, end': Option<int>)
    requires Spans(before, start, end)
    ensures Spans(before + [r], start', end')
  {
    start', end' := start, end;
    if Accepted(r) {
      if start.None? || r.date.value < start.value {
        start' := r.date;
      }
      if end.None? || r.date.value > end.value {
        end' := r.date;
      }
    }
    SpansNext(before, r, start, end, start', end');
  }

  /** All that is known after some rows. */
  ghost predicate Read(rows: seq<ItemRow>, ids: seq<string>, byOrder: map<string, Order>, errors: seq<nat>,
                       start: Option<int>, end: Option<int>) {
    Collected(rows, ids, byOrder) && Spans(rows, start, end) && Errors(rows, errors)
  }

  method ReadRow(ghost before: seq<ItemRow>, r: ItemRow, row: nat, ids: seq<string>, byOrder: map<string, Order>,
                 errors: seq<nat>, start: Option<int>, end: Option<int>)
    returns (ids': seq<string>, byOrder': map<string, Order>, errors': seq<nat>, start': Option<int>, end': Option<int>)
    requires row == |before| + 2 && Read(before, ids, byOrder, errors, start, end)
    ensures Read(before + [r], ids', byOrder', errors', start', end')
  {
    ErrorsNext(before, r, errors);
    start', end' := UpdatePeriod(before, r, start, end);
    if r.orderId == "" || r.date.None? {
      RejectedNext(before, r, ids, byOrder);
      ids', byOrder', errors' := ids, byOrder, errors + [row];
    } else {
      ids', byOrder' := AddRow(before, r, ids, byOrder);
      errors' := errors;
    }
  }

  method CollectOrders(rows: seq<ItemRow>)
    returns (ids: seq<string>, byOrder: map<string, Order>, errors: seq<nat>, start: Option<int>, end: Option<int>)
    ensures Read(rows, ids, byOrder, errors, start, end)
  {
    ids, byOrder, errors, start, end := [], map[], [], None, None;
    ghost var done: seq<ItemRow> := [];
    NothingRead();
    for i := 0 to |rows|
      invariant done == rows[..i]
      invariant Read(done, ids, byOrder, errors, start, end)
    {
      ids, byOrder, errors, start, end := ReadRow(done, rows[i], i + 2, ids, byOrder, errors, start, end);
      done := done + [rows[i]];
    }
    assert done == rows;
  }

  // ----- the whole parse -----

  function AmountAt(byOrder: map<string, Order>): string -> int {
    (id: string) => if id in byOrder then byOrder[id].amountCents else 0
  }

  lemma {:induction false} SumOverKeys(ids: seq<string>, byOrder: map<string, Order>)
    requires NoRepeats(ids) && forall id :: id in ids <==> id in byOrder
    ensures Sum(ids, AmountAt(byOrder)) == MapSum(Amounts(byOrder))
  {
    if ids == [] {
      assert Amounts(byOrder) == map[];
    } else {
      var rest := byOrder - {ids[0]};
      forall id ensures id in ids[1..] <==> id in rest {
        assert id in ids <==> id == ids[0] || id in ids[1..];
      }
      SumOverKeys(ids[1..], rest);
      SumCongruent(ids[1..], AmountAt(byOrder), AmountAt(rest));
      MapSumRemove(Amounts(byOrder), ids[0]);
      assert Amounts(byOrder) - {ids[0]} == Amounts(rest);
    }
  }

  /** The line is the summary of its order. */
  predicate IsLineOf(rows: seq<ItemRow>, l: OrderLine, o: Order) {
    l == ToLine(l.orderId, o) && IsRecordOf(rows, l.orderId, o)
  }

  predicate Printed(lines: seq<OrderLine>, id: string) {
    exists k :: 0 <= k < |lines| && lines[k].orderId == id
  }

  ghost predicate Reported(rows: seq<ItemRow>, l: OrderLine) {
    exists o :: IsLineOf(rows, l, o)
  }

  predicate OncePerOrder(lines: seq<OrderLine>) {
    forall x, y :: 0 <= x < y < |lines| ==> lines[x].orderId != lines[y].orderId
  }

  ghost predicate EachReported(rows: seq<ItemRow>, lines: seq<OrderLine>) {
    forall k :: 0 <= k < |lines| ==> Reported(rows, lines[k])
  }

  ghost predicate AllPrinted(rows: seq<ItemRow>, lines: seq<OrderLine>) {
    forall id :: Listed(rows, id) <==> Printed(lines, id)
  }

  method WriteLines(ids: seq<string>, byOrder: map<string, Order>) returns (lines: seq<OrderLine>)
    requires forall id :: id in ids ==> id in byOrder
    ensures |lines| == |ids|
    ensures forall k :: 0 <= k < |ids| ==> lines[k] == ToLine(ids[k], byOrder[ids[k]])
  {
    lines := [];
    for i := 0 to |ids|
      invariant |lines| == i
      invariant forall k :: 0 <= k < i ==> lines[k] == ToLine(ids[k], byOrder[ids[k]])
    {
      lines := lines + [ToLine(ids[i], byOrder[ids[i]])];
    }
  }

  lemma {:induction false} LinesTotal(ids: seq<string>, byOrder: map<string, Order>, lines: seq<OrderLine>)
    requires |lines| == |ids|
    requires forall k :: 0 <= k < |ids| ==> lines[k].amountCents == AmountAt(byOrder)(ids[k])
    ensures Sum(lines, LineAmount()) == Sum(ids, AmountAt(byOrder))
  {
    if ids != [] {
      LinesTotal(ids[1..], byOrder, lines[1..]);
    }
  }

  predicate Labelled(ids: seq<string>, lines: seq<OrderLine>) {
    |lines| == |ids| && forall k :: 0 <= k < |lines| ==> lines[k].orderId == ids[k]
  }

  lemma LinesOncePerOrder(ids: seq<string>, lines: seq<OrderLine>)
    requires NoRepeats(ids) && Labelled(ids, lines)
    ensures OncePerOrder(lines)
  {
    forall x, y | 0 <= x < y < |lines| ensures lines[x].orderId != lines[y].orderId {
      assert lines[x].orderId == ids[x] && lines[y].orderId == ids[y];
    }
  }

  lemma PrintedIff(ids: seq<string>, lines: seq<OrderLine>, id: string)
    requires Labelled(ids, lines)
    ensures id in ids <==> Printed(lines, id)
  {
    if id in ids {
      var k :| 0 <= k < |ids| && ids[k] == id;
      assert lines[k].orderId == id;
    }
  }

  lemma LinesPrinted(rows: seq<ItemRow>, ids: seq<string>, byOrder: map<string, Order>, lines: seq<OrderLine>)
    requires Keyed(rows, ids, byOrder) && Labelled(ids, lines)
    ensures AllPrinted(rows, lines)
  {
    forall id ensures Listed(rows, id) <==> Printed(lines, id) {
      PrintedIff(ids, lines, id);
    }
  }

  lemma LineReported(rows: seq<ItemRow>, l: OrderLine, o: Order)
    requires IsRecordOf(rows, l.orderId, o) && l == ToLine(l.orderId, o)
    ensures Reported(rows, l)
  {
    assert IsLineOf(rows, l, o);
  }

  lemma LinesReported(rows: seq<ItemRow>, ids: seq<string>, byOrder: map<string, Order>, lines: seq<OrderLine>)
    requires |lines| == |ids| && forall id :: id in byOrder ==> IsRecordOf(rows, id, byOrder[id])
    requires forall k :: 0 <= k < |ids| ==> ids[k] in byOrder && lines[k] == ToLine(ids[k], byOrder[ids[k]])
    ensures EachReported(rows, lines)
  {
    forall k | 0 <= k < |lines| ensures Reported(rows, lines[k]) {
      LineReported(rows, lines[k], byOrder[ids[k]]);
    }
  }

  /** One line for each order of the report, none twice, each the summary of its order, and no revenue lost or added. */
  method ParseOrders(rows: seq<ItemRow>)
    returns (lines: seq<OrderLine>, errors: seq<nat>, start: Option<int>, end: Option<int>)
    ensures rows == [] ==> errors == [0]
    ensures rows != [] ==> Errors(rows, errors)
    ensures Spans(rows, start, end)
    ensures OncePerOrder(lines) && AllPrinted(rows, lines) && EachReported(rows, lines)
    ensures Sum(lines, LineAmount()) == Sum(rows, Revenue())
  {
    var ids, byOrder;
    ids, byOrder, errors, start, end := CollectOrders(rows);
    if |rows| == 0 {
      errors := [0];
    }
    lines := WriteLines(ids, byOrder);
    LinesOncePerOrder(ids, lines);
    LinesPrinted(rows, ids, byOrder, lines);
    LinesReported(rows, ids, byOrder, lines);
    LinesTotal(ids, byOrder, lines);
    SumOverKeys(ids, byOrder);
  }

  // ----- what the row order can change -----

  /** Amount, date and both flags of an order do not depend on the order of the rows in the file. */
  lemma SummaryIgnoresRowOrder(a: seq<ItemRow>, b: seq<ItemRow>, id: string, o: Order, p: Order)
    requires multiset(a) == multiset(b)
    requires Summarizes(a, id, o) && Summarizes(b, id, p)
    ensures o.amountCents == p.amountCents && o.date == p.date && o.cancelled == p.cancelled && o.shipped == p.shipped
  {
    SumPermuted(a, b, Price(id));
    forall r ensures r in a <==> r in b {
      assert r in a <==> r in multiset(a);
      assert r in b <==> r in multiset(b);
    }
  }

  lemma SameFirst(rows: seq<ItemRow>, id: string, o: Order, p: Order)
    requires TakenFromFirst(rows, id, o) && TakenFromFirst(rows, id, p)
    ensures o.currency == p.currency && o.description == p.description
  {
    var k :| 0 <= k < |rows| && FirstRowOf(rows, id, k) && o.currency == rows[k].currency && o.description == Describe(rows[k]);
    var j :| 0 <= j < |rows| && FirstRowOf(rows, id, j) && p.currency == rows[j].currency && p.description == Describe(rows[j]);
  }

  /** The rows determine the line of an order. */
  lemma LineIsDetermined(rows: seq<ItemRow>, l: OrderLine, m: OrderLine, o: Order, p: Order)
    requires IsLineOf(rows, l, o) && IsLineOf(rows, m, p) && l.orderId == m.orderId
    ensures l == m
  {
    SummaryIgnoresRowOrder(rows, rows, l.orderId, o, p);
    SameFirst(rows, l.orderId, o, p);
  }

  /**
   * If all rows of an order carry one currency, its euro amount does not depend on the row order either; the currency
   * of the first row decides it otherwise.
   */
  lemma EuroAmountWithOneCurrency(a: seq<ItemRow>, b: seq<ItemRow>, l: OrderLine, m: OrderLine, o: Order, p: Order)
    requires multiset(a) == multiset(b) && IsLineOf(a, l, o) && IsLineOf(b, m, p) && l.orderId == m.orderId
    requires forall r, s :: r in a && s in a && Belongs(l.orderId)(r) && Belongs(l.orderId)(s) ==> r.currency == s.currency
    ensures l.euroCents == m.euroCents && l.status == m.status && l.amountCents == m.amountCents && l.date == m.date
  {
    SummaryIgnoresRowOrder(a, b, l.orderId, o, p);
    var k :| 0 <= k < |a| && FirstRowOf(a, l.orderId, k) && o.currency == a[k].currency && o.description == Describe(a[k]);
    var j :| 0 <= j < |b| && FirstRowOf(b, l.orderId, j) && p.currency == b[j].currency && p.description == Describe(b[j]);
    assert b[j] in multiset(b);
    assert b[j] in multiset(a);
    assert a[k] in a && b[j] in a;
  }

  /** A cancelled order carries revenue only from rows that are not cancelled themselves. */
  lemma FullyCancelledOrderHasNoRevenue(rows: seq<ItemRow>, l: OrderLine, o: Order)
    requires IsLineOf(rows, l, o)
    requires forall r :: r in rows && Belongs(l.orderId)(r) ==> r.cancelled
    ensures l.status == Cancelled && l.amountCents == 0
  {
    AllCancelled(rows, l.orderId);
  }

  lemma {:induction false} PricesVanishIff(rows: seq<ItemRow>, id: string)
    requires forall r :: r in rows ==> 0 <= r.priceCents
    ensures 0 <= Sum(rows, Price(id))
    ensures Sum(rows, Price(id)) == 0 <==> forall r :: r in rows && Belongs(id)(r) && !r.cancelled ==> r.priceCents == 0
  {
    if rows != [] {
      PricesVanishIff(rows[1..], id);
      assert forall r :: r in rows <==> r == rows[0] || r in rows[1..];
    }
  }

  /** The line of a cancelled order carries no revenue if and only if every row that is not cancelled itself is free. */
  lemma CancelledRevenueIff(rows: seq<ItemRow>, l: OrderLine, o: Order)
    requires IsLineOf(rows, l, o) && l.status == Cancelled
    requires forall r :: r in rows ==> 0 <= r.priceCents
    ensures l.amountCents == 0 <==> forall r :: r in rows && Belongs(l.orderId)(r) && !r.cancelled ==> r.priceCents == 0
  {
    PricesVanishIff(rows, l.orderId);
  }

  /** An order with one cancelled and one shipped row is reported as cancelled, with the price of the shipped one. */
  lemma PartlyCancelledOrder(l: OrderLine, o: Order)
    requires IsLineOf([ItemRow("1", Some(0), true, false, "EUR", 500, "a"), ItemRow("1", Some(0), false, true, "EUR", 700, "b")], l, o)
    requires l.orderId == "1"
    ensures l.status == Cancelled && l.amountCents == 700
  {
    var x, y := ItemRow("1", Some(0), true, false, "EUR", 500, "a"), ItemRow("1", Some(0), false, true, "EUR", 700, "b");
    assert [x, y] == [x] + [y];
    SumCons(x, [y], Price("1"));
    SumCons(y, [], Price("1"));
    assert x in [x, y] && Belongs("1")(x) && x.cancelled;
  }

  lemma {:induction false} AllCancelled(rows: seq<ItemRow>, id: string)
    requires forall r :: r in rows && Belongs(id)(r) ==> r.cancelled
    ensures Sum(rows, Price(id)) == 0
  {
    if rows != [] {
      AllCancelled(rows[1..], id);
      assert rows[0] in rows;
    }
  }

  // ----- what a line says -----

  /** Amount, date, currency, description, euro amount and status of a line, read off the order's rows in the file. */
  predicate SaysWhatRowsSay(rows: seq<ItemRow>, l: OrderLine, first: nat) {
    && FirstRowOf(rows, l.orderId, first)
    && l.currency == rows[first].currency
    && l.euroCents == (if l.currency == "EUR" then Some(l.amountCents) else None)
    && l.amountCents == Sum(rows, Price(l.orderId))
    && (exists r :: r in rows && Belongs(l.orderId)(r) && r.date == Some(l.date))
    && (forall r :: r in rows && Belongs(l.orderId)(r) ==> l.date <= r.date.value)
    && var name := if rows[first].product == "" then "Amazon " + l.orderId else rows[first].product;
       if exists r :: r in rows && Belongs(l.orderId)(r) && r.cancelled then l.status == Cancelled && l.description == "Storniert: " + name
       else if exists r :: r in rows && Belongs(l.orderId)(r) && r.shipped then l.status == Shipped && l.description == name
       else l.status == Pending && l.description == name
  }

  lemma LineSaysWhatRowsSay(rows: seq<ItemRow>, l: OrderLine) returns (first: nat)
    requires Reported(rows, l)
    ensures SaysWhatRowsSay(rows, l, first)
  {
    var o :| IsLineOf(rows, l, o);
    first :| 0 <= first < |rows| && FirstRowOf(rows, l.orderId, first) && o.currency == rows[first].currency &&
      o.description == Describe(rows[first]);
    assert rows[first].orderId == l.orderId;
  }
}
