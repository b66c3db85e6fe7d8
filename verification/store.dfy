/**
 The three tables and the handler's two entry points: ingesting a batch into
 `shipments`, and a reconciliation pass over every row of `shipments` that
 moves rows to `delivered` or `problem_orders` and builds the execution report.
 */
module Store {
  import opened Wrappers
  import opened Records
  import opened BusinessCalendar
  import opened Reconciliation
  import opened ProblemReport

  /** What the outside world answers for one selected row: the tracking result and
      whether the notification e-mail, if one is composed, is accepted. */
  datatype Poll = Poll(order: string, fetch: Fetch, sendOk: bool)

  /** The counts and lists of the execution report. */
  datatype Report = Report(
    total: nat,
    processed: nat,
    delivered: nat,
    errors: nat,
    problemOrderData: seq<Group>,
    errorOrders: seq<ErrorOrder>)

  /** Every row is stored under its own order number. */
  predicate KeyedByOrder(table: map<string, Shipment>)
  {
    forall k :: k in table ==> table[k].orderNumber == k
  }

  /** Each order rests in at most one table, under its own order number. */
  ghost predicate TablesValid(shipments: map<string, Shipment>, delivered: map<string, Shipment>, problemOrders: map<string, Shipment>)
  {
    && shipments.Keys !! delivered.Keys
    && shipments.Keys !! problemOrders.Keys
    && delivered.Keys !! problemOrders.Keys
    && KeyedByOrder(shipments) && KeyedByOrder(delivered) && KeyedByOrder(problemOrders)
  }

  /** Settling one active row, in place or by a move, keeps every order in one table. */
  lemma SettleKeepsTablesValid(shipments: map<string, Shipment>, delivered: map<string, Shipment>,
                               problemOrders: map<string, Shipment>, id: string, o: Outcome)
    requires TablesValid(shipments, delivered, problemOrders) && id in shipments && o.row.orderNumber == id
    ensures TablesValid(
      if o.dest == Active then shipments[id := o.row] else shipments - {id},
      if o.dest == DeliveredTable then delivered[id := o.row] else delivered,
      if o.dest == ProblemTable then problemOrders[id := o.row] else problemOrders)
  {
  }

  /** A second write to a key hides the first, and so does removing the key. */
  lemma Overwrite(m: map<string, Shipment>, id: string, a: Shipment, b: Shipment)
    ensures m[id := a][id := b] == m[id := b]
    ensures m[id := a] - {id} == m - {id}
  {
  }

  /** The orders of a pass, each selected once. */
  predicate DistinctOrders(polls: seq<Poll>)
  {
    forall i, j :: 0 <= i < j < |polls| ==> polls[i].order != polls[j].order
  }

  function OrderSet(polls: seq<Poll>): set<string>
  {
    set i | 0 <= i < |polls| :: polls[i].order
  }

  /** The rows of a pass: every row of the table selected once. */
  predicate SelectsAll(polls: seq<Poll>, rows: map<string, Shipment>)
  {
    && DistinctOrders(polls)
    && |polls| == |rows|
    && (forall j :: 0 <= j < |polls| ==> polls[j].order in rows)
  }

  /** The outcome of every polled row, decided from the rows as selected. */
  function Outcomes(rows: map<string, Shipment>, polls: seq<Poll>, today: int, cfg: Config): (os: seq<Outcome>)
    requires forall i :: 0 <= i < |polls| ==> polls[i].order in rows
    ensures |os| == |polls|
  {
    if polls == [] then []
    else
      var last := polls[|polls| - 1];
      Outcomes(rows, polls[..|polls| - 1], today, cfg) + [Reconcile(rows[last.order], last.fetch, last.sendOk, today, cfg)]
  }

  /** The report entries of the outcomes, in processing order. */
  function NoticesOf(os: seq<Outcome>): seq<Notice>
  {
    if os == [] then []
    else
      var last := os[|os| - 1];
      NoticesOf(os[..|os| - 1]) + (if last.notice.Some? then [last.notice.value] else [])
  }

  /** The tracking errors of the outcomes, in processing order. */
  function ErrorsOf(os: seq<Outcome>): seq<ErrorOrder>
  {
    if os == [] then []
    else
      var last := os[|os| - 1];
      ErrorsOf(os[..|os| - 1]) + (if last.error then [ErrorOf(last.row)] else [])
  }

  /** The number of outcomes that deliver. */
  function DeliveredCount(os: seq<Outcome>): nat
  {
    if os == [] then 0
    else
      var last := os[|os| - 1];
      DeliveredCount(os[..|os| - 1]) + (if last.dest == DeliveredTable then 1 else 0)
  }

  /** The outcomes of one more poll. */
  lemma OutcomesExtend(rows: map<string, Shipment>, polls: seq<Poll>, i: nat, today: int, cfg: Config)
    requires i < |polls| && forall j :: 0 <= j < |polls| ==> polls[j].order in rows
    ensures Outcomes(rows, polls[..i + 1], today, cfg)
         == Outcomes(rows, polls[..i], today, cfg) + [Reconcile(rows[polls[i].order], polls[i].fetch, polls[i].sendOk, today, cfg)]
  {
    assert polls[..i + 1][..i] == polls[..i];
  }

  /** What one more outcome adds to the report's lists and counts. */
  lemma TallyExtend(os: seq<Outcome>, o: Outcome)
    ensures NoticesOf(os + [o]) == NoticesOf(os) + (if o.notice.Some? then [o.notice.value] else [])
    ensures ErrorsOf(os + [o]) == ErrorsOf(os) + (if o.error then [ErrorOf(o.row)] else [])
    ensures DeliveredCount(os + [o]) == DeliveredCount(os) + (if o.dest == DeliveredTable then 1 else 0)
  {
    assert (os + [o])[..|os|] == os;
  }

  /** The report's counters and lists agree with the outcomes so far. */
  ghost predicate Tallied(os: seq<Outcome>, r: Report)
  {
    && r.processed == |os|
    && r.delivered == DeliveredCount(os)
    && r.errorOrders == ErrorsOf(os) && r.errors == |r.errorOrders|
    && r.problemOrderData == GroupAll(NoticesOf(os))
  }

  /**
   The body of the report loop for one outcome: count it as processed, count a
   delivery, record a tracking error, and file a notified order under its key.
   */
  method Tally(r: Report, o: Outcome, ghost os: seq<Outcome>) returns (r': Report)
    requires Tallied(os, r)
    ensures Tallied(os + [o], r') && r'.total == r.total
  {
    TallyExtend(os, o);
    r' := r.(processed := r.processed + 1);
    if o.dest == DeliveredTable {
      r' := r'.(delivered := r'.delivered + 1);
    }
    if o.error {
      r' := r'.(errors := r'.errors + 1, errorOrders := r'.errorOrders + [ErrorOf(o.row)]);
    }
    if o.notice.Some? {
      GroupAllSnoc(NoticesOf(os), o.notice.value);
      r' := r'.(problemOrderData := File(r'.problemOrderData, o.notice.value.group, o.notice.value.order));
    } else {
      assert NoticesOf(os + [o]) == NoticesOf(os);
    }
  }

  /** Grouping one more notice files it into the grouping of the earlier ones. */
  lemma GroupAllSnoc(notices: seq<Notice>, n: Notice)
    ensures GroupAll(notices + [n]) == File(GroupAll(notices), n.group, n.order)
  {
    assert (notices + [n])[..|notices|] == notices;
  }

  /** Where a reconciled row has gone, given the three tables. */
  ghost predicate PlacedIn(shipments: map<string, Shipment>, delivered: map<string, Shipment>,
                           problemOrders: map<string, Shipment>, id: string, o: Outcome)
  {
    match o.dest
    case Active => id in shipments && shipments[id] == o.row
    case DeliveredTable => id !in shipments && id in delivered && delivered[id] == o.row
    case ProblemTable => id !in shipments && id in problemOrders && problemOrders[id] == o.row
  }

  /**
   The tables part-way through a pass that started from S, D, P: the first i
   polled rows are placed by their outcomes, the others are still as selected,
   no row has entered `shipments`, and rows that were terminal are untouched.
   */
  ghost predicate Progress(S: map<string, Shipment>, D: map<string, Shipment>, P: map<string, Shipment>,
                           s: map<string, Shipment>, d: map<string, Shipment>, p: map<string, Shipment>,
                           polls: seq<Poll>, os: seq<Outcome>, i: nat)
  {
    && i <= |polls| && |os| == i
    && (forall j :: 0 <= j < |polls| ==> polls[j].order in S)
    && (forall j :: i <= j < |polls| ==> polls[j].order in s && polls[j].order in S && s[polls[j].order] == S[polls[j].order])
    && (forall j :: 0 <= j < i ==> PlacedIn(s, d, p, polls[j].order, os[j]))
    && s.Keys <= S.Keys
    && d.Keys <= D.Keys + S.Keys
    && p.Keys <= P.Keys + S.Keys
    && (forall k :: k in D && k !in S ==> k in d && d[k] == D[k])
    && (forall k :: k in P && k !in S ==> k in p && p[k] == P[k])
  }

  /** Settling the next polled row, and only it, keeps the pass in progress. */
  lemma ProgressStep(S: map<string, Shipment>, D: map<string, Shipment>, P: map<string, Shipment>,
                     s: map<string, Shipment>, d: map<string, Shipment>, p: map<string, Shipment>,
                     polls: seq<Poll>, os: seq<Outcome>, i: nat, o: Outcome)
    requires Progress(S, D, P, s, d, p, polls, os, i) && DistinctOrders(polls) && i < |polls|
    ensures var id := polls[i].order;
      Progress(S, D, P,
               if o.dest == Active then s[id := o.row] else s - {id},
               if o.dest == DeliveredTable then d[id := o.row] else d,
               if o.dest == ProblemTable then p[id := o.row] else p,
               polls, os + [o], i + 1)
  {
    var id := polls[i].order;
    var s' := if o.dest == Active then s[id := o.row] else s - {id};
    var d' := if o.dest == DeliveredTable then d[id := o.row] else d;
    var p' := if o.dest == ProblemTable then p[id := o.row] else p;
    forall j | 0 <= j < i + 1
      ensures PlacedIn(s', d', p', polls[j].order, (os + [o])[j])
    {
      if j < i {
        assert polls[j].order != id;
        assert PlacedIn(s, d, p, polls[j].order, os[j]);
      }
    }
    forall j | i + 1 <= j < |polls|
      ensures polls[j].order in s' && s'[polls[j].order] == s[polls[j].order]
    {
      assert polls[j].order != id;
    }
  }

  /** The three tables as one value. */
  datatype Tables = Tables(shipments: map<string, Shipment>, delivered: map<string, Shipment>, problemOrders: map<string, Shipment>)

  /** The tables after settling the active row `id` with outcome `o`: an active
      row is rewritten in place, a delivered or problem row moves out of `shipments`. */
  function Settled(t: Tables, id: string, o: Outcome): (t': Tables)
    ensures PlacedIn(t'.shipments, t'.delivered, t'.problemOrders, id, o)
  {
    match o.dest
    case Active => t.(shipments := t.shipments[id := o.row])
    case DeliveredTable => Tables(t.shipments - {id}, t.delivered[id := o.row], t.problemOrders)
    case ProblemTable => Tables(t.shipments - {id}, t.delivered, t.problemOrders[id := o.row])
  }

  /** The tables after settling the first |os| polled rows in order. */
  function Applied(t: Tables, polls: seq<Poll>, os: seq<Outcome>): Tables
    requires |os| <= |polls|
  {
    if os == [] then t
    else
      var n := |os| - 1;
      Settled(Applied(t, polls, os[..n]), polls[n].order, os[n])
  }

  lemma AppliedExtend(t: Tables, polls: seq<Poll>, os: seq<Outcome>, o: Outcome)
    requires |os| < |polls|
    ensures Applied(t, polls, os + [o]) == Settled(Applied(t, polls, os), polls[|os|].order, o)
  {
    assert (os + [o])[..|os|] == os;
  }

  /** Settling polled rows one by one places each of them by its outcome, leaves
      the rows not yet polled as selected and the terminal rows as they were. */
  lemma {:induction false} AppliedProgress(t: Tables, polls: seq<Poll>, os: seq<Outcome>)
    requires |os| <= |polls| && DistinctOrders(polls)
    requires forall j :: 0 <= j < |polls| ==> polls[j].order in t.shipments
    ensures var a := Applied(t, polls, os);
      Progress(t.shipments, t.delivered, t.problemOrders, a.shipments, a.delivered, a.problemOrders, polls, os, |os|)
  {
    if os != [] {
      var n := |os| - 1;
      AppliedProgress(t, polls, os[..n]);
      var a := Applied(t, polls, os[..n]);
      ProgressStep(t.shipments, t.delivered, t.problemOrders, a.shipments, a.delivered, a.problemOrders,
                   polls, os[..n], n, os[n]);
      assert os[..n] + [os[n]] == os;
    }
  }

  /** The next polled row is still in `shipments`, as selected. */
  lemma AppliedUnpolled(t: Tables, polls: seq<Poll>, os: seq<Outcome>)
    requires |os| < |polls| && DistinctOrders(polls)
    requires forall j :: 0 <= j < |polls| ==> polls[j].order in t.shipments
    ensures var id := polls[|os|].order;
      id in Applied(t, polls, os).shipments && Applied(t, polls, os).shipments[id] == t.shipments[id]
  {
    AppliedProgress(t, polls, os);
  }

  /** Every outcome keeps its row's order number. */
  lemma {:induction false} OutcomesKeyed(rows: map<string, Shipment>, polls: seq<Poll>, today: int, cfg: Config)
    requires forall j :: 0 <= j < |polls| ==> polls[j].order in rows
    ensures forall j :: 0 <= j < |polls| ==>
      Outcomes(rows, polls, today, cfg)[j].row.orderNumber == rows[polls[j].order].orderNumber
  {
    if polls != [] {
      var n := |polls| - 1;
      OutcomesKeyed(rows, polls[..n], today, cfg);
    }
  }

  /** A pass keeps every order in exactly one table, under its own order number. */
  lemma {:induction false} AppliedValid(t: Tables, polls: seq<Poll>, os: seq<Outcome>)
    requires |os| <= |polls| && DistinctOrders(polls)
    requires forall j :: 0 <= j < |polls| ==> polls[j].order in t.shipments
    requires forall j :: 0 <= j < |os| ==> os[j].row.orderNumber == polls[j].order
    requires TablesValid(t.shipments, t.delivered, t.problemOrders)
    ensures var a := Applied(t, polls, os); TablesValid(a.shipments, a.delivered, a.problemOrders)
  {
    if os != [] {
      var n := |os| - 1;
      AppliedValid(t, polls, os[..n]);
      AppliedUnpolled(t, polls, os[..n]);
      var a := Applied(t, polls, os[..n]);
      SettleKeepsTablesValid(a.shipments, a.delivered, a.problemOrders, polls[n].order, os[n]);
    }
  }

  /** A row is delivered, reported as a problem or reported as an error, or none of
      these, but never two of them: the three counts add up to at most the rows. */
  lemma {:induction false} CountsAreExclusive(rows: map<string, Shipment>, polls: seq<Poll>, today: int, cfg: Config)
    requires forall i :: 0 <= i < |polls| ==> polls[i].order in rows
    ensures var os := Outcomes(rows, polls, today, cfg);
      DeliveredCount(os) + |NoticesOf(os)| + |ErrorsOf(os)| <= |polls|
  {
    if polls != [] {
      var n := |polls| - 1;
      var os := Outcomes(rows, polls, today, cfg);
      var last := polls[n];
      CountsAreExclusive(rows, polls[..n], today, cfg);
      DeliveredFirst(rows[last.order], last.fetch, last.sendOk, today, cfg);
      NoticeOnlyOnSend(rows[last.order], last.fetch, last.sendOk, today, cfg);
      assert os[..n] == Outcomes(rows, polls[..n], today, cfg);
    }
  }

  /** Distinct orders make a set with one member per poll. */
  lemma {:induction false} OrderSetSize(polls: seq<Poll>)
    requires DistinctOrders(polls)
    ensures |OrderSet(polls)| == |polls|
  {
    if polls != [] {
      var n := |polls| - 1;
      OrderSetSize(polls[..n]);
      assert OrderSet(polls) == OrderSet(polls[..n]) + {polls[n].order};
      assert polls[n].order !in OrderSet(polls[..n]);
    }
  }

  /** The first n entries of a batch have distinct order numbers, none of them already stored. */
  predicate FreshBatch(rows: map<string, Shipment>, entries: seq<Entry>, n: nat)
    requires n <= |entries|
  {
    && (forall i, j :: 0 <= i < j < n ==> entries[i].orderNumber != entries[j].orderNumber)
    && (forall i :: 0 <= i < n ==> entries[i].orderNumber !in rows)
  }

  /** The table after inserting the first n entries of a batch. */
  function Staged(rows: map<string, Shipment>, entries: seq<Entry>, n: nat): (staged: map<string, Shipment>)
    requires n <= |entries|
    // inserting never removes a stored order number
    ensures rows.Keys <= staged.Keys
    // the last inserted entry is stored as its row
    ensures n > 0 ==> entries[n - 1].orderNumber in staged && staged[entries[n - 1].orderNumber] == FromEntry(entries[n - 1])
  {
    if n == 0 then rows
    else Staged(rows, entries, n - 1)[entries[n - 1].orderNumber := FromEntry(entries[n - 1])]
  }

  /** An order number is staged when it was stored or is one of the inserted entries. */
  lemma {:induction false} StagedHas(rows: map<string, Shipment>, entries: seq<Entry>, n: nat, k: string)
    requires n <= |entries|
    ensures k in Staged(rows, entries, n) <==> k in rows || exists i :: 0 <= i < n && entries[i].orderNumber == k
  {
    if n > 0 {
      StagedHas(rows, entries, n - 1, k);
    }
  }

  /** The staged table holds the stored order numbers and the batch's, and no other. */
  lemma StagedKeys(rows: map<string, Shipment>, entries: seq<Entry>, n: nat)
    requires n <= |entries|
    ensures Staged(rows, entries, n).Keys == rows.Keys + (set i | 0 <= i < n :: entries[i].orderNumber)
  {
    forall k ensures k in Staged(rows, entries, n) <==> k in rows.Keys + (set i | 0 <= i < n :: entries[i].orderNumber) {
      StagedHas(rows, entries, n, k);
    }
  }

  /** In a fresh batch every entry is stored as its row, and every stored row is kept. */
  lemma {:induction false} StagedRows(rows: map<string, Shipment>, entries: seq<Entry>, n: nat)
    requires n <= |entries| && FreshBatch(rows, entries, n)
    ensures forall i :: 0 <= i < n ==> entries[i].orderNumber in Staged(rows, entries, n)
    ensures rows.Keys <= Staged(rows, entries, n).Keys
    ensures forall i :: 0 <= i < n ==> Staged(rows, entries, n)[entries[i].orderNumber] == FromEntry(entries[i])
    ensures forall k :: k in rows ==> Staged(rows, entries, n)[k] == rows[k]
  {
    if n > 0 {
      StagedRows(rows, entries, n - 1);
      StagedHas(rows, entries, n - 1, entries[n - 1].orderNumber);
    }
  }

  /** Ingesting a fresh batch whose orders are in no other table keeps every order in one table. */
  lemma StagedValid(shipments: map<string, Shipment>, delivered: map<string, Shipment>,
                    problemOrders: map<string, Shipment>, entries: seq<Entry>)
    requires TablesValid(shipments, delivered, problemOrders) && FreshBatch(shipments, entries, |entries|)
    requires forall i :: 0 <= i < |entries| ==>
      entries[i].orderNumber !in delivered && entries[i].orderNumber !in problemOrders
    ensures TablesValid(Staged(shipments, entries, |entries|), delivered, problemOrders)
  {
    var s := Staged(shipments, entries, |entries|);
    StagedRows(shipments, entries, |entries|);
    forall k | k in s ensures s[k].orderNumber == k && k !in delivered && k !in problemOrders {
      StagedHas(shipments, entries, |entries|, k);
    }
  }

  /** Selecting every row once is selecting exactly the table's order numbers. */
  lemma SelectionIsTable(polls: seq<Poll>, rows: map<string, Shipment>)
    ensures SelectsAll(polls, rows) <==> DistinctOrders(polls) && OrderSet(polls) == rows.Keys
  {
    if DistinctOrders(polls) {
      OrderSetSize(polls);
      assert forall j :: 0 <= j < |polls| ==> polls[j].order in OrderSet(polls);
      if SelectsAll(polls, rows) {
        assert OrderSet(polls) <= rows.Keys;
        assert |rows.Keys - OrderSet(polls)| == |rows.Keys| - |OrderSet(polls)| == 0;
        assert rows.Keys - OrderSet(polls) == {};
      }
      if OrderSet(polls) == rows.Keys {
        assert |rows.Keys| == |rows|;
      }
    }
  }

  class Database {
    var shipments: map<string, Shipment>
    var delivered: map<string, Shipment>
    var problemOrders: map<string, Shipment>

    /** Each order rests in at most one table, under its own order number. */
    ghost predicate Valid()
      reads this
    {
      TablesValid(shipments, delivered, problemOrders)
    }

    constructor (shipments: map<string, Shipment>, delivered: map<string, Shipment>, problemOrders: map<string, Shipment>)
      ensures this.shipments == shipments && this.delivered == delivered && this.problemOrders == problemOrders
      ensures TablesValid(shipments, delivered, problemOrders) ==> Valid()
    {
      this.shipments := shipments;
      this.delivered := delivered;
      this.problemOrders := problemOrders;
    }

    /**
     Ingests a batch: one INSERT into `shipments` per entry, committed together.
     An entry whose order number is already stored (or repeats in the batch)
     fails its INSERT, which ends the handler before the commit: nothing is stored.
     An empty batch stores nothing.
     */
    method Ingest(entries: seq<Entry>) returns (committed: bool)
      modifies this
      ensures committed <==> FreshBatch(old(shipments), entries, |entries|)
      ensures shipments == if committed then Staged(old(shipments), entries, |entries|) else old(shipments)
      ensures delivered == old(delivered) && problemOrders == old(problemOrders)
      ensures old(Valid()) && committed
              && (forall i :: 0 <= i < |entries| ==>
                    entries[i].orderNumber !in old(delivered) && entries[i].orderNumber !in old(problemOrders))
              ==> Valid()
    {
      committed := true;
      if entries == [] {
        return;
      }
      var pending := shipments;
      var i := 0;
      while i < |entries|
        invariant 0 <= i <= |entries|
        invariant FreshBatch(shipments, entries, i)
        invariant pending == Staged(shipments, entries, i)
        invariant unchanged(this)
      {
        var key := entries[i].orderNumber;
        StagedHas(shipments, entries, i, key);
        if key in pending {
          committed := false;
          if key !in shipments {
            var a :| 0 <= a < i && entries[a].orderNumber == key;
            assert !FreshBatch(shipments, entries, |entries|);
          }
          return;
        }
        pending := pending[key := FromEntry(entries[i])];
        i := i + 1;
      }
      if Valid() && (forall j :: 0 <= j < |entries| ==> entries[j].orderNumber !in delivered && entries[j].orderNumber !in problemOrders) {
        StagedValid(shipments, delivered, problemOrders, entries);
      }
      shipments := pending;
    }

    /** Where a reconciled row has gone. */
    ghost predicate Placed(id: string, o: Outcome)
      reads this
    {
      PlacedIn(shipments, delivered, problemOrders, id, o)
    }

    /** The location-anchor bookkeeping of one row; only that row changes. */
    method UpdateAnchor(id: string, city: Option<string>, today: int, holidays: set<int>) returns (stuck: bool)
      requires id in shipments
      modifies this
      ensures var located := Relocate(old(shipments[id]), city, today, holidays);
        shipments == old(shipments)[id := located.row] && stuck == located.stuck
      ensures delivered == old(delivered) && problemOrders == old(problemOrders)
    {
      stuck := false;
      if city.Some? {
        var stored := shipments[id];
        if stored.lastLocation != "" {
          if city.value != stored.lastLocation {
            shipments := shipments[id := stored.(lastLocation := city.value, lastLocationDate := Some(today), daysAtLastLocation := 0)];
          } else if stored.lastLocationDate.Some? {
            var days := CalculateDays(stored.lastLocationDate.value, today, holidays);
            shipments := shipments[id := stored.(daysAtLastLocation := days)];
            stuck := days >= 3;
          } else {
            shipments := shipments[id := stored.(lastLocationDate := Some(today), daysAtLastLocation := 0)];
          }
        }
      }
    }

    /**
     Reconciles one selected row. Without a tracking snapshot nothing is
     written; otherwise see Reconcile.
     */
    method ProcessRow(id: string, fetch: Fetch, sendOk: bool, today: int, cfg: Config) returns (o: Outcome)
      requires id in shipments
      modifies this
      ensures o == Reconcile(old(shipments[id]), fetch, sendOk, today, cfg)
      ensures Placed(id, o)
      ensures shipments == if o.dest == Active then old(shipments)[id := o.row] else old(shipments) - {id}
      ensures delivered == if o.dest == DeliveredTable then old(delivered)[id := o.row] else old(delivered)
      ensures problemOrders == if o.dest == ProblemTable then old(problemOrders)[id := o.row] else old(problemOrders)
      ensures old(Valid()) ==> Valid()
    {
      ghost var s0, d0, p0 := shipments, delivered, problemOrders;
      var row := shipments[id];
      if !fetch.Tracked? {
        return Outcome(row, Active, None, fetch.FetchFailed?);
      }
      o := ProcessTracked(id, fetch.snap, sendOk, today, cfg);
      if TablesValid(s0, d0, p0) {
        SettleKeepsTablesValid(s0, d0, p0, id, o);
      }
    }

    /**
     Reconciles a row with a tracking snapshot: writes the status entry,
     applies the aging rule and the location-anchor bookkeeping, then moves a
     delivered row to `delivered`, or notifies a problem and, for a non-delay
     problem, moves the row to `problem_orders`.
     */
    method ProcessTracked(id: string, snap: Snapshot, sendOk: bool, today: int, cfg: Config) returns (o: Outcome)
      requires id in shipments
      modifies this
      ensures o == Reconcile(old(shipments[id]), Tracked(snap), sendOk, today, cfg)
      ensures shipments == if o.dest == Active then old(shipments)[id := o.row] else old(shipments) - {id}
      ensures delivered == if o.dest == DeliveredTable then old(delivered)[id := o.row] else old(delivered)
      ensures problemOrders == if o.dest == ProblemTable then old(problemOrders)[id := o.row] else old(problemOrders)
    {
      var row := shipments[id];
      var entry := StatusEntry(snap);
      var isProblem := snap.code in cfg.problemCodes;
      var isStuck := false;
      shipments := shipments[id := row.(statusCode := entry)];
      ghost var written := shipments[id];

      // the aging rule
      if snap.code == AgingCode {
        var sinceShipped := CalculateDays(row.shippedDate, today, cfg.holidays);
        if sinceShipped > 2 {
          isProblem := true;
        }
      }

      // the location anchor
      var stuck := UpdateAnchor(id, snap.city, today, cfg.holidays);
      if stuck {
        isProblem := true;
        isStuck := true;
      }

      ghost var located := Relocate(written, snap.city, today, cfg.holidays);
      assert isProblem == (snap.code in cfg.problemCodes || Aged(row, snap, today, cfg) || located.stuck);
      ghost var before := shipments;
      assert before == old(shipments)[id := located.row];
      o := Dispatch(id, row, snap, isProblem, isStuck, sendOk, cfg);
      Overwrite(old(shipments), id, located.row, o.row);
    }

    /** Moves a delivered row, or notifies a problem and moves or flags the row. */
    method Dispatch(id: string, rec: Shipment, snap: Snapshot, isProblem: bool, isStuck: bool, sendOk: bool, cfg: Config)
      returns (o: Outcome)
      requires id in shipments
      modifies this
      ensures o == Settle(rec, snap, Located(old(shipments[id]), isStuck), isProblem, sendOk, cfg)
      ensures shipments == if o.dest == Active then old(shipments)[id := o.row] else old(shipments) - {id}
      ensures delivered == if o.dest == DeliveredTable then old(delivered)[id := o.row] else old(delivered)
      ensures problemOrders == if o.dest == ProblemTable then old(problemOrders)[id := o.row] else old(problemOrders)
    {
      var isDelayed := snap.code in cfg.delayCodes;
      if snap.code in cfg.deliveredCodes {
        shipments := shipments[id := shipments[id].(delivered := true)];
        delivered := delivered[id := shipments[id]];
        o := Outcome(shipments[id], DeliveredTable, None, false);
        shipments := shipments - {id};
      } else if isProblem {
        if isDelayed && shipments[id].delayed {
          return Outcome(shipments[id], Active, None, false);
        }
        if !isStuck && snap.code !in cfg.subjectCodes {
          return Outcome(shipments[id], Active, None, true);
        }
        if sendOk {
          var notice := Notice(StatusEntry(snap), InfoOf(rec));
          if isDelayed {
            shipments := shipments[id := shipments[id].(delayed := true)];
            o := Outcome(shipments[id], Active, Some(notice), false);
          } else {
            shipments := shipments[id := shipments[id].(notificationSent := true)];
            problemOrders := problemOrders[id := shipments[id]];
            o := Outcome(shipments[id], ProblemTable, Some(notice), false);
            shipments := shipments - {id};
          }
        } else {
          o := Outcome(shipments[id], Active, None, false);
        }
      } else {
        o := Outcome(shipments[id], Active, None, false);
      }
    }

    /** The body of the pass for the i-th polled row: reconcile it and count its outcome. */
    method Advance(ghost start: Tables, polls: seq<Poll>, ghost os: seq<Outcome>, i: nat, r: Report, today: int, cfg: Config)
      returns (o: Outcome, r': Report, ghost os': seq<Outcome>)
      requires i == |os| < |polls| && DistinctOrders(polls)
      requires forall j :: 0 <= j < |polls| ==> polls[j].order in start.shipments
      requires os == Outcomes(start.shipments, polls[..i], today, cfg)
      requires Tallied(os, r)
      requires Tables(shipments, delivered, problemOrders) == Applied(start, polls, os)
      modifies this
      ensures os' == os + [o] == Outcomes(start.shipments, polls[..i + 1], today, cfg)
      ensures Tallied(os', r') && r'.total == r.total
      ensures Tables(shipments, delivered, problemOrders) == Applied(start, polls, os')
    {
      var poll := polls[i];
      AppliedUnpolled(start, polls, os);
      OutcomesExtend(start.shipments, polls, i, today, cfg);
      o := ProcessRow(poll.order, poll.fetch, poll.sendOk, today, cfg);
      r' := Tally(r, o, os);
      AppliedExtend(start, polls, os, o);
      os' := os + [o];
    }

    /**
     One reconciliation pass over the rows selected from `shipments`, in the
     order selected, folding each row's outcome into the report.
     */
    method RunPass(polls: seq<Poll>, today: int, cfg: Config) returns (r: Report, ghost os: seq<Outcome>)
      requires SelectsAll(polls, shipments)
      modifies this
      ensures os == Outcomes(old(shipments), polls, today, cfg)
      ensures r.total == |old(shipments)| == |polls|
      ensures Tallied(os, r)
      ensures Total(r.problemOrderData) == |NoticesOf(os)|
      ensures Tables(shipments, delivered, problemOrders)
           == Applied(Tables(old(shipments), old(delivered), old(problemOrders)), polls, os)
      ensures old(Valid()) ==> Valid()
    {
      ghost var start := Tables(shipments, delivered, problemOrders);
      r := Report(|shipments|, 0, 0, 0, [], []);
      os := [];
      var i := 0;
      while i < |polls|
        invariant 0 <= i <= |polls| && r.total == |start.shipments|
        invariant os == Outcomes(start.shipments, polls[..i], today, cfg)
        invariant Tallied(os, r)
        invariant Tables(shipments, delivered, problemOrders) == Applied(start, polls, os)
      {
        var o;
        o, r, os := Advance(start, polls, os, i, r, today, cfg);
        i := i + 1;
      }
      assert polls[..i] == polls;
      GroupAllTotal(NoticesOf(os));
      if TablesValid(start.shipments, start.delivered, start.problemOrders) {
        OutcomesKeyed(start.shipments, polls, today, cfg);
        AppliedValid(start, polls, os);
      }
    }
  }
}
