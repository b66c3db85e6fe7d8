/**
 What one pass does to one row of `shipments`, as a function of the stored row,
 the tracking result, the outcome of the e-mail send and the processing day.
 The store applies the outcome (see module Store); this module states and
 proves what the outcome is.
 */
module Reconciliation {
  import opened Wrappers
  import opened Records
  import opened BusinessCalendar

  /** The row after the location-anchor bookkeeping, and whether it is stuck. */
  datatype Located = Located(row: Shipment, stuck: bool)

  /** Where the row rests after the pass. */
  datatype Destination = Active | DeliveredTable | ProblemTable

  /** The row's new columns, its table, the report entry of a sent notification,
      and whether the row counts as a tracking error. */
  datatype Outcome = Outcome(row: Shipment, dest: Destination, notice: Option<Notice>, error: bool)

  /** Same city as the stored, non-empty `LastLocation`, with a stored anchor date
      at least three business days back (counting both ends). */
  predicate Stalled(rec: Shipment, city: Option<string>, today: int, holidays: set<int>)
    // three business days at one city, counting both ends: a row stalls two days after its anchor date at the earliest
    ensures Stalled(rec, city, today, holidays) ==> rec.lastLocationDate.Some? && rec.lastLocationDate.value + 2 <= today
  {
    && rec.lastLocation != ""
    && city == Some(rec.lastLocation)
    && rec.lastLocationDate.Some?
    && BusinessDays(rec.lastLocationDate.value, today, holidays) >= 3
  }

  /** The aging rule: a `003` label more than two business days after the ship date. */
  predicate Aged(rec: Shipment, snap: Snapshot, today: int, cfg: Config)
    // more than two business days, counting both ends: a label ages two days after its ship date at the earliest
    ensures Aged(rec, snap, today, cfg) ==> snap.code == AgingCode && rec.shippedDate + 2 <= today
  {
    snap.code == AgingCode && BusinessDays(rec.shippedDate, today, cfg.holidays) > 2
  }

  /** The problem classification: a configured problem code, the aging rule or a stall. */
  predicate IsProblem(rec: Shipment, snap: Snapshot, today: int, cfg: Config)
    // a configured problem code is always a problem
    ensures snap.code in cfg.problemCodes ==> IsProblem(rec, snap, today, cfg)
    // any other code but the aging code is a problem exactly when the row is stalled
    ensures snap.code !in cfg.problemCodes && snap.code != AgingCode ==>
      (IsProblem(rec, snap, today, cfg) <==> Stalled(rec, snap.city, today, cfg.holidays))
    // on the ship date or the day after, only a configured problem code or a stall makes a problem
    ensures today < rec.shippedDate + 2 && IsProblem(rec, snap, today, cfg) ==>
      snap.code in cfg.problemCodes || Stalled(rec, snap.city, today, cfg.holidays)
  {
    snap.code in cfg.problemCodes || Aged(rec, snap, today, cfg) || Stalled(rec, snap.city, today, cfg.holidays)
  }

  /** The location-anchor bookkeeping. */
  function Relocate(rec: Shipment, city: Option<string>, today: int, holidays: set<int>): (l: Located)
    // only the three anchor columns may change
    ensures l.row == rec.(lastLocation := l.row.lastLocation,
                          lastLocationDate := l.row.lastLocationDate,
                          daysAtLastLocation := l.row.daysAtLastLocation)
    // no city in the activity, or no stored location: nothing is written
    ensures city.None? || rec.lastLocation == "" ==> l == Located(rec, false)
    // a new city re-anchors at today with no days counted
    ensures rec.lastLocation != "" && city.Some? && city.value != rec.lastLocation ==>
      && l.row.lastLocation == city.value
      && l.row.lastLocationDate == Some(today)
      && l.row.daysAtLastLocation == 0
      && !l.stuck
    // the same city with a stored date: the days there are recounted up to today
    ensures rec.lastLocation != "" && city == Some(rec.lastLocation) && rec.lastLocationDate.Some? ==>
      && l.row.lastLocation == rec.lastLocation
      && l.row.lastLocationDate == rec.lastLocationDate
      && l.row.daysAtLastLocation == BusinessDays(rec.lastLocationDate.value, today, holidays)
    // the same city without a stored date: anchored at today
    ensures rec.lastLocation != "" && city == Some(rec.lastLocation) && rec.lastLocationDate.None? ==>
      && l.row.lastLocation == rec.lastLocation
      && l.row.lastLocationDate == Some(today)
      && l.row.daysAtLastLocation == 0
    ensures l.stuck <==> Stalled(rec, city, today, holidays)
  {
    match city
    case None => Located(rec, false)
    case Some(c) =>
      if rec.lastLocation == "" then Located(rec, false)
      else if c != rec.lastLocation then
        Located(rec.(lastLocation := c, lastLocationDate := Some(today), daysAtLastLocation := 0), false)
      else
        match rec.lastLocationDate
        case Some(since) =>
          var days := BusinessDays(since, today, holidays);
          Located(rec.(daysAtLastLocation := days), days >= 3)
        case None =>
          Located(rec.(lastLocationDate := Some(today), daysAtLastLocation := 0), false)
  }

  /** The whole decision for one row. */
  function Reconcile(rec: Shipment, fetch: Fetch, sendOk: bool, today: int, cfg: Config): (o: Outcome)
    // the identifying columns never change
    ensures && o.row.orderNumber == rec.orderNumber && o.row.customerName == rec.customerName
            && o.row.customerEmail == rec.customerEmail && o.row.trackingNumber == rec.trackingNumber
            && o.row.carrierName == rec.carrierName && o.row.shippedDate == rec.shippedDate
    // without a tracking snapshot the row is left as it was; only a failed request is an error
    ensures !fetch.Tracked? ==> o == Outcome(rec, Active, None, fetch.FetchFailed?)
    // every row with a snapshot gets the status entry "code: description"
    ensures fetch.Tracked? ==> o.row.statusCode == StatusEntry(fetch.snap)
  {
    match fetch
    case BadJson => Outcome(rec, Active, None, false)
    case NoTrail => Outcome(rec, Active, None, false)
    case FetchFailed => Outcome(rec, Active, None, true)
    case Tracked(snap) =>
      var located := Relocate(rec.(statusCode := StatusEntry(snap)), snap.city, today, cfg.holidays);
      var isProblem := snap.code in cfg.problemCodes || Aged(rec, snap, today, cfg) || located.stuck;
      Settle(rec, snap, located, isProblem, sendOk, cfg)
  }

  /**
   The decision once the status entry and the anchor are written: a delivered
   code first, then a problem, which is skipped when it is a delay already
   flagged, fails without a subject line, and is otherwise notified.
   */
  function Settle(rec: Shipment, snap: Snapshot, located: Located, isProblem: bool, sendOk: bool, cfg: Config): (o: Outcome)
    // only the three flags may change
    ensures o.row == located.row.(delayed := o.row.delayed, notificationSent := o.row.notificationSent,
                                  delivered := o.row.delivered)
  {
    var entry := StatusEntry(snap);
    var isDelayed := snap.code in cfg.delayCodes;
    var row := located.row;
    if snap.code in cfg.deliveredCodes then
      Outcome(row.(delivered := true), DeliveredTable, None, false)
    else if !isProblem then
      Outcome(row, Active, None, false)
    else if isDelayed && row.delayed then
      // already notified of a delay: skipped
      Outcome(row, Active, None, false)
    else if !located.stuck && snap.code !in cfg.subjectCodes then
      // no subject line for the code: the lookup fails and the row counts as an error
      Outcome(row, Active, None, true)
    else if !sendOk then
      Outcome(row, Active, None, false)
    else if isDelayed then
      Outcome(row.(delayed := true), Active, Some(Notice(entry, InfoOf(rec))), false)
    else
      Outcome(row.(notificationSent := true), ProblemTable, Some(Notice(entry, InfoOf(rec))), false)
  }

  /** A delivered code wins over every other classification, and only a delivered
      code moves a row to `delivered`. */
  lemma DeliveredFirst(rec: Shipment, fetch: Fetch, sendOk: bool, today: int, cfg: Config)
    ensures var o := Reconcile(rec, fetch, sendOk, today, cfg);
      && (o.dest == DeliveredTable <==> fetch.Tracked? && fetch.snap.code in cfg.deliveredCodes)
      && (o.dest == DeliveredTable ==> o.row.delivered && o.notice.None? && !o.error)
  {
  }

  /** Only a sent notification moves a row to problem_orders, having set
      `NotificationSent`; a report entry is filed only after a successful send,
      under the status entry; a tracking error leaves the row active with no entry. */
  lemma NoticeOnlyOnSend(rec: Shipment, fetch: Fetch, sendOk: bool, today: int, cfg: Config)
    ensures var o := Reconcile(rec, fetch, sendOk, today, cfg);
      && (o.dest == ProblemTable ==> sendOk && o.notice.Some? && o.row.notificationSent)
      && (o.notice.Some? ==>
            sendOk && fetch.Tracked? && o.notice.value == Notice(StatusEntry(fetch.snap), InfoOf(rec)) && !o.error)
      && (o.error ==> o.dest == Active && o.notice.None?)
  {
  }

  /** The gating flags only ever go from 'No' to 'Yes', each only with its own action. */
  lemma FlagsOnlyRise(rec: Shipment, fetch: Fetch, sendOk: bool, today: int, cfg: Config)
    ensures var o := Reconcile(rec, fetch, sendOk, today, cfg);
      && (o.row.delayed != rec.delayed ==> o.row.delayed && o.notice.Some? && o.dest == Active)
      && (o.row.notificationSent != rec.notificationSent ==> o.row.notificationSent && o.dest == ProblemTable)
      && (o.row.delivered != rec.delivered ==> o.row.delivered && o.dest == DeliveredTable)
  {
  }

  /** A row is notified exactly when it is a problem that is not an already-notified
      delay, has a subject line (or is stuck), and the send succeeds. */
  lemma NotifiedIff(rec: Shipment, snap: Snapshot, sendOk: bool, today: int, cfg: Config)
    requires snap.code !in cfg.deliveredCodes
    ensures var o := Reconcile(rec, Tracked(snap), sendOk, today, cfg);
      o.notice.Some? <==>
        && IsProblem(rec, snap, today, cfg)
        && !(snap.code in cfg.delayCodes && rec.delayed)
        && (Stalled(rec, snap.city, today, cfg.holidays) || snap.code in cfg.subjectCodes)
        && sendOk
  {
  }

  /** A problem code without a subject line that is neither stuck nor an already-notified
      delay is a tracking error, and nothing else is. */
  lemma ErrorIff(rec: Shipment, fetch: Fetch, sendOk: bool, today: int, cfg: Config)
    ensures var o := Reconcile(rec, fetch, sendOk, today, cfg);
      o.error <==>
        || fetch.FetchFailed?
        || (&& fetch.Tracked?
            && fetch.snap.code !in cfg.deliveredCodes
            && IsProblem(rec, fetch.snap, today, cfg)
            && !(fetch.snap.code in cfg.delayCodes && rec.delayed)
            && !Stalled(rec, fetch.snap.city, today, cfg.holidays)
            && fetch.snap.code !in cfg.subjectCodes)
  {
  }

  /** A row that is neither delivered nor a problem only has its status and anchor updated. */
  lemma NoProblemNoAction(rec: Shipment, snap: Snapshot, sendOk: bool, today: int, cfg: Config)
    requires snap.code !in cfg.deliveredCodes && !IsProblem(rec, snap, today, cfg)
    ensures var o := Reconcile(rec, Tracked(snap), sendOk, today, cfg);
      && o.dest == Active && o.notice.None? && !o.error
      && o.row == Relocate(rec, snap.city, today, cfg.holidays).row.(statusCode := StatusEntry(snap))
  {
  }

  /** A delay already flagged is suppressed: no send, no flag change, no move, no entry. */
  lemma RepeatedDelaySuppressed(rec: Shipment, snap: Snapshot, sendOk: bool, today: int, cfg: Config)
    requires snap.code !in cfg.deliveredCodes && snap.code in cfg.delayCodes && rec.delayed
    ensures var o := Reconcile(rec, Tracked(snap), sendOk, today, cfg);
      && o.dest == Active && o.notice.None? && !o.error
      && o.row.delayed && o.row.notificationSent == rec.notificationSent && o.row.delivered == rec.delivered
  {
  }

  /** A first delay whose notification goes out sets `Delayed` and keeps the row active. */
  lemma FirstDelayFlagged(rec: Shipment, snap: Snapshot, today: int, cfg: Config)
    requires snap.code !in cfg.deliveredCodes && snap.code in cfg.delayCodes && !rec.delayed
    requires IsProblem(rec, snap, today, cfg)
    requires Stalled(rec, snap.city, today, cfg.holidays) || snap.code in cfg.subjectCodes
    ensures var o := Reconcile(rec, Tracked(snap), true, today, cfg);
      && o.dest == Active && o.row.delayed && o.notice == Some(Notice(StatusEntry(snap), InfoOf(rec)))
      && o.row.notificationSent == rec.notificationSent
  {
  }

  /** A non-delay problem whose notification goes out is flagged and moved to problem_orders. */
  lemma ProblemMoved(rec: Shipment, snap: Snapshot, today: int, cfg: Config)
    requires snap.code !in cfg.deliveredCodes && snap.code !in cfg.delayCodes
    requires IsProblem(rec, snap, today, cfg)
    requires Stalled(rec, snap.city, today, cfg.holidays) || snap.code in cfg.subjectCodes
    ensures var o := Reconcile(rec, Tracked(snap), true, today, cfg);
      && o.dest == ProblemTable && o.row.notificationSent && o.row.delayed == rec.delayed
      && o.notice == Some(Notice(StatusEntry(snap), InfoOf(rec)))
  {
  }

  /** A failed send changes no flag, moves nothing and files no entry. */
  lemma FailedSendChangesNoFlag(rec: Shipment, snap: Snapshot, today: int, cfg: Config)
    requires snap.code !in cfg.deliveredCodes
    ensures var o := Reconcile(rec, Tracked(snap), false, today, cfg);
      && o.dest == Active && o.notice.None?
      && o.row.delayed == rec.delayed && o.row.notificationSent == rec.notificationSent
      && o.row.delivered == rec.delivered
  {
  }

  /** `NotificationSent` is written but never read: the decision does not depend on it. */
  lemma NotificationSentNeverRead(rec: Shipment, b: bool, fetch: Fetch, sendOk: bool, today: int, cfg: Config)
    ensures var o := Reconcile(rec, fetch, sendOk, today, cfg);
      var o' := Reconcile(rec.(notificationSent := b), fetch, sendOk, today, cfg);
      o'.dest == o.dest && o'.notice == o.notice && o'.error == o.error
      && o'.row.delayed == o.row.delayed && o'.row.daysAtLastLocation == o.row.daysAtLastLocation
  {
    if fetch.Tracked? {
      var snap := fetch.snap;
      var rec' := rec.(notificationSent := b);
      var l := Relocate(rec.(statusCode := StatusEntry(snap)), snap.city, today, cfg.holidays);
      var l' := Relocate(rec'.(statusCode := StatusEntry(snap)), snap.city, today, cfg.holidays);
      RelocateIgnoresNotificationSent(rec.(statusCode := StatusEntry(snap)), b, snap.city, today, cfg.holidays);
      var isProblem := snap.code in cfg.problemCodes || Aged(rec, snap, today, cfg) || l.stuck;
      SettleIgnoresNotificationSent(rec, rec', snap, l, l', isProblem, sendOk, cfg);
    }
  }

  /** The anchor bookkeeping neither reads nor writes `NotificationSent`. */
  lemma RelocateIgnoresNotificationSent(rec: Shipment, b: bool, city: Option<string>, today: int, holidays: set<int>)
    ensures var l := Relocate(rec, city, today, holidays);
      var l' := Relocate(rec.(notificationSent := b), city, today, holidays);
      l'.stuck == l.stuck && l'.row == l.row.(notificationSent := b)
  {
  }

  /** The decision reads neither the stored nor the written `NotificationSent`. */
  lemma SettleIgnoresNotificationSent(rec: Shipment, rec': Shipment, snap: Snapshot, l: Located, l': Located,
                                      isProblem: bool, sendOk: bool, cfg: Config)
    requires InfoOf(rec') == InfoOf(rec) && l'.stuck == l.stuck
    requires l'.row.delayed == l.row.delayed && l'.row.daysAtLastLocation == l.row.daysAtLastLocation
    ensures var o := Settle(rec, snap, l, isProblem, sendOk, cfg);
      var o' := Settle(rec', snap, l', isProblem, sendOk, cfg);
      o'.dest == o.dest && o'.notice == o.notice && o'.error == o.error
      && o'.row.delayed == o.row.delayed && o'.row.daysAtLastLocation == o.row.daysAtLastLocation
  {
  }

  /** Two polls in a row that see the same city: the days at the location grow by
      exactly the business days after the first poll, up to the second. */
  lemma DaysAccumulate(rec: Shipment, city: string, t1: int, t2: int, holidays: set<int>)
    requires rec.lastLocation == city != "" && rec.lastLocationDate.Some?
    requires rec.lastLocationDate.value <= t1 + 1 && t1 <= t2
    ensures var first := Relocate(rec, Some(city), t1, holidays).row;
      var second := Relocate(first, Some(city), t2, holidays).row;
      second.daysAtLastLocation == first.daysAtLastLocation + BusinessDays(t1 + 1, t2, holidays)
  {
    Split(rec.lastLocationDate.value, t1, t2, holidays);
  }

  /** After a move is seen on day t1, a later poll at the same city on day t2 counts the
      business days of [t1, t2], and the row is stuck once there are three of them. */
  lemma StallAfterMove(rec: Shipment, city: string, t1: int, t2: int, holidays: set<int>)
    requires rec.lastLocation != "" && city != "" && city != rec.lastLocation
    ensures var moved := Relocate(rec, Some(city), t1, holidays);
      var later := Relocate(moved.row, Some(city), t2, holidays);
      && !moved.stuck
      && later.row.daysAtLastLocation == BusinessDays(t1, t2, holidays)
      && (later.stuck <==> BusinessDays(t1, t2, holidays) >= 3)
  {
  }
}
