/** The optional value, for absent columns and absent payload fields. */
module Wrappers {
  datatype Option<+T> = None | Some(value: T)
}

/**
 The rows of the three shipment tables, the entries of an ingestion batch,
 the normalized carrier snapshot and the configured code tables.
 */
module Records {
  import opened Wrappers

  /** A row of `shipments`, `delivered` or `problem_orders` (all three share the columns).
      A flag is true when its column holds 'Yes'; an empty `lastLocation` stands for a
      NULL or empty column; dates are day numbers. */
  datatype Shipment = Shipment(
    orderNumber: string,
    customerName: string,
    customerEmail: string,
    trackingNumber: string,
    carrierName: string,
    shippedDate: int,
    statusCode: string,
    lastLocation: string,
    lastLocationDate: Option<int>,
    daysAtLastLocation: int,
    notificationSent: bool,
    delayed: bool,
    delivered: bool)

  /** An entry of an ingestion batch: every column but `LastLocationDate`. */
  datatype Entry = Entry(
    orderNumber: string,
    customerName: string,
    customerEmail: string,
    trackingNumber: string,
    carrierName: string,
    shippedDate: int,
    statusCode: string,
    lastLocation: string,
    daysAtLastLocation: int,
    notificationSent: bool,
    delayed: bool,
    delivered: bool)

  /** The columns the ingestion INSERT names, read back from a row. */
  function ToEntry(s: Shipment): Entry
  {
    Entry(s.orderNumber, s.customerName, s.customerEmail, s.trackingNumber, s.carrierName,
          s.shippedDate, s.statusCode, s.lastLocation, s.daysAtLastLocation,
          s.notificationSent, s.delayed, s.delivered)
  }

  /** A row whose `LastLocationDate` is NULL is exactly what inserting its entry stores. */
  lemma EntryRoundTrip(s: Shipment)
    requires s.lastLocationDate == None
    ensures FromEntry(ToEntry(s)) == s
  {
  }

  /** The row an ingested entry becomes: the column the INSERT does not name is NULL. */
  function FromEntry(e: Entry): (s: Shipment)
    // every named column holds the entry's value
    ensures ToEntry(s) == e
    ensures s.orderNumber == e.orderNumber && s.lastLocationDate == None
  {
    Shipment(e.orderNumber, e.customerName, e.customerEmail, e.trackingNumber, e.carrierName,
             e.shippedDate, e.statusCode, e.lastLocation, None, e.daysAtLastLocation,
             e.notificationSent, e.delayed, e.delivered)
  }

  /** The current status of the first package, and the city of its latest activity
      (None when the activity has no city). */
  datatype Snapshot = Snapshot(code: string, description: string, city: Option<string>)

  /** What the tracking request yields for one row. */
  datatype Fetch =
    | BadJson             // the response is not JSON: the row is skipped
    | NoTrail             // no shipment, package or activity in the response: the row is skipped
    | FetchFailed         // any other failure before the first write: the row counts as an error
    | Tracked(snap: Snapshot)

  /** The configured code tables and the holiday calendar. `subjectCodes` holds the
      codes that have an e-mail subject line. */
  datatype Config = Config(
    deliveredCodes: set<string>,
    problemCodes: set<string>,
    delayCodes: set<string>,
    subjectCodes: set<string>,
    holidays: set<int>)

  /** The status code of the aging rule: a label waiting for the carrier. */
  const AgingCode: string := "003"

  /** The order as the report lists it. */
  datatype OrderInfo = OrderInfo(orderNumber: string, customerName: string, customerEmail: string, trackingNumber: string)

  /** A notified order filed under its grouping key. */
  datatype Notice = Notice(group: string, order: OrderInfo)

  /** The order as the report lists a tracking error. */
  datatype ErrorOrder = ErrorOrder(orderNumber: string, customerName: string, trackingNumber: string)

  /** The `StatusCode` column written for a snapshot, also the report's grouping key. */
  function StatusEntry(snap: Snapshot): (entry: string)
    // the code, then ": ", then the description
    ensures |entry| == |snap.code| + 2 + |snap.description|
    ensures entry[..|snap.code|] == snap.code
    ensures entry[|snap.code|..|snap.code| + 2] == ": "
    ensures entry[|snap.code| + 2..] == snap.description
  {
    snap.code + ": " + snap.description
  }

  /** For a code without a colon, the first colon of the status entry ends the code. */
  lemma FirstColon(snap: Snapshot)
    requires ':' !in snap.code
    ensures forall k :: 0 <= k < |snap.code| ==> StatusEntry(snap)[k] != ':'
    ensures StatusEntry(snap)[|snap.code|] == ':'
  {
    var e := StatusEntry(snap);
    forall k | 0 <= k < |snap.code| ensures e[k] != ':' {
      assert e[k] == e[..|snap.code|][k];
    }
    assert e[|snap.code|] == e[|snap.code|..|snap.code| + 2][0];
  }

  /** For codes without a colon, the status entry determines the code and the description. */
  lemma StatusEntryInjective(a: Snapshot, b: Snapshot)
    requires ':' !in a.code && ':' !in b.code
    requires StatusEntry(a) == StatusEntry(b)
    ensures a.code == b.code && a.description == b.description
  {
    FirstColon(a);
    FirstColon(b);
    assert |a.code| == |b.code|;
  }

  function InfoOf(s: Shipment): OrderInfo
  {
    OrderInfo(s.orderNumber, s.customerName, s.customerEmail, s.trackingNumber)
  }

  function ErrorOf(s: Shipment): ErrorOrder
  {
    ErrorOrder(s.orderNumber, s.customerName, s.trackingNumber)
  }
}
