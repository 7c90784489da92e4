/** The two producers of a row may arrive in any order and any number of times. */
module OrderIndependence {
  import opened Wrappers
  import opened StagedTable

  /** One delivery: the client's bytes, accepted by the cap, or the Sui event. */
  datatype Delivery = Bytes(blob: StagedBytes, now: int) | Event(details: ReceivedDetails, now: int)

  function Delivered(r: Option<Row>, d: Delivery): Option<Row> {
    match d
    case Bytes(blob, now) => Upsert(r, blob, now)
    case Event(details, now) => Receive(r, details, now)
  }

  function AllDelivered(r: Option<Row>, ds: seq<Delivery>): Option<Row> {
    if ds == [] then r else Delivered(AllDelivered(r, ds[..|ds| - 1]), ds[|ds| - 1])
  }

  /** Deliveries of this one blob and this one event. */
  predicate Only(ds: seq<Delivery>, blob: StagedBytes, details: ReceivedDetails) {
    forall n :: 0 <= n < |ds| ==> match ds[n] case Bytes(b, _) => b == blob case Event(d, _) => d == details
  }

  predicate HasBytes(ds: seq<Delivery>) {
    exists n :: 0 <= n < |ds| && ds[n].Bytes?
  }

  predicate HasEvent(ds: seq<Delivery>) {
    exists n :: 0 <= n < |ds| && ds[n].Event?
  }

  /** The row but for the columns that only say when. */
  function Timeless(r: Row): Row {
    r.(createdAt := 0, updatedAt := 0, nextAttemptAt := 0)
  }

  predicate SameButTimes(r: Option<Row>, q: Option<Row>) {
    r.Some? && q.Some? && Timeless(r.value) == Timeless(q.value)
  }

  /** A row the producers may still write: none yet, or an active one. */
  predicate Open(r: Option<Row>) {
    r.Some? ==> r.value.state == Active
  }

  /** What deliveries make of a row depends only on which of the two kinds arrived. */
  function Made(r: Row, blob: StagedBytes, details: ReceivedDetails, bytes: bool, event: bool): Row {
    var staged := if bytes then WithBytes(r, blob) else r;
    if event then WithReceived(staged, details) else staged
  }

  function Start(r: Option<Row>): Row {
    r.GetOr(NewRow(0))
  }

  lemma {:induction false} DeliveriesMake(r: Option<Row>, ds: seq<Delivery>, blob: StagedBytes, details: ReceivedDetails)
    requires Open(r) && ds != [] && Only(ds, blob, details)
    ensures var q := AllDelivered(r, ds);
            && q.Some? && q.value.state == Active
            && Timeless(q.value) == Timeless(Made(Start(r), blob, details, HasBytes(ds), HasEvent(ds)))
  {
    var rest, last := ds[..|ds| - 1], ds[|ds| - 1];
    KindsGrow(ds);
    if rest != [] {
      DeliveriesMake(r, rest, blob, details);
      OneMore(r, AllDelivered(r, rest).value, last, blob, details, HasBytes(rest), HasEvent(rest));
    }
  }

  lemma KindsGrow(ds: seq<Delivery>)
    requires ds != []
    ensures HasBytes(ds) <==> HasBytes(ds[..|ds| - 1]) || ds[|ds| - 1].Bytes?
    ensures HasEvent(ds) <==> HasEvent(ds[..|ds| - 1]) || ds[|ds| - 1].Event?
  {
    var rest := ds[..|ds| - 1];
    if HasBytes(rest) {
      var n :| 0 <= n < |rest| && rest[n].Bytes?;
      assert ds[n].Bytes?;
    }
    if HasEvent(rest) {
      var n :| 0 <= n < |rest| && rest[n].Event?;
      assert ds[n].Event?;
    }
  }

  lemma OneMore(r: Option<Row>, q: Row, d: Delivery, blob: StagedBytes, details: ReceivedDetails, bytes: bool, event: bool)
    requires q.state == Active && Timeless(q) == Timeless(Made(Start(r), blob, details, bytes, event))
    requires match d case Bytes(b, _) => b == blob case Event(e, _) => e == details
    ensures var next := Delivered(Some(q), d);
            && next.Some? && next.value.state == Active
            && Timeless(next.value) == Timeless(Made(Start(r), blob, details, bytes || d.Bytes?, event || d.Event?))
  {
  }

  /** Any two interleavings, with any repetitions, of one upload and one event end in the same row. */
  lemma OrderDoesNotMatter(r: Option<Row>, ds: seq<Delivery>, es: seq<Delivery>, blob: StagedBytes, details: ReceivedDetails)
    requires Open(r) && Only(ds, blob, details) && Only(es, blob, details)
    requires HasBytes(ds) && HasEvent(ds) && HasBytes(es) && HasEvent(es)
    ensures SameButTimes(AllDelivered(r, ds), AllDelivered(r, es))
    ensures var row := AllDelivered(r, ds).value;
            && row.received && row.bytes == Some(blob.bytes) && row.blobId == Some(blob.blobId) && row.size == Some(blob.size)
            && row.committedBlobId == Some(details.committedBlobId) && row.deadline == Some(details.deadline)
            && row.srcEid == Some(details.srcEid) && (blob.appId.Some? ==> row.appId == blob.appId)
            && (details.storageEpochs.Some? ==> row.storageEpochs == details.storageEpochs)
            && (details.deliveryDigest.Some? ==> row.deliveryDigest == details.deliveryDigest)
  {
    DeliveriesMake(r, ds, blob, details);
    DeliveriesMake(r, es, blob, details);
  }

  /** Whatever arrives afterwards, from anyone, a recorded app id is never cleared. */
  lemma {:induction false} AppIdNeverCleared(r: Row, ds: seq<Delivery>)
    requires r.appId.Some?
    ensures var q := AllDelivered(Some(r), ds); q.Some? && q.value.appId.Some?
  {
    if ds != [] { AppIdNeverCleared(r, ds[..|ds| - 1]); }
  }

  /** The deadline Sui committed to outlives any later upload's own idea of it. */
  lemma {:induction false} SuiDeadlineWins(r: Row, ds: seq<Delivery>, deadline: int)
    requires r.deadline == Some(deadline) && forall n :: 0 <= n < |ds| ==> ds[n].Bytes?
    ensures var q := AllDelivered(Some(r), ds); q.Some? && q.value.deadline == Some(deadline)
  {
    if ds != [] { SuiDeadlineWins(r, ds[..|ds| - 1], deadline); }
  }

  /** A settled row takes nothing more in. */
  lemma {:induction false} SettledTakesNothing(r: Row, ds: seq<Delivery>)
    requires r.state != Active
    ensures AllDelivered(Some(r), ds) == Some(r)
  {
    if ds != [] { SettledTakesNothing(r, ds[..|ds| - 1]); }
  }
}
