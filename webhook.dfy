/**
 The HTTP handlers that own the donor log: `POST /webhook`, which verifies a
 payment event, records a donation for the two handled event types and
 always acknowledges, and `GET /donors`, which returns the log.
 */
module Webhook {
  import opened Js
  import opened Events
  import opened DonorLog

  /**
   The result of checking the event's signature, done by the payment
   provider's library: the parsed event, or the library's error message.
   */
  datatype Verification = Verified(event: Event) | Rejected(message: string)

  /** The responses the two handlers send. */
  datatype Response =
    | Received                      // 200 `{received: true}`
    | BadRequest(text: string)      // 400 plain text
    | DonorList(donors: seq<Donor>) // 200 JSON array
    | OtherJson(json: string)       // 200 any other parsed JSON value
    | ServerError(error: string)    // 500 `{error}`

  const WebhookErrorPrefix := "Webhook Error: "
  const CannotReadDonors := "Cannot read donors"

  /** The HTTP status of a response. */
  function Status(r: Response): (code: int)
    ensures code == 400 <==> r.BadRequest?
    ensures code == 500 <==> r.ServerError?
    ensures code == 200 <==> r.Received? || r.DonorList? || r.OtherJson?
  {
    match r
    case Received => 200
    case DonorList(_) => 200
    case OtherJson(_) => 200
    case BadRequest(_) => 400
    case ServerError(_) => 500
  }

  /** The donor file after one webhook delivery whose record would carry `time`. */
  function AfterDelivery(file: DonorFile, v: Verification, time: Timestamp, writeSucceeds: bool): DonorFile
  {
    if v.Rejected? then file
    else match DonationOf(v.event)
      case None => file
      case Some(don) => Persisted(file, Record(don.name, don.amount, time), writeSucceeds)
  }

  /**
   `POST /webhook`. A rejected signature answers 400 with the library's
   message and touches nothing. A verified event of a handled type is
   recorded through the store; any other type is ignored. Every verified
   event is acknowledged, whether or not the record could be saved.
   */
  method HandleWebhook(store: DonorStore, v: Verification, time: Timestamp, writeSucceeds: bool)
    returns (resp: Response)
    modifies store
    ensures v.Rejected? ==> resp == BadRequest(WebhookErrorPrefix + v.message) && store.file == old(store.file)
    ensures v.Verified? ==> resp == Received
    ensures v.Verified? && DonationOf(v.event).None? ==> store.file == old(store.file)
    ensures store.file == AfterDelivery(old(store.file), v, time, writeSucceeds)
  {
    if v.Rejected? {
      return BadRequest(WebhookErrorPrefix + v.message);
    }
    var event := v.event;
    if event.eventType == CheckoutSessionCompleted {
      var session := event.payload;
      var name := CheckoutName(session);
      var amount := CheckoutAmount(session);
      var _ := store.PrependAndCap(name, amount, time, writeSucceeds);
    } else if event.eventType == PaymentIntentSucceeded {
      var pi := event.payload;
      var name := IntentName(pi);
      var amount := IntentAmount(pi);
      var _ := store.PrependAndCap(name, amount, time, writeSucceeds);
    }
    resp := Received;
  }

  /**
   `GET /donors`: `[]` without a file, whatever JSON the file holds (the log,
   or a non-array value as it is), and a 500 when the file cannot be parsed.
   */
  method GetDonors(store: DonorStore) returns (resp: Response)
    ensures store.file.Missing? ==> resp == DonorList([])
    ensures store.file.Stored? ==> resp == DonorList(store.file.donors)
    ensures store.file.NotAnArray? ==> resp == OtherJson(store.file.json) && Status(resp) == 200
    ensures store.file.Unparsable? ==> resp == ServerError(CannotReadDonors) && Status(resp) == 500
  {
    var read := store.GetAll();
    match read
    case ReadError => resp := ServerError(CannotReadDonors);
    case LoadedOther(json) => resp := OtherJson(json);
    case Loaded(donors) => resp := DonorList(donors);
  }

  /** One webhook delivery: its verification outcome, its time, and whether the file write succeeds. */
  datatype Delivery = Delivery(verification: Verification, time: Timestamp, writeSucceeds: bool)

  /** The donor file after the deliveries `ds`, `ds[0]` first. */
  function AfterAll(file: DonorFile, ds: seq<Delivery>): DonorFile
    decreases |ds|
  {
    if ds == [] then file
    else AfterAll(AfterDelivery(file, ds[0].verification, ds[0].time, ds[0].writeSucceeds), ds[1..])
  }

  /** The record a delivery writes, if it writes one. */
  function Written(d: Delivery): Option<Donor>
  {
    if d.verification.Verified? && d.writeSucceeds then
      match DonationOf(d.verification.event)
      case None => None
      case Some(don) => Some(Record(don.name, don.amount, d.time))
    else None
  }

  /** The records the deliveries `ds` write, in arrival order. */
  function WrittenAll(ds: seq<Delivery>): seq<Donor>
    decreases |ds|
  {
    if ds == [] then []
    else (if Written(ds[0]).Some? then [Written(ds[0]).value] else []) + WrittenAll(ds[1..])
  }

  /**
   Over any run of deliveries on a loadable file, the log is the old log
   with exactly the written records put in front one at a time: rejected,
   ignored and unsaved deliveries leave no trace, and nothing is deduplicated.
   */
  lemma {:induction false} DeliveriesReplayWrites(file: DonorFile, ds: seq<Delivery>)
    requires Loadable(file)
    ensures Loadable(AfterAll(file, ds))
    ensures Contents(AfterAll(file, ds)) == Replay(Contents(file), WrittenAll(ds))
    decreases |ds|
  {
    if ds != [] {
      var d := ds[0];
      var next := AfterDelivery(file, d.verification, d.time, d.writeSucceeds);
      DeliveriesReplayWrites(next, ds[1..]);
      if Written(d).Some? {
        assert WrittenAll(ds) == [Written(d).value] + WrittenAll(ds[1..]);
        assert Contents(next) == Prepended(Contents(file), Written(d).value);
      } else {
        assert WrittenAll(ds) == WrittenAll(ds[1..]);
        assert next == file;
      }
    }
  }

  /**
   A file that cannot be parsed, or that is not an array, stays exactly as it
   is: nothing is ever written over it.
   */
  lemma {:induction false} UnloadableStaysUnchanged(file: DonorFile, ds: seq<Delivery>)
    requires !Loadable(file)
    ensures AfterAll(file, ds) == file
    decreases |ds|
  {
    if ds != [] {
      UnloadableStaysUnchanged(file, ds[1..]);
    }
  }

  /** The donor log never exceeds 200 records, whatever deliveries arrive. */
  lemma LogStaysBounded(file: DonorFile, ds: seq<Delivery>)
    requires |Contents(file)| <= MaxDonors
    ensures |Contents(AfterAll(file, ds))| <= MaxDonors
  {
    if !Loadable(file) {
      UnloadableStaysUnchanged(file, ds);
    } else {
      DeliveriesReplayWrites(file, ds);
      ReplayBounded(Contents(file), WrittenAll(ds));
    }
  }

  /**
   No deduplication: the same verified, handled event delivered twice (and
   saved twice) leaves two records with its name and amount at the front,
   the later one first, followed by as much of the old log as fits under
   the cap.
   */
  lemma RedeliveryRecordedTwice(file: DonorFile, e: Event, t1: Timestamp, t2: Timestamp)
    requires Loadable(file) && DonationOf(e).Some?
    ensures var don := DonationOf(e).value;
            var r1, r2 := Record(don.name, don.amount, t1), Record(don.name, don.amount, t2);
            var twice := AfterDelivery(AfterDelivery(file, Verified(e), t1, true), Verified(e), t2, true);
            twice.Stored? && twice.donors[..2] == [r2, r1] &&
            twice.donors == Capped([r2, r1] + Contents(file))
  {
    var don := DonationOf(e).value;
    var r1, r2 := Record(don.name, don.amount, t1), Record(don.name, don.amount, t2);
    CappedAbsorbs([r2], [r1] + Contents(file));
  }

  /**
   Worked example: with no donor file, a succeeded payment intent whose
   first charge is 2500 minor units billed to "Jane" gives the log
   `[{name: "Jane", amount: 25, time}]`.
   */
  lemma JaneExample(time: Timestamp)
    ensures var charge := Charge(Some(BillingDetails(Some("Jane"), None)), Num(2500));
            var pi := EventObject(None, None, Absent, Some(ChargeList(Some([charge]))), Num(2500));
            AfterDelivery(Missing, Verified(Event(PaymentIntentSucceeded, pi)), time, true) ==
              Stored([Donor("Jane", 2500, time)])
  {
  }
}
