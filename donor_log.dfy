/**
 The donor log: a newest-first list of donor records, capped at 200 entries,
 kept in a single file that is read whole and rewritten on every update.
 */
module DonorLog {
  import opened Js

  /** Number of records the file keeps; older ones are dropped. */
  const MaxDonors := 200

  const Anonymous := "Anonymous"

  /** An ISO-8601 time of ingestion, produced outside the model. */
  type Timestamp = string

  /** A stored record `{name, amount, time}`; the JSON amount is `cents / 100`. */
  datatype Donor = Donor(name: string, cents: int, time: Timestamp)

  /**
   The record `handleDonation` builds: `name || 'Anonymous'` and
   `amount || 0`, stamped with the given time.
   */
  function Record(name: string, amount: Amount, time: Timestamp): (d: Donor)
    ensures d.name != ""
    ensures name != "" ==> d.name == name
    ensures name == "" ==> d.name == Anonymous
    ensures d.cents != 0 <==> amount.Major? && amount.cents != 0
    ensures d.cents != 0 ==> d.cents == amount.cents
    ensures d.time == time
  {
    Donor(if name == "" then Anonymous else name, AmountOrZero(amount), time)
  }

  /** The first `MaxDonors` entries of `s` (`s.slice(0, 200)`). */
  function Capped(s: seq<Donor>): seq<Donor>
  {
    if |s| <= MaxDonors then s else s[..MaxDonors]
  }

  /**
   The log after one update: the new record in front, then the previous
   records in their order, keeping only the first 200 entries.
   */
  function Prepended(log: seq<Donor>, d: Donor): (r: seq<Donor>)
    ensures |r| == if |log| + 1 <= MaxDonors then |log| + 1 else MaxDonors
    ensures r[0] == d
    ensures r[1..] == log[..|r| - 1]
    ensures log == r[1..] + log[|r| - 1..]
  {
    var r := Capped([d] + log);
    assert r[1..] == log[..|r| - 1];
    r
  }

  /** The dropped records, when the cap bites, are exactly the oldest ones at the tail. */
  lemma {:induction false} TruncationDropsOldest(log: seq<Donor>, d: Donor)
    requires |log| >= MaxDonors
    ensures |Prepended(log, d)| == MaxDonors
    ensures Prepended(log, d) == [d] + log[..MaxDonors - 1]
  {
  }

  /** `Capped(x + Capped(y)) == Capped(x + y)`: capping early loses nothing that survives the final cap. */
  lemma {:induction false} CappedAbsorbs(x: seq<Donor>, y: seq<Donor>)
    ensures Capped(x + Capped(y)) == Capped(x + y)
  {
  }

  /** `s` in reverse order. */
  function Reversed(s: seq<Donor>): (r: seq<Donor>)
    ensures |r| == |s|
    ensures forall i | 0 <= i < |s| :: r[i] == s[|s| - 1 - i]
  {
    if s == [] then [] else Reversed(s[1..]) + [s[0]]
  }

  /** The log after the records `ds` were added one at a time, `ds[0]` first. */
  function Replay(log: seq<Donor>, ds: seq<Donor>): seq<Donor>
    decreases |ds|
  {
    if ds == [] then log else Replay(Prepended(log, ds[0]), ds[1..])
  }

  /**
   Any run of updates leaves the first 200 of the records newest first
   followed by the old log: the latest arrival at index 0, every earlier
   arrival after it in reverse arrival order, nothing reordered.
   */
  lemma {:induction false} ReplayNewestFirst(log: seq<Donor>, ds: seq<Donor>)
    requires |log| <= MaxDonors
    ensures Replay(log, ds) == Capped(Reversed(ds) + log)
    decreases |ds|
  {
    if ds == [] {
    } else {
      var next := Prepended(log, ds[0]);
      ReplayNewestFirst(next, ds[1..]);
      CappedAbsorbs(Reversed(ds[1..]), [ds[0]] + log);
      assert Reversed(ds[1..]) + ([ds[0]] + log) == Reversed(ds) + log;
    }
  }

  /** However many updates are processed, the log never holds more than 200 records. */
  lemma {:induction false} ReplayBounded(log: seq<Donor>, ds: seq<Donor>)
    requires |log| <= MaxDonors || ds != []
    ensures |Replay(log, ds)| <= MaxDonors
    decreases |ds|
  {
    if ds != [] {
      ReplayBounded(Prepended(log, ds[0]), ds[1..]);
    }
  }

  /**
   The donor file: absent; present but rejected by `JSON.parse`; holding JSON
   that parses to something other than an array (kept as its text); or
   holding a log.
   */
  datatype DonorFile = Missing | Unparsable | NotAnArray(json: string) | Stored(donors: seq<Donor>)

  /** A file `handleDonation` can load and prepend to: none at all, or an array. */
  predicate Loadable(file: DonorFile)
  {
    file.Missing? || file.Stored?
  }

  /** The log `handleDonation` starts from: the stored one, or `[]` when there is no file. */
  function Contents(file: DonorFile): seq<Donor>
  {
    if file.Stored? then file.donors else []
  }

  /** What reading the file gives the `/donors` endpoint: a log, some other parsed JSON value, or a parse error. */
  datatype ReadOutcome = Loaded(donors: seq<Donor>) | LoadedOther(json: string) | ReadError

  /**
   The file after one `handleDonation`: when the file is loadable and the
   write succeeds it holds the updated log, otherwise it is as it was. A
   parse failure, `unshift` on a non-array, and a failed write all throw,
   and the error is only logged.
   */
  function Persisted(file: DonorFile, d: Donor, writeSucceeds: bool): DonorFile
  {
    if !Loadable(file) || !writeSucceeds then file else Stored(Prepended(Contents(file), d))
  }

  /** The store behind `donors.json`. */
  class DonorStore {
    var file: DonorFile

    constructor (initial: DonorFile)
      ensures file == initial
    {
      file := initial;
    }

    /**
     The `/donors` read: `[]` when there is no file, otherwise whatever the
     file parses to, and an error when it cannot be parsed.
     */
    method GetAll() returns (r: ReadOutcome)
      ensures file.Missing? ==> r == Loaded([])
      ensures file.Unparsable? ==> r == ReadError
      ensures file.NotAnArray? ==> r == LoadedOther(file.json)
      ensures file.Stored? ==> r == Loaded(file.donors)
    {
      r := Loaded([]);
      if file != Missing {
        match file
        case Unparsable => r := ReadError;
        case NotAnArray(json) => r := LoadedOther(json);
        case Stored(donors) => r := Loaded(donors);
      }
    }

    /**
     `handleDonation`: load the log (empty when there is no file), put the
     new record in front, keep the first 200, and write the log back. A file
     that cannot be parsed or is not an array, or a failed write, leaves the
     file unchanged; `saved` reports which happened.
     */
    method PrependAndCap(name: string, amount: Amount, time: Timestamp, writeSucceeds: bool)
      returns (saved: bool)
      modifies this
      ensures saved <==> Loadable(old(file)) && writeSucceeds
      ensures saved ==> file.Stored? &&
                        file.donors == Prepended(Contents(old(file)), Record(name, amount, time))
      ensures !saved ==> file == old(file)
      ensures file == Persisted(old(file), Record(name, amount, time), writeSucceeds)
    {
      var donors: seq<Donor> := [];
      if file != Missing {
        if !file.Stored? {
          return false;
        }
        donors := file.donors;
      }
      donors := [Record(name, amount, time)] + donors;
      donors := Capped(donors);
      if !writeSucceeds {
        return false;
      }
      file := Stored(donors);
      saved := true;
    }
  }
}
