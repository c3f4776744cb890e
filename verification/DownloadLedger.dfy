/** The durable state of a report-mode download: which files were selected, how each one ended, and which of them
    carry a recovery budget or a quarantine into later runs. */
module DownloadLedger {
  import opened Options

  datatype Status = Pending | Downloading | Verified | Failed | Deferred {
    predicate IsOutcome() { !Downloading? }
  }

  /** The listed size and SHA-256 of a file, as far as they are known. */
  datatype Metadata = Metadata(size: Option<nat>, sha256: Option<string>)

  datatype Record = Record(path: string, meta: Metadata, status: Status, retries: nat, seconds: real,
                           error: Option<string>)

  // ---- What happens to one record ----------------------------------------------------------------------------

  function Lookup(records: map<string, Record>, path: string): Option<Record> {
    if path in records then Some(records[path]) else None
  }

  function Store(records: map<string, Record>, path: string, record: Option<Record>): (r: map<string, Record>)
    ensures Lookup(r, path) == record
    ensures forall p | p != path :: Lookup(r, p) == Lookup(records, p)
  {
    if record.Some? then records[path := record.value] else records - {path}
  }

  /** A record found on disk: a download that was under way when its process died is deferred. */
  function Recovered(record: Record): Record {
    if record.status == Downloading then record.(status := Deferred, error := Some("InterruptedDownload")) else record
  }

  function Fresh(path: string, meta: Metadata): Record {
    Record(path, meta, Pending, 0, 0.0, None)
  }

  /** What a run knows about a file when it selects it: the record of an earlier run about the same content. */
  function Selected(kept: Option<Record>, path: string, meta: Metadata): Record {
    if kept.Some? && kept.value.meta == meta then kept.value else Fresh(path, meta)
  }

  function Begun(record: Record, reset: bool): Record {
    record.(retries := if reset then 0 else record.retries, seconds := if reset then 0.0 else record.seconds,
            status := Downloading, error := None)
  }

  function Ended(record: Record, status: Status, error: Option<string>): Record {
    record.(status := status,
            error := if error.Some? then error
                     else if status == Verified || status == Pending then None
                     else record.error)
  }

  /** Only trouble is remembered: failures, deferrals, and unfinished files that used some of their budget. */
  function Remembered(record: Record): Option<Record> {
    if record.status == Failed || record.status == Deferred || (record.status == Pending && record.retries > 0)
    then Some(record) else None
  }

  /** What the next run knows about a file that ended this way, if its own process did not die before.  The budget it
      has used is forgotten exactly when it was verified or its content changed; it is quarantined exactly when it
      failed or was deferred. */
  lemma NextRunStartsFrom(record: Record, status: Status, error: Option<string>, meta: Metadata)
    requires status.IsOutcome() && (record.retries == 0 ==> record.seconds == 0.0)
    ensures var kept := Remembered(Ended(record, status, error));
      var next := Selected(if kept.Some? then Some(Recovered(kept.value)) else None, record.path, meta);
      var forgotten := status == Verified || meta != record.meta;
      && next.path == record.path && next.meta == meta
      && next.retries == (if forgotten then 0 else record.retries)
      && next.seconds == (if forgotten then 0.0 else record.seconds)
      && next.status == (if forgotten || status == Pending then Pending else status)
  {
  }

  // ---- Counting outcomes ---------------------------------------------------------------------------------------

  function CountOf(results: seq<Record>, status: Status): nat {
    if results == [] then 0
    else CountOf(results[..|results| - 1], status) + (if results[|results| - 1].status == status then 1 else 0)
  }

  function PathsOf(results: seq<Record>): set<string> {
    if results == [] then {} else PathsOf(results[..|results| - 1]) + {results[|results| - 1].path}
  }

  predicate AllOutcomes(results: seq<Record>) {
    forall r | r in results :: r.status.IsOutcome()
  }

  predicate OncePerPath(results: seq<Record>) {
    forall i, j | 0 <= i < j < |results| :: results[i].path != results[j].path
  }

  /** The four outcomes add up to the number of results. */
  lemma {:induction false} OutcomesAddUp(results: seq<Record>)
    requires AllOutcomes(results)
    ensures CountOf(results, Verified) + CountOf(results, Failed) + CountOf(results, Deferred)
      + CountOf(results, Pending) == |results|
    ensures CountOf(results, Downloading) == 0
  {
    if results != [] {
      OutcomesAddUp(results[..|results| - 1]);
      assert results[|results| - 1] in results;
    }
  }

  lemma {:induction false} PathsAreTheirs(results: seq<Record>, path: string)
    ensures path in PathsOf(results) <==> exists i :: 0 <= i < |results| && results[i].path == path
  {
    if results != [] {
      var n := |results| - 1;
      PathsAreTheirs(results[..n], path);
      if path in PathsOf(results) && path != results[n].path {
        var i :| 0 <= i < n && results[..n][i].path == path;
        assert results[i].path == path;
      }
      if i :| 0 <= i < |results| && results[i].path == path && i < n {
        assert results[..n][i].path == path;
      }
    }
  }

  lemma {:induction false} OneResultPerPath(results: seq<Record>)
    requires OncePerPath(results)
    ensures |PathsOf(results)| == |results|
  {
    if results != [] {
      var n := |results| - 1;
      OneResultPerPath(results[..n]);
      PathsAreTheirs(results[..n], results[n].path);
    }
  }

  /** Every result is verified exactly when the count of verified ones says so. */
  lemma {:induction false} AllVerifiedIffCounted(results: seq<Record>)
    ensures CountOf(results, Verified) <= |results|
    ensures CountOf(results, Verified) == |results| <==> forall r | r in results :: r.status == Verified
  {
    if results != [] {
      var n := |results| - 1;
      AllVerifiedIffCounted(results[..n]);
      assert results == results[..n] + [results[n]];
    }
  }

  // ---- The ledger ------------------------------------------------------------------------------------------------

  function Count(counts: map<Status, nat>, status: Status): nat {
    if status in counts then counts[status] else 0
  }

  /** Every selected path is either open or has one result, never both, and the counters count the results. */
  ghost predicate Ledger(open: set<string>, seen: set<string>, results: seq<Record>, counts: map<Status, nat>) {
    && open !! PathsOf(results) && seen == open + PathsOf(results)
    && OncePerPath(results) && AllOutcomes(results)
    && forall status :: Count(counts, status) == CountOf(results, status)
  }

  lemma NextResult(results: seq<Record>, record: Record)
    requires OncePerPath(results) && record.path !in PathsOf(results)
    ensures OncePerPath(results + [record])
    ensures PathsOf(results + [record]) == PathsOf(results) + {record.path}
  {
    assert (results + [record])[..|results|] == results;
    PathsAreTheirs(results, record.path);
  }

  lemma NextCounts(results: seq<Record>, counts: map<Status, nat>, record: Record)
    requires forall status :: Count(counts, status) == CountOf(results, status)
    ensures forall status :: Count(counts[record.status := Count(counts, record.status) + 1], status)
                          == CountOf(results + [record], status)
  {
    assert (results + [record])[..|results|] == results;
    forall status
      ensures Count(counts[record.status := Count(counts, record.status) + 1], status)
           == CountOf(results + [record], status)
    {
      assert Count(counts, status) == CountOf(results, status);
    }
  }

  lemma LedgerNext(open: set<string>, seen: set<string>, results: seq<Record>, counts: map<Status, nat>, record: Record)
    requires Ledger(open, seen, results, counts) && record.path in open && record.status.IsOutcome()
    ensures Ledger(open - {record.path}, seen, results + [record],
                   counts[record.status := Count(counts, record.status) + 1])
  {
    NextResult(results, record);
    NextCounts(results, counts, record);
    assert seen == (open - {record.path}) + PathsOf(results + [record]);
  }

  lemma LedgerAddsUp(seen: set<string>, results: seq<Record>, counts: map<Status, nat>)
    requires Ledger({}, seen, results, counts)
    ensures PathsOf(results) == seen && |results| == |seen|
    ensures Count(counts, Verified) + Count(counts, Failed) + Count(counts, Deferred) + Count(counts, Pending) == |seen|
    ensures Count(counts, Downloading) == 0
    ensures Count(counts, Verified) == |seen| <==> forall r | r in results :: r.status == Verified
  {
    OutcomesAddUp(results);
    OneResultPerPath(results);
    AllVerifiedIffCounted(results);
  }

  datatype Result = Complete | Partial | Cancelled

  datatype Report = Report(status: Result, total: nat, succeeded: nat, failed: nat, deferred: nat, pending: nat)

  /** Every method runs under the lock of the state, so concurrent callers are some sequence of these calls. */
  class DownloadState {
    var exceptions: map<string, Record>   // what the tracker file would hold if it were written now
    var disk: map<string, Record>         // what it holds
    var active: map<string, Record>       // selected and not finished
    var seen: set<string>                 // every path selected in this run
    var results: seq<Record>              // finished, in order
    var counts: map<Status, nat>

    ghost predicate Valid()
      reads this
    {
      (forall p | p in active :: active[p].path == p) && Ledger(active.Keys, seen, results, counts)
    }

    /** A new run over the tracker file an earlier one left, however that one ended. */
    constructor (disk: map<string, Record>)
      ensures Valid() && seen == {} && results == [] && active == map[] && this.disk == disk
      ensures exceptions == map p | p in disk :: Recovered(disk[p])
    {
      this.disk := disk;
      exceptions := map p | p in disk :: Recovered(disk[p]);
      active, seen, results, counts := map[], {}, [], map[];
    }

    /** Writes the tracker file in one step. */
    method Save()
      modifies `disk
      ensures disk == exceptions
    {
      disk := exceptions;
    }

    /** A path is selected once; a record about other content is forgotten. */
    method Select(path: string, meta: Metadata) returns (selected: Option<Record>)
      requires Valid()
      modifies `exceptions, `disk, `active, `seen
      ensures Valid() && seen == old(seen) + {path}
      ensures selected.Some? <==> path !in old(seen)
      ensures selected == None ==>
        exceptions == old(exceptions) && disk == old(disk) && active == old(active)
      ensures selected.Some? ==>
        var kept := Lookup(old(exceptions), path);
        && selected.value == Selected(kept, path, meta).(path := path)
        && active == old(active)[path := selected.value]
        && (if kept.Some? && kept.value.meta != meta then exceptions == Store(old(exceptions), path, None) == disk
            else exceptions == old(exceptions) && disk == old(disk))
    {
      if path in seen {
        assert seen == seen + {path};
        return None;
      }
      seen := seen + {path};
      var kept := Lookup(exceptions, path);
      var record := Selected(kept, path, meta).(path := path);
      if kept.Some? && kept.value.meta != meta {
        exceptions := Store(exceptions, path, None);
        Save();
      }
      active := active[path := record];
      selected := Some(record);
    }

    /** The transfer of a selected file starts.  Only a reset gives back budget that earlier runs have used; the file
        stays open, and nothing is known about it on disk that was not known before. */
    method Begin(path: string, reset: bool) returns (record: Record)
      requires Valid() && path in active
      modifies `active
      ensures Valid() && active.Keys == old(active).Keys && active[path] == record
      ensures forall other | other in active && other != path :: active[other] == old(active)[other]
      ensures record.path == path && record.meta == old(active)[path].meta
      ensures record.status == Downloading && record.error == None
      ensures !reset ==> record.retries == old(active)[path].retries && record.seconds == old(active)[path].seconds
      ensures reset ==> record.retries == 0 && record.seconds == 0.0
      ensures Remembered(record) == None && Recovered(record).status == Deferred
    {
      record := Begun(active[path], reset);
      active := active[path := record];
    }

    /** Records the budget a file has used so far, before the caller may rely on it. */
    method Budget(path: string, retries: nat, seconds: real)
      requires Valid() && path in active
      modifies `active, `exceptions, `disk
      ensures Valid()
      ensures active == old(active)[path := old(active)[path].(retries := retries, seconds := seconds)]
      ensures exceptions == old(exceptions)[path := active[path]] && disk == exceptions
    {
      active := active[path := active[path].(retries := retries, seconds := seconds)];
      exceptions := exceptions[path := active[path]];
      Save();
    }

    /** Keeps or drops what later runs will know about a path, and writes it out if that changed. */
    method Remember(path: string, record: Option<Record>)
      modifies `exceptions, `disk
      ensures exceptions == Store(old(exceptions), path, record)
      ensures disk == if Lookup(old(exceptions), path) == record then old(disk) else exceptions
    {
      var before := Lookup(exceptions, path);
      exceptions := Store(exceptions, path, record);
      if before != record {
        Save();
      }
    }

    /** The first call for a selected path decides its outcome; any later one changes nothing. */
    method Finish(path: string, status: Status, error: Option<string>)
      requires Valid() && status.IsOutcome()
      modifies `active, `exceptions, `disk, `results, `counts
      ensures Valid()
      ensures path !in old(active) ==>
        && active == old(active) && results == old(results)
        && exceptions == old(exceptions) && disk == old(disk)
      ensures path in old(active) ==>
        var record := Ended(old(active)[path], status, error);
        && results == old(results) + [record] && active == old(active) - {path}
        && record.path == path && record.status == status && record.meta == old(active)[path].meta
        && record.retries == old(active)[path].retries && record.seconds == old(active)[path].seconds
        && (error.Some? ==> record.error == error)
        && (error == None && (status == Verified || status == Pending) ==> record.error == None)
        && exceptions == Store(old(exceptions), path, Remembered(record))
        && disk == (if Lookup(old(exceptions), path) == Remembered(record) then old(disk) else exceptions)
    {
      if path !in active {
        return;
      }
      var record := Ended(active[path], status, error);
      Remember(path, Remembered(record));
      Settle(record);
    }

    /** Moves a selected file from the open ones to the results. */
    method Settle(record: Record)
      requires Valid() && record.path in active && record.status.IsOutcome()
      modifies `active, `results, `counts
      ensures Valid() && results == old(results) + [record] && active == old(active) - {record.path}
    {
      LedgerNext(active.Keys, seen, results, counts, record);
      assert (active - {record.path}).Keys == active.Keys - {record.path};
      active := active - {record.path};
      results := results + [record];
      counts := counts[record.status := Count(counts, record.status) + 1];
    }

    /** Ends whatever is still open as pending. */
    method FinishOpen()
      requires Valid()
      modifies `active, `exceptions, `disk, `results, `counts
      ensures Valid() && active == map[]
      ensures |results| >= |old(results)| && results[..|old(results)|] == old(results)
      ensures forall i | |old(results)| <= i < |results| :: results[i].status == Pending
    {
      ghost var already := results;
      while active != map[]
        invariant Valid() && |results| >= |already| && results[..|already|] == already
        invariant forall i | |already| <= i < |results| :: results[i].status == Pending
        decreases active.Keys
      {
        var path :| path in active;
        Finish(path, Pending, None);
      }
    }

    /** After the open files are ended, every selected path has exactly one outcome and the totals add up.  The report
        is complete exactly when the run was not cancelled, the listing was whole, no global error stopped it and every
        selected file is verified. */
    method MakeReport(cancelled: bool, listingComplete: bool, globalError: bool) returns (report: Report)
      requires Valid()
      modifies `active, `exceptions, `disk, `results, `counts
      ensures Valid() && active == map[] && disk == exceptions
      ensures PathsOf(results) == seen && |results| == |seen|
      ensures report.total == |seen| == report.succeeded + report.failed + report.deferred + report.pending
      ensures report.succeeded == CountOf(results, Verified) && report.failed == CountOf(results, Failed)
      ensures report.deferred == CountOf(results, Deferred) && report.pending == CountOf(results, Pending)
      ensures |results| >= |old(results)| && results[..|old(results)|] == old(results)
      ensures forall i | |old(results)| <= i < |results| :: results[i].status == Pending
      ensures report.status == Cancelled <==> cancelled
      ensures report.status == Complete <==>
        !cancelled && listingComplete && !globalError && forall r | r in results :: r.status == Verified
    {
      FinishOpen();
      assert active.Keys == {};
      LedgerAddsUp(seen, results, counts);
      var total := Count(counts, Pending) + Count(counts, Downloading) + Count(counts, Verified)
                   + Count(counts, Failed) + Count(counts, Deferred);
      var succeeded := Count(counts, Verified);
      var status := if cancelled then Cancelled
                    else if listingComplete && !globalError && succeeded == total then Complete
                    else Partial;
      report := Report(status, total, succeeded,
                       Count(counts, Failed), Count(counts, Deferred), Count(counts, Pending));
      Save();
    }
  }
}
