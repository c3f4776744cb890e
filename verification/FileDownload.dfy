/** One file of a repository: the cache check, the transfer, and the retries after a failed validation. */
module FileDownload {
  import opened Options
  import opened DownloadTypes
  import opened ResumeDownload
  import opened RangeParts

  const HASH_RETRY_TIMES := 3
  const SIZE_RETRY_TIMES := 2

  /** Everything outside this code that one transfer meets. */
  datatype World = World(pool: Pool, server: Server, stops: (nat, Moment) -> bool, mergeStops: nat -> bool,
                         grants: nat -> bool)

  /** Settings: when ranges are used and how large they are, how often a request is retried, and whether a recovery
      budget is in force. */
  datatype Settings = Settings(threshold: nat, parallels: nat, partSize: nat, retries: nat, recovery: bool)

  ghost predicate HonestWorld(world: World, whole: Bytes) {
    AlwaysHonest(world.server, whole) && HonestPool(world.pool, whole)
  }

  predicate UsesRanges(size: Option<nat>, settings: Settings) {
    size.Some? && size.value > settings.threshold && settings.parallels > 1
  }

  /** Every part file holds its slice of the object, or is too long for its part. */
  ghost predicate PartsFit(files: seq<Option<Bytes>>, partSize: nat, size: nat, whole: Bytes)
    requires partSize > 0
  {
    forall i {:trigger files[i]} | 0 <= i < |files| && Times(i, partSize) < size ::
      Fit(whole, PartAt(i, partSize, size), files[i])
  }

  /** What an earlier transfer of the object may have left: a prefix of it and, if ranges are used, fitting parts. */
  ghost predicate Resumable(file: FileSlot, size: Option<nat>, settings: Settings, whole: Bytes)
    requires settings.partSize > 0
    reads file
  {
    PartOf(whole, file.incomplete)
    && (UsesRanges(size, settings) ==> PartsFit(file.parts, settings.partSize, size.value, whole))
  }

  lemma RemovedStillFit(before: seq<Option<Bytes>>, after: seq<Option<Bytes>>, partSize: nat, size: nat, whole: Bytes)
    requires partSize > 0 && PartsFit(before, partSize, size, whole) && OnlyRemoved(before, after)
    ensures PartsFit(after, partSize, size, whole)
  {
    forall i | 0 <= i < |after| && Times(i, partSize) < size ensures Fit(whole, PartAt(i, partSize, size), after[i]) {
      assert after[i] == None || after[i] == before[i];
    }
  }

  /** How the range workers end that start over these part files, and what they leave.  A transfer without ranges goes
      on as if the server had ignored them. */
  function Ranged(world: World, files: seq<Option<Bytes>>, size: Option<nat>, settings: Settings): Option<Error>
    requires settings.partSize > 0
  {
    if !UsesRanges(size, settings) then Some(RangeIgnored)
    else PoolFailure(AllParts(size.value, settings.partSize), size.value, files, settings.retries, world.pool)
  }

  function Fetched(world: World, files: seq<Option<Bytes>>, size: nat, settings: Settings): seq<Option<Bytes>>
    requires settings.partSize > 0
  {
    var parts := AllParts(size, settings.partSize);
    Moved(parts, size, Opening(parts, files, settings.retries), world.pool, world.pool.moves).files
  }

  /** What earlier transfers left of the file: its parts and its `.incomplete` file. */
  datatype Leftovers = Leftovers(parts: seq<Option<Bytes>>, incomplete: Option<Bytes>)

  /** The retries of a request are enough for answer number `lucky`. */
  predicate InTime(lucky: nat, settings: Settings) {
    lucky <= settings.retries
  }

  ghost predicate ServesWith(world: World, left: Leftovers, sha: Bytes -> Hash, size: Option<nat>, hash: Option<Hash>,
                             settings: Settings, whole: Bytes, lucky: nat)
    requires settings.partSize > 0
  {
    Matching(whole, sha, size, hash) &&
    var ranged := Ranged(world, left.parts, size, settings);
    if ranged == None then
      && HonestPool(world.pool, whole) && PartsFit(left.parts, settings.partSize, size.value, whole)
      && forall i :: !world.mergeStops(i)
    else
      && ranged.value.RangeIgnored? && AlwaysRepairable(world.server, whole, sha) && PartOf(whole, left.incomplete)
      && Undisturbed(world.server, whole, sha, lucky, world.stops, world.grants)
  }

  /** A transfer of the object that succeeds: its workers finish over fitting parts and the merge is not stopped, or
      its single stream, which runs when ranges are unused or ignored, gets a delivering answer within its retries. */
  ghost predicate Serves(world: World, left: Leftovers, sha: Bytes -> Hash, size: Option<nat>, hash: Option<Hash>,
                         settings: Settings, whole: Bytes)
    requires settings.partSize > 0
  {
    exists lucky: nat {:trigger InTime(lucky, settings)} ::
      InTime(lucky, settings) && ServesWith(world, left, sha, size, hash, settings, whole, lucky)
  }

  predicate RangedIs(world: World, files: seq<Option<Bytes>>, size: Option<nat>, settings: Settings,
                     ranged: Option<Error>)
    requires settings.partSize > 0
  {
    Ranged(world, files, size, settings) == ranged
  }

  /** A transfer fails with the first error of its range workers, or with what is wrong with the merge, or, when ranges
      are unused or ignored, as the single stream fails. */
  ghost predicate TransferFails(world: World, left: Leftovers, sha: Bytes -> Hash, size: Option<nat>,
                                hash: Option<Hash>, settings: Settings, error: Error)
    requires settings.partSize > 0
  {
    forall ranged: Option<Error> {:trigger RangedIs(world, left.parts, size, settings, ranged)}
      | RangedIs(world, left.parts, size, settings, ranged) ::
        if ranged == None then
          size.Some? && MergeVerdict(sha, Fetched(world, left.parts, size.value, settings), size.value, hash,
                                     world.mergeStops) == Failed(error)
        else if ranged.value.RangeIgnored? then
          exists log :: StreamFails(sha, size, hash, world.server, world.stops, world.grants, settings.retries,
                                    left.incomplete, log, error)
        else error == ranged.value
  }

  predicate NothingLeft(files: seq<Option<Bytes>>) {
    forall file | file in files :: file == None
  }

  lemma FoundNothing(files: seq<Option<Bytes>>, n: nat)
    requires NothingLeft(files)
    ensures Found(files, n) == Found([], n)
  {
    forall i | 0 <= i < n ensures Found(files, n)[i] == Found([], n)[i] {
      assert i < |files| ==> files[i] in files;
    }
  }

  /** Removed parts are as good as no parts. */
  lemma RemovedIsAbsent(world: World, files: seq<Option<Bytes>>, size: Option<nat>, settings: Settings)
    requires settings.partSize > 0 && (UsesRanges(size, settings) ==> NothingLeft(files))
    ensures Ranged(world, files, size, settings) == Ranged(world, [], size, settings)
    ensures UsesRanges(size, settings) ==>
      Fetched(world, files, size.value, settings) == Fetched(world, [], size.value, settings)
  {
    if UsesRanges(size, settings) {
      var parts := AllParts(size.value, settings.partSize);
      FoundNothing(files, |parts|);
      assert Opening(parts, files, settings.retries) == Opening(parts, [], settings.retries);
    }
  }

  lemma NothingFits(files: seq<Option<Bytes>>, partSize: nat, size: nat, whole: Bytes)
    requires partSize > 0 && NothingLeft(files)
    ensures PartsFit(files, partSize, size, whole)
  {
    forall i | 0 <= i < |files| && Times(i, partSize) < size ensures Fit(whole, PartAt(i, partSize, size), files[i]) {
      assert files[i] in files;
    }
  }

  lemma ServesWithoutParts(world: World, files: seq<Option<Bytes>>, incomplete: Option<Bytes>, sha: Bytes -> Hash,
                           size: Option<nat>, hash: Option<Hash>, settings: Settings, whole: Bytes)
    requires settings.partSize > 0 && (UsesRanges(size, settings) ==> NothingLeft(files))
    requires Serves(world, Leftovers([], incomplete), sha, size, hash, settings, whole)
    ensures Serves(world, Leftovers(files, incomplete), sha, size, hash, settings, whole)
  {
    var none, left := Leftovers([], incomplete), Leftovers(files, incomplete);
    var lucky: nat :| InTime(lucky, settings) && ServesWith(world, none, sha, size, hash, settings, whole, lucky);
    RemovedIsAbsent(world, files, size, settings);
    if UsesRanges(size, settings) {
      NothingFits(files, settings.partSize, size.value, whole);
    }
    assert ServesWith(world, left, sha, size, hash, settings, whole, lucky);
  }

  lemma FailsWithoutParts(world: World, files: seq<Option<Bytes>>, incomplete: Option<Bytes>, sha: Bytes -> Hash,
                          size: Option<nat>, hash: Option<Hash>, settings: Settings, error: Error)
    requires settings.partSize > 0 && (UsesRanges(size, settings) ==> NothingLeft(files))
    requires TransferFails(world, Leftovers(files, incomplete), sha, size, hash, settings, error)
    ensures TransferFails(world, Leftovers([], incomplete), sha, size, hash, settings, error)
  {
    RemovedIsAbsent(world, files, size, settings);
    assert RangedIs(world, files, size, settings, Ranged(world, [], size, settings));
  }

  /** Splits the file and lets the workers fetch its parts. */
  method FetchParts(file: FileSlot, size: nat, settings: Settings, world: World, ghost whole: Bytes)
    returns (failure: Option<Error>)
    requires settings.partSize > 0 && UsesRanges(Some(size), settings)
    modifies file`parts
    ensures failure == Ranged(world, old(file.parts), Some(size), settings)
    ensures file.parts == Fetched(world, old(file.parts), size, settings)
    ensures failure == None ==> |Merged(file.parts)| == size && forall part | part in file.parts :: part.Some?
    ensures HonestPool(world.pool, whole) && PartsFit(old(file.parts), settings.partSize, size, whole) ==>
      && PartsFit(file.parts, settings.partSize, size, whole)
      && (failure == None && size == |whole| ==> Merged(file.parts) == whole)
  {
    var parts := SplitParts(size, settings.partSize);
    ghost var before := file.parts;
    failure := RunPool(file, parts, size, settings.retries, world.pool, whole);
    forall i | 0 <= i < |parts|
      ensures Times(i, settings.partSize) < size && parts[i] == PartAt(i, settings.partSize, size)
    {
      PartIsEven(size, settings.partSize, i);
    }
    assert whole[..|whole|] == whole;
  }

  /** The ranged transfer: split, fetch, merge. */
  method TransferRanges(file: FileSlot, sha: Bytes -> Hash, size: nat, hash: Option<Hash>, settings: Settings,
                        world: World, ghost whole: Bytes)
    returns (verdict: Verdict)
    requires settings.partSize > 0 && UsesRanges(Some(size), settings)
    modifies file`target, file`parts, file`merging
    ensures verdict.Failed? ==> file.target == old(file.target)
    ensures verdict == Published ==> file.target.Some? && Accepts(sha, file.target.value, Some(size), hash)
    ensures HonestPool(world.pool, whole) && PartsFit(old(file.parts), settings.partSize, size, whole) ==>
      && PartsFit(file.parts, settings.partSize, size, whole)
      && (verdict == Published && size == |whole| ==> file.target == Some(whole))
    ensures verdict.Failed? && (verdict.error.RangeIgnored? || verdict.error.IsIntegrity()) ==> NothingLeft(file.parts)
    ensures var ranged := Ranged(world, old(file.parts), Some(size), settings);
      && (ranged.Some? ==> verdict == Failed(ranged.value))
      && (ranged == None ==>
            verdict == MergeVerdict(sha, Fetched(world, old(file.parts), size, settings), size, hash, world.mergeStops))
      && (ranged == None && HonestPool(world.pool, whole) && Matching(whole, sha, Some(size), hash)
          && PartsFit(old(file.parts), settings.partSize, size, whole) && (forall i :: !world.mergeStops(i)) ==>
            verdict == Published)
  {
    ghost var honest := HonestPool(world.pool, whole) && PartsFit(file.parts, settings.partSize, size, whole);
    var failure := FetchParts(file, size, settings, world, whole);
    ghost var fetched := file.parts;
    verdict := ParallelDownload(file, failure, sha, size, hash, world.mergeStops);
    if honest {
      RemovedStillFit(fetched, file.parts, settings.partSize, size, whole);
    }
  }

  /** One transfer: ranges for a large file, one stream otherwise or when the server does not honour ranges.  Against an
      honest server it publishes the object, and whatever it leaves can be resumed.  It succeeds whenever its range
      workers finish or its single stream is served, and fails as the one that decided it failed. */
  method Transfer(file: FileSlot, sha: Bytes -> Hash, size: Option<nat>, hash: Option<Hash>, settings: Settings,
                  world: World, ghost whole: Bytes)
    returns (verdict: Verdict)
    requires settings.partSize > 0
    modifies file
    ensures verdict.Failed? ==> file.target == old(file.target) && verdict.error != RangeIgnored
    ensures verdict == Published ==> file.target.Some? && Accepts(sha, file.target.value, size, hash)
    ensures HonestWorld(world, whole) && old(Resumable(file, size, settings, whole)) ==>
      && Resumable(file, size, settings, whole)
      && (verdict == Published && size == Some(|whole|) ==> file.target == Some(whole))
    ensures Serves(world, old(Leftovers(file.parts, file.incomplete)), sha, size, hash, settings, whole) ==>
      verdict == Published && file.target == Some(whole)
    ensures verdict.Failed? ==>
      TransferFails(world, old(Leftovers(file.parts, file.incomplete)), sha, size, hash, settings, verdict.error)
    ensures verdict.Failed? && verdict.error.IsIntegrity() && UsesRanges(size, settings) ==> NothingLeft(file.parts)
  {
    ghost var left := Leftovers(file.parts, file.incomplete);
    if UsesRanges(size, settings) {
      verdict := TransferRanges(file, sha, size.value, hash, settings, world, whole);
      if verdict != Failed(RangeIgnored) {
        return;
      }
    }
    ghost var lucky: nat := 0;
    ghost var log;
    if Serves(world, left, sha, size, hash, settings, whole) {
      lucky :| InTime(lucky, settings) && ServesWith(world, left, sha, size, hash, settings, whole, lucky);
    }
    var pinned, requests;
    verdict, pinned, requests, log := DownloadStream(file, sha, size, hash, world.server, world.stops, world.grants,
                                                     settings.retries, whole, lucky);
  }

  /** Where the caller can stop a file download outside of its transfers; the cache is checked twice. */
  datatype Pause = Checking | Locking | Rechecking | Starting(n: nat) | Backoff(n: nat)

  /** A copy that the cache check accepts. */
  predicate Hit(copy: Option<Bytes>, sha: Bytes -> Hash, size: Option<nat>, hash: Option<Hash>) {
    copy.Some? && Accepts(sha, copy.value, size, hash)
  }

  /** A copy whose check takes long enough to be stopped: it is read, block by block, only when a digest is to be
      compared and the size has not already decided. */
  predicate IsRead(copy: Option<Bytes>, size: Option<nat>, hash: Option<Hash>) {
    copy.Some? && copy.value != [] && hash.Some? && (size.Some? ==> |copy.value| == size.value)
  }

  /** The target exists and passes the checks that were asked for; reading it for the digest can be stopped. */
  method CacheHit(file: FileSlot, sha: Bytes -> Hash, size: Option<nat>, hash: Option<Hash>, stopped: bool)
    returns (hit: bool, interrupted: bool)
    ensures interrupted <==> stopped && IsRead(file.target, size, hash)
    ensures hit <==> !interrupted && Hit(file.target, sha, size, hash)
  {
    hit, interrupted := false, false;
    if file.target == None || (size.Some? && |file.target.value| != size.value) {
      return;
    }
    if hash.Some? {
      if file.target.value != [] && stopped {
        interrupted := true;
        return;
      }
      if sha(file.target.value) != hash.value {
        return;
      }
    }
    hit := true;
  }

  /** How often content may be rejected for this reason before the error is final. */
  function Limit(error: Error, settings: Settings): nat {
    if error.SizeMismatch? then SIZE_RETRY_TIMES
    else if settings.recovery && 2 < HASH_RETRY_TIMES then 2
    else HASH_RETRY_TIMES
  }

  /** The transfers that have failed, the last one first. */
  datatype History = Untried | Tried(earlier: History, error: Error)

  function Length(failures: History): nat {
    if failures.Untried? then 0 else Length(failures.earlier) + 1
  }

  function Count(failures: History, error: Error): nat {
    if failures.Untried? then 0
    else Count(failures.earlier, error) + if failures.error == error then 1 else 0
  }

  /** What a transfer that failed leads to, when it was number t and the nth to fail with its error: None to make
      another one. */
  function Ruled(error: Error, n: nat, t: nat, pauses: Pause -> bool, grants: nat -> bool, settings: Settings)
    : Option<Error>
  {
    if !error.IsIntegrity() || n >= Limit(error, settings) then Some(error)
    else if settings.recovery && !grants(t) then Some(BudgetExhausted)
    else if pauses(Backoff(t)) then Some(Stopped)
    else None
  }

  /** What failed transfers lead to. */
  function Outcome(failures: History, pauses: Pause -> bool, grants: nat -> bool, settings: Settings): Option<Error> {
    if failures.Untried? then None
    else
      Ruled(failures.error, Count(failures, failures.error), Length(failures.earlier), pauses, grants, settings)
  }

  /** What transfer t starts from: an earlier one was rejected, and nothing is kept of it. */
  function LeftFor(t: nat, left: Leftovers): Leftovers {
    if t == 0 then left else Leftovers([], None)
  }

  /** The transfers that failed one after the other, each for its own reason, and each but the last was followed by
      another one. */
  ghost predicate FailedTransfers(worlds: nat -> World, pauses: Pause -> bool, grants: nat -> bool, left: Leftovers,
                                  sha: Bytes -> Hash, size: Option<nat>, hash: Option<Hash>, settings: Settings,
                                  failures: History)
    requires settings.partSize > 0
  {
    match failures
    case Untried => true
    case Tried(earlier, error) =>
      var t := Length(earlier);
      && FailedTransfers(worlds, pauses, grants, left, sha, size, hash, settings, earlier)
      && Outcome(earlier, pauses, grants, settings) == None && !pauses(Starting(t))
      && TransferFails(worlds(t), LeftFor(t, left), sha, size, hash, settings, error)
  }

  /** The verdict that fits the failed transfers: what they lead to, or else what the transfer after them led to. */
  predicate Concludes(verdict: Verdict, failures: History, pauses: Pause -> bool, grants: nat -> bool,
                      settings: Settings)
  {
    var outcome := Outcome(failures, pauses, grants, settings);
    if outcome.Some? then verdict == Failed(outcome.value)
    else if pauses(Starting(Length(failures))) then verdict == Failed(Stopped)
    else verdict == Published
  }

  /** A first transfer whose content was rejected is followed by another one, unless the caller stops or the budget
      refuses; so with one failure in the history the second transfer has published. */
  lemma RejectedOnceIsRepeated(verdict: Verdict, error: Error, pauses: Pause -> bool, grants: nat -> bool,
                               settings: Settings)
    requires Concludes(verdict, Tried(Untried, error), pauses, grants, settings) && error.IsIntegrity()
    requires !pauses(Backoff(0)) && !pauses(Starting(1)) && (settings.recovery ==> grants(0))
    ensures verdict == Published
  {
    assert Count(Tried(Untried, error), error) == 1;
    assert Length(Tried(Untried, error)) == 1;
  }

  /** The counters of rejected content, none of which has reached its limit. */
  predicate Counted(failures: History, hashes: nat, sizes: nat, settings: Settings) {
    && Length(failures) == hashes + sizes
    && hashes == Count(failures, HashMismatch) < Limit(HashMismatch, settings)
    && sizes == Count(failures, SizeMismatch) < Limit(SizeMismatch, settings)
  }

  /** At most four transfers, three under a recovery budget; a rejection is final only after all its attempts. */
  predicate WithinLimits(verdict: Verdict, transfers: nat, settings: Settings) {
    && transfers <= (if settings.recovery then 3 else 4)
    && (verdict == Failed(HashMismatch) ==> transfers >= (if settings.recovery then 2 else 3))
    && (verdict == Failed(SizeMismatch) ==> transfers >= 2)
  }

  lemma OneMoreIsWithin(failures: History, hashes: nat, sizes: nat, settings: Settings)
    requires Counted(failures, hashes, sizes, settings)
    ensures WithinLimits(Published, Length(failures) + 1, settings)
  {
  }

  /** A pause before the next transfer. */
  lemma PausedHere(failures: History, hashes: nat, sizes: nat, pauses: Pause -> bool, grants: nat -> bool,
                   settings: Settings)
    requires Counted(failures, hashes, sizes, settings) && Outcome(failures, pauses, grants, settings) == None
    requires pauses(Starting(Length(failures)))
    ensures WithinLimits(Failed(Stopped), Length(failures), settings)
    ensures Concludes(Failed(Stopped), failures, pauses, grants, settings)
  {
  }

  /** Counts a failed transfer and decides what it leads to. */
  method Weigh(error: Error, hashes: nat, sizes: nat, pauses: Pause -> bool, grants: nat -> bool, settings: Settings)
    returns (final: Option<Error>, hashFailures: nat, sizeFailures: nat)
    ensures hashFailures == hashes + if error.HashMismatch? then 1 else 0
    ensures sizeFailures == sizes + if error.SizeMismatch? then 1 else 0
    ensures final == Ruled(error, if error.SizeMismatch? then sizes + 1 else hashes + 1, hashes + sizes, pauses, grants,
                           settings)
  {
    hashFailures, sizeFailures := hashes, sizes;
    if !error.IsIntegrity() {
      return Some(error), hashFailures, sizeFailures;
    }
    if error.SizeMismatch? {
      sizeFailures := sizeFailures + 1;
      if sizeFailures >= SIZE_RETRY_TIMES {
        return Some(error), hashFailures, sizeFailures;
      }
    } else {
      hashFailures := hashFailures + 1;
      if hashFailures >= (if settings.recovery && 2 < HASH_RETRY_TIMES then 2 else HASH_RETRY_TIMES) {
        return Some(error), hashFailures, sizeFailures;
      }
    }
    if settings.recovery && !grants(hashes + sizes) {
      return Some(BudgetExhausted), hashFailures, sizeFailures;
    }
    if pauses(Backoff(hashes + sizes)) {
      return Some(Stopped), hashFailures, sizeFailures;
    }
    final := None;
  }

  /** What the counters say is what the failures so far lead to. */
  lemma Weighed(failures: History, error: Error, hashes: nat, sizes: nat, pauses: Pause -> bool,
                grants: nat -> bool, settings: Settings, final: Option<Error>)
    requires Counted(failures, hashes, sizes, settings)
    requires final == Ruled(error, if error.SizeMismatch? then sizes + 1 else hashes + 1, hashes + sizes, pauses,
                            grants, settings)
    ensures final == Outcome(Tried(failures, error), pauses, grants, settings)
    ensures final.Some? ==> WithinLimits(Failed(final.value), Length(failures) + 1, settings)
    ensures final == None ==>
      Counted(Tried(failures, error), hashes + if error.HashMismatch? then 1 else 0,
              sizes + if error.SizeMismatch? then 1 else 0, settings)
  {
  }

  /** What is on disk when transfer t starts. */
  ghost predicate ReadyFor(file: FileSlot, t: nat, left: Leftovers, size: Option<nat>, settings: Settings)
    reads file
  {
    if t == 0 then file.parts == left.parts && file.incomplete == left.incomplete
    else file.incomplete == None && (UsesRanges(size, settings) ==> NothingLeft(file.parts))
  }

  /** Transfer number t.  A rejected one is discarded with its partial files. */
  method TransferOnce(file: FileSlot, sha: Bytes -> Hash, size: Option<nat>, hash: Option<Hash>, worlds: nat -> World,
                      settings: Settings, t: nat, ghost pauses: Pause -> bool, ghost grants: nat -> bool,
                      ghost left: Leftovers, ghost failures: History, ghost whole: Bytes, ghost honest: bool,
                      ghost served: bool)
    returns (verdict: Verdict, ghost longer: History)
    requires settings.partSize > 0 && t == Length(failures) && ReadyFor(file, t, left, size, settings)
    requires FailedTransfers(worlds, pauses, grants, left, sha, size, hash, settings, failures)
    requires !pauses(Starting(t)) && Outcome(failures, pauses, grants, settings) == None
    requires honest ==> HonestWorld(worlds(t), whole) && Resumable(file, size, settings, whole)
    requires served ==> Serves(worlds(t), LeftFor(t, left), sha, size, hash, settings, whole)
    modifies file
    ensures verdict == Published ==>
      longer == failures && file.target.Some? && Accepts(sha, file.target.value, size, hash)
    ensures verdict.Failed? ==>
      && file.target == old(file.target) && verdict.error != RangeIgnored && longer == Tried(failures, verdict.error)
      && (verdict.error.IsIntegrity() ==> file.merging == None && ReadyFor(file, t + 1, left, size, settings))
    ensures FailedTransfers(worlds, pauses, grants, left, sha, size, hash, settings, longer)
    ensures honest ==>
      && Resumable(file, size, settings, whole)
      && (verdict == Published && size == Some(|whole|) ==> file.target == Some(whole))
    ensures served ==> verdict == Published && file.target == Some(whole)
  {
    longer := failures;
    ghost var parts := file.parts;
    if t > 0 && served {
      ServesWithoutParts(worlds(t), parts, None, sha, size, hash, settings, whole);
    }
    verdict := Transfer(file, sha, size, hash, settings, worlds(t), whole);
    if verdict.Failed? {
      if t > 0 {
        FailsWithoutParts(worlds(t), parts, None, sha, size, hash, settings, verdict.error);
      }
      longer := Tried(failures, verdict.error);
      if verdict.error.IsIntegrity() {
        file.incomplete, file.merging := None, None;
      }
    }
  }

  /** One round of the loop: a transfer, and what it leads to. */
  method Round(file: FileSlot, sha: Bytes -> Hash, size: Option<nat>, hash: Option<Hash>, worlds: nat -> World,
               pauses: Pause -> bool, grants: nat -> bool, settings: Settings, hashes: nat, sizes: nat,
               ghost left: Leftovers, ghost failures: History, ghost whole: Bytes, ghost honest: bool,
               ghost served: bool)
    returns (verdict: Verdict, done: bool, hashFailures: nat, sizeFailures: nat, ghost longer: History)
    requires settings.partSize > 0 && Counted(failures, hashes, sizes, settings)
    requires ReadyFor(file, hashes + sizes, left, size, settings) && !pauses(Starting(hashes + sizes))
    requires FailedTransfers(worlds, pauses, grants, left, sha, size, hash, settings, failures)
    requires Outcome(failures, pauses, grants, settings) == None
    requires honest ==> HonestWorld(worlds(hashes + sizes), whole) && Resumable(file, size, settings, whole)
    requires served ==> Serves(worlds(hashes + sizes), LeftFor(hashes + sizes, left), sha, size, hash, settings, whole)
    modifies file
    ensures FailedTransfers(worlds, pauses, grants, left, sha, size, hash, settings, longer)
    ensures honest ==>
      && Resumable(file, size, settings, whole)
      && (done && verdict == Published && size == Some(|whole|) ==> file.target == Some(whole))
    ensures served ==> done && verdict == Published && file.target == Some(whole)
    ensures done && verdict == Published ==>
      file.target.Some? && Accepts(sha, file.target.value, size, hash)
    ensures !done || verdict.Failed? ==> file.target == old(file.target)
    ensures done && verdict.Failed? ==>
      && verdict.error != RangeIgnored
      && (verdict.error.IsIntegrity() ==> file.incomplete == None && file.merging == None)
    ensures done ==>
      && WithinLimits(verdict, hashes + sizes + 1, settings) && Concludes(verdict, longer, pauses, grants, settings)
    ensures Length(longer) == hashes + sizes + if done && verdict == Published then 0 else 1
    ensures !done ==>
      && Counted(longer, hashFailures, sizeFailures, settings) && ReadyFor(file, Length(longer), left, size, settings)
      && Outcome(longer, pauses, grants, settings) == None
  {
    OneMoreIsWithin(failures, hashes, sizes, settings);
    hashFailures, sizeFailures, done := hashes, sizes, true;
    verdict, longer := TransferOnce(file, sha, size, hash, worlds, settings, hashes + sizes, pauses, grants, left,
                                    failures, whole, honest, served);
    if verdict.Failed? {
      var final;
      final, hashFailures, sizeFailures := Weigh(verdict.error, hashes, sizes, pauses, grants, settings);
      Weighed(failures, verdict.error, hashes, sizes, pauses, grants, settings, final);
      done := final.Some?;
      if done {
        verdict := Failed(final.value);
      }
    }
  }

  /** Transfers until the content is valid.  A rejected download is discarded with its partial files; a hash mismatch
      may occur three times (twice under a recovery budget) and a size mismatch twice before the error is final.
      A transfer that is served ends the loop with the object, whatever was rejected before it. */
  method TransferUntilValid(file: FileSlot, sha: Bytes -> Hash, size: Option<nat>, hash: Option<Hash>,
                            worlds: nat -> World, pauses: Pause -> bool, grants: nat -> bool, settings: Settings,
                            ghost whole: Bytes, ghost honest: bool, ghost winner: nat, ghost served: bool)
    returns (verdict: Verdict, transfers: nat, ghost failures: History)
    requires settings.partSize > 0
    requires honest ==> (forall t :: HonestWorld(worlds(t), whole)) && Resumable(file, size, settings, whole)
    requires served ==> Serves(worlds(winner), LeftFor(winner, Leftovers(file.parts, file.incomplete)), sha, size, hash,
                               settings, whole)
    modifies file
    ensures WithinLimits(verdict, transfers, settings)
    ensures verdict == Published ==> file.target.Some? && Accepts(sha, file.target.value, size, hash)
    ensures verdict.Failed? ==> file.target == old(file.target) && verdict.error != RangeIgnored
    ensures verdict.Failed? && verdict.error.IsIntegrity() ==> file.incomplete == None && file.merging == None
    ensures honest ==>
      && Resumable(file, size, settings, whole)
      && (verdict == Published && size == Some(|whole|) ==> file.target == Some(whole))
    ensures transfers == Length(failures) + if verdict == Published then 1 else 0
    ensures FailedTransfers(worlds, pauses, grants, old(Leftovers(file.parts, file.incomplete)), sha, size, hash,
                            settings, failures)
    ensures Concludes(verdict, failures, pauses, grants, settings)
    ensures served && transfers > winner ==>
      verdict == Published && transfers == winner + 1 && file.target == Some(whole)
  {
    transfers, failures := 0, Untried;
    ghost var left := Leftovers(file.parts, file.incomplete);
    var hashFailures, sizeFailures := 0, 0;
    while true
      invariant transfers == Length(failures) && Counted(failures, hashFailures, sizeFailures, settings)
      invariant file.target == old(file.target) && ReadyFor(file, transfers, left, size, settings)
      invariant honest ==> Resumable(file, size, settings, whole)
      invariant FailedTransfers(worlds, pauses, grants, left, sha, size, hash, settings, failures)
      invariant Outcome(failures, pauses, grants, settings) == None
      invariant served ==> transfers <= winner
      decreases Limit(HashMismatch, settings) + Limit(SizeMismatch, settings) - transfers
    {
      if pauses(Starting(transfers)) {
        PausedHere(failures, hashFailures, sizeFailures, pauses, grants, settings);
        return Failed(Stopped), transfers, failures;
      }
      var done;
      verdict, done, hashFailures, sizeFailures, failures :=
        Round(file, sha, size, hash, worlds, pauses, grants, settings, hashFailures, sizeFailures, left, failures,
              whole, honest, served && transfers == winner);
      transfers := transfers + 1;
      if done {
        return;
      }
    }
  }

  /** What is at the target once the lock is held or given up. */
  function Held(found: Option<Bytes>, change: Option<Option<Bytes>>): Option<Bytes> {
    if change.Some? then change.value else found
  }

  /** When a call without force can fail and yet leave a file at the target: it is stopped while it reads the copy it
      found, while it waits for the lock, or while it reads the copy it found under the lock. */
  predicate LeavesCopy(found: Option<Bytes>, held: Option<Bytes>, sha: Bytes -> Hash, size: Option<nat>,
                       hash: Option<Hash>, pauses: Pause -> bool)
  {
    if pauses(Checking) && IsRead(found, size, hash) then true
    else if Hit(found, sha, size, hash) then false
    else if pauses(Locking) then held.Some?
    else pauses(Rechecking) && IsRead(held, size, hash)
  }

  /** What the copies found before and under the lock decide; None when the file has to be transferred. */
  function CacheVerdict(found: Option<Bytes>, held: Option<Bytes>, sha: Bytes -> Hash, size: Option<nat>,
                        hash: Option<Hash>, force: bool, pauses: Pause -> bool): Option<Verdict>
  {
    if !force && pauses(Checking) && IsRead(found, size, hash) then Some(Failed(Stopped))
    else if !force && Hit(found, sha, size, hash) then Some(Published)
    else if pauses(Locking) then Some(Failed(Stopped))
    else if !force && pauses(Rechecking) && IsRead(held, size, hash) then Some(Failed(Stopped))
    else if !force && Hit(held, sha, size, hash) then Some(Published)
    else None
  }

  /** The part of a download before its first transfer: the cache is checked, the lock is waited for, and the cache is
      checked again; a copy that was rejected there is removed.  Without force, a file remains behind a failure exactly
      when the call was stopped before it had judged that copy. */
  method CheckCache(file: FileSlot, sha: Bytes -> Hash, size: Option<nat>, hash: Option<Hash>, force: bool,
                    change: Option<Option<Bytes>>, pauses: Pause -> bool)
    returns (decided: Option<Verdict>)
    modifies file`target
    ensures decided == CacheVerdict(old(file.target), Held(old(file.target), change), sha, size, hash, force, pauses)
    ensures decided == None ==> file.target == if force then Held(old(file.target), change) else None
    ensures decided == Some(Published) ==> !force && Hit(file.target, sha, size, hash)
    ensures !force ==> (decided != Some(Published) && file.target.Some?
      <==> LeavesCopy(old(file.target), Held(old(file.target), change), sha, size, hash, pauses))
    ensures decided.Some? ==> file.target in {old(file.target), Held(old(file.target), change)}
    ensures decided.Some? && force ==> file.target == Held(old(file.target), change)
    ensures !force && Hit(old(file.target), sha, size, hash)
      && !(pauses(Checking) && IsRead(old(file.target), size, hash))
      ==> decided == Some(Published) && file.target == old(file.target)
  {
    if !force {
      var hit, interrupted := CacheHit(file, sha, size, hash, pauses(Checking));
      if interrupted {
        return Some(Failed(Stopped));
      }
      if hit {
        return Some(Published);
      }
    }
    file.target := Held(file.target, change);
    if pauses(Locking) {
      return Some(Failed(Stopped));
    }
    if !force {
      var hit, interrupted := CacheHit(file, sha, size, hash, pauses(Rechecking));
      if interrupted {
        return Some(Failed(Stopped));
      }
      if hit {
        return Some(Published);
      }
      file.target := None;
    }
    decided := None;
  }

  /** Downloads one file.  Whatever the servers send, the target ends up absent, as the copy that was there, or with
      content that passes every check the caller supplied, after at most four transfers.  Without force a failure
      leaves a copy exactly when the call was stopped before it had judged that copy.  `change` is what another
      process did to the target while this one waited for the lock. */
  method DownloadFile(file: FileSlot, sha: Bytes -> Hash, size: Option<nat>, hash: Option<Hash>, force: bool,
                      change: Option<Option<Bytes>>, worlds: nat -> World, pauses: Pause -> bool,
                      grants: nat -> bool, settings: Settings, ghost whole: Bytes, ghost winner: nat)
    returns (verdict: Verdict, transfers: nat, ghost failures: History)
    requires settings.partSize > 0
    modifies file
    ensures WithinLimits(verdict, transfers, settings)
    ensures verdict == Published ==> Hit(file.target, sha, size, hash)
    ensures !force ==> (verdict.Failed? && file.target.Some?
      <==> LeavesCopy(old(file.target), Held(old(file.target), change), sha, size, hash, pauses))
    ensures verdict.Failed? && file.target.Some? ==>
      && file.target in {old(file.target), Held(old(file.target), change)}
      && (force || (transfers == 0 && verdict.error.Stopped?))
    ensures force && verdict.Failed? ==> file.target == Held(old(file.target), change)
    ensures verdict.Failed? && verdict.error.IsIntegrity() ==> file.incomplete == None && file.merging == None
    ensures !force && Hit(old(file.target), sha, size, hash)
      && !(pauses(Checking) && IsRead(old(file.target), size, hash))
      ==> verdict == Published && transfers == 0 && file.target == old(file.target)
    ensures (forall t :: HonestWorld(worlds(t), whole)) && old(Resumable(file, size, settings, whole)) ==>
      && Resumable(file, size, settings, whole)
      && (verdict == Published && transfers > 0 && size == Some(|whole|) ==> file.target == Some(whole))
    ensures var left := old(Leftovers(file.parts, file.incomplete));
      match CacheVerdict(old(file.target), Held(old(file.target), change), sha, size, hash, force, pauses)
      case Some(decided) => verdict == decided && transfers == 0
      case None =>
        && transfers == Length(failures) + (if verdict == Published then 1 else 0)
        && FailedTransfers(worlds, pauses, grants, left, sha, size, hash, settings, failures)
        && Concludes(verdict, failures, pauses, grants, settings)
        && (transfers > winner
            && Serves(worlds(winner), LeftFor(winner, left), sha, size, hash, settings, whole) ==>
              verdict == Published && transfers == winner + 1 && file.target == Some(whole))
  {
    var decided := CheckCache(file, sha, size, hash, force, change, pauses);
    if decided.Some? {
      return decided.value, 0, Untried;
    }
    ghost var honest := (forall t :: HonestWorld(worlds(t), whole)) && Resumable(file, size, settings, whole);
    ghost var served := Serves(worlds(winner), LeftFor(winner, Leftovers(file.parts, file.incomplete)), sha, size, hash,
                               settings, whole);
    verdict, transfers, failures := TransferUntilValid(file, sha, size, hash, worlds, pauses, grants, settings, whole,
                                                       honest, winner, served);
  }

  /** So a file that fails the checks can stay at the target of a failed call: any such file that has the listed size,
      when the call is stopped while it reads it. */
  lemma RejectedCopyMayStay(content: Bytes, sha: Bytes -> Hash, hash: Hash, pauses: Pause -> bool)
    requires content != [] && sha(content) != hash && (pauses(Checking) || pauses(Locking) || pauses(Rechecking))
    ensures var copy := Some(content);
      !Hit(copy, sha, Some(|content|), Some(hash)) && LeavesCopy(copy, copy, sha, Some(|content|), Some(hash), pauses)
  {
  }

  /** What keeps every copy that was not accepted from surviving: the call is not stopped at these three points. */
  lemma UnstoppedCallsLeaveNothing(pauses: Pause -> bool)
    ensures (forall found, held, sha, size, hash :: !LeavesCopy(found, held, sha, size, hash, pauses))
      <==> !pauses(Checking) && !pauses(Locking) && !pauses(Rechecking)
  {
    var sha: Bytes -> Hash := _ => "x";
    if pauses(Checking) || pauses(Locking) || pauses(Rechecking) {
      assert LeavesCopy(Some([0]), Some([0]), sha, Some(1), Some("y"), pauses);
    }
  }
}
