/** One file over one stream: resume with Range, retries, and an atomic publish. */
module ResumeDownload {
  import opened Options
  import opened DownloadTypes

  /** Places where the caller's cancellation or deadline is looked at during one pass of the loop. */
  datatype Moment = Head | Reading | Publishing | Waiting

  /** Answer number k, for a request that starts at the given byte. */
  type Server = (nat, nat) -> Reply

  /** An answer about a fixed object that may be cut short anywhere.  A 206 holds the range it names, not
      necessarily the range that was asked for; anything else carries the file from its start. */
  predicate Honest(whole: Bytes, reply: Reply) {
    reply.Response? ==>
      if reply.partial then
        var range := ParseContentRange(reply.field);
        range.Some? ==> (
          && range.value.last < |whole|
          && (range.value.total.Some? ==> range.value.total.value == |whole|)
          && Joined(reply.chunks) <= whole[range.value.first..range.value.last + 1])
      else
        reply.field == Absent && Joined(reply.chunks) <= whole
  }

  /** An honest answer that fails only in ways that retrying can repair: announced lengths are true, a clean end
      before the end of the object contradicts an announced length, and refusals are transient. */
  predicate Repairable(whole: Bytes, sha: Bytes -> Hash, start: nat, reply: Reply) {
    match reply
    case Refused(error) => error.IsTransient()
    case Unsatisfiable => start > 0
    case Response(partial, field, length, linked, chunks, ending) =>
      && Honest(whole, reply)
      && (linked.Some? ==> linked.value == sha(whole))
      && (ending.Broken? ==> ending.error.IsTransient())
      && var range := ParseContentRange(field);
         if !partial then
           && (length.Some? ==> length.value == |whole|)
           && (ending == Clean && Joined(chunks) != whole ==> length.Some?)
         else range.Some? ==>
           && range.value.last == |whole| - 1
           && (length.Some? ==> length.value == |whole| - range.value.first)
           && (ending == Clean && Joined(chunks) != whole[range.value.first..] ==> length.Some?)
  }

  /** An answer that delivers everything the request still lacks. */
  predicate Delivers(whole: Bytes, sha: Bytes -> Hash, start: nat, reply: Reply) {
    && Repairable(whole, sha, start, reply) && reply.Response? && reply.ending == Clean
    && if reply.partial then
         var range := ParseContentRange(reply.field);
         range.Some? && range.value.first == start && Joined(reply.chunks) == whole[start..]
       else Joined(reply.chunks) == whole
  }

  predicate PartOf(whole: Bytes, file: Option<Bytes>) {
    file.Some? ==> file.value <= whole
  }

  lemma FullPrefix(whole: Bytes, part: Bytes)
    ensures part <= whole && |part| == |whole| ==> part == whole
  {
    assert whole[..|whole|] == whole;
  }

  /** Appends the body to the `.incomplete` file until it ends or would outgrow the listed size, and feeds the same
      bytes to the running digest. */
  method WriteBody(file: FileSlot, prefix: Bytes, chunks: seq<Bytes>, size: Option<nat>)
    returns (digest: Bytes, exceeded: bool, n: nat)
    requires file.incomplete.Some?
    modifies file`incomplete
    ensures n <= |chunks| && digest == prefix + Joined(chunks[..n])
    ensures file.incomplete == Some(old(file.incomplete).value + Joined(chunks[..n]))
    ensures exceeded <==> n < |chunks|
    ensures exceeded ==> size.Some? && |file.incomplete.value| + |chunks[n]| > size.value
  {
    digest, exceeded, n := prefix, false, 0;
    ghost var base := file.incomplete.value;
    assert prefix + Joined(chunks[..0]) == prefix && base + Joined(chunks[..0]) == base;
    while n < |chunks|
      invariant n <= |chunks| && digest == prefix + Joined(chunks[..n]) && !exceeded
      invariant file.incomplete == Some(base + Joined(chunks[..n]))
    {
      var chunk := chunks[n];
      JoinedNext(prefix, chunks, n);
      JoinedNext(base, chunks, n);
      if chunk != [] {
        if size.Some? && |file.incomplete.value| + |chunk| > size.value {
          exceeded := true;
          return;
        }
        file.incomplete := Some(file.incomplete.value + chunk);
        digest := digest + chunk;
      }
      n := n + 1;
    }
    assert chunks[..n] == chunks;
  }

  lemma JoinedNext(base: Bytes, chunks: seq<Bytes>, n: nat)
    requires n < |chunks|
    ensures base + Joined(chunks[..n + 1]) == (base + Joined(chunks[..n])) + chunks[n]
    ensures chunks[n] == [] ==> Joined(chunks[..n + 1]) == Joined(chunks[..n])
  {
    assert chunks[..n + 1][..n] == chunks[..n];
  }

  /** What becomes of content that is to be published.  It is read for its digest only when that is wanted and not
      known yet; reading can be stopped, and so can the rename. */
  function Judgement(sha: Bytes -> Hash, hash: Option<Hash>, content: Bytes, digested: bool, stops: Moment -> bool)
    : (verdict: Verdict)
    ensures verdict == Published ==> (hash.Some? ==> hash.value == sha(content)) && !stops(Publishing)
    ensures (forall m :: !stops(m)) ==>
      verdict == if hash.Some? && hash.value != sha(content) then Failed(HashMismatch) else Published
    ensures verdict.Failed? ==> verdict.error == HashMismatch || verdict.error == Stopped
  {
    if hash.Some? && !digested && content != [] && stops(Reading) then Failed(Stopped)
    else if hash.Some? && hash.value != sha(content) then Failed(HashMismatch)
    else if stops(Publishing) then Failed(Stopped)
    else Published
  }

  /** Checks the digest and renames the `.incomplete` file onto the target in one step. */
  method Finish(file: FileSlot, sha: Bytes -> Hash, hash: Option<Hash>, actual: Option<Hash>, stops: Moment -> bool)
    returns (verdict: Verdict)
    requires file.incomplete.Some? && (actual.Some? ==> actual.value == sha(file.incomplete.value))
    modifies file`target, file`incomplete
    ensures verdict == Judgement(sha, hash, old(file.incomplete).value, actual.Some?, stops)
    ensures verdict == Published ==> file.target == old(file.incomplete) && file.incomplete == None
    ensures verdict.Failed? ==> file.target == old(file.target) && file.incomplete == old(file.incomplete)
  {
    var content := file.incomplete.value;
    if hash.Some? {
      if actual == None && content != [] && stops(Reading) {
        return Failed(Stopped);
      }
      if (if actual.Some? then actual.value else sha(content)) != hash.value {
        return Failed(HashMismatch);
      }
    }
    if stops(Publishing) {
      return Failed(Stopped);
    }
    file.target, file.incomplete := Some(content), None;
    verdict := Published;
  }

  /** Where the body of a response belongs in the file; None when it fits nowhere and the partial file has to go.  The
      body fits nowhere exactly when the response claims to be a part, but not the part that was asked for.  It goes
      behind what is on disk exactly when it names that position; a whole-file answer starts over at byte 0. */
  function Offset(start: nat, partial: bool, range: Option<ContentRange>): (offset: Option<nat>)
    ensures offset == None <==>
      (partial || (start > 0 && range.Some?)) && !(range.Some? && range.value.first == start)
    ensures start > 0 ==> (offset == Some(start) <==> range.Some? && range.value.first == start)
    ensures offset.Some? && offset.value != 0 ==> offset.value == start
  {
    if start > 0 && (partial || range.Some?) then
      if range == None || range.value.first != start then None else Some(start)
    else if partial && (range == None || range.value.first != 0) then None
    else Some(0)
  }

  /** The size of the whole object as far as the response announces it. */
  function Announced(offset: nat, range: Option<ContentRange>, length: Option<nat>): Option<nat> {
    if range.Some? && range.value.total.Some? then range.value.total
    else if length.Some? then Some(offset + length.value)
    else None
  }

  /** Honest bytes, put where they belong, continue a prefix of the object; and a repairable response that stops
      early has announced more than it sent. */
  lemma BodyContinues(whole: Bytes, sha: Bytes -> Hash, start: nat, reply: Reply, offset: nat, n: nat)
    requires reply.Response? && Honest(whole, reply) && n <= |reply.chunks| && offset <= |whole|
    requires Offset(start, reply.partial, ParseContentRange(reply.field)) == Some(offset)
    ensures whole[..offset] + Joined(reply.chunks[..n]) <= whole
    ensures whole[..offset] + Joined(reply.chunks) <= whole
    ensures Repairable(whole, sha, start, reply) ==>
      var announced := Announced(offset, ParseContentRange(reply.field), reply.length);
      && (announced.Some? ==> announced.value == |whole|)
      && (reply.ending == Clean && whole[..offset] + Joined(reply.chunks) != whole ==>
            reply.length.Some? && |Joined(reply.chunks)| < reply.length.value)
    ensures Delivers(whole, sha, start, reply) ==> whole[..offset] + Joined(reply.chunks) == whole
  {
    JoinedPrefix(reply.chunks, n);
    var body := Joined(reply.chunks);
    assert body <= whole[offset..];
    assert whole == whole[..offset] + whole[offset..];
    if |body| == |whole| - offset {
      assert body == whole[offset..];
    }
  }

  /** What the conditions of the run come to when every check is made against the true object. */
  predicate Matching(whole: Bytes, sha: Bytes -> Hash, size: Option<nat>, hash: Option<Hash>) {
    (size.Some? ==> size.value == |whole|) && (hash.Some? ==> hash.value == sha(whole))
  }

  /** What is wrong with a body that was received into the file, if anything. */
  function BodyError(size: Option<nat>, reply: Reply, offset: nat, received: nat, exceeded: bool): (r: Option<Error>)
    requires reply.Response?
    ensures r.Some? ==> !r.value.RangeIgnored?
  {
    if exceeded then Some(SizeMismatch)
    else if reply.ending.Broken? then Some(reply.ending.error)
    else if reply.length.Some? && received < reply.length.value then Some(Incomplete)
    else if size.Some? && offset + received != size.value then Some(SizeMismatch)
    else None
  }

  lemma BodyErrorIsFair(whole: Bytes, sha: Bytes -> Hash, size: Option<nat>, hash: Option<Hash>, start: nat,
                        reply: Reply, offset: nat, n: nat)
    requires reply.Response? && Repairable(whole, sha, start, reply) && Matching(whole, sha, size, hash)
    requires n <= |reply.chunks| && offset <= |whole|
    requires Offset(start, reply.partial, ParseContentRange(reply.field)) == Some(offset)
    requires n < |reply.chunks| ==> size.Some? && offset + |Joined(reply.chunks[..n])| + |reply.chunks[n]| > size.value
    ensures n == |reply.chunks|
    ensures var error := BodyError(size, reply, offset, |Joined(reply.chunks)|, false);
      if error == None then whole[..offset] + Joined(reply.chunks) == whole
      else error.value.IsTransient() && !Delivers(whole, sha, start, reply)
  {
    if n < |reply.chunks| {
      assert reply.chunks[..n + 1][..n] == reply.chunks[..n];
      BodyContinues(whole, sha, start, reply, offset, n + 1);
      assert false;
    }
    BodyContinues(whole, sha, start, reply, offset, n);
  }

  /** How the `.incomplete` file and the error follow from one response; n counts the chunks that were accepted. */
  predicate Received(size: Option<nat>, hash: Option<Hash>, start: nat, reply: Reply, stopped: bool, n: nat,
                     before: Option<Bytes>, after: Option<Bytes>, error: Option<Error>)
    requires reply.Response? && n <= |reply.chunks|
    requires match before case Some(content) => |content| == start case None => start == 0
  {
    match Offset(start, reply.partial, ParseContentRange(reply.field))
    case None => error == Some(Incomplete) && after == None
    case Some(offset) =>
      var announced := Announced(offset, ParseContentRange(reply.field), reply.length);
      if size.Some? && announced.Some? && announced != size then error == Some(SizeMismatch) && after == None
      else if hash.Some? && offset > 0 && stopped then error == Some(Stopped) && after == before
      else
        var body := Joined(reply.chunks[..n]);
        && (n < |reply.chunks| ==> size.Some? && offset + |body| + |reply.chunks[n]| > size.value)
        && error == BodyError(size, reply, offset, |body|, n < |reply.chunks|)
        && var content := (if offset > 0 then before.value else []) + body;
           after == (if error == Some(SizeMismatch) && n == |reply.chunks| && reply.ending == Clean then None
                     else Some(content))
  }

  /** Receives one response.  `start` is the length of the `.incomplete` file, hence the first byte asked for.
      Without an error, `digest` is what the running digest was fed. */
  method Receive(file: FileSlot, size: Option<nat>, hash: Option<Hash>, start: nat, reply: Reply, stops: Moment -> bool)
    returns (error: Option<Error>, digest: Bytes, n: nat)
    requires reply.Response?
    requires match file.incomplete case Some(content) => |content| == start case None => start == 0
    modifies file`incomplete
    ensures n <= |reply.chunks|
    ensures Received(size, hash, start, reply, stops(Reading), n, old(file.incomplete), file.incomplete, error)
    ensures error == None ==> file.incomplete == Some(digest)
  {
    digest, n := [], 0;
    var range := ParseContentRange(reply.field);
    var placed := Offset(start, reply.partial, range);
    if placed == None {
      file.incomplete := None;
      return Some(Incomplete), digest, n;
    }
    var offset := placed.value;
    var announced := Announced(offset, range, reply.length);
    if size.Some? && announced.Some? && announced != size {
      file.incomplete := None;
      return Some(SizeMismatch), digest, n;
    }
    if hash.Some? && offset > 0 && stops(Reading) {
      return Some(Stopped), digest, n;
    }
    if offset == 0 {
      file.incomplete := Some([]);
    }
    var base := file.incomplete.value;
    var exceeded;
    digest, exceeded, n := WriteBody(file, base, reply.chunks, size);
    error := BodyError(size, reply, offset, |digest| - offset, exceeded);
    if error == Some(SizeMismatch) && !exceeded && reply.ending == Clean {
      file.incomplete := None;
    }
  }

  /** An honest response keeps the partial file a prefix of the object, whatever happens to the response. */
  lemma ReceivedKeepsPrefix(whole: Bytes, sha: Bytes -> Hash, size: Option<nat>, hash: Option<Hash>, start: nat,
                            reply: Reply, stopped: bool, n: nat, before: Option<Bytes>, after: Option<Bytes>,
                            error: Option<Error>)
    requires reply.Response? && n <= |reply.chunks|
    requires match before case Some(content) => |content| == start case None => start == 0
    requires Received(size, hash, start, reply, stopped, n, before, after, error)
    requires Honest(whole, reply) && PartOf(whole, before)
    ensures PartOf(whole, after)
  {
    var placed := Offset(start, reply.partial, ParseContentRange(reply.field));
    if placed.Some? {
      BodyContinues(whole, sha, start, reply, placed.value, n);
      if placed.value > 0 {
        assert before.value == whole[..placed.value];
      }
    }
  }

  /** A repairable response leaves a transient error or the whole object, and the object if it delivers it. */
  lemma ReceivedMakesProgress(whole: Bytes, sha: Bytes -> Hash, size: Option<nat>, hash: Option<Hash>, start: nat,
                              reply: Reply, stopped: bool, n: nat, before: Option<Bytes>, after: Option<Bytes>,
                              error: Option<Error>)
    requires reply.Response? && n <= |reply.chunks|
    requires match before case Some(content) => |content| == start case None => start == 0
    requires Received(size, hash, start, reply, stopped, n, before, after, error)
    requires Repairable(whole, sha, start, reply) && PartOf(whole, before) && Matching(whole, sha, size, hash)
    ensures error == None ==> after == Some(whole)
    ensures error.Some? && !stopped ==> error.value.IsTransient() && !Delivers(whole, sha, start, reply)
  {
    var placed := Offset(start, reply.partial, ParseContentRange(reply.field));
    if placed.Some? {
      var offset := placed.value;
      BodyContinues(whole, sha, start, reply, offset, n);
      if !(hash.Some? && offset > 0 && stopped) {
        BodyErrorIsFair(whole, sha, size, hash, start, reply, offset, n);
        assert reply.chunks[..n] == reply.chunks;
      }
      if offset > 0 {
        assert before.value == whole[..offset];
      }
    }
  }

  /** The digest to check against: the caller's, or else the one the storage announces for the object. */
  function Pinned(hash: Option<Hash>, reply: Reply): Option<Hash> {
    if hash == None && reply.Response? then reply.linked else hash
  }

  function Existing(file: Option<Bytes>): nat {
    if file.Some? then |file.value| else 0
  }

  /** A failed pass: the partial file and the digest to check against, before and after, and what was wrong. */
  datatype Attempt = Attempt(before: Option<Bytes>, hash: Option<Hash>, after: Option<Bytes>, pinned: Option<Hash>,
                             error: Error)

  ghost predicate ResponseFails(sha: Bytes -> Hash, size: Option<nat>, hash: Option<Hash>, reply: Reply,
                                stops: Moment -> bool, before: Option<Bytes>, after: Option<Bytes>, error: Error)
    requires reply.Response?
  {
    || (exists n: nat | n <= |reply.chunks| ::
          Received(size, hash, Existing(before), reply, stops(Reading), n, before, after, Some(error)))
    || (after.Some? && Judgement(sha, hash, after.value, hash.Some?, stops) == Failed(error)
        && exists n: nat | n <= |reply.chunks| ::
             Received(size, hash, Existing(before), reply, stops(Reading), n, before, after, None))
  }

  /** How an answer fails: a refusal with its own error, a stale partial file with a fresh start, a response by what
      is wrong with it. */
  ghost predicate AnswerFails(sha: Bytes -> Hash, size: Option<nat>, hash: Option<Hash>, reply: Reply,
                              stops: Moment -> bool, before: Option<Bytes>, after: Option<Bytes>, error: Error)
  {
    match reply
    case Refused(refusal) => error == refusal && after == before
    case Unsatisfiable =>
      if Existing(before) == 0 then error == Rejected(false) && after == before
      else error == Incomplete && after == None
    case Response(_, _, _, _, _, _) => ResponseFails(sha, size, hash, reply, stops, before, after, error)
  }

  /** What is on disk once a leftover that is longer than the file is dropped. */
  function Kept(file: Option<Bytes>, size: Option<nat>): Option<Bytes> {
    if size.Some? && Existing(file) > size.value then None else file
  }

  ghost predicate PassFails(sha: Bytes -> Hash, size: Option<nat>, ask: nat -> Reply, stops: Moment -> bool,
                            attempt: Attempt)
  {
    var Attempt(before, hash, after, pinned, error) := attempt;
    if stops(Head) then error.Stopped? && after == before && pinned == hash
    else
      var kept := Kept(before, size);
      if kept.Some? && size == Some(|kept.value|) then
        after == kept && pinned == hash && Judgement(sha, hash, kept.value, false, stops) == Failed(error)
      else
        var reply := ask(Existing(kept));
        pinned == Pinned(hash, reply) && AnswerFails(sha, size, pinned, reply, stops, kept, after, error)
  }

  /** Receives a response and says what that means for the object it is about. */
  method TakeResponse(file: FileSlot, size: Option<nat>, hash: Option<Hash>, reply: Reply, stops: Moment -> bool,
                      ghost sha: Bytes -> Hash, ghost whole: Bytes)
    returns (error: Option<Error>, digest: Bytes, ghost n: nat)
    requires reply.Response?
    modifies file`incomplete
    ensures n <= |reply.chunks| && Received(size, hash, Existing(old(file.incomplete)), reply, stops(Reading), n,
                                            old(file.incomplete), file.incomplete, error)
    ensures error == None ==> file.incomplete == Some(digest) && (size.Some? ==> |digest| == size.value)
    ensures Honest(whole, reply) && PartOf(whole, old(file.incomplete)) ==> PartOf(whole, file.incomplete)
    ensures (Repairable(whole, sha, Existing(old(file.incomplete)), reply) && PartOf(whole, old(file.incomplete))
             && Matching(whole, sha, size, hash)) ==>
      && (error == None ==> digest == whole)
      && (error.Some? && !stops(Reading) ==>
            error.value.IsTransient() && !Delivers(whole, sha, Existing(old(file.incomplete)), reply))
  {
    var start := Existing(file.incomplete);
    ghost var before := file.incomplete;
    error, digest, n := Receive(file, size, hash, start, reply, stops);
    if Honest(whole, reply) && PartOf(whole, before) {
      ReceivedKeepsPrefix(whole, sha, size, hash, start, reply, stops(Reading), n, before, file.incomplete, error);
      if Repairable(whole, sha, start, reply) && Matching(whole, sha, size, hash) {
        ReceivedMakesProgress(whole, sha, size, hash, start, reply, stops(Reading), n, before, file.incomplete, error);
      }
    }
  }

  /** The part of a pass that talks to the server. */
  method Exchange(file: FileSlot, sha: Bytes -> Hash, size: Option<nat>, hash: Option<Hash>, reply: Reply,
                  stops: Moment -> bool, ghost whole: Bytes)
    returns (verdict: Verdict)
    modifies file`target, file`incomplete
    ensures verdict.Failed? ==> file.target == old(file.target) && !verdict.error.RangeIgnored?
    ensures verdict.Failed? ==> AnswerFails(sha, size, Pinned(hash, reply), reply, stops, old(file.incomplete),
                                            file.incomplete, verdict.error)
    ensures verdict == Published ==>
      file.incomplete == None && file.target.Some? && Accepts(sha, file.target.value, size, Pinned(hash, reply))
    ensures Honest(whole, reply) && PartOf(whole, old(file.incomplete)) ==>
      PartOf(whole, file.incomplete) && (verdict == Published ==> file.target.value <= whole)
    ensures (Repairable(whole, sha, Existing(old(file.incomplete)), reply) && PartOf(whole, old(file.incomplete))
             && Matching(whole, sha, size, hash)) ==>
      && (verdict == Published ==> file.target == Some(whole))
      && (verdict.Failed? && (forall m :: !stops(m)) ==>
            verdict.error.IsTransient() && !Delivers(whole, sha, Existing(old(file.incomplete)), reply))
  {
    match reply
    case Refused(error) =>
      verdict := Failed(error);
    case Unsatisfiable =>
      if Existing(file.incomplete) == 0 {
        return Failed(Rejected(false));
      }
      file.incomplete := None;
      verdict := Failed(Incomplete);
    case Response(_, _, _, _, _, _) =>
      var pinned := Pinned(hash, reply);
      ghost var n;
      var error, digest;
      error, digest, n := TakeResponse(file, size, pinned, reply, stops, sha, whole);
      if error.Some? {
        return Failed(error.value);
      }
      verdict := Finish(file, sha, pinned, if pinned.Some? then Some(sha(digest)) else None, stops);
  }

  /** The first byte the next request asks for: whatever is on disk already is not fetched again. */
  function Start(file: Option<Bytes>, size: Option<nat>): nat {
    Existing(Kept(file, size))
  }

  /** One pass of the loop: drop an oversized leftover, publish a leftover that is already complete, or ask for what
      is missing. */
  method Pass(file: FileSlot, sha: Bytes -> Hash, size: Option<nat>, hash: Option<Hash>, ask: nat -> Reply,
              stops: Moment -> bool, ghost whole: Bytes)
    returns (verdict: Verdict, pinned: Option<Hash>)
    modifies file`target, file`incomplete
    ensures hash.Some? ==> pinned == hash
    ensures verdict.Failed? ==> file.target == old(file.target) && !verdict.error.RangeIgnored?
    ensures verdict.Failed? ==> PassFails(sha, size, ask, stops,
      Attempt(old(file.incomplete), hash, file.incomplete, pinned, verdict.error))
    ensures verdict == Published ==>
      file.incomplete == None && file.target.Some? && Accepts(sha, file.target.value, size, pinned)
    ensures PartOf(whole, old(file.incomplete)) && Honest(whole, ask(Start(old(file.incomplete), size))) ==>
      PartOf(whole, file.incomplete) && (verdict == Published ==> file.target.value <= whole)
    ensures var start := Start(old(file.incomplete), size);
      (Repairable(whole, sha, start, ask(start)) && PartOf(whole, old(file.incomplete))
       && Matching(whole, sha, size, hash)) ==>
        && Matching(whole, sha, size, pinned)
        && (verdict == Published ==> file.target == Some(whole))
        && (verdict.Failed? && (forall m :: !stops(m)) ==>
              verdict.error.IsTransient() && !Delivers(whole, sha, start, ask(start)))
  {
    pinned := hash;
    if stops(Head) {
      return Failed(Stopped), pinned;
    }
    if size.Some? && Existing(file.incomplete) > size.value {
      file.incomplete := None;
    }
    if file.incomplete.Some? && size == Some(|file.incomplete.value|) {
      FullPrefix(whole, file.incomplete.value);
      verdict := Finish(file, sha, hash, None, stops);
      return;
    }
    var start := Existing(file.incomplete);
    var reply := ask(start);
    pinned := Pinned(hash, reply);
    verdict := Exchange(file, sha, size, hash, reply, stops, whole);
  }

  ghost predicate AlwaysHonest(server: Server, whole: Bytes) {
    forall k, n :: Honest(whole, server(k, n))
  }

  ghost predicate AlwaysRepairable(server: Server, whole: Bytes, sha: Bytes -> Hash) {
    forall k, n: nat :: Repairable(whole, sha, n, server(k, n))
  }

  /** Answer number `lucky` delivers whatever it is asked for, and nothing stops the download on the way there. */
  ghost predicate Undisturbed(server: Server, whole: Bytes, sha: Bytes -> Hash, lucky: nat,
                              stops: (nat, Moment) -> bool, grants: nat -> bool)
  {
    && (forall n: nat :: Delivers(whole, sha, n, server(lucky, n)))
    && (forall k, m :: !stops(k, m)) && (forall k :: grants(k))
  }

  /** What a failed pass leads to: None to try again, or the error that ends the download.  Every error class gets the
      same number of retries; when they are used up, anything that is not an answer of the Hub becomes a network
      error. */
  function AfterFailure(error: Error, retries: nat, stopped: bool, granted: bool): (r: Option<Error>)
    ensures r == None <==> error.IsTransient() && retries > 0 && !stopped && granted
    ensures r.Some? && !error.IsTransient() && !stopped ==> r.value == error
    ensures r.Some? && stopped ==> r.value == if error.Denied? || error.IsIntegrity() then error else Stopped
    ensures r.Some? && error.IsTransient() && !stopped && retries > 0 ==> r.value == BudgetExhausted
    ensures r.Some? && error.IsTransient() && !stopped && retries == 0 ==>
      r.value == if error.Rejected? then error else Transport
  {
    if error.Denied? || error.IsIntegrity() || error.Stopped? then Some(error)
    else if stopped then Some(Stopped)
    else if !error.IsTransient() then Some(error)
    else if retries == 0 then Some(if error.Rejected? then error else Transport)
    else if !granted then Some(BudgetExhausted)
    else None
  }

  function AnswersOf(server: Server, k: nat): nat -> Reply {
    (n: nat) => server(k, n)
  }

  function StopsAt(stops: (nat, Moment) -> bool, k: nat): Moment -> bool {
    m => stops(k, m)
  }

  function LeftBy(before: Option<Bytes>, log: seq<Attempt>): Option<Bytes> {
    if log == [] then before else log[|log| - 1].after
  }

  function PinnedBy(hash: Option<Hash>, log: seq<Attempt>): Option<Hash> {
    if log == [] then hash else log[|log| - 1].pinned
  }

  /** What the last failed pass leads to. */
  function Ruling(log: seq<Attempt>, stops: (nat, Moment) -> bool, grants: nat -> bool, retries: nat): Option<Error>
    requires 0 < |log| <= retries + 1
  {
    var k := |log| - 1;
    AfterFailure(log[k].error, retries - k, stops(k, Waiting), grants(k))
  }

  /** The passes that failed one after the other, each for its own reason, and each but the last was tried again. */
  ghost predicate FailedPasses(sha: Bytes -> Hash, size: Option<nat>, hash: Option<Hash>, server: Server,
                               stops: (nat, Moment) -> bool, grants: nat -> bool, retries: nat, before: Option<Bytes>,
                               log: seq<Attempt>)
    requires |log| <= retries + 1
  {
    if log == [] then true
    else
      var k := |log| - 1;
      var earlier := log[..k];
      && FailedPasses(sha, size, hash, server, stops, grants, retries, before, earlier)
      && (k > 0 ==> Ruling(earlier, stops, grants, retries) == None)
      && log[k].before == LeftBy(before, earlier) && log[k].hash == PinnedBy(hash, earlier)
      && PassFails(sha, size, AnswersOf(server, k), StopsAt(stops, k), log[k])
  }

  /** The download fails with this error: that is what its last failed pass leads to. */
  ghost predicate StreamFails(sha: Bytes -> Hash, size: Option<nat>, hash: Option<Hash>, server: Server,
                              stops: (nat, Moment) -> bool, grants: nat -> bool, retries: nat, before: Option<Bytes>,
                              log: seq<Attempt>, error: Error)
  {
    && 0 < |log| <= retries + 1
    && FailedPasses(sha, size, hash, server, stops, grants, retries, before, log)
    && Ruling(log, stops, grants, retries) == Some(error)
  }

  /** An undisturbed download whose last request was refused ends with that very error if it is final; a transient one
      ends it only when all retries are used up, as a network error unless it was an answer of the Hub. */
  lemma RefusalsKeepTheirClass(sha: Bytes -> Hash, size: Option<nat>, hash: Option<Hash>, server: Server,
                               stops: (nat, Moment) -> bool, grants: nat -> bool, retries: nat, before: Option<Bytes>,
                               log: seq<Attempt>, error: Error, refusal: RequestError)
    requires StreamFails(sha, size, hash, server, stops, grants, retries, before, log, error)
    requires (forall k, m :: !stops(k, m)) && (forall k :: grants(k))
    requires var kept := Kept(log[|log| - 1].before, size);
      !(kept.Some? && size == Some(|kept.value|)) && server(|log| - 1, Existing(kept)) == Refused(refusal)
    ensures if refusal.IsTransient() then
        |log| == retries + 1 && error == if refusal.Rejected? then refusal else Transport
      else error == refusal
  {
    var k := |log| - 1;
    assert !StopsAt(stops, k)(Head);
    assert AnswersOf(server, k)(Existing(Kept(log[k].before, size))) == Refused(refusal);
  }

  lemma OneMoreFailure(sha: Bytes -> Hash, size: Option<nat>, hash: Option<Hash>, server: Server,
                       stops: (nat, Moment) -> bool, grants: nat -> bool, retries: nat, before: Option<Bytes>,
                       log: seq<Attempt>, attempt: Attempt)
    requires |log| <= retries && FailedPasses(sha, size, hash, server, stops, grants, retries, before, log)
    requires log != [] ==> Ruling(log, stops, grants, retries) == None
    requires attempt.before == LeftBy(before, log) && attempt.hash == PinnedBy(hash, log)
    requires PassFails(sha, size, AnswersOf(server, |log|), StopsAt(stops, |log|), attempt)
    ensures var longer := log + [attempt];
      var ruling := AfterFailure(attempt.error, retries - |log|, stops(|log|, Waiting), grants(|log|));
      && FailedPasses(sha, size, hash, server, stops, grants, retries, before, longer)
      && Ruling(longer, stops, grants, retries) == ruling
      && LeftBy(before, longer) == attempt.after && PinnedBy(hash, longer) == attempt.pinned
      && (ruling.Some? ==>
            StreamFails(sha, size, hash, server, stops, grants, retries, before, longer, ruling.value))
  {
    assert (log + [attempt])[..|log|] == log;
  }

  /** One pass, entered in the log when it fails, and what it leads to. */
  method LoggedPass(file: FileSlot, sha: Bytes -> Hash, size: Option<nat>, hash: Option<Hash>, server: Server,
                    stops: (nat, Moment) -> bool, grants: nat -> bool, retries: nat, k: nat, ghost first: Option<Hash>,
                    ghost before: Option<Bytes>, ghost log: seq<Attempt>, ghost whole: Bytes, ghost lucky: nat)
    returns (verdict: Verdict, pinned: Option<Hash>, final: Option<Error>, ghost longer: seq<Attempt>)
    requires k == |log| <= retries && file.incomplete == LeftBy(before, log) && hash == PinnedBy(first, log)
    requires FailedPasses(sha, size, first, server, stops, grants, retries, before, log)
    requires log != [] ==> Ruling(log, stops, grants, retries) == None
    modifies file`target, file`incomplete
    ensures hash.Some? ==> pinned == hash
    ensures verdict == Published ==>
      && file.incomplete == None && file.target.Some? && Accepts(sha, file.target.value, size, pinned)
      && longer == log
    ensures verdict.Failed? ==>
      && file.target == old(file.target) && !verdict.error.RangeIgnored?
      && |longer| == k + 1 && file.incomplete == LeftBy(before, longer) && pinned == PinnedBy(first, longer)
      && FailedPasses(sha, size, first, server, stops, grants, retries, before, longer)
      && Ruling(longer, stops, grants, retries) == final
    ensures final.Some? ==> !final.value.RangeIgnored?
    ensures AlwaysHonest(server, whole) && PartOf(whole, old(file.incomplete)) ==>
      PartOf(whole, file.incomplete) && (verdict == Published ==> file.target.value <= whole)
    ensures (AlwaysRepairable(server, whole, sha) && PartOf(whole, old(file.incomplete))
             && Matching(whole, sha, size, hash)) ==>
      && Matching(whole, sha, size, pinned)
      && (verdict == Published ==> file.target == Some(whole))
      && (verdict.Failed? && Undisturbed(server, whole, sha, lucky, stops, grants) ==>
            k != lucky && (k < retries ==> final == None))
  {
    longer, final := log, None;
    ghost var kept, start := file.incomplete, Start(file.incomplete, size);
    assert AnswersOf(server, k)(start) == server(k, start);
    verdict, pinned := Pass(file, sha, size, hash, AnswersOf(server, k), StopsAt(stops, k), whole);
    if verdict.Failed? {
      ghost var attempt := Attempt(kept, hash, file.incomplete, pinned, verdict.error);
      OneMoreFailure(sha, size, first, server, stops, grants, retries, before, log, attempt);
      longer := log + [attempt];
      final := AfterFailure(verdict.error, retries - k, stops(k, Waiting), grants(k));
    }
  }

  /** The whole single-stream download.
      Against any server it makes at most retries + 1 requests, and the target changes only to content that passes
      every check.  Against an honest server the partial file is a prefix of the object at every exit.  If the answers
      are repairable, only the object itself is ever published, even when the listed size is unknown; and if one of
      the first retries + 1 answers delivers what is missing, it is published. */
  method DownloadStream(file: FileSlot, sha: Bytes -> Hash, size: Option<nat>, hash: Option<Hash>, server: Server,
                        stops: (nat, Moment) -> bool, grants: nat -> bool, retries: nat, ghost whole: Bytes,
                        ghost lucky: nat)
    returns (verdict: Verdict, pinned: Option<Hash>, requests: nat, ghost log: seq<Attempt>)
    modifies file`target, file`incomplete
    ensures requests <= retries + 1 && (hash.Some? ==> pinned == hash)
    ensures requests == |log| + if verdict == Published then 1 else 0
    ensures verdict.Failed? ==> file.target == old(file.target) && verdict.error != RangeIgnored
    ensures verdict.Failed? ==> file.incomplete == LeftBy(old(file.incomplete), log)
    ensures verdict.Failed? ==>
      StreamFails(sha, size, hash, server, stops, grants, retries, old(file.incomplete), log, verdict.error)
    ensures verdict == Published && log != [] ==>
      && FailedPasses(sha, size, hash, server, stops, grants, retries, old(file.incomplete), log)
      && Ruling(log, stops, grants, retries) == None
    ensures verdict == Published ==>
      file.incomplete == None && file.target.Some? && Accepts(sha, file.target.value, size, pinned)
    ensures AlwaysHonest(server, whole) && PartOf(whole, old(file.incomplete)) ==>
      && PartOf(whole, file.incomplete)
      && (verdict == Published ==> file.target.value <= whole)
      && (verdict == Published && size == Some(|whole|) ==> file.target == Some(whole))
    ensures (AlwaysRepairable(server, whole, sha) && PartOf(whole, old(file.incomplete))
             && Matching(whole, sha, size, hash)) ==>
      && (verdict == Published ==> file.target == Some(whole))
      && (lucky <= retries && Undisturbed(server, whole, sha, lucky, stops, grants) ==> verdict == Published)
  {
    pinned, requests, log := hash, 0, [];
    var left := retries;
    ghost var good := AlwaysRepairable(server, whole, sha) && PartOf(whole, file.incomplete)
                      && Matching(whole, sha, size, hash);
    ghost var sure := good && lucky <= retries && Undisturbed(server, whole, sha, lucky, stops, grants);
    ghost var before := file.incomplete;
    while true
      invariant requests + left == retries && (hash.Some? ==> pinned == hash)
      invariant file.target == old(file.target)
      invariant |log| == requests && file.incomplete == LeftBy(before, log) && pinned == PinnedBy(hash, log)
      invariant FailedPasses(sha, size, hash, server, stops, grants, retries, before, log)
      invariant log != [] ==> Ruling(log, stops, grants, retries) == None
      invariant AlwaysHonest(server, whole) && PartOf(whole, before) ==> PartOf(whole, file.incomplete)
      invariant good ==> PartOf(whole, file.incomplete) && Matching(whole, sha, size, pinned)
      invariant sure ==> requests <= lucky
      decreases left
    {
      var final;
      verdict, pinned, final, log := LoggedPass(file, sha, size, pinned, server, stops, grants, retries, requests, hash,
                                                before, log, whole, lucky);
      requests := requests + 1;
      if verdict == Published {
        FullPrefix(whole, file.target.value);
        return;
      }
      if final.Some? {
        return Failed(final.value), pinned, requests, log;
      }
      left := left - 1;
    }
  }
}
