/** Entities shared by the download engine: bytes, files on disk, server answers and error classes. */
module DownloadTypes {
  import opened Options

  newtype Byte = x: int | 0 <= x < 256
  type Bytes = seq<Byte>
  type Hash = string

  /** Error classes the download code tells apart. */
  datatype Error =
    | Stopped                       // cancelled by the caller, or a time budget ran out
    | Denied                        // not found, permission, authentication
    | SizeMismatch
    | HashMismatch
    | RangeIgnored
    | Incomplete                    // the body ended early; the partial file can be resumed or was dropped
    | Transport                     // timeouts, connection failures, broken streams
    | Rejected(retryable: bool)     // any other answer of the Hub with an error status
    | LocalDisk(hopeless: bool)     // an OSError; hopeless when the disk is full or not writable
    | BudgetExhausted               // the recovery budget defers the file to a later run
  {
    predicate IsIntegrity() { SizeMismatch? || HashMismatch? }

    /** Worth another request, as far as the error class goes. */
    predicate IsTransient() { Incomplete? || Transport? || (Rejected? && retryable) || (LocalDisk? && !hopeless) }
  }

  /** What a request can fail with: that a range was ignored is found out by a range worker only. */
  type RequestError = e: Error | !e.RangeIgnored? witness Transport

  datatype Verdict = Published | Failed(error: Error)

  /** The Content-Range field of an answer (RFC 9110 section 14.4): absent, unreadable, or read as numbers. */
  datatype RangeField = Absent | Unreadable | Field(first: nat, last: nat, total: Option<nat>)

  datatype ContentRange = ContentRange(first: nat, last: nat, total: Option<nat>)

  /** Bytes first to last of an object of n bytes, as section 14.4 of RFC 9110 wants the field to be read. */
  predicate DescribesPart(first: nat, last: nat, total: Option<nat>, n: nat) {
    first <= last < n && (total.Some? ==> total.value == n)
  }

  /** A field is used exactly when it can describe a part of some object, and then as it stands. */
  function ParseContentRange(field: RangeField): (r: Option<ContentRange>)
    ensures r.Some? <==> field.Field? && exists n :: DescribesPart(field.first, field.last, field.total, n)
    ensures r.Some? ==> r.value == ContentRange(field.first, field.last, field.total)
  {
    assert field.Field? && field.first <= field.last && (field.total.Some? ==> field.last < field.total.value) ==>
      DescribesPart(field.first, field.last, field.total,
                    if field.total.Some? then field.total.value else field.last + 1);
    if !field.Field? || field.last < field.first || (field.total.Some? && field.last >= field.total.value) then None
    else Some(ContentRange(field.first, field.last, field.total))
  }

  datatype Ending = Clean | Broken(error: RequestError)

  /** What one request earns: an error, a 416 (RFC 9110 section 15.5.17), or a response whose body arrives in
      chunks and ends cleanly or breaks off. */
  datatype Reply =
    | Refused(error: RequestError)
    | Unsatisfiable
    | Response(partial: bool, field: RangeField, length: Option<nat>, linked: Option<Hash>, chunks: seq<Bytes>,
               ending: Ending)

  function Joined(chunks: seq<Bytes>): Bytes {
    if chunks == [] then [] else Joined(chunks[..|chunks| - 1]) + chunks[|chunks| - 1]
  }

  lemma {:induction false} JoinedPrefix(chunks: seq<Bytes>, n: nat)
    requires n <= |chunks|
    ensures Joined(chunks[..n]) <= Joined(chunks)
  {
    if n == |chunks| {
      assert chunks[..n] == chunks;
    } else {
      JoinedPrefix(chunks[..|chunks| - 1], n);
      assert chunks[..|chunks| - 1][..n] == chunks[..n];
    }
  }

  /** The checks a finished file has to pass: the listed size and the known digest, each when supplied. */
  predicate Accepts(sha: Bytes -> Hash, content: Bytes, size: Option<nat>, hash: Option<Hash>) {
    && (size.Some? ==> |content| == size.value)
    && (hash.Some? ==> sha(content) == hash.value)
  }

  /** The files one download owns: the target, its `.incomplete` companion, the part files of a ranged download in
      the order of their ranges, and the `.parallel_tmp` file they are merged into. */
  class FileSlot {
    var target: Option<Bytes>
    var incomplete: Option<Bytes>
    var parts: seq<Option<Bytes>>
    var merging: Option<Bytes>

    constructor (target: Option<Bytes>, incomplete: Option<Bytes>, parts: seq<Option<Bytes>>)
      ensures this.target == target && this.incomplete == incomplete && this.parts == parts && this.merging == None
    {
      this.target, this.incomplete, this.parts, this.merging := target, incomplete, parts, None;
    }
  }
}
