/** Uploading a file in parts: the stored list of parts, the size counter and the moment at
    which the upload is finished. */
module UploadService {
  import opened WorkflowTypes

  datatype PartStatus = Uploading | Completed | Failed

  datatype Part = Part(partNumber: int, status: PartStatus, partSize: nat, etag: Option<string>)

  datatype Upload = Upload(parts: seq<Part>, uploadedSize: nat, expectedSize: nat, s3UploadId: Option<string>)

  // The stored updates.  Sending a part is Begin and later, in any interleaving with other
  // sends, Complete or Fail.
  datatype UploadOp =
    | Begin(partNumber: int, size: nat)
    | Complete(partNumber: int, size: nat, etag: string)
    | Fail(partNumber: int)

  /** A positional update reaches the first entry with the part number. */
  function FirstPart(parts: seq<Part>, partNumber: int): (k: nat)
    ensures k <= |parts|
    ensures k < |parts| ==> parts[k].partNumber == partNumber
    ensures forall j :: 0 <= j < k ==> parts[j].partNumber != partNumber
  {
    if parts == [] || parts[0].partNumber == partNumber then 0 else 1 + FirstPart(parts[1..], partNumber)
  }

  function Apply(u: Upload, op: UploadOp): Upload {
    match op
    case Begin(n, size) => u.(parts := u.parts + [Part(n, Uploading, size, None)])
    case Complete(n, size, etag) =>
      var k := FirstPart(u.parts, n);
      if k == |u.parts| then u
      else u.(parts := u.parts[k := Part(n, Completed, size, Some(etag))], uploadedSize := u.uploadedSize + size)
    case Fail(n) =>
      var k := FirstPart(u.parts, n);
      if k == |u.parts| then u else u.(parts := u.parts[k := u.parts[k].(status := PartStatus.Failed)])
  }

  function Run(u: Upload, ops: seq<UploadOp>): Upload
    decreases ops
  {
    if ops == [] then u else Run(Apply(u, ops[0]), ops[1..])
  }

  /** The bytes of the entries that are stored as completed. */
  function CompletedSize(parts: seq<Part>): nat {
    if parts == [] then 0 else CompletedSize(parts[..|parts| - 1]) + Counted(parts[|parts| - 1])
  }

  function Counted(p: Part): nat {
    if p.status == Completed then p.partSize else 0
  }

  // ---------------------------------------------------------------- the service

  /** The stored upload, and how often it was finished. */
  class UploadStore {
    var upload: Upload
    var finished: nat

    constructor (expectedSize: nat)
      ensures upload == Upload([], 0, expectedSize, None) && finished == 0
    {
      upload := Upload([], 0, expectedSize, None);
      finished := 0;
    }

    method AddPartToUpload(partNumber: int, size: nat)
      modifies this`upload
      ensures upload == Apply(old(upload), Begin(partNumber, size))
    {
      upload := upload.(parts := upload.parts + [Part(partNumber, Uploading, size, None)]);
    }

    method SetUploadPartFailed(partNumber: int)
      modifies this`upload
      ensures upload == Apply(old(upload), Fail(partNumber))
    {
      var k := FirstPart(upload.parts, partNumber);
      if k < |upload.parts| {
        upload := upload.(parts := upload.parts[k := upload.parts[k].(status := PartStatus.Failed)]);
      }
    }

    method SetUploadPartCompletedAndUpdateSize(partNumber: int, size: nat, etag: string)
      modifies this`upload
      ensures upload == Apply(old(upload), Complete(partNumber, size, etag))
    {
      var k := FirstPart(upload.parts, partNumber);
      if k < |upload.parts| {
        upload := upload.(parts := upload.parts[k := Part(partNumber, Completed, size, Some(etag))],
                          uploadedSize := upload.uploadedSize + size);
      }
    }

    /** Sends one part.  `started` is the id of a newly started multipart upload, and `stored`
        the etag that the storage returns, if it takes the part. */
    method AddFilePart(partNumber: int, size: nat, started: string, stored: Option<string>) returns (ok: bool)
      modifies this
      ensures ok <==> stored.Some?
      ensures upload.s3UploadId.Some? && (old(upload).s3UploadId.Some? ==> upload.s3UploadId == old(upload).s3UploadId)
      ensures var sent := Apply(old(upload).(s3UploadId := upload.s3UploadId), Begin(partNumber, size));
              && upload == Apply(sent, if ok then Complete(partNumber, size, stored.value) else Fail(partNumber))
              && finished == old(finished) +
                             if ok && Finishes(sent, Complete(partNumber, size, stored.value)) then 1 else 0
    {
      if upload.s3UploadId.None? {
        upload := upload.(s3UploadId := Some(started));
      }
      AddPartToUpload(partNumber, size);
      assert upload.parts[|upload.parts| - 1].partNumber == partNumber;
      if stored.None? {
        SetUploadPartFailed(partNumber);
        return false;
      }
      SetUploadPartCompletedAndUpdateSize(partNumber, size, stored.value);
      if upload.uploadedSize == upload.expectedSize {
        finished := finished + 1;
      }
      return true;
    }
  }

  /** The update brings the counter to the expected size, so that the upload is finished. */
  predicate Finishes(u: Upload, op: UploadOp) {
    op.Complete? && FirstPart(u.parts, op.partNumber) < |u.parts| && u.uploadedSize + op.size == u.expectedSize
  }

  // ---------------------------------------------------------------- accounting

  ghost predicate Accounted(u: Upload) {
    u.uploadedSize == CompletedSize(u.parts)
  }

  /** The update does not touch an entry that is completed with bytes in it. */
  predicate Spares(u: Upload, op: UploadOp) {
    match op
    case Begin(_, _) => true
    case Complete(n, _, _) => FirstPart(u.parts, n) < |u.parts| ==> Counted(u.parts[FirstPart(u.parts, n)]) == 0
    case Fail(n) => FirstPart(u.parts, n) < |u.parts| ==> Counted(u.parts[FirstPart(u.parts, n)]) == 0
  }

  lemma {:induction false} UpdatedSize(parts: seq<Part>, k: nat, p: Part)
    requires k < |parts|
    ensures CompletedSize(parts[k := p]) == CompletedSize(parts) - Counted(parts[k]) + Counted(p)
  {
    var last := |parts| - 1;
    if k == last {
      assert parts[k := p][..last] == parts[..last];
    } else {
      assert parts[k := p][..last] == parts[..last][k := p];
      UpdatedSize(parts[..last], k, p);
    }
  }

  /** By how much the counter exceeds the completed entries. */
  function Surplus(u: Upload): int {
    u.uploadedSize - CompletedSize(u.parts)
  }

  /** An update never lowers the surplus, and raises it exactly if it touches an entry that is
      completed with bytes in it. */
  lemma SurplusGrows(u: Upload, op: UploadOp)
    ensures Surplus(Apply(u, op)) >= Surplus(u)
    ensures Surplus(Apply(u, op)) == Surplus(u) <==> Spares(u, op)
  {
    match op
    case Begin(n, size) =>
      assert Apply(u, op).parts[..|u.parts|] == u.parts;
    case Complete(n, size, etag) =>
      var k := FirstPart(u.parts, n);
      if k < |u.parts| { UpdatedSize(u.parts, k, Part(n, Completed, size, Some(etag))); }
    case Fail(n) =>
      var k := FirstPart(u.parts, n);
      if k < |u.parts| { UpdatedSize(u.parts, k, u.parts[k].(status := PartStatus.Failed)); }
  }

  /** The counter goes on matching the completed entries exactly as long as updates spare
      entries that are already completed. */
  lemma ExactAccounting(u: Upload, op: UploadOp)
    requires Accounted(u)
    ensures Accounted(Apply(u, op)) <==> Spares(u, op)
  {
    SurplusGrows(u, op);
  }

  /** No update of the run touches an entry that is completed with bytes in it. */
  predicate SparesAll(u: Upload, ops: seq<UploadOp>)
    decreases ops
  {
    ops == [] || (Spares(u, ops[0]) && SparesAll(Apply(u, ops[0]), ops[1..]))
  }

  lemma {:induction false} SurplusOfRun(u: Upload, ops: seq<UploadOp>)
    ensures Surplus(Run(u, ops)) >= Surplus(u)
    ensures Surplus(Run(u, ops)) == Surplus(u) <==> SparesAll(u, ops)
    decreases ops
  {
    if ops != [] {
      SurplusGrows(u, ops[0]);
      SurplusOfRun(Apply(u, ops[0]), ops[1..]);
    }
  }

  /** After any interleaving of sends the counter of a new upload is the size of the completed
      entries exactly if no update touched a completed entry; a miscount is never made good. */
  lemma ExactRun(expectedSize: nat, ops: seq<UploadOp>)
    ensures Accounted(Run(Upload([], 0, expectedSize, None), ops)) <==>
              SparesAll(Upload([], 0, expectedSize, None), ops)
  {
    SurplusOfRun(Upload([], 0, expectedSize, None), ops);
  }

  /** No result is reported for a part that was completed before. */
  predicate NothingResent(ops: seq<UploadOp>, done: set<int>)
    decreases ops
  {
    ops == [] ||
    match ops[0]
    case Begin(_, _) => NothingResent(ops[1..], done)
    case Complete(n, _, _) => n !in done && NothingResent(ops[1..], done + {n})
    case Fail(n) => n !in done && NothingResent(ops[1..], done)
  }

  ghost predicate DoneAre(u: Upload, done: set<int>) {
    forall p :: p in u.parts && p.status == Completed ==> p.partNumber in done
  }

  /** Over any run of interleaved sends, failures and retries in which no part is sent again
      after it completed, the counter is the size of the completed entries, however many
      entries a part has. */
  lemma {:induction false} RunAccounted(u: Upload, ops: seq<UploadOp>, done: set<int>)
    requires Accounted(u) && DoneAre(u, done) && NothingResent(ops, done)
    ensures Accounted(Run(u, ops))
    decreases ops
  {
    if ops != [] {
      var next := if ops[0].Complete? then done + {ops[0].partNumber} else done;
      SurplusGrows(u, ops[0]);
      RunAccounted(Apply(u, ops[0]), ops[1..], next);
    }
  }

  lemma NewUploadAccounted(expectedSize: nat, ops: seq<UploadOp>)
    requires NothingResent(ops, {})
    ensures Accounted(Run(Upload([], 0, expectedSize, None), ops))
  {
    RunAccounted(Upload([], 0, expectedSize, None), ops, {});
  }

  // ---------------------------------------------------------------- finishing

  function Finished(u: Upload, ops: seq<UploadOp>): nat
    decreases ops
  {
    if ops == [] then 0 else (if Finishes(u, ops[0]) then 1 else 0) + Finished(Apply(u, ops[0]), ops[1..])
  }

  predicate NoEmptyParts(ops: seq<UploadOp>) {
    forall op :: op in ops && op.Complete? ==> op.size > 0
  }

  /** With non-empty parts an upload is finished at most once, and never from a counter that
      has reached the expected size, whatever is sent again. */
  lemma {:induction false} FinishedOnce(u: Upload, ops: seq<UploadOp>)
    requires NoEmptyParts(ops)
    ensures Finished(u, ops) <= if u.uploadedSize < u.expectedSize then 1 else 0
    decreases ops
  {
    if ops != [] {
      assert ops[0] in ops;
      FinishedOnce(Apply(u, ops[0]), ops[1..]);
    }
  }

  /** A finished upload is finished again exactly by completing an empty part. */
  lemma FinishedAgain(u: Upload, op: UploadOp)
    requires u.uploadedSize == u.expectedSize
    ensures Finishes(u, op) <==> op.Complete? && op.size == 0 && FirstPart(u.parts, op.partNumber) < |u.parts|
  {}

  /** When a run without resent parts finishes the upload, the completed entries hold exactly
      the expected bytes. */
  lemma FinishedIsWhole(expectedSize: nat, ops: seq<UploadOp>, op: UploadOp)
    requires NothingResent(ops + [op], {})
    requires Finishes(Run(Upload([], 0, expectedSize, None), ops), op)
    ensures CompletedSize(Run(Upload([], 0, expectedSize, None), ops + [op]).parts) == expectedSize
  {
    var fresh' := Upload([], 0, expectedSize, None);
    NewUploadAccounted(expectedSize, ops + [op]);
    RunAppend(fresh', ops, op);
    KeepsExpected(fresh', ops);
  }

  lemma {:induction false} RunAppend(u: Upload, ops: seq<UploadOp>, op: UploadOp)
    ensures Run(u, ops + [op]) == Apply(Run(u, ops), op)
    decreases ops
  {
    if ops != [] {
      assert (ops + [op])[1..] == ops[1..] + [op];
      RunAppend(Apply(u, ops[0]), ops[1..], op);
    }
  }

  lemma {:induction false} KeepsExpected(u: Upload, ops: seq<UploadOp>)
    ensures Run(u, ops).expectedSize == u.expectedSize
    decreases ops
  {
    if ops != [] { KeepsExpected(Apply(u, ops[0]), ops[1..]); }
  }
}
