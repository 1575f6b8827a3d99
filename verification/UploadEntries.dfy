/** What the stored list of parts says after any interleaving of sends, entry by entry. */
module UploadEntries {
  import opened WorkflowTypes
  import opened UploadService

  /** The number of sends that were begun. */
  function Begun(ops: seq<UploadOp>): (n: nat)
    ensures n <= |ops|
  {
    if ops == [] then 0 else Begun(ops[..|ops| - 1]) + if ops[|ops| - 1].Begin? then 1 else 0
  }

  /** The entries of a new upload after the updates. */
  function Entries(expectedSize: nat, ops: seq<UploadOp>): seq<Part> {
    Run(Upload([], 0, expectedSize, None), ops).parts
  }

  predicate Reports(op: UploadOp, partNumber: int) {
    !op.Begin? && op.partNumber == partNumber
  }

  predicate Completes(op: UploadOp, partNumber: int) {
    op.Complete? && op.partNumber == partNumber
  }

  /** Send `i` is the first one of its part number. */
  ghost predicate BeginsFirst(ops: seq<UploadOp>, i: nat) {
    && i < |ops| && ops[i].Begin?
    && forall j :: 0 <= j < i && ops[j].Begin? ==> ops[j].partNumber != ops[i].partNumber
  }

  /** Update `j` is the last report on send `i`. */
  ghost predicate LastReport(ops: seq<UploadOp>, i: nat, j: nat) {
    && i < j < |ops| && Reports(ops[j], ops[i].partNumber)
    && forall m :: j < m < |ops| ==> !Reports(ops[m], ops[i].partNumber)
  }

  ghost predicate NoReport(ops: seq<UploadOp>, i: nat) {
    i < |ops| && forall m :: i < m < |ops| ==> !Reports(ops[m], ops[i].partNumber)
  }

  /** Update `j` is the last report of a success of send `i`. */
  ghost predicate LastCompletion(ops: seq<UploadOp>, i: nat, j: nat) {
    && i < j < |ops| && Completes(ops[j], ops[i].partNumber)
    && forall m :: j < m < |ops| ==> !Completes(ops[m], ops[i].partNumber)
  }

  ghost predicate NoCompletion(ops: seq<UploadOp>, i: nat) {
    i < |ops| && forall m :: i < m < |ops| ==> !Completes(ops[m], ops[i].partNumber)
  }

  /** The status of an entry tells the last report on its send. */
  ghost predicate TellsStatus(status: PartStatus, ops: seq<UploadOp>, i: nat) {
    && (NoReport(ops, i) ==> status == Uploading)
    && (forall j: nat :: LastReport(ops, i, j) ==>
          status == if ops[j].Complete? then PartStatus.Completed else PartStatus.Failed)
  }

  /** The size and the etag tell the last success, even if a failure was reported later. */
  ghost predicate TellsContent(size: nat, etag: Option<string>, ops: seq<UploadOp>, i: nat) {
    && (NoCompletion(ops, i) ==> ops[i].Begin? && size == ops[i].size && etag == None)
    && (forall j: nat :: LastCompletion(ops, i, j) ==> size == ops[j].size && etag == Some(ops[j].etag))
  }

  ghost predicate Tells(p: Part, ops: seq<UploadOp>, i: nat) {
    && i < |ops| && ops[i].Begin? && p.partNumber == ops[i].partNumber
    && TellsStatus(p.status, ops, i) && TellsContent(p.partSize, p.etag, ops, i)
  }

  // ---------------------------------------------------------------- one more update

  /** What a report makes of the entry that it reaches. */
  function Reported(p: Part, op: UploadOp): Part {
    match op
    case Begin(_, _) => p
    case Complete(n, size, etag) => if n == p.partNumber then Part(n, Completed, size, Some(etag)) else p
    case Fail(n) => if n == p.partNumber then p.(status := PartStatus.Failed) else p
  }

  lemma NextStatus(p: Part, ops: seq<UploadOp>, i: nat, op: UploadOp, more: seq<UploadOp>)
    requires i < |ops| && p.partNumber == ops[i].partNumber && more == ops + [op]
    requires TellsStatus(p.status, ops, i)
    ensures TellsStatus(Reported(p, op).status, more, i)
  {
    assert more[|ops|] == op;
    forall j: nat | LastReport(more, i, j)
      ensures Reported(p, op).status == if more[j].Complete? then PartStatus.Completed else PartStatus.Failed
    {
      if j < |ops| {
        assert !Reports(more[|ops|], ops[i].partNumber);
        EarlierReport(ops, i, j, more);
      }
    }
    if NoReport(more, i) {
      assert !Reports(more[|ops|], ops[i].partNumber);
      EarlierNone(ops, i, more);
    }
  }

  lemma EarlierReport(ops: seq<UploadOp>, i: nat, j: nat, more: seq<UploadOp>)
    requires i < j < |ops| <= |more| && more[..|ops|] == ops && LastReport(more, i, j)
    ensures LastReport(ops, i, j)
  {
    forall m | j < m < |ops| ensures !Reports(ops[m], ops[i].partNumber) { assert ops[m] == more[m]; }
  }

  lemma EarlierNone(ops: seq<UploadOp>, i: nat, more: seq<UploadOp>)
    requires i < |ops| <= |more| && more[..|ops|] == ops && NoReport(more, i)
    ensures NoReport(ops, i)
  {
    forall m | i < m < |ops| ensures !Reports(ops[m], ops[i].partNumber) { assert ops[m] == more[m]; }
  }

  lemma NextContent(p: Part, ops: seq<UploadOp>, i: nat, op: UploadOp, more: seq<UploadOp>)
    requires i < |ops| && p.partNumber == ops[i].partNumber && more == ops + [op]
    requires TellsContent(p.partSize, p.etag, ops, i)
    ensures TellsContent(Reported(p, op).partSize, Reported(p, op).etag, more, i)
  {
    assert more[|ops|] == op;
    forall j: nat | LastCompletion(more, i, j)
      ensures Reported(p, op).partSize == more[j].size && Reported(p, op).etag == Some(more[j].etag)
    {
      if j < |ops| {
        assert !Completes(more[|ops|], ops[i].partNumber);
        EarlierCompletion(ops, i, j, more);
      }
    }
    if NoCompletion(more, i) {
      assert !Completes(more[|ops|], ops[i].partNumber);
      NoneEarlier(ops, i, more);
    }
  }

  lemma EarlierCompletion(ops: seq<UploadOp>, i: nat, j: nat, more: seq<UploadOp>)
    requires i < j < |ops| <= |more| && more[..|ops|] == ops && LastCompletion(more, i, j)
    ensures LastCompletion(ops, i, j)
  {
    forall m | j < m < |ops| ensures !Completes(ops[m], ops[i].partNumber) { assert ops[m] == more[m]; }
  }

  lemma NoneEarlier(ops: seq<UploadOp>, i: nat, more: seq<UploadOp>)
    requires i < |ops| <= |more| && more[..|ops|] == ops && NoCompletion(more, i)
    ensures NoCompletion(ops, i)
  {
    forall m | i < m < |ops| ensures !Completes(ops[m], ops[i].partNumber) { assert ops[m] == more[m]; }
  }

  lemma NextTells(p: Part, ops: seq<UploadOp>, i: nat, op: UploadOp)
    requires Tells(p, ops, i)
    ensures Tells(Reported(p, op), ops + [op], i)
  {
    NextStatus(p, ops, i, op, ops + [op]);
    NextContent(p, ops, i, op, ops + [op]);
  }

  lemma NewTells(ops: seq<UploadOp>, op: UploadOp)
    requires op.Begin?
    ensures Tells(Part(op.partNumber, Uploading, op.size, None), ops + [op], |ops|)
  {}

  lemma OneEntryMore(u: Upload, op: UploadOp)
    ensures |Apply(u, op).parts| == |u.parts| + if op.Begin? then 1 else 0
    ensures forall k :: 0 <= k < |u.parts| ==> Apply(u, op).parts[k].partNumber == u.parts[k].partNumber
    ensures op.Begin? ==> Apply(u, op).parts[|u.parts|] == Part(op.partNumber, Uploading, op.size, None)
  {}

  /** A report reaches the first entry of its part number and no other. */
  lemma ReportReaches(u: Upload, op: UploadOp, k: nat)
    requires k < |u.parts|
    ensures Apply(u, op).parts[k] ==
            if FirstPart(u.parts, u.parts[k].partNumber) == k then Reported(u.parts[k], op) else u.parts[k]
    ensures (FirstPart(Apply(u, op).parts, u.parts[k].partNumber) == k) <==>
              (FirstPart(u.parts, u.parts[k].partNumber) == k)
  {
    OneEntryMore(u, op);
    var n := u.parts[k].partNumber;
    var f, g := FirstPart(u.parts, n), FirstPart(Apply(u, op).parts, n);
    assert f <= k && g <= k;
  }

  // ---------------------------------------------------------------- all updates

  lemma Snoc(expectedSize: nat, ops: seq<UploadOp>, before: seq<UploadOp>)
    requires ops != [] && before == ops[..|ops| - 1]
    ensures Run(Upload([], 0, expectedSize, None), ops) ==
            Apply(Run(Upload([], 0, expectedSize, None), before), ops[|ops| - 1])
  {
    assert ops == before + [ops[|ops| - 1]];
    RunAppend(Upload([], 0, expectedSize, None), before, ops[|ops| - 1]);
  }

  /** There is one entry for each send that was begun. */
  lemma {:induction false} EntryPerSend(expectedSize: nat, ops: seq<UploadOp>)
    ensures |Entries(expectedSize, ops)| == Begun(ops)
  {
    if ops != [] {
      var before := ops[..|ops| - 1];
      EntryPerSend(expectedSize, before);
      Snoc(expectedSize, ops, before);
      OneEntryMore(Run(Upload([], 0, expectedSize, None), before), ops[|ops| - 1]);
    }
  }

  /** Send number `k` is update `i`. */
  ghost predicate IsSend(ops: seq<UploadOp>, i: nat, k: nat) {
    i < |ops| && ops[i].Begin? && Begun(ops[..i]) == k
  }

  /** Every entry was begun by a send. */
  lemma {:induction false} SendOfEntry(expectedSize: nat, ops: seq<UploadOp>, k: nat) returns (i: nat)
    requires k < |Entries(expectedSize, ops)|
    ensures IsSend(ops, i, k) && Entries(expectedSize, ops)[k].partNumber == ops[i].partNumber
  {
    EntryPerSend(expectedSize, ops);
    var before, last := ops[..|ops| - 1], |ops| - 1;
    Snoc(expectedSize, ops, before);
    EntryPerSend(expectedSize, before);
    OneEntryMore(Run(Upload([], 0, expectedSize, None), before), ops[last]);
    if k < |Entries(expectedSize, before)| {
      i := SendOfEntry(expectedSize, before, k);
      assert before[..i] == ops[..i];
    } else {
      i := last;
    }
  }

  /** The entry of send `i`: the first entry of a part number tells the reports on it, and
      every later one stays as it was begun. */
  ghost predicate EntryTells(parts: seq<Part>, k: nat, ops: seq<UploadOp>, i: nat) {
    && i < |ops| && ops[i].Begin? && k < |parts| && parts[k].partNumber == ops[i].partNumber
    && (FirstPart(parts, ops[i].partNumber) == k <==> BeginsFirst(ops, i))
    && (BeginsFirst(ops, i) ==> Tells(parts[k], ops, i))
    && (!BeginsFirst(ops, i) ==> parts[k] == Part(ops[i].partNumber, Uploading, ops[i].size, None))
  }

  lemma EntryStays(u: Upload, op: UploadOp, k: nat, ops: seq<UploadOp>, i: nat)
    requires EntryTells(u.parts, k, ops, i)
    ensures EntryTells(Apply(u, op).parts, k, ops + [op], i)
  {
    ReportReaches(u, op, k);
    OneEntryMore(u, op);
    SameFirst(ops, i, op);
    if BeginsFirst(ops, i) { NextTells(u.parts[k], ops, i, op); }
  }

  lemma SameFirst(ops: seq<UploadOp>, i: nat, op: UploadOp)
    requires i < |ops|
    ensures BeginsFirst(ops + [op], i) <==> BeginsFirst(ops, i)
  {
    var more := ops + [op];
    assert forall j :: 0 <= j <= i ==> more[j] == ops[j];
  }

  lemma NewEntry(expectedSize: nat, before: seq<UploadOp>, op: UploadOp)
    requires op.Begin?
    requires forall j :: 0 <= j < |before| && before[j].Begin? ==>
                           EntryTells(Entries(expectedSize, before), Begun(before[..j]), before, j)
    ensures EntryTells(Entries(expectedSize, before + [op]), Begun(before), before + [op], |before|)
  {
    var ops, i, n := before + [op], |before|, op.partNumber;
    var parts, k := Entries(expectedSize, before), Begun(before);
    RunAppend(Upload([], 0, expectedSize, None), before, op);
    EntryPerSend(expectedSize, before);
    OneEntryMore(Run(Upload([], 0, expectedSize, None), before), op);
    NewTells(before, op);
    var f := FirstPart(Entries(expectedSize, ops), n);
    FirstAtMost(Entries(expectedSize, ops), k);
    if f < k {
      var j := SendOfEntry(expectedSize, before, f);
      assert ops[j] == before[j];
    }
    forall j | 0 <= j < i && ops[j].Begin? && ops[j].partNumber == n
      ensures f < k
    {
      assert before[j] == ops[j];
      FirstAtMost(Entries(expectedSize, ops), Begun(before[..j]));
    }
  }

  lemma FirstAtMost(parts: seq<Part>, k: nat)
    requires k < |parts|
    ensures FirstPart(parts, parts[k].partNumber) <= k
  {}

  /** After any interleaving of sends, failures and retries from a new upload, the list has the
      entries of the sends in their order, and each says what was reported on it. */
  lemma {:induction false} EntryOfSend(expectedSize: nat, ops: seq<UploadOp>, i: nat)
    requires i < |ops| && ops[i].Begin?
    ensures EntryTells(Entries(expectedSize, ops), Begun(ops[..i]), ops, i)
  {
    var before, op := ops[..|ops| - 1], ops[|ops| - 1];
    assert ops == before + [op];
    assert forall j :: 0 <= j <= |before| ==> ops[..j] == before[..j];
    if i < |before| {
      EntryOfSend(expectedSize, before, i);
      Snoc(expectedSize, ops, before);
      EntryStays(Run(Upload([], 0, expectedSize, None), before), op, Begun(before[..i]), before, i);
    } else {
      forall j | 0 <= j < |before| && before[j].Begin?
        ensures EntryTells(Entries(expectedSize, before), Begun(before[..j]), before, j)
      {
        EntryOfSend(expectedSize, before, j);
      }
      assert before[..i] == before;
      NewEntry(expectedSize, before, op);
    }
  }

  // ---------------------------------------------------------------- the counter

  ghost predicate WasBegun(ops: seq<UploadOp>, partNumber: int) {
    exists i :: 0 <= i < |ops| && ops[i].Begin? && ops[i].partNumber == partNumber
  }

  /** The bytes of all successes of parts that were begun before, a part that succeeded twice
      counted twice. */
  ghost function Received(ops: seq<UploadOp>): nat {
    if ops == [] then 0
    else
      var before, op := ops[..|ops| - 1], ops[|ops| - 1];
      Received(before) + if op.Complete? && WasBegun(before, op.partNumber) then op.size else 0
  }

  lemma HasEntry(expectedSize: nat, ops: seq<UploadOp>, partNumber: int)
    ensures FirstPart(Entries(expectedSize, ops), partNumber) < |Entries(expectedSize, ops)| <==>
              WasBegun(ops, partNumber)
  {
    var parts := Entries(expectedSize, ops);
    if FirstPart(parts, partNumber) < |parts| {
      var i := SendOfEntry(expectedSize, ops, FirstPart(parts, partNumber));
    }
    forall i | 0 <= i < |ops| && ops[i].Begin? && ops[i].partNumber == partNumber
      ensures FirstPart(parts, partNumber) < |parts|
    {
      EntryOfSend(expectedSize, ops, i);
      FirstAtMost(parts, Begun(ops[..i]));
    }
  }

  /** The counter of a new upload counts every success. */
  lemma {:induction false} CountsReceived(expectedSize: nat, ops: seq<UploadOp>)
    ensures Run(Upload([], 0, expectedSize, None), ops).uploadedSize == Received(ops)
  {
    if ops != [] {
      var before, op := ops[..|ops| - 1], ops[|ops| - 1];
      CountsReceived(expectedSize, before);
      Snoc(expectedSize, ops, before);
      HasEntry(expectedSize, before, op.partNumber);
    }
  }
}
