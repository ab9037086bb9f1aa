/** The services' operations on the stored import batches. */
module ImportService {
  import opened Wrappers
  import opened ImportBatches
  import opened Folds

  datatype ImportError = NotFound | NotAccrual | NotFailed | AlreadyCompleted

  class ImportStore {
    const names: Names
    var batches: seq<Batch>

    constructor (names: Names)
      ensures batches == [] && this.names == names
    {
      this.names := names;
      batches := [];
    }

    method FindByFileHash(hash: string) returns (r: Option<nat>)
      ensures r == ImportBatches.FindByFileHash(batches, hash)
    {
      for i := 0 to |batches|
        invariant ImportBatches.FindByFileHash(batches, hash) == FindFrom(batches, hash, i)
      {
        if batches[i].fileHash == hash {
          return Some(i);
        }
      }
      return None;
    }

    /** Says whether the file is a duplicate; if its last import failed, its hash is free afterwards. */
    method HandleDuplicateFileHash(content: string) returns (fileHash: string, duplicate: Option<nat>)
      modifies this`batches
      ensures fileHash == Raw(names, content)
      ensures duplicate.Some? <==> IsDuplicateFile(names, old(batches), content)
      ensures duplicate.Some? ==>
        duplicate.value < |old(batches)| && old(batches)[duplicate.value].fileHash == fileHash && batches == old(batches)
      ensures duplicate.None? ==> batches == FreeHash(names, old(batches), content)
    {
      fileHash := names.sha(content);
      var existing := FindByFileHash(fileHash);
      if existing.Some? && batches[existing.value].status != Failed {
        return fileHash, existing;
      }
      if existing.Some? && batches[existing.value].status == Failed {
        var b := existing.value;
        batches := batches[b := batches[b].(fileHash := fileHash + MARK + names.idText(b))];
      }
      duplicate := None;
    }

    /** The part of every import before its rows are processed. */
    method StartImport(content: string, accrual: bool, readable: bool) returns (batch: Option<nat>)
      modifies this`batches
      ensures batches == Started(names, old(batches), content, accrual, readable)
      ensures batch.Some? <==> !IsDuplicateFile(names, old(batches), content) && GetsBatch(accrual, readable)
      ensures batch.Some? ==> batch.value == |old(batches)| < |batches|
    {
      var fileHash, duplicate := HandleDuplicateFileHash(content);
      if duplicate.Some? || (accrual && !readable) {
        return None;
      }
      batch := Some(|batches|);
      batches := batches + [Batch(accrual, content, fileHash, Processing, true)];
    }

    /** The last write of an import. */
    method FinishImport(b: nat, ok: bool)
      requires b < |batches| && batches[b].running
      modifies this`batches
      ensures batches == Finished(old(batches), b, ok)
    {
      batches := batches[b := batches[b].(status := if ok then Completed else Failed, running := false)];
    }

    method MarkBatchFailed(b: nat)
      requires b < |batches|
      modifies this`batches
      ensures batches == old(batches)[b := old(batches)[b].(status := Failed)]
    {
      batches := batches[b := batches[b].(status := Failed)];
    }

    method FailAccrualBatch(b: nat) returns (r: Result<nat, ImportError>)
      modifies this`batches
      ensures batches == FailAccrual(old(batches), b)
      ensures r == if b >= |old(batches)| then Err(NotFound)
                   else if !old(batches)[b].accrual then Err(NotAccrual)
                   else if old(batches)[b].status == Completed then Err(AlreadyCompleted)
                   else Ok(b)
      ensures r.Ok? ==> b < |batches| && batches[b].status == Failed
    {
      if b >= |batches| {
        return Err(NotFound);
      }
      if !batches[b].accrual {
        return Err(NotAccrual);
      }
      if batches[b].status == Failed {
        return Ok(b);
      }
      if batches[b].status == Completed {
        return Err(AlreadyCompleted);
      }
      MarkBatchFailed(b);
      r := Ok(b);
    }

    method SupersedeFailedBatchHash(b: nat) returns (r: Result<nat, ImportError>)
      modifies this`batches
      ensures batches == Retried(names, old(batches), b)
      ensures r == if b >= |old(batches)| then Err(NotFound)
                   else if !old(batches)[b].accrual then Err(NotAccrual)
                   else if old(batches)[b].status != Failed then Err(NotFailed)
                   else Ok(b)
    {
      if b >= |batches| {
        return Err(NotFound);
      }
      if !batches[b].accrual {
        return Err(NotAccrual);
      }
      if batches[b].status != Failed {
        return Err(NotFailed);
      }
      var rawHash := BeforeMark(batches[b].fileHash);
      batches := batches[b := batches[b].(fileHash := rawHash + MARK + names.idText(b))];
      r := Ok(b);
    }

    /** `stale`: the processing batches that the query returned, in its order. */
    method RunImportWatchdog(stale: seq<nat>) returns (failed: nat)
      requires forall k :: 0 <= k < |stale| ==> stale[k] < |batches| && batches[stale[k]].status == Processing
      requires forall k, m :: 0 <= k < m < |stale| ==> stale[k] != stale[m]
      modifies this`batches
      ensures |batches| == |old(batches)|
      ensures forall b :: 0 <= b < |batches| ==>
        batches[b] == if b in stale && old(batches)[b].accrual then old(batches)[b].(status := Failed) else old(batches)[b]
      ensures failed == Count(stale, AccrualIn(old(batches)))
    {
      failed := 0;
      for i := 0 to |stale|
        invariant |batches| == |old(batches)| && failed == Count(stale[..i], AccrualIn(old(batches)))
        invariant forall b :: 0 <= b < |batches| ==>
          batches[b] == if b in stale[..i] && old(batches)[b].accrual then old(batches)[b].(status := Failed) else old(batches)[b]
      {
        var b := stale[i];
        assert b !in stale[..i];
        CountNext(stale, i, AccrualIn(old(batches)));
        if batches[b].accrual {
          MarkBatchFailed(b);
          failed := failed + 1;
        }
        assert stale[..i + 1] == stale[..i] + [b];
      }
      assert stale[..|stale|] == stale;
    }
  }

  function AccrualIn(batches: seq<Batch>): nat -> bool {
    (b: nat) => b < |batches| && batches[b].accrual
  }

  lemma CountNext(stale: seq<nat>, i: nat, p: nat -> bool)
    requires i < |stale|
    ensures Count(stale[..i + 1], p) == Count(stale[..i], p) + if p(stale[i]) then 1 else 0
  {
    assert stale[..i + 1] == stale[..i] + [stale[i]];
    CountAppend(stale[..i], [stale[i]], p);
    CountCons(stale[i], [], p);
  }
}
