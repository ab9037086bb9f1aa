/** When no two batches share a hash, and when a file has at most one live batch: exact conditions over all interleavings. */
module ImportTheorems {
  import opened Wrappers
  import opened ImportBatches

  // ----- unique hashes, and when they are lost -----

  predicate UniqueHashes(batches: seq<Batch>) {
    forall b, c :: 0 <= b < c < |batches| ==> batches[b].fileHash != batches[c].fileHash
  }

  /** The file's raw hash is free for the upload, or will be when it has renamed the batch that it found. */
  predicate HashReserved(n: Names, batches: seq<Batch>, u: Upload) {
    forall b :: 0 <= b < |batches| && batches[b].fileHash == Raw(n, u.content) ==> !u.freed && u.takesFrom == Some(b)
  }

  predicate Reserved(n: Names, s: Store) {
    forall p :: p in s.uploads && Creates(s.uploads[p]) ==> HashReserved(n, s.batches, s.uploads[p])
  }

  /** No two open uploads are going to create a batch of one file. */
  predicate OneUploadEach(s: Store) {
    forall p, q :: p in s.uploads && q in s.uploads && p != q && Creates(s.uploads[p]) && Creates(s.uploads[q]) ==>
      s.uploads[p].content != s.uploads[q].content
  }

  predicate HashInv(n: Names, s: Store) {
    Named(n, s) && UniqueHashes(s.batches) && Reserved(n, s) && OneUploadEach(s)
  }

  /** A look-up for a file that another open upload is going to create a batch of. */
  predicate OverlappingLook(n: Names, s: Store, a: Action) {
    && a.Look? && a.p !in s.uploads && GetsBatch(a.accrual, a.readable) && !IsDuplicateFile(n, s.batches, a.content)
    && exists q :: q in s.uploads && Creates(s.uploads[q]) && s.uploads[q].content == a.content
  }

  /** A batch that gets the superseded name of its own content and id collides with no other. */
  lemma RenameKeepsUnique(n: Names, batches: seq<Batch>, b: nat, x: Batch)
    requires Sound(n) && AllNamed(n, batches) && UniqueHashes(batches) && b < |batches|
    requires x.content == batches[b].content && x.fileHash == Superseded(n, x.content, b)
    ensures UniqueHashes(batches[b := x])
    ensures forall c: string :: batches[b := x][b].fileHash != Raw(n, c)
  {
    var t := batches[b := x];
    forall c | 0 <= c < |t| && c != b ensures t[c].fileHash != x.fileHash {
      assert WellNamed(n, batches, c);
      HashTells(n, batches[c].content, x.content, b, b);
      HashTells(n, batches[c].content, x.content, c, b);
    }
    forall c: string ensures x.fileHash != Raw(n, c) {
      HashTells(n, c, x.content, b, b);
    }
  }

  /** Renaming takes raw hashes away and gives none. */
  lemma RenameKeepsReserved(n: Names, s: Store, b: nat, x: Batch)
    requires Reserved(n, s) && b < |s.batches| && forall c: string :: x.fileHash != Raw(n, c)
    ensures Reserved(n, s.(batches := s.batches[b := x]))
  {
    var t := s.batches[b := x];
    forall p | p in s.uploads && Creates(s.uploads[p]) ensures HashReserved(n, t, s.uploads[p]) {
      assert HashReserved(n, s.batches, s.uploads[p]);
    }
  }

  lemma SameHashKeepsReserved(n: Names, s: Store, b: nat, x: Batch)
    requires HashInv(n, s) && b < |s.batches| && x.content == s.batches[b].content && x.fileHash == s.batches[b].fileHash
    ensures HashInv(n, s.(batches := s.batches[b := x]))
  {
    UpdateKeepsNamed(n, s, b, x);
    var t := s.batches[b := x];
    forall p | p in s.uploads && Creates(s.uploads[p]) ensures HashReserved(n, t, s.uploads[p]) {
      assert HashReserved(n, s.batches, s.uploads[p]);
    }
  }

  lemma RenameKeepsHashInv(n: Names, s: Store, b: nat)
    requires Sound(n) && HashInv(n, s) && b < |s.batches|
    ensures HashInv(n, s.(batches := Rename(n, s.batches, b, s.batches[b].content)))
    ensures forall c: string :: Rename(n, s.batches, b, s.batches[b].content)[b].fileHash != Raw(n, c)
  {
    var x := s.batches[b].(fileHash := Superseded(n, s.batches[b].content, b));
    UpdateKeepsNamed(n, s, b, x);
    RenameKeepsUnique(n, s.batches, b, x);
    RenameKeepsReserved(n, s, b, x);
  }

  lemma LookKeepsHashInvIff(n: Names, s: Store, a: Action)
    requires Sound(n) && HashInv(n, s) && a.Look?
    ensures HashInv(n, Step(n, s, a)) <==> !OverlappingLook(n, s, a)
  {
    var s' := Step(n, s, a);
    LookKeepsNamed(n, s, a.p, a.content, a.accrual, a.readable);
    if OverlappingLook(n, s, a) {
      var q :| q in s.uploads && Creates(s.uploads[q]) && s.uploads[q].content == a.content;
      assert s'.uploads[q].content == s'.uploads[a.p].content;
    } else if s' != s {
      var found := FindByFileHash(s.batches, Raw(n, a.content));
      assert HashReserved(n, s.batches, s'.uploads[a.p]);
      forall p | p in s'.uploads && Creates(s'.uploads[p]) ensures HashReserved(n, s'.batches, s'.uploads[p]) {
        if p != a.p {
          assert HashReserved(n, s.batches, s.uploads[p]);
        }
      }
    }
  }

  lemma NothingHasHash(n: Names, batches: seq<Batch>, u: Upload)
    requires HashReserved(n, batches, u)
    requires u.takesFrom.Some? ==> u.takesFrom.value < |batches| && batches[u.takesFrom.value].fileHash != Raw(n, u.content)
    ensures HashReserved(n, batches, u.(freed := true))
  {
  }

  lemma FreeKeepsHashInv(n: Names, s: Store, p: nat)
    requires Sound(n) && HashInv(n, s)
    ensures HashInv(n, FreeNow(n, s, p))
  {
    var s' := FreeNow(n, s, p);
    if s' != s {
      var u := s.uploads[p];
      assert GoodUpload(s.batches, u);
      FreeKeepsNamed(n, s, p);
      var t := s.(batches := s'.batches);
      if u.takesFrom.Some? {
        RenameKeepsHashInv(n, s, u.takesFrom.value);
      }
      assert HashInv(n, t);
      forall q | q in s'.uploads && Creates(s'.uploads[q]) ensures HashReserved(n, s'.batches, s'.uploads[q]) {
        assert HashReserved(n, t.batches, s.uploads[q]);
        if q == p {
          NothingHasHash(n, t.batches, u);
        }
      }
    }
  }

  lemma CreateKeepsHashInv(n: Names, s: Store, p: nat)
    requires Sound(n) && HashInv(n, s)
    ensures HashInv(n, CreateNow(n, s, p))
  {
    var s' := CreateNow(n, s, p);
    if s' != s {
      var u := s.uploads[p];
      CreateKeepsNamed(n, s, p);
      assert GoodUpload(s.batches, u) && HashReserved(n, s.batches, u);
      forall q | q in s'.uploads && Creates(s'.uploads[q]) ensures HashReserved(n, s'.batches, s'.uploads[q]) {
        assert HashReserved(n, s.batches, s.uploads[q]);
        assert s.uploads[q].content != u.content && Raw(n, s.uploads[q].content) != Raw(n, u.content);
      }
    }
  }

  lemma FinishKeepsHashInv(n: Names, s: Store, b: nat, ok: bool)
    requires Sound(n) && HashInv(n, s)
    ensures HashInv(n, Step(n, s, Finish(b, ok)))
  {
    if b < |s.batches| {
      SameHashKeepsReserved(n, s, b, s.batches[b].(status := if ok then Completed else Failed, running := false));
    }
  }

  lemma WriteKeepsHashInv(n: Names, s: Store, p: nat)
    requires Sound(n) && HashInv(n, s)
    ensures HashInv(n, WriteNow(n, s, p))
  {
    if p in s.pending {
      var x := s.pending[p];
      WrittenIs(n, s, p);
      WriteKeepsNamed(n, s, p);
      if x.ToRetry? {
        RenameKeepsHashInv(n, s, x.b);
      } else {
        SameHashKeepsReserved(n, s, x.b, s.batches[x.b].(status := Failed));
      }
    }
  }

  /** Of all steps only an overlapping look breaks the uniqueness of hashes, with room for the batches to come. */
  lemma HashInvKeptIff(n: Names, s: Store, a: Action)
    requires Sound(n) && HashInv(n, s)
    ensures HashInv(n, Step(n, s, a)) <==> !OverlappingLook(n, s, a)
  {
    match a
    case Look(_, _, _, _) => LookKeepsHashInvIff(n, s, a);
    case Free(p) => FreeKeepsHashInv(n, s, p);
    case Create(p) => CreateKeepsHashInv(n, s, p);
    case Finish(b, ok) => FinishKeepsHashInv(n, s, b, ok);
    case Write(p) => WriteKeepsHashInv(n, s, p);
    case _ => StepKeepsNamed(n, s, a);
  }

  predicate NoOverlappingLook(n: Names, s: Store, actions: seq<Action>)
    decreases |actions|
  {
    actions == [] || (!OverlappingLook(n, s, actions[0]) && NoOverlappingLook(n, Step(n, s, actions[0]), actions[1..]))
  }

  lemma {:induction false} RunKeepsHashInv(n: Names, s: Store, actions: seq<Action>)
    requires Sound(n) && HashInv(n, s) && NoOverlappingLook(n, s, actions)
    ensures HashInv(n, Run(n, s, actions))
    decreases |actions|
  {
    if actions != [] {
      HashInvKeptIff(n, s, actions[0]);
      RunKeepsHashInv(n, Step(n, s, actions[0]), actions[1..]);
    }
  }

  /** Over every run without overlapping looks no two batches share a hash. */
  lemma HashesStayUnique(n: Names, actions: seq<Action>, b: nat, c: nat)
    requires Sound(n) && NoOverlappingLook(n, Blank(), actions) && b < c < |Run(n, Blank(), actions).batches|
    ensures Run(n, Blank(), actions).batches[b].fileHash != Run(n, Blank(), actions).batches[c].fileHash
  {
    RunKeepsHashInv(n, Blank(), actions);
  }

  // ----- at most one live batch per file -----

  predicate Live(batches: seq<Batch>, b: nat) {
    b < |batches| && batches[b].status != Failed
  }

  predicate AtMostOneLive(batches: seq<Batch>) {
    forall b, c :: 0 <= b < c < |batches| && Live(batches, b) && Live(batches, c) ==> batches[b].content != batches[c].content
  }

  /** Batches that have not failed still hold the raw hash of their file. */
  predicate LiveHoldRaw(n: Names, batches: seq<Batch>) {
    forall b :: 0 <= b < |batches| && Live(batches, b) ==> batches[b].fileHash == Raw(n, batches[b].content)
  }

  /** The batch that the upload is about to rename. */
  predicate WillRename(u: Upload, b: nat) {
    !u.freed && u.takesFrom == Some(b)
  }

  /** An open upload or an open retry is about to rename the batch. */
  predicate Claimed(s: Store, b: nat) {
    || (exists p :: p in s.uploads && WillRename(s.uploads[p], b))
    || (exists p :: p in s.pending && s.pending[p].ToRetry? && s.pending[p].b == b)
  }

  /** Nobody is about to rename a live batch. */
  predicate TakesFailed(s: Store) {
    forall b :: 0 <= b < |s.batches| && Claimed(s, b) ==> !Live(s.batches, b)
  }

  predicate Safe(n: Names, s: Store) {
    HashInv(n, s) && LiveHoldRaw(n, s.batches) && TakesFailed(s)
  }

  /** An import reports success for a batch that was failed in the meantime and whose hash is freed or about to be freed. */
  predicate LateFinish(n: Names, s: Store, a: Action) {
    && a.Finish? && a.ok && a.b < |s.batches| && s.batches[a.b].running && s.batches[a.b].status == Failed
    && (s.batches[a.b].fileHash != Raw(n, s.batches[a.b].content) || Claimed(s, a.b))
  }

  predicate Hazard(n: Names, s: Store, a: Action) {
    OverlappingLook(n, s, a) || LateFinish(n, s, a)
  }

  lemma SafeMeansOne(n: Names, s: Store)
    requires Safe(n, s)
    ensures AtMostOneLive(s.batches)
  {
  }

  /** The hash check refuses a file if and only if it has a live batch. */
  lemma DuplicateIffLive(n: Names, s: Store, content: string)
    requires Sound(n) && Safe(n, s)
    ensures IsDuplicateFile(n, s.batches, content) <==> exists b: nat :: Live(s.batches, b) && s.batches[b].content == content
  {
    FoundHasContent(n, s.batches, content);
    var found := FindByFileHash(s.batches, Raw(n, content));
    if IsDuplicateFile(n, s.batches, content) {
      assert Live(s.batches, found.value);
    }
    if b: nat :| Live(s.batches, b) && s.batches[b].content == content {
      assert s.batches[b].fileHash == Raw(n, content);
      assert found.Some?;
      assert found.value == b;
    }
  }

  lemma LookKeepsLive(n: Names, s: Store, a: Action)
    requires Safe(n, s) && a.Look?
    ensures var s' := Step(n, s, a); LiveHoldRaw(n, s'.batches) && TakesFailed(s')
  {
    var s' := Step(n, s, a);
    forall b | 0 <= b < |s.batches| && Claimed(s', b) ensures !Live(s.batches, b) {
      assert Claimed(s, b) || WillRename(s'.uploads[a.p], b);
    }
  }

  lemma FreeKeepsLive(n: Names, s: Store, p: nat)
    requires Safe(n, s)
    ensures var s' := FreeNow(n, s, p); LiveHoldRaw(n, s'.batches) && TakesFailed(s')
  {
    var s' := FreeNow(n, s, p);
    if s' != s {
      assert GoodUpload(s.batches, s.uploads[p]);
      if s.uploads[p].takesFrom.Some? {
        assert WillRename(s.uploads[p], s.uploads[p].takesFrom.value) && Claimed(s, s.uploads[p].takesFrom.value);
      }
      forall b | 0 <= b < |s'.batches| ensures Live(s'.batches, b) <==> Live(s.batches, b) {
      }
      forall b | 0 <= b < |s'.batches| && Claimed(s', b) ensures Claimed(s, b) {
      }
    }
  }

  lemma CreateKeepsLive(n: Names, s: Store, p: nat)
    requires Safe(n, s)
    ensures var s' := CreateNow(n, s, p); LiveHoldRaw(n, s'.batches) && TakesFailed(s')
  {
    var s' := CreateNow(n, s, p);
    forall b | 0 <= b < |s.batches| ensures Live(s'.batches, b) <==> Live(s.batches, b) {
    }
    forall b | 0 <= b < |s'.batches| && Claimed(s', b) ensures !Live(s'.batches, b) {
      if q :| q in s'.uploads && WillRename(s'.uploads[q], b) {
        assert GoodUpload(s.batches, s.uploads[q]);
      } else {
        var q :| q in s'.pending && s'.pending[q].ToRetry? && s'.pending[q].b == b;
        assert GoodPending(n, s.batches, s.pending[q]);
      }
      assert Claimed(s, b);
    }
  }

  lemma FinishKeepsLiveIff(n: Names, s: Store, a: Action)
    requires Safe(n, s) && a.Finish?
    ensures var s' := Step(n, s, a); (LiveHoldRaw(n, s'.batches) && TakesFailed(s')) <==> !LateFinish(n, s, a)
  {
    var s' := Step(n, s, a);
    forall b | 0 <= b < |s.batches| && b != a.b ensures Live(s'.batches, b) <==> Live(s.batches, b) {
    }
    forall b ensures Claimed(s', b) <==> Claimed(s, b) {
    }
    if LateFinish(n, s, a) {
      assert Live(s'.batches, a.b) && s'.batches[a.b].fileHash == s.batches[a.b].fileHash;
    } else {
      forall b | 0 <= b < |s'.batches| && Claimed(s', b) ensures !Live(s'.batches, b) {
        assert Claimed(s, b) && !Live(s.batches, b);
      }
      forall b | 0 <= b < |s'.batches| && Live(s'.batches, b) ensures s'.batches[b].fileHash == Raw(n, s'.batches[b].content) {
        assert Live(s.batches, b) ==> s.batches[b].fileHash == Raw(n, s.batches[b].content);
      }
    }
  }

  lemma ReadKeepsLive(n: Names, s: Store, a: Action)
    requires Safe(n, s) && (a.ReadToFail? || a.ReadToRetry?)
    ensures var s' := Step(n, s, a); LiveHoldRaw(n, s'.batches) && TakesFailed(s')
  {
    var s' := Step(n, s, a);
    forall b | 0 <= b < |s.batches| && Claimed(s', b) ensures !Live(s.batches, b) {
      assert Claimed(s, b) || (a.ReadToRetry? && b == a.b);
    }
  }

  lemma WriteKeepsLive(n: Names, s: Store, p: nat)
    requires Safe(n, s)
    ensures var s' := WriteNow(n, s, p); LiveHoldRaw(n, s'.batches) && TakesFailed(s')
  {
    var s' := WriteNow(n, s, p);
    if p in s.pending {
      WrittenIs(n, s, p);
      assert s.pending[p].ToRetry? ==> Claimed(s, s.pending[p].b);
      forall b | 0 <= b < |s.batches| && Live(s'.batches, b) ensures Live(s.batches, b) && s'.batches[b] == s.batches[b] {
      }
      forall b | Claimed(s', b) ensures Claimed(s, b) {
      }
    }
  }

  /** A step keeps files single, with room for the calls under way, if and only if it is none of the two hazards. */
  lemma SafeKeptIff(n: Names, s: Store, a: Action)
    requires Sound(n) && Safe(n, s)
    ensures Safe(n, Step(n, s, a)) <==> !Hazard(n, s, a)
  {
    HashInvKeptIff(n, s, a);
    match a
    case Look(_, _, _, _) => LookKeepsLive(n, s, a);
    case Free(p) => FreeKeepsLive(n, s, p);
    case Create(p) => CreateKeepsLive(n, s, p);
    case Finish(_, _) => FinishKeepsLiveIff(n, s, a);
    case Write(p) => WriteKeepsLive(n, s, p);
    case _ => ReadKeepsLive(n, s, a);
  }

  predicate NoHazard(n: Names, s: Store, actions: seq<Action>)
    decreases |actions|
  {
    actions == [] || (!Hazard(n, s, actions[0]) && NoHazard(n, Step(n, s, actions[0]), actions[1..]))
  }

  lemma {:induction false} RunKeepsSafe(n: Names, s: Store, actions: seq<Action>)
    requires Sound(n) && Safe(n, s) && NoHazard(n, s, actions)
    ensures Safe(n, Run(n, s, actions))
    decreases |actions|
  {
    if actions != [] {
      SafeKeptIff(n, s, actions[0]);
      RunKeepsSafe(n, Step(n, s, actions[0]), actions[1..]);
    }
  }

  /** Without hazards no file ever has two live batches, and exactly the files with one are refused. */
  lemma OneLiveBatchPerFile(n: Names, actions: seq<Action>, content: string)
    requires Sound(n) && NoHazard(n, Blank(), actions)
    ensures var batches := Run(n, Blank(), actions).batches;
      && AtMostOneLive(batches)
      && (IsDuplicateFile(n, batches, content) <==> exists b: nat :: Live(batches, b) && batches[b].content == content)
  {
    RunKeepsSafe(n, Blank(), actions);
    SafeMeansOne(n, Run(n, Blank(), actions));
    DuplicateIffLive(n, Run(n, Blank(), actions), content);
  }

  // ----- the hazards are exactly what lets a file become double -----

  /** A whole upload of a cash file by p, with nothing in between. */
  function UploadCash(n: Names, s: Store, p: nat, content: string): Store {
    Complete(n, LookUp(n, s, p, content, false, true), p)
  }

  /** Files are single, stay so when any two open uploads are completed, and when after some open call a file is uploaded. */
  ghost predicate Room(n: Names, s: Store) {
    && AtMostOneLive(s.batches)
    && (forall p, q :: p in s.uploads && q in s.uploads ==> AtMostOneLive(Complete(n, Complete(n, s, p), q).batches))
    && (forall r: nat, content: string :: r !in s.uploads ==> AtMostOneLive(UploadCash(n, s, r, content).batches))
    && (forall p, r: nat, content: string :: p in s.uploads && r !in s.uploads ==>
          AtMostOneLive(UploadCash(n, Complete(n, s, p), r, content).batches))
    && (forall p, r: nat, content: string :: p in s.pending && r !in s.uploads ==>
          AtMostOneLive(UploadCash(n, WriteNow(n, s, p), r, content).batches))
  }

  lemma CompleteKeepsSafe(n: Names, s: Store, p: nat)
    requires Sound(n) && Safe(n, s)
    ensures Safe(n, Complete(n, s, p))
  {
    SafeKeptIff(n, s, Free(p));
    SafeKeptIff(n, FreeNow(n, s, p), Create(p));
  }

  /** Completing an upload leaves contents and statuses of the stored batches alone, and may add one batch. */
  lemma CompleteAdds(n: Names, s: Store, p: nat)
    requires Named(n, s) && p in s.uploads
    ensures var u, t := s.uploads[p], Complete(n, s, p);
      && t.uploads == s.uploads - {p}
      && |t.batches| == |s.batches| + (if Creates(u) then 1 else 0)
      && (forall b :: 0 <= b < |s.batches| ==>
            t.batches[b].content == s.batches[b].content && t.batches[b].status == s.batches[b].status)
      && (Creates(u) ==> t.batches[|s.batches|] == NewBatch(n, u.content, u.accrual))
  {
    var u := s.uploads[p];
    assert GoodUpload(s.batches, u);
    var f := FreeNow(n, s, p);
    assert |f.batches| == |s.batches|;
    if Creates(u) {
      assert f.uploads - {p} == s.uploads - {p};
    }
  }

  lemma UploadKeepsSingle(n: Names, s: Store, r: nat, content: string)
    requires Sound(n) && Safe(n, s) && r !in s.uploads
    ensures AtMostOneLive(UploadCash(n, s, r, content).batches)
  {
    SafeMeansOne(n, s);
    DuplicateIffLive(n, s, content);
    var looked := LookUp(n, s, r, content, false, true);
    if looked != s {
      LookKeepsNamed(n, s, r, content, false, true);
      CompleteAdds(n, looked, r);
      var t := Complete(n, looked, r).batches;
      forall b, c | 0 <= b < c < |t| && Live(t, b) && Live(t, c) ensures t[b].content != t[c].content {
        assert Live(s.batches, b);
        if c < |s.batches| {
          assert Live(s.batches, c);
        }
      }
    }
  }

  lemma TwoCompletesKeepSingle(n: Names, s: Store, p: nat, q: nat)
    requires Sound(n) && Safe(n, s)
    ensures AtMostOneLive(Complete(n, Complete(n, s, p), q).batches)
  {
    CompleteKeepsSafe(n, s, p);
    CompleteKeepsSafe(n, Complete(n, s, p), q);
    SafeMeansOne(n, Complete(n, Complete(n, s, p), q));
  }

  lemma CompleteAndUploadKeepSingle(n: Names, s: Store, p: nat, r: nat, content: string)
    requires Sound(n) && Safe(n, s) && p in s.uploads && r !in s.uploads
    ensures AtMostOneLive(UploadCash(n, Complete(n, s, p), r, content).batches)
  {
    CompleteKeepsSafe(n, s, p);
    CompleteAdds(n, s, p);
    UploadKeepsSingle(n, Complete(n, s, p), r, content);
  }

  lemma WriteAndUploadKeepSingle(n: Names, s: Store, p: nat, r: nat, content: string)
    requires Sound(n) && Safe(n, s) && r !in s.uploads
    ensures AtMostOneLive(UploadCash(n, WriteNow(n, s, p), r, content).batches)
  {
    SafeKeptIff(n, s, Write(p));
    UploadKeepsSingle(n, WriteNow(n, s, p), r, content);
  }

  lemma SafeHasRoom(n: Names, s: Store)
    requires Sound(n) && Safe(n, s)
    ensures Room(n, s)
  {
    SafeMeansOne(n, s);
    forall p, q | p in s.uploads && q in s.uploads ensures AtMostOneLive(Complete(n, Complete(n, s, p), q).batches) {
      TwoCompletesKeepSingle(n, s, p, q);
    }
    forall r: nat, content: string | r !in s.uploads ensures AtMostOneLive(UploadCash(n, s, r, content).batches) {
      UploadKeepsSingle(n, s, r, content);
    }
    forall p, r: nat, content: string | p in s.uploads && r !in s.uploads
      ensures AtMostOneLive(UploadCash(n, Complete(n, s, p), r, content).batches)
    {
      CompleteAndUploadKeepSingle(n, s, p, r, content);
    }
    forall p, r: nat, content: string | p in s.pending && r !in s.uploads
      ensures AtMostOneLive(UploadCash(n, WriteNow(n, s, p), r, content).batches)
    {
      WriteAndUploadKeepSingle(n, s, p, r, content);
    }
  }

  /** Two open uploads of one file both create their batch. */
  lemma TwoUploadsDouble(n: Names, s: Store, p: nat, q: nat)
    requires Sound(n) && Named(n, s) && p in s.uploads && q in s.uploads && p != q
    requires Creates(s.uploads[p]) && Creates(s.uploads[q]) && s.uploads[p].content == s.uploads[q].content
    ensures !AtMostOneLive(Complete(n, Complete(n, s, p), q).batches)
  {
    var one := Complete(n, s, p);
    CompleteAdds(n, s, p);
    FreeKeepsNamed(n, s, p);
    CreateKeepsNamed(n, FreeNow(n, s, p), p);
    assert one.uploads[q] == s.uploads[q];
    CompleteAdds(n, one, q);
    var two := Complete(n, one, q);
    assert Live(two.batches, |s.batches|) && Live(two.batches, |one.batches|);
  }

  /** A live batch without its raw hash does not stop the next upload of its file. */
  lemma UnguardedLiveDoubles(n: Names, s: Store, b: nat, r: nat)
    requires Sound(n) && Named(n, s) && Live(s.batches, b) && s.batches[b].fileHash != Raw(n, s.batches[b].content)
    requires r !in s.uploads
    ensures !AtMostOneLive(UploadCash(n, s, r, s.batches[b].content).batches)
  {
    var content := s.batches[b].content;
    var found := FindByFileHash(s.batches, Raw(n, content));
    FoundHasContent(n, s.batches, content);
    var looked := LookUp(n, s, r, content, false, true);
    if IsDuplicateFile(n, s.batches, content) {
      assert Live(s.batches, found.value);
      assert UploadCash(n, s, r, content) == s;
    } else {
      LookKeepsNamed(n, s, r, content, false, true);
      CompleteAdds(n, looked, r);
      var t := Complete(n, looked, r).batches;
      assert Live(t, b) && Live(t, |s.batches|);
    }
  }

  lemma {:induction false} BoundOf(keys: set<nat>) returns (bound: nat)
    ensures forall k :: k in keys ==> k < bound
    decreases |keys|
  {
    if keys == {} {
      bound := 0;
    } else {
      var k :| k in keys;
      var rest := BoundOf(keys - {k});
      bound := if rest <= k then k + 1 else rest;
      forall x | x in keys ensures x < bound {
        assert x == k || x in keys - {k};
      }
    }
  }

  lemma LateFinishDoubles(n: Names, s: Store, a: Action)
    requires Sound(n) && Named(n, s) && LateFinish(n, s, a)
    ensures !Room(n, Step(n, s, a))
  {
    var t := Step(n, s, a);
    StepKeepsNamed(n, s, a);
    assert Live(t.batches, a.b) && t.batches[a.b].content == s.batches[a.b].content;
    var r := BoundOf(t.uploads.Keys);
    assert r !in t.uploads;
    if t.batches[a.b].fileHash != Raw(n, t.batches[a.b].content) {
      UnguardedLiveDoubles(n, t, a.b, r);
    } else if p :| p in s.uploads && WillRename(s.uploads[p], a.b) {
      RenamedLiveDoubles(n, t, p, a.b, r);
    } else {
      var p :| p in s.pending && s.pending[p].ToRetry? && s.pending[p].b == a.b;
      RetriedLiveDoubles(n, t, p, r);
    }
  }

  lemma RenamedLiveDoubles(n: Names, t: Store, p: nat, b: nat, r: nat)
    requires Sound(n) && Named(n, t) && p in t.uploads && WillRename(t.uploads[p], b) && Live(t.batches, b) && r !in t.uploads
    ensures !Room(n, t)
  {
    var u, done := t.uploads[p], Complete(n, t, p);
    assert GoodUpload(t.batches, u);
    CompleteAdds(n, t, p);
    FreeKeepsNamed(n, t, p);
    CreateKeepsNamed(n, FreeNow(n, t, p), p);
    HashTells(n, u.content, u.content, b, b);
    assert done.batches[b].fileHash == Superseded(n, u.content, b);
    assert Live(done.batches, b);
    UnguardedLiveDoubles(n, done, b, r);
  }

  lemma RetriedLiveDoubles(n: Names, t: Store, p: nat, r: nat)
    requires Sound(n) && Named(n, t) && p in t.pending && t.pending[p].ToRetry? && Live(t.batches, t.pending[p].b) && r !in t.uploads
    ensures !Room(n, t)
  {
    var b, done := t.pending[p].b, WriteNow(n, t, p);
    WrittenIs(n, t, p);
    WriteKeepsNamed(n, t, p);
    HashTells(n, t.batches[b].content, t.batches[b].content, b, b);
    UnguardedLiveDoubles(n, done, b, r);
  }

  lemma OverlapDoubles(n: Names, s: Store, a: Action)
    requires Sound(n) && Named(n, s) && OverlappingLook(n, s, a)
    ensures !Room(n, Step(n, s, a))
  {
    var t := Step(n, s, a);
    StepKeepsNamed(n, s, a);
    var q :| q in s.uploads && Creates(s.uploads[q]) && s.uploads[q].content == a.content;
    TwoUploadsDouble(n, t, a.p, q);
  }

  /** Every state on the way has room. */
  ghost predicate StaysSingle(n: Names, s: Store, actions: seq<Action>)
    decreases |actions|
  {
    Room(n, s) && (actions != [] ==> StaysSingle(n, Step(n, s, actions[0]), actions[1..]))
  }

  /**
   * Over any run, files stay single (with room for the uploads under way and one more) if and only if no finish in it is
   * late and no look-up falls into another upload of the same file.
   */
  lemma {:induction false} StaysSingleIff(n: Names, s: Store, actions: seq<Action>)
    requires Sound(n) && Safe(n, s)
    ensures StaysSingle(n, s, actions) <==> NoHazard(n, s, actions)
    decreases |actions|
  {
    SafeHasRoom(n, s);
    if actions != [] {
      var next := Step(n, s, actions[0]);
      SafeKeptIff(n, s, actions[0]);
      if OverlappingLook(n, s, actions[0]) {
        OverlapDoubles(n, s, actions[0]);
        assert !StaysSingle(n, next, actions[1..]);
      } else if LateFinish(n, s, actions[0]) {
        LateFinishDoubles(n, s, actions[0]);
        assert !StaysSingle(n, next, actions[1..]);
      } else {
        StaysSingleIff(n, next, actions[1..]);
      }
    }
  }

  // ----- failing runs -----

  lemma RunTwo(n: Names, s: Store, a: Action, b: Action, rest: seq<Action>)
    ensures Run(n, s, [a, b] + rest) == Run(n, Step(n, Step(n, s, a), b), rest)
  {
    assert ([a, b] + rest)[1..] == [b] + rest;
    assert ([b] + rest)[1..] == rest;
  }

  lemma RunFour(n: Names, s: Store, a: Action, b: Action, c: Action, d: Action, rest: seq<Action>)
    ensures Run(n, s, [a, b, c, d] + rest) == Run(n, Step(n, Step(n, Step(n, Step(n, s, a), b), c), d), rest)
  {
    assert [a, b, c, d] + rest == [a, b] + ([c, d] + rest);
    RunTwo(n, s, a, b, [c, d] + rest);
    RunTwo(n, Step(n, Step(n, s, a), b), c, d, rest);
  }

  /** A file is uploaded twice at the same time: both uploads look before either creates. */
  lemma DoubleUpload(n: Names, content: string)
    ensures var s := Run(n, Blank(), [Look(0, content, true, true), Look(1, content, true, true), Free(0), Free(1)] + [Create(0), Create(1)]);
      && s.batches == [NewBatch(n, content, true), NewBatch(n, content, true)]
      && !AtMostOneLive(s.batches)
  {
    var x := NewBatch(n, content, true);
    var u := Upload(content, true, true, None, false);
    var looked := Store([], map[0 := u, 1 := u], map[]);
    var freed := Store([], map[0 := u.(freed := true), 1 := u.(freed := true)], map[]);
    assert Step(n, Step(n, Blank(), Look(0, content, true, true)), Look(1, content, true, true)) == looked;
    assert Step(n, Step(n, looked, Free(0)), Free(1)) == freed;
    RunFour(n, Blank(), Look(0, content, true, true), Look(1, content, true, true), Free(0), Free(1), [Create(0), Create(1)]);
    assert [Create(0), Create(1)] == [Create(0), Create(1)] + [];
    RunTwo(n, freed, Create(0), Create(1), []);
    assert Step(n, Step(n, freed, Create(0)), Create(1)).batches == [x, x];
    assert Live([x, x], 0) && Live([x, x], 1);
  }

  function UploadSteps(p: nat, content: string): seq<Action> {
    [Look(p, content, true, true), Free(p), Create(p)]
  }

  lemma {:induction false} RunAppend(n: Names, s: Store, a: seq<Action>, b: seq<Action>)
    ensures Run(n, s, a + b) == Run(n, Run(n, s, a), b)
    decreases |a|
  {
    if a == [] {
      assert a + b == b;
    } else {
      assert (a + b)[1..] == a[1..] + b;
      RunAppend(n, Step(n, s, a[0]), a[1..], b);
    }
  }

  lemma RunOne(n: Names, s: Store, a: Action)
    ensures Run(n, s, [a]) == Step(n, s, a)
  {
    assert [a][1..] == [];
  }

  lemma RunUpload(n: Names, s: Store, p: nat, content: string)
    requires p !in s.uploads
    ensures Run(n, s, UploadSteps(p, content)) == s.(batches := Started(n, s.batches, content, true, true))
  {
    var looked := Step(n, s, Look(p, content, true, true));
    assert UploadSteps(p, content) == [Look(p, content, true, true), Free(p)] + [Create(p)];
    RunTwo(n, s, Look(p, content, true, true), Free(p), [Create(p)]);
    RunOne(n, Step(n, looked, Free(p)), Create(p));
    UndisturbedUpload(n, s, p, content, true, true);
  }

  lemma RunFail(n: Names, s: Store, p: nat, b: nat)
    requires p !in s.pending
    ensures Run(n, s, FailSteps(p, b)) == s.(batches := FailAccrual(s.batches, b))
  {
    assert FailSteps(p, b) == FailSteps(p, b) + [];
    RunTwo(n, s, ReadToFail(p, b), Write(p), []);
    UndisturbedWrite(n, s, p, b);
  }

  function FailSteps(p: nat, b: nat): seq<Action> {
    [ReadToFail(p, b), Write(p)]
  }

  /** A slow import of the file, failed by the watchdog. */
  function SlowImport(content: string): seq<Action> {
    UploadSteps(0, content) + FailSteps(0, 0)
  }

  lemma RunSlowImport(n: Names, content: string)
    ensures Run(n, Blank(), SlowImport(content)) == Store([NewBatch(n, content, true).(status := Failed)], map[], map[])
  {
    RunAppend(n, Blank(), UploadSteps(0, content), FailSteps(0, 0));
    RunUpload(n, Blank(), 0, content);
    var one := Store([NewBatch(n, content, true)], map[], map[]);
    assert Run(n, Blank(), UploadSteps(0, content)) == one;
    RunFail(n, one, 0, 0);
  }

  /** The watchdog fails a slow import, the file is imported again, then the first import reports success. */
  lemma WatchdogReimportLateFinish(n: Names, content: string)
    requires Sound(n)
    ensures !AtMostOneLive(Run(n, Blank(), SlowImport(content) + UploadSteps(1, content) + [Finish(0, true)]).batches)
  {
    var x := NewBatch(n, content, true);
    RunAppend(n, Blank(), SlowImport(content) + UploadSteps(1, content), [Finish(0, true)]);
    RunAppend(n, Blank(), SlowImport(content), UploadSteps(1, content));
    RunSlowImport(n, content);
    var two := Store([x.(status := Failed)], map[], map[]);
    RunUpload(n, two, 1, content);
    var three := Store([x.(status := Failed, fileHash := Superseded(n, content, 0)), x], map[], map[]);
    assert Run(n, two, UploadSteps(1, content)) == three;
    RunOne(n, three, Finish(0, true));
    var four := Step(n, three, Finish(0, true));
    assert Live(four.batches, 0) && Live(four.batches, 1) && four.batches[0].content == four.batches[1].content;
  }

  /** A retry reads the failed batch, its import reports success, the retry frees the hash, and the file is imported again. */
  lemma SuccessDuringRetry(n: Names, content: string)
    requires Sound(n)
    ensures var retry := [ReadToRetry(0, 0), Finish(0, true), Write(0)];
      !AtMostOneLive(Run(n, Blank(), SlowImport(content) + retry + UploadSteps(1, content)).batches)
  {
    var retry := [ReadToRetry(0, 0), Finish(0, true), Write(0)];
    var x := NewBatch(n, content, true);
    RunAppend(n, Blank(), SlowImport(content) + retry, UploadSteps(1, content));
    RunAppend(n, Blank(), SlowImport(content), retry);
    RunSlowImport(n, content);
    var two := Store([x.(status := Failed)], map[], map[]);
    BeforeMarkOfHash(n.sha(content), "");
    var read := Step(n, two, ReadToRetry(0, 0));
    assert read == two.(pending := map[0 := ToRetry(0, Raw(n, content))]);
    var y := x.(status := Completed, running := false, fileHash := Superseded(n, content, 0));
    var three := Store([y], map[], map[]);
    assert retry == [ReadToRetry(0, 0), Finish(0, true)] + [Write(0)];
    RunTwo(n, two, ReadToRetry(0, 0), Finish(0, true), [Write(0)]);
    RunOne(n, Step(n, read, Finish(0, true)), Write(0));
    assert Run(n, two, retry) == three;
    HashTells(n, content, content, 0, 0);
    RunUpload(n, three, 1, content);
    assert Run(n, three, UploadSteps(1, content)).batches == [y, x];
    assert Live([y, x], 0) && Live([y, x], 1);
  }
}
