/**
 * The life of an import batch: the file hash that keeps a file from being imported twice, failure, retry and watchdog.
 * An upload is three repository calls (look up the hash, free it, create the batch), failing and retrying a batch are two
 * (read it, write it); calls of others may come between.
 */
module ImportBatches {
  import opened Wrappers

  datatype BatchStatus = Processing | Completed | Failed

  /** `content` is the uploaded file; only its hash is stored. `running` says that its import has not returned yet. */
  datatype Batch = Batch(accrual: bool, content: string, fileHash: string, status: BatchStatus, running: bool)

  /** An open upload: `takesFrom` is the failed batch that its look-up found, `freed` says that its hash is freed. */
  datatype Upload = Upload(content: string, accrual: bool, readable: bool, takesFrom: Option<nat>, freed: bool)

  /** A watchdog, manual failure or retry that has read its batch and not written it yet; a retry has cut the hash it read. */
  datatype Pending = ToFail(b: nat) | ToRetry(b: nat, rawHash: string)

  datatype Store = Store(batches: seq<Batch>, uploads: map<nat, Upload>, pending: map<nat, Pending>)

  function Blank(): Store {
    Store([], map[], map[])
  }

  /** The hash function, and the text of a batch id. */
  datatype Names = Names(sha: string -> string, idText: nat -> string)

  predicate NoColon(s: string) {
    forall i :: 0 <= i < |s| ==> s[i] != ':'
  }

  /** SHA-256 in hexadecimal, taken as collision free, and the distinct ids of the store. */
  ghost predicate Sound(n: Names) {
    && (forall a, b :: n.sha(a) == n.sha(b) ==> a == b)
    && (forall a :: NoColon(n.sha(a)))
    && (forall i: nat, j: nat :: n.idText(i) == n.idText(j) ==> i == j)
  }

  const MARK := ":superseded:"

  /** split(":superseded:")[0] */
  function BeforeMark(s: string): string {
    if s == "" || MARK <= s then "" else [s[0]] + BeforeMark(s[1..])
  }

  function Raw(n: Names, content: string): string {
    n.sha(content)
  }

  function Superseded(n: Names, content: string, b: nat): string {
    n.sha(content) + MARK + n.idText(b)
  }

  lemma {:induction false} BeforeMarkOfHash(h: string, rest: string)
    requires NoColon(h)
    ensures BeforeMark(h) == h && BeforeMark(h + MARK + rest) == h
  {
    var s := h + MARK + rest;
    if h == "" {
      assert s == MARK + rest;
      assert MARK <= s;
    } else {
      assert s[0] == h[0] && MARK[0] == ':';
      assert s[1..] == h[1..] + MARK + rest;
      BeforeMarkOfHash(h[1..], rest);
    }
  }

  // ----- the operations on the stored batches -----

  /** The first batch with the hash. */
  function FindByFileHash(batches: seq<Batch>, hash: string): (r: Option<nat>)
    ensures r.Some? ==> r.value < |batches| && batches[r.value].fileHash == hash
    ensures r.None? ==> forall b :: 0 <= b < |batches| ==> batches[b].fileHash != hash
  {
    FindFrom(batches, hash, 0)
  }

  function FindFrom(batches: seq<Batch>, hash: string, from: nat): (r: Option<nat>)
    requires from <= |batches|
    ensures r.Some? ==> from <= r.value < |batches| && batches[r.value].fileHash == hash
    ensures r.None? ==> forall b :: from <= b < |batches| ==> batches[b].fileHash != hash
    decreases |batches| - from
  {
    if from == |batches| then None
    else if batches[from].fileHash == hash then Some(from)
    else FindFrom(batches, hash, from + 1)
  }

  predicate IsDuplicateFile(n: Names, batches: seq<Batch>, content: string) {
    var found := FindByFileHash(batches, Raw(n, content));
    found.Some? && batches[found.value].status != Failed
  }

  function Rename(n: Names, batches: seq<Batch>, b: nat, content: string): seq<Batch> {
    if b < |batches| then batches[b := batches[b].(fileHash := Superseded(n, content, b))] else batches
  }

  /** Frees the hash of the failed batch that has exactly this file, if there is one. */
  function FreeHash(n: Names, batches: seq<Batch>, content: string): seq<Batch> {
    match FindByFileHash(batches, Raw(n, content))
    case Some(b) => if batches[b].status == Failed then Rename(n, batches, b, content) else batches
    case None => batches
  }

  /** An accrual file that cannot be read gets no batch; a cash file always does. */
  predicate GetsBatch(accrual: bool, readable: bool) {
    !accrual || readable
  }

  function NewBatch(n: Names, content: string, accrual: bool): Batch {
    Batch(accrual, content, Raw(n, content), Processing, true)
  }

  /** An upload that nobody comes between. */
  function Started(n: Names, batches: seq<Batch>, content: string, accrual: bool, readable: bool): seq<Batch> {
    if IsDuplicateFile(n, batches, content) then batches
    else FreeHash(n, batches, content) + if GetsBatch(accrual, readable) then [NewBatch(n, content, accrual)] else []
  }

  /** The last write of an import sets the status without looking at it. */
  function Finished(batches: seq<Batch>, b: nat, ok: bool): seq<Batch> {
    if b < |batches| && batches[b].running
    then batches[b := batches[b].(status := if ok then Completed else Failed, running := false)]
    else batches
  }

  predicate CanFail(batches: seq<Batch>, b: nat) {
    b < |batches| && batches[b].accrual && batches[b].status == Processing
  }

  predicate CanRetry(batches: seq<Batch>, b: nat) {
    b < |batches| && batches[b].accrual && batches[b].status == Failed
  }

  /** What the watchdog and the manual failure do when nobody comes between. */
  function FailAccrual(batches: seq<Batch>, b: nat): seq<Batch> {
    if CanFail(batches, b) then batches[b := batches[b].(status := Failed)] else batches
  }

  function Retried(n: Names, batches: seq<Batch>, b: nat): seq<Batch> {
    if CanRetry(batches, b)
    then batches[b := batches[b].(fileHash := BeforeMark(batches[b].fileHash) + MARK + n.idText(b))]
    else batches
  }

  // ----- single repository calls as steps -----

  datatype Action =
    | Look(p: nat, content: string, accrual: bool, readable: bool)
    | Free(p: nat)
    | Create(p: nat)
    | Finish(b: nat, ok: bool)
    | ReadToFail(p: nat, b: nat)
    | ReadToRetry(p: nat, b: nat)
    | Write(p: nat)

  function LookUp(n: Names, s: Store, p: nat, content: string, accrual: bool, readable: bool): Store {
    if p in s.uploads || IsDuplicateFile(n, s.batches, content) then s
    else s.(uploads := s.uploads[p := Upload(content, accrual, readable, FindByFileHash(s.batches, Raw(n, content)), false)])
  }

  function OpenPending(s: Store, p: nat, x: Pending): Store {
    if p in s.pending then s else s.(pending := s.pending[p := x])
  }

  function FreeNow(n: Names, s: Store, p: nat): Store {
    if p !in s.uploads || s.uploads[p].freed then s
    else
      var u := s.uploads[p];
      s.(batches := if u.takesFrom.Some? then Rename(n, s.batches, u.takesFrom.value, u.content) else s.batches,
         uploads := if GetsBatch(u.accrual, u.readable) then s.uploads[p := u.(freed := true)] else s.uploads - {p})
  }

  function CreateNow(n: Names, s: Store, p: nat): Store {
    if p !in s.uploads || !s.uploads[p].freed then s
    else s.(batches := s.batches + [NewBatch(n, s.uploads[p].content, s.uploads[p].accrual)], uploads := s.uploads - {p})
  }

  /** The write of a failure or a retry does not look at the batch again. */
  function Written(n: Names, batches: seq<Batch>, x: Pending): seq<Batch> {
    if x.b >= |batches| then batches
    else
      match x
      case ToFail(b) => batches[b := batches[b].(status := Failed)]
      case ToRetry(b, rawHash) => batches[b := batches[b].(fileHash := rawHash + MARK + n.idText(b))]
  }

  function WriteNow(n: Names, s: Store, p: nat): Store {
    if p !in s.pending then s
    else s.(batches := Written(n, s.batches, s.pending[p]), pending := s.pending - {p})
  }

  function Step(n: Names, s: Store, a: Action): Store {
    match a
    case Look(p, content, accrual, readable) => LookUp(n, s, p, content, accrual, readable)
    case Free(p) => FreeNow(n, s, p)
    case Create(p) => CreateNow(n, s, p)
    case Finish(b, ok) => s.(batches := Finished(s.batches, b, ok))
    case ReadToFail(p, b) => if CanFail(s.batches, b) then OpenPending(s, p, ToFail(b)) else s
    case ReadToRetry(p, b) =>
      if CanRetry(s.batches, b) then OpenPending(s, p, ToRetry(b, BeforeMark(s.batches[b].fileHash))) else s
    case Write(p) => WriteNow(n, s, p)
  }

  function Run(n: Names, s: Store, actions: seq<Action>): Store
    decreases |actions|
  {
    if actions == [] then s else Run(n, Step(n, s, actions[0]), actions[1..])
  }

  /** The rest of an open upload. */
  function Complete(n: Names, s: Store, p: nat): Store {
    CreateNow(n, FreeNow(n, s, p), p)
  }

  /** An upload that nobody comes between does what the whole call says, and leaves the other open uploads alone. */
  lemma UndisturbedUpload(n: Names, s: Store, p: nat, content: string, accrual: bool, readable: bool)
    requires p !in s.uploads
    ensures Complete(n, LookUp(n, s, p, content, accrual, readable), p) ==
      s.(batches := Started(n, s.batches, content, accrual, readable))
  {
    var looked := LookUp(n, s, p, content, accrual, readable);
    if looked != s {
      var freed := FreeNow(n, looked, p);
      assert freed.batches == FreeHash(n, s.batches, content);
      assert freed.uploads - {p} == s.uploads;
      if !GetsBatch(accrual, readable) {
        assert freed.uploads == s.uploads;
        assert FreeHash(n, s.batches, content) + [] == FreeHash(n, s.batches, content);
      }
    }
  }

  /** A failure or a retry that nobody comes between does what the whole call says. */
  lemma UndisturbedWrite(n: Names, s: Store, p: nat, b: nat)
    requires p !in s.pending
    ensures Step(n, Step(n, s, ReadToFail(p, b)), Write(p)) == s.(batches := FailAccrual(s.batches, b))
    ensures Step(n, Step(n, s, ReadToRetry(p, b)), Write(p)) == s.(batches := Retried(n, s.batches, b))
  {
    var failing, retrying := Step(n, s, ReadToFail(p, b)), Step(n, s, ReadToRetry(p, b));
    assert failing.pending - {p} == s.pending && retrying.pending - {p} == s.pending;
  }

  // ----- names: what holds in every run -----

  predicate WellNamed(n: Names, batches: seq<Batch>, b: nat)
    requires b < |batches|
  {
    batches[b].fileHash == Raw(n, batches[b].content) || batches[b].fileHash == Superseded(n, batches[b].content, b)
  }

  predicate AllNamed(n: Names, batches: seq<Batch>) {
    forall b :: 0 <= b < |batches| ==> WellNamed(n, batches, b)
  }

  predicate Creates(u: Upload) {
    GetsBatch(u.accrual, u.readable)
  }

  /** The batch that an open upload is going to rename has the uploaded file. */
  predicate GoodUpload(batches: seq<Batch>, u: Upload) {
    && (u.takesFrom.Some? ==> u.takesFrom.value < |batches| && batches[u.takesFrom.value].content == u.content)
    && (u.freed ==> Creates(u))
  }

  /** What a retry has read is the raw hash of its batch's file. */
  predicate GoodPending(n: Names, batches: seq<Batch>, x: Pending) {
    x.b < |batches| && (x.ToRetry? ==> x.rawHash == Raw(n, batches[x.b].content))
  }

  predicate Named(n: Names, s: Store) {
    && AllNamed(n, s.batches)
    && (forall p :: p in s.uploads ==> GoodUpload(s.batches, s.uploads[p]))
    && (forall p :: p in s.pending ==> GoodPending(n, s.batches, s.pending[p]))
  }

  lemma HashTells(n: Names, c: string, d: string, i: nat, j: nat)
    requires Sound(n)
    ensures Raw(n, c) != Superseded(n, d, i)
    ensures Superseded(n, c, i) == Superseded(n, d, j) ==> c == d && i == j
  {
    assert Superseded(n, d, i)[|n.sha(d)|] == MARK[0] == ':';
    if Superseded(n, c, i) == Superseded(n, d, j) {
      BeforeMarkOfHash(n.sha(c), n.idText(i));
      BeforeMarkOfHash(n.sha(d), n.idText(j));
      var k := |n.sha(c) + MARK|;
      assert Superseded(n, c, i)[k..] == n.idText(i);
      assert Superseded(n, d, j)[k..] == n.idText(j);
    }
  }

  lemma RetryName(n: Names, batches: seq<Batch>, b: nat)
    requires Sound(n) && b < |batches| && WellNamed(n, batches, b)
    ensures BeforeMark(batches[b].fileHash) == Raw(n, batches[b].content)
    ensures BeforeMark(batches[b].fileHash) + MARK + n.idText(b) == Superseded(n, batches[b].content, b)
  {
    BeforeMarkOfHash(n.sha(batches[b].content), n.idText(b));
  }

  /** The batch that a lookup finds is a batch of that very file. */
  lemma FoundHasContent(n: Names, batches: seq<Batch>, content: string)
    requires Sound(n) && AllNamed(n, batches)
    ensures var found := FindByFileHash(batches, Raw(n, content)); found.Some? ==> batches[found.value].content == content
  {
    var found := FindByFileHash(batches, Raw(n, content));
    if found.Some? {
      assert WellNamed(n, batches, found.value);
      HashTells(n, content, batches[found.value].content, found.value, 0);
    }
  }

  lemma UpdateKeepsNamed(n: Names, s: Store, b: nat, x: Batch)
    requires Named(n, s) && b < |s.batches| && x.content == s.batches[b].content
    requires x.fileHash == s.batches[b].fileHash || x.fileHash == Superseded(n, x.content, b)
    ensures Named(n, s.(batches := s.batches[b := x]))
  {
    var t := s.batches[b := x];
    forall c | 0 <= c < |t| ensures WellNamed(n, t, c) {
      assert WellNamed(n, s.batches, c);
    }
    forall p | p in s.uploads ensures GoodUpload(t, s.uploads[p]) {
      assert GoodUpload(s.batches, s.uploads[p]);
    }
    forall p | p in s.pending ensures GoodPending(n, t, s.pending[p]) {
      assert GoodPending(n, s.batches, s.pending[p]);
    }
  }

  lemma LookKeepsNamed(n: Names, s: Store, p: nat, content: string, accrual: bool, readable: bool)
    requires Sound(n) && Named(n, s)
    ensures Named(n, LookUp(n, s, p, content, accrual, readable))
  {
    FoundHasContent(n, s.batches, content);
  }

  lemma FreeKeepsNamed(n: Names, s: Store, p: nat)
    requires Sound(n) && Named(n, s)
    ensures Named(n, FreeNow(n, s, p))
  {
    if p in s.uploads && s.uploads[p].takesFrom.Some? {
      assert GoodUpload(s.batches, s.uploads[p]);
      var b := s.uploads[p].takesFrom.value;
      UpdateKeepsNamed(n, s, b, s.batches[b].(fileHash := Superseded(n, s.uploads[p].content, b)));
    }
  }

  lemma CreateKeepsNamed(n: Names, s: Store, p: nat)
    requires Named(n, s)
    ensures Named(n, CreateNow(n, s, p))
  {
    var s' := CreateNow(n, s, p);
    forall b | 0 <= b < |s'.batches| ensures WellNamed(n, s'.batches, b) {
      if b < |s.batches| {
        assert WellNamed(n, s.batches, b);
      }
    }
    forall q | q in s'.uploads ensures GoodUpload(s'.batches, s'.uploads[q]) {
      assert GoodUpload(s.batches, s.uploads[q]);
    }
    forall q | q in s'.pending ensures GoodPending(n, s'.batches, s'.pending[q]) {
      assert GoodPending(n, s.batches, s.pending[q]);
    }
  }

  /** The batch that a pending write is going to leave. */
  function AfterWrite(n: Names, batches: seq<Batch>, x: Pending): Batch
    requires x.b < |batches|
  {
    if x.ToFail? then batches[x.b].(status := Failed) else batches[x.b].(fileHash := Superseded(n, batches[x.b].content, x.b))
  }

  lemma WrittenIs(n: Names, s: Store, p: nat)
    requires Named(n, s) && p in s.pending
    ensures var x := s.pending[p];
      x.b < |s.batches| && Written(n, s.batches, x) == s.batches[x.b := AfterWrite(n, s.batches, x)]
  {
    assert GoodPending(n, s.batches, s.pending[p]);
  }

  lemma WriteKeepsNamed(n: Names, s: Store, p: nat)
    requires Named(n, s)
    ensures Named(n, WriteNow(n, s, p))
  {
    if p in s.pending {
      WrittenIs(n, s, p);
      UpdateKeepsNamed(n, s, s.pending[p].b, AfterWrite(n, s.batches, s.pending[p]));
    }
  }

  lemma StepKeepsNamed(n: Names, s: Store, a: Action)
    requires Sound(n) && Named(n, s)
    ensures Named(n, Step(n, s, a))
  {
    match a
    case Look(p, content, accrual, readable) => LookKeepsNamed(n, s, p, content, accrual, readable);
    case Free(p) => FreeKeepsNamed(n, s, p);
    case Create(p) => CreateKeepsNamed(n, s, p);
    case ReadToFail(_, _) =>
    case ReadToRetry(_, b) =>
      if b < |s.batches| {
        RetryName(n, s.batches, b);
      }
    case Write(p) => WriteKeepsNamed(n, s, p);
    case Finish(b, ok) =>
      if b < |s.batches| {
        UpdateKeepsNamed(n, s, b, s.batches[b].(status := if ok then Completed else Failed, running := false));
      }
  }

  lemma {:induction false} RunKeepsNamed(n: Names, s: Store, actions: seq<Action>)
    requires Sound(n) && Named(n, s)
    ensures Named(n, Run(n, s, actions))
    decreases |actions|
  {
    if actions != [] {
      StepKeepsNamed(n, s, actions[0]);
      RunKeepsNamed(n, Step(n, s, actions[0]), actions[1..]);
    }
  }

  /** However retries of a batch overlap, the second write changes nothing: the suffix is never stacked. */
  lemma RetryIsIdempotent(n: Names, actions: seq<Action>, p: nat, q: nat)
    requires Sound(n)
    requires var s := Run(n, Blank(), actions);
      p in s.pending && q in s.pending && p != q && s.pending[p].ToRetry? && s.pending[q].ToRetry? && s.pending[p].b == s.pending[q].b
    ensures var once := WriteNow(n, Run(n, Blank(), actions), p); WriteNow(n, once, q).batches == once.batches
  {
    var s := Run(n, Blank(), actions);
    RunKeepsNamed(n, Blank(), actions);
    WrittenIs(n, s, p);
    WriteKeepsNamed(n, s, p);
    WrittenIs(n, WriteNow(n, s, p), q);
  }

  /** The same for two retries one after the other. */
  lemma SecondRetryChangesNothing(n: Names, actions: seq<Action>, b: nat)
    requires Sound(n)
    ensures var once := Retried(n, Run(n, Blank(), actions).batches, b); Retried(n, once, b) == once
  {
    var batches := Run(n, Blank(), actions).batches;
    RunKeepsNamed(n, Blank(), actions);
    if b < |batches| {
      RetryName(n, batches, b);
      BeforeMarkOfHash(n.sha(batches[b].content), n.idText(b));
    }
  }

  /** A file all of whose batches have failed can always be imported again, whatever else is going on. */
  lemma FailedContentCanBeImported(n: Names, actions: seq<Action>, p: nat, content: string, accrual: bool)
    requires Sound(n) && p !in Run(n, Blank(), actions).uploads
    requires forall b :: 0 <= b < |Run(n, Blank(), actions).batches| && Run(n, Blank(), actions).batches[b].content == content ==>
      Run(n, Blank(), actions).batches[b].status == Failed
    ensures var s := Run(n, Blank(), actions);
      var s' := Complete(n, LookUp(n, s, p, content, accrual, true), p);
      |s'.batches| == |s.batches| + 1 && s'.batches[|s.batches|] == NewBatch(n, content, accrual)
  {
    var s := Run(n, Blank(), actions);
    RunKeepsNamed(n, Blank(), actions);
    FoundHasContent(n, s.batches, content);
    UndisturbedUpload(n, s, p, content, accrual, true);
  }
}
