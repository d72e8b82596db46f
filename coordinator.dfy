/**
 * The round logic of the REST-based node revision (`run`,
 * `validateProposal`, `nextBundleProposal`, `downloadBundleFromArweave`,
 * `validate`, the uploader path of `uploadBundleToArweave`).
 *
 * Every network answer is an input: the successive pool snapshots that
 * `getPool` returns, the `can_vote` and `can_propose` answers, the status
 * answers and bodies of the download attempts, and the result of the Arweave
 * upload. The source polls forever;
 * the model stops with `OutOfObservations` when the recorded answers run out.
 */
module Coordinator {
  import opened Common
  import opened Storage
  import opened Cache

  /** The pool's current bundle proposal, as the registry reports it. */
  datatype BundleProposal = BundleProposal(
    uploader: string,
    nextUploader: string,
    bundleId: string,
    byteSize: int,
    fromHeight: int,
    toHeight: int,
    createdAt: int)

  /** The part of the pool state the round reads. */
  datatype PoolState = PoolState(
    paused: bool,
    heightArchived: int,
    minBundleSize: int,
    bundleProposal: BundleProposal)

  // ---------------------------------------------------------------- decisions

  /** A node takes part in validating a proposal that has an uploader other than itself, when the registry says it can vote. */
  predicate MayValidate(p: BundleProposal, self: string, canVote: bool) {
    p.uploader != "" && p.uploader != self && canVote
  }

  /** The uploader role of the next round is still free, so the node claims it. */
  predicate MustClaimUploader(p: BundleProposal) {
    p.nextUploader == ""
  }

  /** The node is the designated uploader of the next bundle. */
  predicate SelectedAsUploader(p: BundleProposal, self: string) {
    p.nextUploader == self
  }

  /** A newer proposal than the one the round started with exists. */
  predicate RoundAdvanced(createdAt: int, p: BundleProposal) {
    p.createdAt > createdAt
  }

  /** Arweave statuses under which a blob can be downloaded. */
  predicate BlobAvailable(status: int) {
    status == 200 || status == 202
  }

  /**
   * `downloadBundleFromArweave()`: the downloaded bytes, when the status query
   * answered 200 or 202 and the download itself did not fail. `status` is
   * `None` when the status query failed; `body` is what the download returns.
   */
  function DownloadBundle(status: Option<int>, body: Option<Bytes>): (r: Option<Bytes>)
    ensures r.Some? <==> status.Some? && BlobAvailable(status.value) && body.Some?
    ensures r.Some? ==> r == body
  {
    if status.Some? && BlobAvailable(status.value) then body else None
  }

  /** `validate()`: byte sizes must agree, and only then are the hashes compared. */
  function Validate<H(==)>(uploadBundle: Bytes, uploadBytes: int, downloadBundle: Bytes, downloadBytes: int, hash: Bytes -> H): bool {
    if uploadBytes != downloadBytes then false
    else hash(uploadBundle) == hash(downloadBundle)
  }

  /** A size mismatch is rejected whatever the contents. */
  lemma ValidateRejectsSizeMismatch<H>(u: Bytes, n: int, d: Bytes, m: int, hash: Bytes -> H)
    requires n != m
    ensures !Validate(u, n, d, m, hash)
  {
  }

  /** The comparison does not depend on which bundle is the local one. */
  lemma ValidateSymmetric<H>(u: Bytes, n: int, d: Bytes, m: int, hash: Bytes -> H)
    ensures Validate(u, n, d, m, hash) == Validate(d, m, u, n, hash)
  {
  }

  /** Identical bundles of equal reported size are accepted. */
  lemma ValidateAcceptsIdentical<H>(u: Bytes, n: int, hash: Bytes -> H)
    ensures Validate(u, n, u, n, hash)
  {
  }

  /** With a collision-free hash, changing one byte of the downloaded bundle makes it invalid. */
  lemma ValidateDetectsChangedByte<H>(u: Bytes, n: int, i: nat, b: Byte, hash: Bytes -> H)
    requires forall x, y :: hash(x) == hash(y) ==> x == y
    requires i < |u| && u[i] != b
    ensures !Validate(u, n, u[i := b], n, hash)
  {
    assert u[i := b][i] != u[i];
  }

  // ---------------------------------------------------------------- validation

  /** The encoded cached items of `[from, to)`, when all of them are cached. */
  function CachedItems(files: map<string, Value>, from: int, to: int, encode: Value -> Bytes): seq<Bytes>
    requires forall h :: from <= h < to ==> Lookup(files, Height(h)).Some?
  {
    seq(if from < to then to - from else 0, i requires 0 <= i && from + i < to => encode(Lookup(files, Height(from + i)).value))
  }

  /** A vote on a bundle. */
  datatype Vote = Vote(bundleId: string, valid: bool)

  /** One call of `downloadBundleFromArweave()`: the status answer (`None` when the query failed) and the downloaded body. */
  datatype DownloadAttempt = DownloadAttempt(status: Option<int>, body: Option<Bytes>)

  /** The bundle an attempt yields, through the status gate. */
  function Downloaded(a: DownloadAttempt): Option<Bytes> {
    DownloadBundle(a.status, a.body)
  }

  /** How `validateProposal()` ends. */
  datatype Validation =
    | Voted(vote: Vote)
    | RoundMovedOn
    | LocalItemMissing(height: int)
    | OutOfObservations

  /**
   * What `validateProposal(createdAt)` does with the snapshots `polls[pi..]`
   * and the download attempts: refresh the pool; stop when a newer proposal
   * exists; otherwise try to download the proposed bundle and, when that
   * succeeds, vote on whether it matches the bundle rebuilt from the cache.
   * A failed download is retried and never turns into a vote. `next` is the
   * index of the first snapshot not consumed; `tries` attempts were made, the
   * j-th of them right after snapshot `pi + j`.
   */
  ghost predicate ValidationOutcome<H>(
    files: map<string, Value>, createdAt: int, polls: seq<PoolState>, pi: nat, downloads: seq<DownloadAttempt>,
    encode: Value -> Bytes, pack: seq<Bytes> -> Bytes, hash: Bytes -> H,
    result: Validation, next: nat, tries: nat)
  {
    && pi + tries <= next <= |polls| && tries <= |downloads|
    && (forall j :: pi <= j < pi + tries ==> !RoundAdvanced(createdAt, polls[j].bundleProposal))
    && (forall j :: 0 <= j < tries - 1 ==> Downloaded(downloads[j]).None?)
    && (result.Voted? || result.LocalItemMissing? <==> 0 < tries && Downloaded(downloads[tries - 1]).Some?)
    && match result
       case RoundMovedOn =>
         next == pi + tries + 1 && RoundAdvanced(createdAt, polls[next - 1].bundleProposal)
       case OutOfObservations =>
         || (next == |polls| && next == pi + tries)
         || (tries == |downloads| && next == pi + tries + 1 && !RoundAdvanced(createdAt, polls[next - 1].bundleProposal))
       case Voted(vote) =>
         && next == pi + tries
         && var p := polls[next - 1].bundleProposal;
         && (forall h :: p.fromHeight <= h < p.toHeight ==> Lookup(files, Height(h)).Some?)
         && var bundle := Downloaded(downloads[tries - 1]).value;
         && vote == Vote(p.bundleId, Validate(pack(CachedItems(files, p.fromHeight, p.toHeight, encode)), p.byteSize, bundle, |bundle|, hash))
       case LocalItemMissing(height) =>
         && next == pi + tries
         && var p := polls[next - 1].bundleProposal;
         && p.fromHeight <= height < p.toHeight
         && Lookup(files, Height(height)) == None
         && forall h :: p.fromHeight <= h < height ==> Lookup(files, Height(h)).Some?
  }

  /** Two outcomes that fit the same answers made the same number of attempts. */
  lemma ValidationTriesUnique<H>(
    files: map<string, Value>, createdAt: int, polls: seq<PoolState>, pi: nat, downloads: seq<DownloadAttempt>,
    encode: Value -> Bytes, pack: seq<Bytes> -> Bytes, hash: Bytes -> H,
    r1: Validation, n1: nat, t1: nat, r2: Validation, n2: nat, t2: nat)
    requires ValidationOutcome(files, createdAt, polls, pi, downloads, encode, pack, hash, r1, n1, t1)
    requires ValidationOutcome(files, createdAt, polls, pi, downloads, encode, pack, hash, r2, n2, t2)
    ensures t1 <= t2
  {
  }

  /** The answers fix how validation ends: at most one outcome fits them. */
  lemma ValidationOutcomeUnique<H>(
    files: map<string, Value>, createdAt: int, polls: seq<PoolState>, pi: nat, downloads: seq<DownloadAttempt>,
    encode: Value -> Bytes, pack: seq<Bytes> -> Bytes, hash: Bytes -> H,
    r1: Validation, n1: nat, t1: nat, r2: Validation, n2: nat, t2: nat)
    requires ValidationOutcome(files, createdAt, polls, pi, downloads, encode, pack, hash, r1, n1, t1)
    requires ValidationOutcome(files, createdAt, polls, pi, downloads, encode, pack, hash, r2, n2, t2)
    ensures r1 == r2 && n1 == n2 && t1 == t2
  {
    ValidationTriesUnique(files, createdAt, polls, pi, downloads, encode, pack, hash, r1, n1, t1, r2, n2, t2);
    ValidationTriesUnique(files, createdAt, polls, pi, downloads, encode, pack, hash, r2, n2, t2, r1, n1, t1);
  }

  /** `validateProposal(createdAt)`, run against the recorded answers. */
  method ValidateProposal<H(==)>(
    db: Database, createdAt: int, polls: seq<PoolState>, pi: nat, downloads: seq<DownloadAttempt>,
    encode: Value -> Bytes, pack: seq<Bytes> -> Bytes, hash: Bytes -> H)
    returns (result: Validation, next: nat, tries: nat)
    requires pi <= |polls|
    ensures ValidationOutcome(db.files, createdAt, polls, pi, downloads, encode, pack, hash, result, next, tries)
  {
    next, tries := pi, 0;
    while true
      invariant next == pi + tries && next <= |polls| && tries <= |downloads|
      invariant forall j :: pi <= j < next ==> !RoundAdvanced(createdAt, polls[j].bundleProposal)
      invariant forall j :: 0 <= j < tries ==> Downloaded(downloads[j]).None?
      decreases |polls| - next
    {
      if next == |polls| {
        return OutOfObservations, next, tries;
      }
      var pool := polls[next];
      next := next + 1;
      var p := pool.bundleProposal;
      if RoundAdvanced(createdAt, p) {
        return RoundMovedOn, next, tries;
      }
      if tries == |downloads| {
        return OutOfObservations, next, tries;
      }
      var attempt := downloads[tries];
      var downloadBundle := DownloadBundle(attempt.status, attempt.body);
      tries := tries + 1;
      if downloadBundle.Some? {
        var local := LoadBundle(db, p.fromHeight, p.toHeight, encode);
        match local
        case Missing(h) =>
          return LocalItemMissing(h), next, tries;
        case Loaded(items) =>
          assert items == CachedItems(db.files, p.fromHeight, p.toHeight, encode);
          var valid := Validate(pack(items), p.byteSize, downloadBundle.value, |downloadBundle.value|, hash);
          return Voted(Vote(p.bundleId, valid)), next, tries;
      }
      // the source sleeps 30 s and retries
    }
  }

  /**
   * `nextBundleProposal(createdAt)`: poll until a proposal newer than
   * `createdAt` appears. `advanced` is false when the snapshots ran out first.
   */
  method NextBundleProposal(createdAt: int, polls: seq<PoolState>, pi: nat) returns (advanced: bool, next: nat)
    requires pi <= |polls|
    ensures pi <= next <= |polls|
    ensures advanced ==> pi < next && RoundAdvanced(createdAt, polls[next - 1].bundleProposal)
    ensures forall j :: pi <= j < next - 1 ==> !RoundAdvanced(createdAt, polls[j].bundleProposal)
    ensures !advanced ==> next == |polls| && forall j :: pi <= j < |polls| ==> !RoundAdvanced(createdAt, polls[j].bundleProposal)
  {
    next := pi;
    while next < |polls|
      invariant pi <= next <= |polls|
      invariant forall j :: pi <= j < next ==> !RoundAdvanced(createdAt, polls[j].bundleProposal)
    {
      next := next + 1;
      if RoundAdvanced(createdAt, polls[next - 1].bundleProposal) {
        return true, next;
      }
      // the source sleeps 2 s
    }
    advanced := false;
  }

  // ---------------------------------------------------------------- one round of `run`

  /** What the Arweave part of `uploadBundleToArweave()` did. */
  datatype UploadResult =
    | Posted(transactionId: string, dataSize: int)
    | UploadFailed
    | InsufficientFunds

  /** The proposal a node submits after posting its bundle. */
  datatype Submission = Submission(bundleId: string, byteSize: int, bundleSize: int)

  /** The network's answers during one round, in the order they are asked for. */
  datatype Observations = Observations(
    polls: seq<PoolState>,
    canVote: bool,
    downloads: seq<DownloadAttempt>,
    canPropose: seq<bool>,
    upload: UploadResult)

  /** How many of each kind of answer a round consumed. */
  datatype Consumed = Consumed(polls: nat, downloads: nat, canPropose: nat)

  /** How a round of `run` ends. */
  datatype RoundEnd =
    | PoolPaused                 // the pool is paused; the source sleeps 60 s
    | Advanced(createdAt: int)   // a newer proposal appeared
    | BundleUploaded             // the bundle was posted and proposed
    | UploadNotPosted            // the upload failed and was skipped
    | BundleAwaitingItems        // the bundle waits on an uncached height
    | WaitingForCache            // validation waits on an uncached height
    | OutOfFunds                 // the wallet cannot pay; the source exits
    | Starved                    // the recorded answers ran out

  /**
   * `uploadBundleToArweave()`: build a bundle from the cache starting at the
   * proposal's `toHeight`; stop the node when the wallet cannot pay for the
   * upload; once the bundle is posted, submit its id, byte size and item
   * count. A build that waits on the cache uploads nothing.
   */
  method UploadBundle(db: Database, pool: PoolState, upload: UploadResult, sizeOf: Entry -> nat)
    returns (built: BundleBuild, submission: Option<Submission>, outOfFunds: bool)
    ensures BundleBuilt(db.files, pool.bundleProposal.toHeight, pool.minBundleSize, sizeOf, built)
    ensures outOfFunds <==> built.Created? && upload.InsufficientFunds?
    ensures submission.Some? <==> built.Created? && upload.Posted?
    ensures submission.Some? ==>
      && upload == Posted(submission.value.bundleId, submission.value.byteSize)
      && submission.value.bundleSize == |built.bundle| <= BundleItemSizeLimit
  {
    built := CreateBundle(db, pool.bundleProposal.toHeight, pool.minBundleSize, sizeOf);
    submission, outOfFunds := None, false;
    if built.AwaitingItem? {
      return;
    }
    match upload
    case InsufficientFunds =>
      outOfFunds := true;
    case Posted(id, size) =>
      submission := Some(Submission(id, size, built.toHeight - built.fromHeight));
    case UploadFailed =>
  }

  /** How the uploader path ends once a bundle build has been attempted. */
  function UploadEnd(built: BundleBuild, upload: UploadResult): RoundEnd {
    if built.AwaitingItem? then BundleAwaitingItems
    else match upload
      case InsufficientFunds => OutOfFunds
      case Posted(_, _) => BundleUploaded
      case UploadFailed => UploadNotPosted
  }

  // ---------------------------------------------------------------- waiting for the uploader's turn

  /** How the inner polling loop of `run` ends. */
  datatype Turn =
    | Proposes     // selected as uploader and `can_propose` said yes
    | Superseded   // a newer proposal appeared
    | NoAnswers    // the recorded answers ran out

  /**
   * The inner loop of `run`, from snapshot `pi` on: each snapshot either
   * shows a newer proposal (the loop ends), or names this node as next
   * uploader (it asks `can_propose`, proposes on yes and polls again on no),
   * or names another node (it waits for a newer proposal through
   * `nextBundleProposal`). `next` snapshots and `asked` answers were used.
   */
  predicate TurnOutcome(self: string, createdAt: int, polls: seq<PoolState>, pi: nat, canPropose: seq<bool>,
                        turn: Turn, next: nat, asked: nat)
  {
    && pi + asked <= next <= |polls| && asked <= |canPropose|
    && (forall j :: pi <= j < pi + asked ==> SelectedAsUploader(polls[j].bundleProposal, self))
    && (forall j :: pi <= j < next ==> (RoundAdvanced(createdAt, polls[j].bundleProposal) <==> turn == Superseded && j == next - 1))
    && (forall i :: 0 <= i < asked ==> (canPropose[i] <==> turn == Proposes && i == asked - 1))
    && match turn
       case Proposes =>
         0 < asked && next == pi + asked
       case Superseded =>
         pi + asked < next && (next - 1 == pi + asked || !SelectedAsUploader(polls[pi + asked].bundleProposal, self))
       case NoAnswers =>
         || (next == |polls| && (next == pi + asked || !SelectedAsUploader(polls[pi + asked].bundleProposal, self)))
         || (asked == |canPropose| && next == pi + asked + 1 && SelectedAsUploader(polls[pi + asked].bundleProposal, self))
  }

  /** Every snapshot the loop answered `can_propose` on named this node and showed no newer proposal. */
  lemma TurnAskedAt(self: string, createdAt: int, polls: seq<PoolState>, pi: nat, canPropose: seq<bool>,
                    t: Turn, n: nat, a: nat, i: nat)
    requires TurnOutcome(self, createdAt, polls, pi, canPropose, t, n, a)
    requires i < a
    ensures pi + i < |polls| && SelectedAsUploader(polls[pi + i].bundleProposal, self)
    ensures !RoundAdvanced(createdAt, polls[pi + i].bundleProposal)
    ensures canPropose[i] <==> t == Proposes && i == a - 1
  {
  }

  /** Only the last snapshot the loop read can show a newer proposal, and only when the loop was superseded. */
  lemma TurnAdvancedAt(self: string, createdAt: int, polls: seq<PoolState>, pi: nat, canPropose: seq<bool>,
                       t: Turn, n: nat, a: nat, j: nat)
    requires TurnOutcome(self, createdAt, polls, pi, canPropose, t, n, a)
    requires pi <= j < n
    ensures RoundAdvanced(createdAt, polls[j].bundleProposal) <==> t == Superseded && j == n - 1
  {
  }

  /** Two outcomes of the loop that fit the same answers asked `can_propose` equally often. */
  lemma TurnAskedUnique(self: string, createdAt: int, polls: seq<PoolState>, pi: nat, canPropose: seq<bool>,
                        t1: Turn, n1: nat, a1: nat, t2: Turn, n2: nat, a2: nat)
    requires TurnOutcome(self, createdAt, polls, pi, canPropose, t1, n1, a1)
    requires TurnOutcome(self, createdAt, polls, pi, canPropose, t2, n2, a2)
    ensures a1 <= a2
  {
    if a2 < a1 {
      TurnAskedAt(self, createdAt, polls, pi, canPropose, t1, n1, a1, a2);
      if 0 < a2 {
        TurnAskedAt(self, createdAt, polls, pi, canPropose, t1, n1, a1, a2 - 1);
      }
      assert false;
    }
  }

  /** The answers fix how the loop ends: at most one outcome fits them. */
  lemma TurnOutcomeUnique(self: string, createdAt: int, polls: seq<PoolState>, pi: nat, canPropose: seq<bool>,
                          t1: Turn, n1: nat, a1: nat, t2: Turn, n2: nat, a2: nat)
    requires TurnOutcome(self, createdAt, polls, pi, canPropose, t1, n1, a1)
    requires TurnOutcome(self, createdAt, polls, pi, canPropose, t2, n2, a2)
    ensures t1 == t2 && n1 == n2 && a1 == a2
  {
    TurnAskedUnique(self, createdAt, polls, pi, canPropose, t1, n1, a1, t2, n2, a2);
    TurnAskedUnique(self, createdAt, polls, pi, canPropose, t2, n2, a2, t1, n1, a1);
    if 0 < a1 {
      TurnAskedAt(self, createdAt, polls, pi, canPropose, t1, n1, a1, a1 - 1);
      TurnAskedAt(self, createdAt, polls, pi, canPropose, t2, n2, a2, a1 - 1);
    }
    if pi < n1 && n1 - 1 < n2 {
      TurnAdvancedAt(self, createdAt, polls, pi, canPropose, t2, n2, a2, n1 - 1);
    }
    if pi < n2 && n2 - 1 < n1 {
      TurnAdvancedAt(self, createdAt, polls, pi, canPropose, t1, n1, a1, n2 - 1);
    }
  }

  /** The inner `while (true)` loop of `run`, run against the recorded answers. */
  method AwaitTurn(self: string, createdAt: int, polls: seq<PoolState>, pi: nat, canPropose: seq<bool>)
    returns (turn: Turn, next: nat, asked: nat)
    requires pi <= |polls|
    ensures TurnOutcome(self, createdAt, polls, pi, canPropose, turn, next, asked)
  {
    next, asked := pi, 0;
    while true
      invariant pi + asked == next <= |polls| && asked <= |canPropose|
      invariant forall j :: pi <= j < next ==> SelectedAsUploader(polls[j].bundleProposal, self)
      invariant forall j :: pi <= j < next ==> !RoundAdvanced(createdAt, polls[j].bundleProposal)
      invariant forall i :: 0 <= i < asked ==> !canPropose[i]
      decreases |polls| - next
    {
      if next == |polls| {
        return NoAnswers, next, asked;
      }
      var p := polls[next].bundleProposal;
      next := next + 1;
      if RoundAdvanced(createdAt, p) {
        return Superseded, next, asked;
      }
      if SelectedAsUploader(p, self) {
        if asked == |canPropose| {
          return NoAnswers, next, asked;
        }
        var possible := canPropose[asked];
        asked := asked + 1;
        if possible {
          return Proposes, next, asked;
        }
        // the source sleeps 10 s and asks again
      } else {
        var advanced;
        advanced, next := NextBundleProposal(createdAt, polls, next);
        turn := if advanced then Superseded else NoAnswers;
        return;
      }
    }
  }

  // ---------------------------------------------------------------- one round of `run`

  /**
   * What one round of `run` did: how validation ended (`None` when the node
   * did not validate), the index of the snapshot the round decided on
   * (`None` when it never got that far), whether it claimed the uploader
   * role, the bundle it built, the proposal it submitted, how it ended and
   * how many answers of each kind it consumed.
   */
  datatype RoundReport = RoundReport(
    validation: Option<Validation>,
    decisionPoll: Option<nat>,
    claimed: bool,
    built: Option<BundleBuild>,
    submission: Option<Submission>,
    end: RoundEnd,
    used: Consumed)

  /** Which way the inner loop went, as the round's end shows it. */
  function TurnOf(end: RoundEnd): Turn {
    match end
    case Advanced(_) => Superseded
    case Starved => NoAnswers
    case _ => Proposes
  }

  /** The validation part of a round that validated (`files` is the cache after eviction). */
  ghost predicate ValidationPhase<H>(files: map<string, Value>, createdAt: int, obs: Observations,
                                     encode: Value -> Bytes, pack: seq<Bytes> -> Bytes, hash: Bytes -> H, r: RoundReport)
    requires r.validation.Some?
  {
    var vNext := if r.decisionPoll.Some? then r.decisionPoll.value else r.used.polls;
    && ValidationOutcome(files, createdAt, obs.polls, 1, obs.downloads, encode, pack, hash, r.validation.value, vNext, r.used.downloads)
    && match r.validation.value
       case LocalItemMissing(_) => r.decisionPoll.None? && r.end == WaitingForCache
       case OutOfObservations => r.decisionPoll.None? && r.end == Starved
       case _ =>
         if vNext < |obs.polls| then r.decisionPoll == Some(vNext)
         else r.decisionPoll.None? && r.end == Starved
  }

  /** The uploader path: build from the pool's `toHeight`, then end and submit as the upload answer says. */
  predicate UploadPhase(files: map<string, Value>, pool: PoolState, upload: UploadResult, sizeOf: Entry -> nat, r: RoundReport)
    requires r.built.Some?
  {
    var built := r.built.value;
    && BundleBuilt(files, pool.bundleProposal.toHeight, pool.minBundleSize, sizeOf, built)
    && r.end == UploadEnd(built, upload)
    && r.submission == (if built.Created? && upload.Posted?
                        then Some(Submission(upload.transactionId, upload.dataSize, |built.bundle|))
                        else None)
  }

  /** The inner loop from snapshot `start` on, and the uploader path when it says to propose. */
  predicate TurnPhase(files: map<string, Value>, self: string, createdAt: int, obs: Observations,
                      sizeOf: Entry -> nat, start: nat, r: RoundReport)
  {
    && TurnOutcome(self, createdAt, obs.polls, start, obs.canPropose, TurnOf(r.end), r.used.polls, r.used.canPropose)
    && match TurnOf(r.end)
       case Proposes =>
         && r.built.Some? && 0 < r.used.polls
         && UploadPhase(files, obs.polls[r.used.polls - 1], obs.upload, sizeOf, r)
       case Superseded =>
         && r.built.None? && r.submission.None? && 0 < r.used.polls
         && r.end == Advanced(obs.polls[r.used.polls - 1].bundleProposal.createdAt)
       case NoAnswers =>
         r.built.None? && r.submission.None?
  }

  /**
   * The part of a round from its decision snapshot on: end when that
   * snapshot shows a newer proposal; claim the uploader role when it is
   * free (one more snapshot is read after the claim); then the inner loop,
   * and the uploader path when it says to propose.
   */
  predicate DecisionPhase(files: map<string, Value>, self: string, createdAt: int, obs: Observations,
                          sizeOf: Entry -> nat, r: RoundReport)
    requires r.decisionPoll.Some?
  {
    var k := r.decisionPoll.value;
    && k < |obs.polls|
    && var p := obs.polls[k].bundleProposal;
    && if RoundAdvanced(createdAt, p) then
         && !r.claimed && r.built.None? && r.submission.None? && r.end == Advanced(p.createdAt)
         && r.used.polls == k + 1 && r.used.canPropose == 0
       else
         && r.claimed == MustClaimUploader(p)
         && var start := k + (if r.claimed then 2 else 1);
         && if start > |obs.polls| then
              && r.built.None? && r.submission.None? && r.end == Starved
              && r.used.polls == |obs.polls| && r.used.canPropose == 0
            else
              TurnPhase(files, self, createdAt, obs, sizeOf, start, r)
  }

  /**
   * One round of `run` against the recorded answers (`files` is the cache
   * after the round's eviction): refresh the pool and remember the
   * proposal's `createdAt`; wait if the pool is paused; validate the current
   * proposal when another node uploaded it and voting is possible, then
   * refresh the pool once more; decide on the snapshot at hand.
   */
  ghost predicate RoundOutcome<H>(files: map<string, Value>, self: string, obs: Observations,
                                  encode: Value -> Bytes, pack: seq<Bytes> -> Bytes, hash: Bytes -> H,
                                  sizeOf: Entry -> nat, r: RoundReport)
  {
    && |obs.polls| > 0
    && var first := obs.polls[0];
    && var createdAt := first.bundleProposal.createdAt;
    && (first.paused ==> r == RoundReport(None, None, false, None, None, PoolPaused, Consumed(1, 0, 0)))
    && (!first.paused ==>
         && (r.validation.Some? <==> MayValidate(first.bundleProposal, self, obs.canVote))
         && (r.validation.None? ==> r.decisionPoll == Some(0) && r.used.downloads == 0)
         && (r.validation.Some? ==> ValidationPhase(files, createdAt, obs, encode, pack, hash, r))
         && (r.decisionPoll.None? ==> !r.claimed && r.built.None? && r.submission.None? && r.used.canPropose == 0)
         && (r.decisionPoll.Some? ==> DecisionPhase(files, self, createdAt, obs, sizeOf, r)))
  }

  /** From the same decision snapshot on, the answers fix the rest of the round. */
  lemma DecisionPhaseUnique(files: map<string, Value>, self: string, createdAt: int, obs: Observations,
                            sizeOf: Entry -> nat, r1: RoundReport, r2: RoundReport)
    requires r1.decisionPoll.Some? && r1.decisionPoll == r2.decisionPoll
    requires DecisionPhase(files, self, createdAt, obs, sizeOf, r1) && DecisionPhase(files, self, createdAt, obs, sizeOf, r2)
    ensures r1.claimed == r2.claimed && r1.built == r2.built && r1.submission == r2.submission && r1.end == r2.end
    ensures r1.used.polls == r2.used.polls && r1.used.canPropose == r2.used.canPropose
  {
    var k := r1.decisionPoll.value;
    if !RoundAdvanced(createdAt, obs.polls[k].bundleProposal) {
      var start := k + (if r1.claimed then 2 else 1);
      if start <= |obs.polls| {
        TurnOutcomeUnique(self, createdAt, obs.polls, start, obs.canPropose,
                          TurnOf(r1.end), r1.used.polls, r1.used.canPropose, TurnOf(r2.end), r2.used.polls, r2.used.canPropose);
        if r1.built.Some? {
          var pool := obs.polls[r1.used.polls - 1];
          BundleBuiltUnique(files, pool.bundleProposal.toHeight, pool.minBundleSize, sizeOf, r1.built.value, r2.built.value);
        }
      }
    }
  }

  /** The answers fix how far validation got and on which snapshot the round decides. */
  lemma ValidationPhaseUnique<H>(files: map<string, Value>, createdAt: int, obs: Observations,
                                 encode: Value -> Bytes, pack: seq<Bytes> -> Bytes, hash: Bytes -> H,
                                 r1: RoundReport, r2: RoundReport)
    requires r1.validation.Some? && r2.validation.Some?
    requires ValidationPhase(files, createdAt, obs, encode, pack, hash, r1)
    requires ValidationPhase(files, createdAt, obs, encode, pack, hash, r2)
    ensures r1.validation == r2.validation && r1.decisionPoll == r2.decisionPoll && r1.used.downloads == r2.used.downloads
    ensures r1.decisionPoll.None? ==> r1.used.polls == r2.used.polls && r1.end == r2.end
  {
    var v1 := if r1.decisionPoll.Some? then r1.decisionPoll.value else r1.used.polls;
    var v2 := if r2.decisionPoll.Some? then r2.decisionPoll.value else r2.used.polls;
    ValidationOutcomeUnique(files, createdAt, obs.polls, 1, obs.downloads, encode, pack, hash,
                            r1.validation.value, v1, r1.used.downloads, r2.validation.value, v2, r2.used.downloads);
  }

  /** The answers fix the whole round: at most one report fits them. */
  lemma RoundOutcomeUnique<H>(files: map<string, Value>, self: string, obs: Observations,
                              encode: Value -> Bytes, pack: seq<Bytes> -> Bytes, hash: Bytes -> H,
                              sizeOf: Entry -> nat, r1: RoundReport, r2: RoundReport)
    requires RoundOutcome(files, self, obs, encode, pack, hash, sizeOf, r1)
    requires RoundOutcome(files, self, obs, encode, pack, hash, sizeOf, r2)
    ensures r1 == r2
  {
    var first := obs.polls[0];
    var createdAt := first.bundleProposal.createdAt;
    if !first.paused {
      if r1.validation.Some? {
        ValidationPhaseUnique(files, createdAt, obs, encode, pack, hash, r1, r2);
      }
      if r1.decisionPoll.Some? {
        DecisionPhaseUnique(files, self, createdAt, obs, sizeOf, r1, r2);
      }
    }
  }

  /** What a round's report says in brief: the answers it consumed, why it starved, and what it submitted. */
  lemma RoundOutcomeFacts<H>(files: map<string, Value>, self: string, obs: Observations,
                             encode: Value -> Bytes, pack: seq<Bytes> -> Bytes, hash: Bytes -> H,
                             sizeOf: Entry -> nat, r: RoundReport)
    requires RoundOutcome(files, self, obs, encode, pack, hash, sizeOf, r)
    ensures 1 <= r.used.polls <= |obs.polls| && r.used.downloads <= |obs.downloads| && r.used.canPropose <= |obs.canPropose|
    ensures r.end.Starved? ==>
      r.used.polls == |obs.polls| || r.used.downloads == |obs.downloads| || r.used.canPropose == |obs.canPropose|
    ensures r.submission.Some? ==> r.end == BundleUploaded && obs.upload == Posted(r.submission.value.bundleId, r.submission.value.byteSize)
    ensures r.submission.Some? ==> r.submission.value.bundleSize <= BundleItemSizeLimit
    ensures r.end.Advanced? ==>
      r.end.createdAt == obs.polls[r.used.polls - 1].bundleProposal.createdAt > obs.polls[0].bundleProposal.createdAt
  {
  }

  /**
   * The part of a round from its decision snapshot `k` on, as `run` does it
   * after validation. `validation` and `tries` are carried into the report.
   */
  method FinishRound(db: Database, self: string, createdAt: int, obs: Observations, sizeOf: Entry -> nat,
                     validation: Option<Validation>, k: nat, tries: nat)
    returns (r: RoundReport)
    requires k < |obs.polls|
    ensures r.validation == validation && r.decisionPoll == Some(k) && r.used.downloads == tries
    ensures DecisionPhase(db.files, self, createdAt, obs, sizeOf, r)
  {
    var polls := obs.polls;
    var next := k + 1;
    var p := polls[k].bundleProposal;
    if RoundAdvanced(createdAt, p) {
      return RoundReport(validation, Some(k), false, None, None, Advanced(p.createdAt), Consumed(next, tries, 0));
    }
    var claimed := MustClaimUploader(p);
    if claimed {
      if next == |polls| {
        return RoundReport(validation, Some(k), true, None, None, Starved, Consumed(next, tries, 0));
      }
      // the snapshot read right after the claim is not looked at
      next := next + 1;
    }

    r := TakeTurn(db, self, createdAt, obs, sizeOf, validation, k, claimed, next, tries);
  }

  /** The inner loop of `run` from snapshot `start` on, then the upload when the loop says to propose. */
  method TakeTurn(db: Database, self: string, createdAt: int, obs: Observations, sizeOf: Entry -> nat,
                  validation: Option<Validation>, k: nat, claimed: bool, start: nat, tries: nat)
    returns (r: RoundReport)
    requires start <= |obs.polls|
    ensures r.validation == validation && r.decisionPoll == Some(k) && r.claimed == claimed && r.used.downloads == tries
    ensures TurnPhase(db.files, self, createdAt, obs, sizeOf, start, r)
  {
    var polls := obs.polls;
    var turn, next, asked := AwaitTurn(self, createdAt, polls, start, obs.canPropose);
    match turn
    case Superseded =>
      r := RoundReport(validation, Some(k), claimed, None, None, Advanced(polls[next - 1].bundleProposal.createdAt), Consumed(next, tries, asked));
    case NoAnswers =>
      r := RoundReport(validation, Some(k), claimed, None, None, Starved, Consumed(next, tries, asked));
    case Proposes =>
      var built, submission, outOfFunds := UploadBundle(db, polls[next - 1], obs.upload, sizeOf);
      var end := if outOfFunds then OutOfFunds
                 else if built.AwaitingItem? then BundleAwaitingItems
                 else if submission.Some? then BundleUploaded
                 else UploadNotPosted;
      r := RoundReport(validation, Some(k), claimed, Some(built), submission, end, Consumed(next, tries, asked));
  }

  /**
   * One round of `run`: refresh the pool; wait if it is paused; evict
   * finalized heights; validate when another node uploaded the proposal and
   * voting is possible, then refresh the pool once more; on the snapshot now
   * at hand end the round if a newer proposal exists, and claim the uploader
   * role when it is free; then either upload the next bundle (when selected
   * and allowed to propose) or wait for a newer proposal.
   */
  method RunRound<H(==)>(
    db: Database, self: string, obs: Observations,
    encode: Value -> Bytes, pack: seq<Bytes> -> Bytes, hash: Bytes -> H, sizeOf: Entry -> nat)
    returns (r: RoundReport)
    requires |obs.polls| > 0
    modifies db
    ensures var first := obs.polls[0];
      && (first.paused ==> db.files == old(db.files))
      && (!first.paused ==> db.files == Evicted(old(db.files), first.heightArchived))
    ensures RoundOutcome(db.files, self, obs, encode, pack, hash, sizeOf, r)
    ensures 1 <= r.used.polls <= |obs.polls| && r.used.downloads <= |obs.downloads| && r.used.canPropose <= |obs.canPropose|
    ensures r.end.Starved? ==>
      r.used.polls == |obs.polls| || r.used.downloads == |obs.downloads| || r.used.canPropose == |obs.canPropose|
    ensures r.submission.Some? ==> r.end == BundleUploaded && obs.upload == Posted(r.submission.value.bundleId, r.submission.value.byteSize)
    ensures r.submission.Some? ==> r.submission.value.bundleSize <= BundleItemSizeLimit
    ensures r.end.Advanced? ==>
      r.end.createdAt == obs.polls[r.used.polls - 1].bundleProposal.createdAt > obs.polls[0].bundleProposal.createdAt
  {
    var polls := obs.polls;
    var pool := polls[0];
    var createdAt := pool.bundleProposal.createdAt;
    if pool.paused {
      r := RoundReport(None, None, false, None, None, PoolPaused, Consumed(1, 0, 0));
      RoundOutcomeFacts(db.files, self, obs, encode, pack, hash, sizeOf, r);
      return;
    }
    var _ := ClearFinalizedData(db, pool.heightArchived);
    r := ValidateAndDecide(db, self, obs, encode, pack, hash, sizeOf);
    RoundOutcomeFacts(db.files, self, obs, encode, pack, hash, sizeOf, r);
  }

  /** A round of `run` on an unpaused pool, once finalized heights are evicted. */
  method ValidateAndDecide<H(==)>(
    db: Database, self: string, obs: Observations,
    encode: Value -> Bytes, pack: seq<Bytes> -> Bytes, hash: Bytes -> H, sizeOf: Entry -> nat)
    returns (r: RoundReport)
    requires |obs.polls| > 0 && !obs.polls[0].paused
    ensures RoundOutcome(db.files, self, obs, encode, pack, hash, sizeOf, r)
  {
    var polls := obs.polls;
    var pool := polls[0];
    var createdAt := pool.bundleProposal.createdAt;
    if !MayValidate(pool.bundleProposal, self, obs.canVote) {
      r := FinishRound(db, self, createdAt, obs, sizeOf, None, 0, 0);
    } else {
      var outcome, next, tries := ValidateProposal(db, createdAt, polls, 1, obs.downloads, encode, pack, hash);
      if outcome.LocalItemMissing? {
        r := RoundReport(Some(outcome), None, false, None, None, WaitingForCache, Consumed(next, tries, 0));
      } else if outcome.OutOfObservations? || next == |polls| {
        r := RoundReport(Some(outcome), None, false, None, None, Starved, Consumed(next, tries, 0));
      } else {
        // the decision snapshot is the refresh right after validation
        r := FinishRound(db, self, createdAt, obs, sizeOf, Some(outcome), next, tries);
      }
    }
  }
}
