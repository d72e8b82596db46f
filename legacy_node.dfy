/**
 * The round logic and node setup of the contract-based node revision:
 * `validate`, the uploader and validator conditions of `run`, the `canVote`
 * gate of `vote`, the upload-timeout claim of `waitForNextBlockInstructions`,
 * and the stake and commission reconciliation done at start-up.
 */
module LegacyNode {
  import opened Common
  import opened LevelWorker

  /** `ethers.constants.AddressZero`. */
  const ZeroAddress: string := "0x0000000000000000000000000000000000000000"

  /** Who uploads next and from which height. */
  datatype BlockInstructions = BlockInstructions(uploader: string, fromHeight: int)

  /** The proposal the pool contract currently holds. */
  datatype BlockProposal = BlockProposal(uploader: string, txId: string, byteSize: int, fromHeight: int, toHeight: int, start: int)

  // ---------------------------------------------------------------- comparator

  /** `validate()`: byte sizes must agree, and only then are the hashes of the two bundles compared. */
  function Validate<H(==)>(uploadBundle: seq<Bytes>, uploadBytes: int, downloadBundle: seq<Bytes>, downloadBytes: int,
                           hash: seq<Bytes> -> H): bool {
    if uploadBytes != downloadBytes then false
    else hash(uploadBundle) == hash(downloadBundle)
  }

  /** A size mismatch is rejected whatever the contents; equal sizes leave the decision to the hashes. */
  lemma ValidateDecidesBySizeThenHash<H>(u: seq<Bytes>, n: int, d: seq<Bytes>, m: int, hash: seq<Bytes> -> H)
    ensures n != m ==> !Validate(u, n, d, m, hash)
    ensures n == m ==> (Validate(u, n, d, m, hash) <==> hash(u) == hash(d))
    ensures Validate(u, n, d, m, hash) == Validate(d, m, u, n, hash)
  {
  }

  /** With a collision-free hash, a bundle that differs in any item is rejected. */
  lemma ValidateRejectsChangedItem<H>(u: seq<Bytes>, n: int, i: nat, item: Bytes, hash: seq<Bytes> -> H)
    requires forall x, y :: hash(x) == hash(y) ==> x == y
    requires i < |u| && u[i] != item
    ensures !Validate(u, n, u[i := item], n, hash)
  {
    assert u[i := item][i] != u[i];
  }

  // ---------------------------------------------------------------- round conditions

  /** The node uploads when the instructions name nobody (the zero address) or itself. */
  predicate ActsAsUploader(instructions: BlockInstructions, self: string) {
    instructions.uploader == ZeroAddress || instructions.uploader == self
  }

  /** The node checks a proposal uploaded by some other node. */
  predicate ActsAsValidator(proposal: BlockProposal, self: string) {
    proposal.uploader != ZeroAddress && proposal.uploader != self
  }

  /** Arweave statuses under which a transaction's data can be fetched. */
  predicate BlobAvailable(status: int) {
    status == 200 || status == 202
  }

  /** When the upload timeout fires, the node claims the uploader role unless it is the designated uploader. */
  predicate ClaimsOnTimeout(instructions: BlockInstructions, self: string) {
    instructions.uploader != self
  }

  /** A vote to send. */
  datatype Vote = Vote(transaction: string, valid: bool)

  /** `vote()`: nothing is sent when the node has no voting power. */
  method SendVote(canVote: bool, vote: Vote) returns (sent: Option<Vote>)
    ensures sent.Some? <==> canVote
    ensures sent.Some? ==> sent.value == vote
  {
    if !canVote {
      return None;
    }
    sent := Some(vote);
  }

  /** What `uploadBundleToArweave()` produced. */
  datatype Upload = Uploaded(transactionId: string, dataSize: int) | UploadFailed | InsufficientFunds

  /** A submitted block proposal. */
  datatype Submission = Submission(transactionId: string, dataSize: int, bundleSize: int)

  /** How a round ends. */
  datatype RoundEnd = PoolPaused | NotValidator | OutOfFunds | Completed

  /** The network's and the runtime's answers during one round. */
  datatype Observations = Observations(
    paused: bool,
    height: int,
    isValidator: bool,
    instructions: BlockInstructions,
    bundle: seq<Bytes>,
    upload: Upload,
    timedOut: bool,
    proposal: BlockProposal,
    status: Option<int>,
    data: Option<Bytes>,
    canVote: bool)

  /**
   * The decisions of one round of `run`, given the network's answers: a paused
   * pool or a node that is not a validator ends the round at once; an
   * uploader whose wallet cannot pay stops the node; otherwise the round
   * completes. It submits a proposal when the node uploads (zero-address or
   * own instructions) and the upload returned a transaction; it claims the
   * uploader role when the upload timeout fires and the node is not the
   * designated uploader; and it votes when another node uploaded, the data is
   * available and came back, and the node has voting power.
   */
  ghost predicate RoundOutcome<H>(self: string, obs: Observations, parseBundle: Bytes -> seq<Bytes>, hash: seq<Bytes> -> H,
                                submission: Option<Submission>, claimed: bool, vote: Option<Vote>, end: RoundEnd)
  {
    && (end == PoolPaused <==> obs.paused)
    && (end == NotValidator <==> !obs.paused && !obs.isValidator)
    && (end == OutOfFunds <==>
         !obs.paused && obs.isValidator && ActsAsUploader(obs.instructions, self) && obs.upload.InsufficientFunds?)
    && (submission.Some? <==> end == Completed && ActsAsUploader(obs.instructions, self) && obs.upload.Uploaded?)
    && (submission.Some? ==> submission.value == Submission(obs.upload.transactionId, obs.upload.dataSize, |obs.bundle|))
    && (claimed <==> end == Completed && obs.timedOut && ClaimsOnTimeout(obs.instructions, self))
    && (vote.Some? <==>
         && end == Completed && ActsAsValidator(obs.proposal, self)
         && obs.status.Some? && BlobAvailable(obs.status.value) && obs.data.Some? && obs.canVote)
    && (vote.Some? ==>
         vote.value == Vote(obs.proposal.txId, Validate(obs.bundle, obs.proposal.byteSize,
                                                       parseBundle(obs.data.value), |obs.data.value|, hash)))
  }

  /** The answers fix the outcome: no two different outcomes meet the round's description. */
  lemma RoundOutcomeUnique<H>(self: string, obs: Observations, parseBundle: Bytes -> seq<Bytes>, hash: seq<Bytes> -> H,
                                  s1: Option<Submission>, c1: bool, v1: Option<Vote>, e1: RoundEnd,
                                  s2: Option<Submission>, c2: bool, v2: Option<Vote>, e2: RoundEnd)
    requires RoundOutcome(self, obs, parseBundle, hash, s1, c1, v1, e1)
    requires RoundOutcome(self, obs, parseBundle, hash, s2, c2, v2, e2)
    ensures s1 == s2 && c1 == c2 && v1 == v2 && e1 == e2
  {
  }

  /**
   * What a round does after its eviction: upload and submit as uploader,
   * claim the uploader role on timeout, then validate the new proposal and
   * vote when possible.
   */
  method CompleteRound<H(==)>(self: string, obs: Observations, parseBundle: Bytes -> seq<Bytes>, hash: seq<Bytes> -> H)
    returns (submission: Option<Submission>, claimed: bool, vote: Option<Vote>, end: RoundEnd)
    requires !obs.paused && obs.isValidator
    ensures RoundOutcome(self, obs, parseBundle, hash, submission, claimed, vote, end)
  {
    submission, claimed, vote := None, false, None;
    var uploadBundle := obs.bundle;
    if ActsAsUploader(obs.instructions, self) {
      match obs.upload {
        case InsufficientFunds =>
          return submission, claimed, vote, OutOfFunds;
        case Uploaded(id, size) =>
          submission := Some(Submission(id, size, |uploadBundle|));
        case UploadFailed =>
      }
    }

    if obs.timedOut && ClaimsOnTimeout(obs.instructions, self) {
      claimed := true;
    }

    var proposal := obs.proposal;
    if ActsAsValidator(proposal, self) {
      if obs.status.Some? && BlobAvailable(obs.status.value) && obs.data.Some? {
        var data := obs.data.value;
        var valid := Validate(uploadBundle, proposal.byteSize, parseBundle(data), |data|, hash);
        vote := SendVote(obs.canVote, Vote(proposal.txId, valid));
      }
    }
    end := Completed;
  }

  /**
   * One round of `run` as written: wait while paused; stop when the node is
   * not a validator; clear every key below the pool's height, the worker's
   * head under key -1 included; then complete the round.
   */
  method RunRound<H(==)>(db: LevelCache, self: string, obs: Observations, parseBundle: Bytes -> seq<Bytes>, hash: seq<Bytes> -> H)
    returns (submission: Option<Submission>, claimed: bool, vote: Option<Vote>, end: RoundEnd)
    modifies db
    ensures RoundOutcome(self, obs, parseBundle, hash, submission, claimed, vote, end)
    ensures obs.paused || !obs.isValidator ==> db.entries == old(db.entries)
    ensures !obs.paused && obs.isValidator ==> db.entries == ClearBelowEntries(old(db.entries), obs.height)
  {
    if obs.paused {
      return None, false, None, PoolPaused;
    }
    if !obs.isValidator {
      return None, false, None, NotValidator;
    }
    db.ClearBelow(obs.height);
    submission, claimed, vote, end := CompleteRound(self, obs, parseBundle, hash);
  }

  /** The round with the eviction the worker needs: heights below the pool's height go, the worker's head stays. */
  method RunRoundKeepingHead<H(==)>(db: LevelCache, self: string, obs: Observations, parseBundle: Bytes -> seq<Bytes>, hash: seq<Bytes> -> H)
    returns (submission: Option<Submission>, claimed: bool, vote: Option<Vote>, end: RoundEnd)
    modifies db
    ensures RoundOutcome(self, obs, parseBundle, hash, submission, claimed, vote, end)
    ensures obs.paused || !obs.isValidator ==> db.entries == old(db.entries)
    ensures !obs.paused && obs.isValidator ==> db.entries == ClearFinalizedEntries(old(db.entries), obs.height)
  {
    if obs.paused {
      return None, false, None, PoolPaused;
    }
    if !obs.isValidator {
      return None, false, None, NotValidator;
    }
    db.ClearFinalized(obs.height);
    submission, claimed, vote, end := CompleteRound(self, obs, parseBundle, hash);
  }

  // ---------------------------------------------------------------- stake and commission

  /** A `BigNumber`: an exact decimal, or `NaN` for text that is not a number (it does not throw). */
  datatype Amount = Finite(value: real) | NaN

  /** `multipliedBy(10^18)`: from tokens (or percent) to base units. */
  function ToBaseUnits(a: Amount): (r: Amount)
    ensures r.Finite? <==> a.Finite?
  {
    match a
    case Finite(v) => Finite(v * 1000000000000000000.0)
    case NaN => NaN
  }

  /** What `setupNodeStake()` does. */
  datatype StakeStep = ExitZeroStake | ExitBelowMinimum | ExitInvalidStake | StakeMore(amount: real) | Unstake(amount: real) | AlreadyStaked

  /** The node's stake after a step that sends a transaction or sends none. */
  function StakeAfter(nodeStake: int, step: StakeStep): real {
    match step
    case StakeMore(d) => nodeStake as real + d
    case Unstake(d) => nodeStake as real - d
    case _ => nodeStake as real
  }

  /**
   * `setupNodeStake()` as written: a zero stake is fatal, one below the
   * minimum exits, otherwise the difference to the current stake is staked or
   * unstaked. A `NaN` compares false everywhere and ends as "already staked".
   */
  function SetupNodeStake(stake: Amount, nodeStake: int, minStake: int): (r: StakeStep)
    ensures r.StakeMore? ==> r.amount > 0.0 && stake.Finite? && StakeAfter(nodeStake, r) == ToBaseUnits(stake).value
    ensures r.Unstake? ==> r.amount > 0.0 && stake.Finite? && StakeAfter(nodeStake, r) == ToBaseUnits(stake).value
    ensures r == AlreadyStaked ==> stake.NaN? || ToBaseUnits(stake).value == nodeStake as real
    ensures r == ExitZeroStake <==> stake == Finite(0.0)
    ensures stake.Finite? && stake.value != 0.0 ==> (r == ExitBelowMinimum <==> ToBaseUnits(stake).value < minStake as real)
    ensures !r.ExitInvalidStake?
  {
    match ToBaseUnits(stake)
    case NaN => AlreadyStaked
    case Finite(parsed) =>
      if parsed == 0.0 then ExitZeroStake
      else if parsed < minStake as real then ExitBelowMinimum
      else if parsed > nodeStake as real then StakeMore(parsed - nodeStake as real)
      else if parsed < nodeStake as real then Unstake(nodeStake as real - parsed)
      else AlreadyStaked
  }

  /** Text that is not a number is taken as a request to keep the current stake. */
  lemma InvalidStakeKeepsCurrentStake(nodeStake: int, minStake: int)
    ensures SetupNodeStake(NaN, nodeStake, minStake) == AlreadyStaked
  {
  }

  /** The reconciliation the error handling evidently intends: a stake that is not a number is rejected. */
  function SetupNodeStakeChecked(stake: Amount, nodeStake: int, minStake: int): (r: StakeStep)
    ensures stake.NaN? <==> r == ExitInvalidStake
    ensures stake.Finite? ==> r == SetupNodeStake(stake, nodeStake, minStake)
    ensures r.StakeMore? || r.Unstake? || r == AlreadyStaked ==>
      && stake.Finite? && stake.value != 0.0
      && ToBaseUnits(stake).value >= minStake as real
      && StakeAfter(nodeStake, r) == ToBaseUnits(stake).value
  {
    if stake.NaN? then ExitInvalidStake else SetupNodeStake(stake, nodeStake, minStake)
  }

  /** What `setupNodeCommission()` does. */
  datatype CommissionStep = ExitCommissionOutOfRange | UpdateCommission(commission: Amount) | CommissionAlreadySet

  /** The range check as written, on the already scaled value: `lt(0) && gt(100)`. */
  predicate CommissionRejectedAsWritten(parsed: Amount) {
    parsed.Finite? && parsed.value < 0.0 && parsed.value > 100.0
  }

  /** `setupNodeCommission()` as written: send an update whenever the scaled commission differs from the current one. */
  function SetupNodeCommission(commission: Amount, nodeCommission: int): (r: CommissionStep)
    ensures r.UpdateCommission? ==> r.commission == ToBaseUnits(commission)
    ensures r.UpdateCommission? <==> !(ToBaseUnits(commission).Finite? && ToBaseUnits(commission).value == nodeCommission as real)
  {
    var parsed := ToBaseUnits(commission);
    if CommissionRejectedAsWritten(parsed) then ExitCommissionOutOfRange
    else if !(parsed.Finite? && parsed.value == nodeCommission as real) then UpdateCommission(parsed)
    else CommissionAlreadySet
  }

  /** The range check can never reject: no number is both below 0 and above 100. */
  lemma CommissionRangeCheckNeverRejects(commission: Amount, nodeCommission: int)
    ensures SetupNodeCommission(commission, nodeCommission) != ExitCommissionOutOfRange
  {
  }

  /** A concrete case: a commission of 150 percent is sent to the contract. */
  lemma CommissionOf150IsSent()
    ensures SetupNodeCommission(Finite(150.0), 0) == UpdateCommission(Finite(150000000000000000000.0))
  {
  }

  /** A percentage between 0 and 100. */
  predicate CommissionInRange(commission: Amount) {
    commission.Finite? && 0.0 <= commission.value <= 100.0
  }

  /** The commission setup the error message evidently intends: reject anything outside 0..100 percent, then update only on a change. */
  function SetupNodeCommissionChecked(commission: Amount, nodeCommission: int): (r: CommissionStep)
    ensures r == ExitCommissionOutOfRange <==> !CommissionInRange(commission)
    ensures r.UpdateCommission? ==> CommissionInRange(commission) && r.commission == ToBaseUnits(commission)
                                    && r.commission.value != nodeCommission as real
    ensures r == CommissionAlreadySet ==> ToBaseUnits(commission) == Finite(nodeCommission as real)
  {
    if !CommissionInRange(commission) then ExitCommissionOutOfRange
    else
      var parsed := ToBaseUnits(commission);
      if parsed.value != nodeCommission as real then UpdateCommission(parsed) else CommissionAlreadySet
  }
}
