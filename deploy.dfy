/**
 * The deploy loop of `build/_deploy.ts` as a specification: what one run does
 * to the chain, which transfers it submits, which external calls it makes for
 * each deploy descriptor, and how it ends. The class in deployer.dfy runs the
 * same steps imperatively and is proved to agree with these functions.
 */
module Deploy {
  import opened Wrappers
  import opened Ton
  import opened Network

  /** The file `build/<name>.compiled.json` that belongs to a descriptor. */
  datatype Artifact =
    | Missing            // the file does not exist
    | Unparsable         // it exists, but reading it as JSON and a BOC throws
    | Compiled(code: Cell)

  /**
   * A file `build/<name>.deploy.ts` found by the glob, as loading it turns out:
   * `initData` is `None` when the module's `initData` is not a function, and
   * otherwise holds the cell `initData()` resolves to; `initMessage` is `None`
   * when `initMessage` is not a function, and otherwise holds what
   * `initMessage()` resolves to (`None` for `null`).
   */
  datatype Descriptor = Descriptor(
    file: string,
    initData: Option<Cell>,
    initMessage: Option<Option<Cell>>,
    artifact: Artifact)

  /**
   * What the startup steps find: the `DEPLOYER_MNEMONIC` variable, whether
   * `mnemonicToWalletKey` resolves, whether `WalletContract.create` yields a
   * wallet with an address, and the wallet balance in nanotons (`None` when
   * `getBalance` throws).
   */
  datatype Startup = Startup(
    mnemonic: Option<string>,
    keyDerived: bool,
    walletCreated: bool,
    balance: Option<nat>)

  /** The reason printed before `process.exit(1)`. */
  datatype Fatal =
    | NoMnemonic
    | KeyDerivationFailed
    | WalletCreationFailed
    | BalanceUnavailable
    | BalanceTooLow
    | NoInitData(file: string)
    | NoInitMessage(file: string)
    | NoArtifact(file: string)

  /**
   * How the run stands: still in the loop, finished the loop, stopped by
   * `process.exit`, or ended by an exception nobody catches, which rejects the
   * promise of `main` while processing `file`.
   */
  datatype RunResult =
    | Running
    | Completed
    | Exit(code: int, reason: Fatal)
    | Rejected(file: string)

  /** One external call the loop makes for a unit, with the answer where it matters. */
  datatype Call =
    | InitDataCall                              // await initData()
    | InitMessageCall                           // await initMessage()
    | DeployedQuery(addr: Address, answer: bool) // client.isContractDeployed
    | SeqnoRead(seqno: nat)                     // walletContract.getSeqNo() before the transfer
    | Submit(transfer: Transfer)                // client.sendExternalMessage
    | PollRead(observed: nat)                   // one poll attempt: sleep(2000), then getSeqNo()
    | BalanceQuery(addr: Address)               // client.getBalance of the new contract

  /** What became of one unit; `LoadFailed` and `SubmitFailed` end the run. */
  datatype Outcome =
    | LoadFailed
    | AddressError
    | Skipped(addr: Address)
    | SubmitFailed(addr: Address)
    | Deployed(addr: Address)
    | NotConfirmed(addr: Address)

  /** The record of one unit: its descriptor file, its outcome and the calls made for it, in order. */
  datatype Report = Report(file: string, outcome: Outcome, calls: seq<Call>)

  /**
   * The state of a run: the chain as the script sees it, the submission
   * indices at which `sendExternalMessage` throws, every transfer handed to
   * `sendExternalMessage`, one report per unit reached, and the result.
   */
  datatype State = State(
    chain: Chain,
    rejected: set<nat>,
    sent: seq<Transfer>,
    reports: seq<Report>,
    result: RunResult)

  /** The confirmation loop makes at most this many attempts. */
  const MaxPollAttempts: nat := 10

  /** The two loader calls every unit that gets past loading has made. */
  const Loaded: seq<Call> := [InitDataCall, InitMessageCall]

  function Initial(chain: Chain, rejected: set<nat>): State
  {
    State(chain, rejected, [], [], Running)
  }

  predicate IsStartupReason(f: Fatal)
  {
    f.NoMnemonic? || f.KeyDerivationFailed? || f.WalletCreationFailed?
    || f.BalanceUnavailable? || f.BalanceTooLow?
  }

  predicate IsFatal(o: Outcome)
  {
    o.LoadFailed? || o.SubmitFailed?
  }

  /**
   * The startup gate: the first check that fails, in the script's order, or
   * `None` when all pass. An empty mnemonic counts as missing.
   */
  function StartupFailure(env: Startup): (r: Option<Fatal>)
    ensures r.None? <==>
      env.mnemonic.Some? && env.mnemonic.value != "" && env.keyDerived && env.walletCreated
      && env.balance.Some? && env.balance.value >= MinWalletBalance
    ensures r.Some? ==> IsStartupReason(r.value)
    ensures r == Some(BalanceTooLow) ==> env.balance.Some? && env.balance.value < MinWalletBalance
  {
    if env.mnemonic.None? || env.mnemonic.value == "" then Some(NoMnemonic)
    else if !env.keyDerived then Some(KeyDerivationFailed)
    else if !env.walletCreated then Some(WalletCreationFailed)
    else if env.balance.None? then Some(BalanceUnavailable)
    else if env.balance.value < MinWalletBalance then Some(BalanceTooLow)
    else None
  }

  /** The transfer `createTransfer` builds for a new contract. */
  function FundingTransfer(seqno: nat, to: Address, data: Cell, code: Cell, body: Option<Cell>): Transfer
  {
    Transfer(seqno, PayGasSeparately + IgnoreErrors, to, Funding, false, StateInit(data, code), body)
  }

  /** `t` funds `to` as the script does, consuming `seqno`. */
  predicate IsFunding(t: Transfer, to: Address, seqno: nat)
  {
    t.seqno == seqno && t.to == to && t.value == Funding && !t.bounce
    && t.sendMode == PayGasSeparately + IgnoreErrors
  }

  /**
   * The confirmation loop from attempt `attempt` on: each attempt waits one
   * delay and reads the wallet seqno, and the loop stops at the first reading
   * above `before` or after attempt 9. Gives the chain afterwards and the
   * readings as calls.
   */
  function Poll(c: Chain, before: nat, attempt: nat): (Chain, seq<Call>)
    requires attempt <= MaxPollAttempts
    decreases MaxPollAttempts - attempt
  {
    if attempt == MaxPollAttempts then (c, [])
    else
      var c1 := Advance(c);
      if c1.seqno > before then (c1, [PollRead(c1.seqno)])
      else
        var rest := Poll(c1, before, attempt + 1);
        (rest.0, [PollRead(c1.seqno)] + rest.1)
  }

  /** One attempt of the confirmation loop, unfolded. */
  lemma PollStep(c: Chain, before: nat, attempt: nat)
    requires attempt < MaxPollAttempts
    ensures var c1 := Advance(c);
      Poll(c, before, attempt) ==
        if c1.seqno > before then (c1, [PollRead(c1.seqno)])
        else (Poll(c1, before, attempt + 1).0, [PollRead(c1.seqno)] + Poll(c1, before, attempt + 1).1)
  {
  }

  /** Adds the report of the unit loaded from `file`. */
  function Record(s: State, file: string, outcome: Outcome, calls: seq<Call>): State
  {
    s.(reports := s.reports + [Report(file, outcome, calls)])
  }

  /** The calls of a unit up to and including the submission of `t` to `addr`. */
  function SubmissionCalls(addr: Address, t: Transfer): seq<Call>
  {
    Loaded + [DeployedQuery(addr, false), SeqnoRead(t.seqno), Submit(t)]
  }

  /**
   * One pass of the loop body for descriptor `d`: loading, address
   * derivation, the deployed check, and for a new address the funding
   * transfer built from the seqno the chain holds now.
   */
  function ProcessUnit(s: State, d: Descriptor, derive: Deriver): State
    requires s.result.Running?
  {
    if d.initData.None? then
      Record(s, d.file, LoadFailed, []).(result := Exit(1, NoInitData(d.file)))
    else if d.initMessage.None? then
      Record(s, d.file, LoadFailed, [InitDataCall]).(result := Exit(1, NoInitMessage(d.file)))
    else if d.artifact.Missing? then
      Record(s, d.file, LoadFailed, Loaded).(result := Exit(1, NoArtifact(d.file)))
    else if d.artifact.Unparsable? then
      Record(s, d.file, LoadFailed, Loaded).(result := Rejected(d.file))
    else
      var data, body, code := d.initData.value, d.initMessage.value, d.artifact.code;
      match derive(Workchain, data, code)
      case None => Record(s, d.file, AddressError, Loaded)
      case Some(addr) =>
        if addr in s.chain.deployed then
          Record(s, d.file, Skipped(addr), Loaded + [DeployedQuery(addr, true)])
        else
          Fund(s, d.file, addr, FundingTransfer(s.chain.seqno, addr, data, code, body))
  }

  /**
   * Submitting `t` for the unit loaded from `file`: the transfer goes into
   * the log; if `sendExternalMessage` throws the run is over, otherwise the
   * confirmation follows.
   */
  function Fund(s: State, file: string, addr: Address, t: Transfer): State
  {
    var s1 := s.(sent := s.sent + [t]);
    if |s.sent| in s.rejected then
      Record(s1, file, SubmitFailed(addr), SubmissionCalls(addr, t)).(result := Rejected(file))
    else
      Confirm(s1, file, addr, SubmissionCalls(addr, t), t.seqno)
  }

  /**
   * The confirmation of a transfer that consumed `before`: the poll, then a
   * fresh deployed check whose answer alone decides the outcome; the balance
   * of a deployed contract is read for the log.
   */
  function Confirm(s: State, file: string, addr: Address, calls: seq<Call>, before: nat): State
  {
    var (c, polls) := Poll(s.chain, before, 0);
    if addr in c.deployed then
      Record(s.(chain := c), file, Deployed(addr), calls + polls + [DeployedQuery(addr, true), BalanceQuery(addr)])
    else
      Record(s.(chain := c), file, NotConfirmed(addr), calls + polls + [DeployedQuery(addr, false)])
  }

  /** The `for` loop over the descriptors, left as soon as the run stops. */
  function Units(s: State, ds: seq<Descriptor>, derive: Deriver): State
    decreases |ds|
  {
    if ds == [] || !s.result.Running? then s
    else Units(ProcessUnit(s, ds[0], derive), ds[1..], derive)
  }

  /** `main`: the startup gate, then the loop over the descriptors the glob found, in glob order. */
  function Run(s: State, env: Startup, units: seq<Descriptor>, derive: Deriver): State
    requires s.result.Running?
  {
    match StartupFailure(env)
    case Some(f) => s.(result := Exit(1, f))
    case None =>
      var r := Units(s, units, derive);
      if r.result.Running? then r.(result := Completed) else r
  }

  // ---------------------------------------------------------------------
  // Reference descriptions the lemmas check the run against
  // ---------------------------------------------------------------------

  /** Transfers submitted in a sequence of calls, in order. */
  function Submitted(calls: seq<Call>): seq<Transfer>
  {
    if calls == [] then []
    else (if calls[0].Submit? then [calls[0].transfer] else []) + Submitted(calls[1..])
  }

  /** Transfers submitted across a sequence of reports, in order. */
  function Transfers(rs: seq<Report>): seq<Transfer>
  {
    if rs == [] then [] else Submitted(rs[0].calls) + Transfers(rs[1..])
  }

  /**
   * A confirmation window after a transfer consuming `before`: between one
   * and ten readings, every reading but the last not above `before`, and the
   * last above it unless all ten attempts were used.
   */
  ghost predicate PollWindow(polls: seq<Call>, before: nat)
  {
    1 <= |polls| <= MaxPollAttempts
    && (forall j :: 0 <= j < |polls| ==> polls[j].PollRead?)
    && (forall j :: 0 <= j < |polls| - 1 ==> polls[j].observed <= before)
    && (|polls| < MaxPollAttempts ==> polls[|polls| - 1].observed > before)
  }

  /**
   * The calls of a report follow the unit pipeline its outcome names: loading
   * stops at the first defect; an address error makes no chain call; a skip
   * makes exactly one deployed check; otherwise one seqno read, one funding
   * transfer consuming that seqno, and, unless the submission threw, a poll
   * window and a final deployed check whose answer is the outcome.
   */
  ghost predicate Conforms(r: Report)
  {
    var cs := r.calls;
    match r.outcome
    case LoadFailed => cs == [] || cs == [InitDataCall] || cs == Loaded
    case AddressError => cs == Loaded
    case Skipped(a) => cs == Loaded + [DeployedQuery(a, true)]
    case SubmitFailed(a) =>
      |cs| == 5 && cs[..3] == Loaded + [DeployedQuery(a, false)]
      && cs[3].SeqnoRead? && cs[4].Submit? && IsFunding(cs[4].transfer, a, cs[3].seqno)
    case Deployed(a) =>
      |cs| >= 8 && cs[..3] == Loaded + [DeployedQuery(a, false)]
      && cs[3].SeqnoRead? && cs[4].Submit? && IsFunding(cs[4].transfer, a, cs[3].seqno)
      && PollWindow(cs[5..|cs| - 2], cs[3].seqno)
      && cs[|cs| - 2..] == [DeployedQuery(a, true), BalanceQuery(a)]
    case NotConfirmed(a) =>
      |cs| >= 7 && cs[..3] == Loaded + [DeployedQuery(a, false)]
      && cs[3].SeqnoRead? && cs[4].Submit? && IsFunding(cs[4].transfer, a, cs[3].seqno)
      && PollWindow(cs[5..|cs| - 1], cs[3].seqno)
      && cs[|cs| - 1] == DeployedQuery(a, false)
  }
}
