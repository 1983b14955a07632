# Deploy loop of the jetton contracts

A model of `main` in `build/_deploy.ts`, the script that deploys every
contract of the repository to the TON masterchain. The script checks its
environment (the deployer mnemonic, the wallet key, the wallet contract, a
wallet balance of at least 0.2 TON), then walks the deploy descriptors
`build/*.deploy.ts` in glob order. For each one it loads `initData()` and
`initMessage()` and the compiled code, derives the contract address, skips
the contract if it is already deployed, and otherwise sends one funding
transfer of 0.02 TON carrying the state-init. It then polls the wallet seqno
(at most ten times, two seconds apart) and reports success or failure from a
fresh deployed check.

Files:

- `wrappers.dfy`: `Option`.
- `ton.dfy`: addresses, cells, state-inits and wallet transfers, the send-mode
  flags, the amounts in nanotons, and address derivation as a function
  parameter (`Deriver`).
- `network.dfy`: the part of the chain the script observes (the wallet
  seqno, the deployed addresses), and how it moves on during one delay.
- `deploy.dfy`: the run as functions: the startup gate, one pass of the loop
  body (`ProcessUnit`, `Fund`, `Confirm`), the poll (`Poll`), the loop
  (`Units`) and the whole run (`Run`). It also holds the per-unit call log
  (`Report`) and the protocol every log follows (`Conforms`).
- `deployer.dfy`: class `Deployer`, the same run written step by step as
  the script does it, over mutable chain state. Each method is proved equal
  to the matching function.
- `properties.dfy`: the guarantees of the loop, proved about the functions.
- `scenarios.dfy`: whole runs on particular inputs.

The environment is input data. This covers the mnemonic variable, whether
key derivation and wallet creation succeed, the wallet balance (or a failed
fetch), and each descriptor as loading it turns out. The network is an
initial chain state plus a script of ticks; each two-second delay consumes
one tick. Which submissions throw is a set of submission indices.

## Model

| member | source | states |
|---|---|---|
| Network.Advance | build/_deploy.ts:157-158 | one delay never lowers the wallet seqno and never undeploys a contract; with no activity the chain is unchanged |
| Deploy.StartupFailure | build/_deploy.ts:33-84 | the startup gate passes exactly when the mnemonic is present and non-empty, the key and wallet are created, and the balance is fetched and at least 200,000,000 nanotons; every failure is a startup reason; a balance failure means the balance is below the minimum |
| Deployer.Deployer.constructor | build/_deploy.ts:24-29 | a fresh deployer holds the given chain, no transfers, no reports, and a running result |
| Deployer.Deployer.GetSeqNo | build/_deploy.ts:137 | returns the wallet seqno the chain holds now |
| Deployer.Deployer.IsContractDeployed | build/_deploy.ts:132 | answers true exactly when the address holds a deployed contract now |
| Deployer.Deployer.Sleep | build/_deploy.ts:157 | the chain moves on by exactly one tick and nothing else changes |
| Deployer.Deployer.SendExternalMessage | build/_deploy.ts:152 | the transfer is appended to the log, and the call succeeds exactly when this submission index is not one that throws |
| Deployer.Deployer.ConfirmPoll | build/_deploy.ts:156-160 | the loop leaves the chain and the readings exactly as `Poll` from attempt 0 does |
| Deployer.Deployer.DeployUnit | build/_deploy.ts:91-170 | one pass of the loop body changes the deployer state exactly as `ProcessUnit` does |
| Deployer.Deployer.DeployAll | build/_deploy.ts:24-171 | the whole run, gate and loop, changes the deployer state exactly as `Run` does |
| DeployProperties.PollBounded | build/_deploy.ts:156-160 | the poll makes at most 10 attempts, at least one when any is left; each attempt is a seqno read; it continues only while the reading is not above the pre-submission seqno and stops early only on a reading above it; the chain only moves forward |
| DeployProperties.PollWindowFromStart | build/_deploy.ts:156-160 | a full poll gives a well-formed window of readings and submits nothing |
| DeployProperties.PollFrozen | build/_deploy.ts:156-160 | when the network never moves, all ten attempts run, each reads the same seqno, and the chain is unchanged |
| DeployProperties.LoadChecks | build/_deploy.ts:96-114 | a missing `initData`, missing `initMessage` or missing artifact exits with status 1 naming the unit, with `initData()` already called when `initMessage` is missing; these are exactly the exits; the chain and the log are untouched |
| DeployProperties.AddressErrorContinues | build/_deploy.ts:117-129 | when address derivation throws, the unit makes no chain call and no transfer, and the loop goes on |
| DeployProperties.AlreadyDeployedSkips | build/_deploy.ts:131-135 | an address that already holds a contract is skipped after one deployed query: no seqno read, no transfer, no poll |
| DeployProperties.OneFundingTransfer | build/_deploy.ts:86-87 | a unit that is not skipped appends exactly one transfer: it consumes the seqno read just before it and goes to the derived address with 0.02 TON, no bounce, send mode 1 + 2, the state-init (data, code) and the init message as body only when there is one |
| DeployProperties.ConfirmationDecides | build/_deploy.ts:152-169 | a submission that throws ends the run; otherwise the poll runs, the outcome is Deployed exactly when the address is deployed after polling and NotConfirmed exactly when it is not, and the run goes on |
| DeployProperties.SubmissionCallsSubmit | build/_deploy.ts:131-152 | the calls up to the submission submit exactly the funding transfer |
| DeployProperties.DeployedConforms | build/_deploy.ts:155-164 | the log of a confirmed unit follows the pipeline and submits only its funding transfer |
| DeployProperties.NotConfirmedConforms | build/_deploy.ts:155-169 | the log of an unconfirmed unit follows the pipeline and submits only its funding transfer |
| DeployProperties.ConfirmStep | build/_deploy.ts:155-169 | confirming appends one non-fatal, conforming report that submits only the funding transfer; the log and result are unchanged and the chain only moves forward |
| DeployProperties.FundStep | build/_deploy.ts:137-169 | submitting appends the transfer and one conforming report; the run continues exactly when the outcome is not fatal, and otherwise ends rejected at this unit |
| DeployProperties.RecordStep | build/_deploy.ts:96-135 | a unit that stops before submitting appends a report and no transfer, and leaves the chain exactly as it was |
| DeployProperties.FundIsStep | build/_deploy.ts:137-169 | the funding branch is one loop step |
| DeployProperties.ProcessUnitStep | build/_deploy.ts:91-170 | every pass of the loop body appends one conforming report for its descriptor; the log grows by exactly what that report submits, at the seqno the chain held; the run continues exactly when the outcome is not fatal; a stopped run names this unit |
| DeployProperties.StepSeqnos | build/_deploy.ts:137 | one pass of the loop body keeps the transfer seqnos ordered and none above the wallet seqno |
| DeployProperties.LoopShapeStop | build/_deploy.ts:91-170 | a step that stops the run ends the loop at that unit |
| DeployProperties.LoopShapeCons | build/_deploy.ts:91-170 | a step that keeps the run going, then the rest of the loop, gives the loop's shape over all descriptors |
| DeployProperties.UnitsReports | build/_deploy.ts:90-170 | the loop appends one report per descriptor reached, in glob order, each conforming; it reaches all of them exactly when none was fatal; otherwise the last report is the unit that stopped it |
| DeployProperties.UnitsSent | build/_deploy.ts:90-170 | the transfer log is the concatenation of what the reports submitted |
| DeployProperties.UnitsSeqnos | build/_deploy.ts:90-170 | the loop keeps the transfer seqnos non-decreasing |
| DeployProperties.SubmittedAtFour | build/_deploy.ts:137-152 | calls with one submission submit just that transfer |
| DeployProperties.ConformsSubmitsOnce | build/_deploy.ts:131-152 | a conforming report submits no transfer when loading failed, the address failed or the unit was skipped, and exactly one otherwise |
| DeployProperties.TransfersBound | build/_deploy.ts:90-170 | conforming reports account for at most one transfer each |
| DeployProperties.StartupGate | build/_deploy.ts:32-84 | a failed startup check exits with status 1 before any descriptor: no report, no transfer, chain untouched; when the gate passes the run never ends for a startup reason |
| DeployProperties.LowBalanceSendsNothing | build/_deploy.ts:73-84 | with less than 0.2 TON no transfer is ever sent and the run exits with status 1 |
| DeployProperties.RunInGlobOrder | build/_deploy.ts:89-171 | past the gate: one report per unit reached, in glob order, each conforming; the run completes exactly when every unit was reached and none was fatal; otherwise it stopped at the last unit reached and later units are untouched |
| DeployProperties.AtMostOneTransferPerUnit | build/_deploy.ts:137-152 | the log is the reports' submissions in order; each unit submits none or exactly one by its outcome; never more transfers than units |
| DeployProperties.SentSeqnosNonDecreasing | build/_deploy.ts:137-159 | the seqnos the transfers of a run consume never decrease |
| DeployScenarios.SilentUnit | build/_deploy.ts:137-169 | with a silent network an accepted unit is reported not confirmed after ten reads, and the chain is unchanged |
| DeployScenarios.NeverConfirmed | build/_deploy.ts:155-171 | a unit whose address is still uninitialized after the confirmation loop, whatever the seqno did meanwhile, is reported not confirmed, one transfer was sent, and the run still completes |
| DeployScenarios.SeqnoReusedAfterSilentPoll | build/_deploy.ts:137-160 | two units sent while the network stands still both consume the same seqno |
| DeployScenarios.MissingInitDataStops | build/_deploy.ts:96-100 | a descriptor without `initData` stops the run with status 1 before later descriptors, with no transfer |
| DeployScenarios.SkipThenDeploy | build/_deploy.ts:131-164 | an already deployed unit is skipped, the next one is deployed when its address shows up on the third attempt, and exactly one transfer was sent |

## Left out

- The TON library itself: key derivation, wallet construction, BOC parsing,
  hashing of state-inits into addresses, message signing. Addresses and cells
  are identifiers, and address derivation is a function parameter that may
  fail.
- The request throttle, the endpoint, the `.env` loading, the logging, and
  the length of the delay. A delay is one step of the network script.
- The file system and `require`: each descriptor is given as what loading it
  produced. A descriptor whose `initData()` or `initMessage()` throws, or
  whose `initMessage` resolves to `undefined`, is not modelled.
- Throws from `getSeqNo`, `isContractDeployed`, and `getBalance` of the new
  contract are not modelled; those calls always answer. A throw from
  `sendExternalMessage` is modelled: it ends the run as a rejected promise.
  So is an artifact that exists but cannot be parsed (line 115).
- The chain changes only during the poll's delays and at no other point of
  the run: not between the startup balance query and the first unit, not
  between units that make no poll (a load failure, an address error, a
  skip), and not between two chain calls of one unit outside its poll.
- The balance check happens once, at startup, as the code does. Nothing
  checks the balance again before each transfer. No summary report is
  printed at the end. There is no retry when a submission fails.
- `test/jetton.spec.ts` and the contract sources are not part of this model.
