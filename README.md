# MineMain: gemstone supply-chain control program

This project models `MineMain`, the on-ledger application that runs a batch of
gemstones from intake to sale. Its global state holds three roles (manager,
miner, evaluator), a lifecycle stage that runs from 1 to 7, a batch number, the
committed and maximum batch weight in kilograms, and a tracking string. Each
entry point checks the sender against one role, checks its stage and capacity
guards, and then updates a few fields. Three of them also create or change one
gem asset through an inner asset configuration. A failed check aborts the whole
call, so every call either completes or changes nothing.

The model has four modules:

- `MineState` (`state.dfy`) holds the data. It defines the application record
  `App`, the asset record `Asset`, and `World`, which is the application plus the
  table of assets it minted. It also defines the invariant `Valid` and the
  creation function `Create`.
- `MineTransitions` (`transitions.dfy`) has one function per entry point. Each
  maps the world before the call to the world after it, or to the `Error` that
  aborts the call. The guards are checked in the order the contract asserts
  them. `Step` dispatches a call and `Run` executes a sequence of calls one
  after the other, as the ledger serialises them.
- `MineProperties` (`properties.dfy`) holds the lemmas. Some are about one call:
  the authorization gate, rejection changing nothing, minting only at stage 1,
  unfreezing only at stage 7, how weight and the batch number may change.
  Others are about any sequence of calls: the invariant is kept, the
  configuration never changes, assets are never removed, hand-over and
  unfreezing are irreversible. A full batch cycle is worked through as a scenario.
- `MineContract` (`contract.dfy`) has the class `MineMain` with the contract's
  fields and one method per entry point. The caller is a parameter. Each method
  is proved to end in the world its transition function gives, or to leave the
  state unchanged and report the error.

Unsigned 64-bit arithmetic is explicit. `batchNo + 1` at the maximum aborts with
`Overflow`. `batchNo - 1` at 0 aborts with `Underflow`. A `batchCurrentKg + weight`
past the maximum aborts with `Overflow` before the capacity comparison is made.

The model reproduces these features of the code as written:

- Every stage guard uses the literal 7 (`contracts/main.py:83`, `:94`, `:103`,
  `:182`). The `stateMax` field (`contracts/main.py:40-42`) is never read. It is
  never written either, so it keeps its default 7, which `Valid` records.
- `batchNoMax` (`contracts/main.py:48-50`) is never checked. `incrementBatch`
  succeeds at any batch number below the 64-bit maximum, including numbers past 10.
- The capacity guard of `inputGem` (`contracts/main.py:118`) does not add an
  incoming weight. Under the invariant it never rejects
  (`InputGemCapacityGuardNeverRejects`). The guard of `edit_asset_metadata`
  (`contracts/main.py:157-158`) does add the weight.
- `set_url` writes `self.url` (`contracts/main.py:112`), which appears nowhere
  among the state fields. The only string field listed among them is
  `tracking` (`contracts/main.py:60-62`). The model treats `set_url` as the
  setter of `tracking`.
- `edit_asset_metadata` (`contracts/main.py:153-173`) does not record that an
  asset has already been evaluated. The evaluator can evaluate the same asset
  again, and its weight is then committed a second time
  (`EvaluationCanRepeat`).
- `unfreeze_asset` puts the price under the key `TxnField.asset_name`
  (`contracts/main.py:191`). The transaction field for an asset's name is
  `config_asset_name`, which `mint` uses (`contracts/main.py:138`); as written,
  line 191 names no field, so the price reaches no field of the asset. The
  model takes the evident intent and stores the price in `Asset.name`, which
  minting sets to `"CEJ"`.
- `inputGem` (`contracts/main.py:114-120`) declares no return value, so the
  identifier that `mint` leaves on the stack (`contracts/main.py:150`) is not
  returned to the sender as written. The model takes the evident intent:
  `MineMain.InputGem` returns the identifier of the new asset.
- There is one fixed miner identity, set at creation. No request/approve miner
  registry exists in this code. There is no true stage decrement either: only
  `decrementBatch`, which resets the stage to 1.

## Model

| member | source | states |
|---|---|---|
| `MineState.Create` | contracts/main.py:24-73 | creation makes the creator the manager, takes the evaluator, miner and batch weight limit from the arguments, and sets stage 1, batch 1, no committed weight, an empty tracking string and an empty asset table; the result satisfies the invariant |
| `MineTransitions.IncrementBatch` | contracts/main.py:79-88 | succeeds exactly for the manager at stage 7 with a batch number below the 64-bit maximum; it then sets stage 1, adds one to the batch number and clears the committed weight, leaving roles, limits, tracking and all assets unchanged; another sender gets an authorization error, another stage a stage error, and the 64-bit maximum an overflow |
| `MineTransitions.IncrementState` | contracts/main.py:90-97 | succeeds exactly for the manager below stage 7 and then raises the stage by exactly one, with nothing else changed; every other rejection of the manager is a stage error |
| `MineTransitions.DecrementBatch` | contracts/main.py:99-108 | succeeds exactly for the manager at a stage other than 7 with batch number at least 1; it then sets stage 1, subtracts one from the batch number and clears the committed weight, with nothing else changed; at batch number 0 the subtraction aborts with an underflow |
| `MineTransitions.SetUrl` | contracts/main.py:110-112 | succeeds exactly for the manager and then sets the tracking string to the argument, with nothing else changed; its only error is unauthorized |
| `MineTransitions.InputGem` | contracts/main.py:114-151 | succeeds exactly for the miner at stage 1 when the committed weight is within the limit; it then adds exactly one asset under the next identifier, and that asset is the whole record `MintedAsset` gives (frozen, manager the evaluator, clawback the manager, reserve the application account, name "CEJ", total 1, decimals 0, the given metadata); leaves every other asset and all application fields unchanged |
| `MineTransitions.EditAssetMetadata` | contracts/main.py:153-173 | succeeds exactly for the evaluator at stage 1 when committed weight plus the given weight is within the limit and the asset exists; it then sets that asset's metadata, makes the application manager its manager and raises the committed weight by exactly the given weight, which stays within the limit; other assets and fields are unchanged; a weight that does not fit is a capacity error when the sum fits in 64 bits, and an overflow otherwise; a missing asset, once the guards pass, is an unknown-asset error |
| `MineTransitions.UnfreezeAsset` | contracts/main.py:179-194 | succeeds exactly for the manager at stage 7 on an existing asset; it then clears that asset's frozen flag and sets its name to the price, with the application fields and every other asset unchanged; a missing asset at stage 7 is an unknown-asset error |
| `MineProperties.AuthorizationGate` | contracts/main.py:79-179 | a call is rejected with an authorization error if and only if the sender is not the role of its entry point (manager for the batch, stage, tracking and unfreeze calls; miner for inputGem; evaluator for edit_asset_metadata) |
| `MineProperties.RejectedCallChangesNothing` | contracts/main.py:79-194 | a rejected call leaves the whole world as it was; for the transition functions this holds by the definition of `Commit`, and for the code itself it is the `Settles` postcondition of each `MineMain` method |
| `MineProperties.StepPreservesConfig` | contracts/main.py:24-58 | no entry point changes the roles, the stage and batch maxima, the batch weight limit or the application account |
| `MineProperties.StepPreservesValid` | contracts/main.py:79-194 | every call keeps the invariant: stage in 1..7, committed weight within the limit, maxima at their defaults, every asset well formed and numbered below the next identifier |
| `MineProperties.MintOnlyAtStageOne` | contracts/main.py:114-151 | an asset enters the table only through the miner's inputGem at stage 1, under the next identifier, frozen and managed by the evaluator |
| `MineProperties.UnfreezeOnlyAtTerminalStage` | contracts/main.py:179-194 | a frozen asset becomes unfrozen only through the manager's unfreeze_asset call on that asset at stage 7 |
| `MineProperties.WeightGrowsOnlyByEvaluation` | contracts/main.py:153-173 | the committed weight grows only through the evaluator's edit_asset_metadata at stage 1, and then by exactly the weight passed |
| `MineProperties.BatchChangesOnlyByBatchCalls` | contracts/main.py:79-108 | the batch number changes only through the manager's incrementBatch at stage 7 or decrementBatch at another stage, and both leave stage 1 with no weight committed |
| `MineProperties.InputGemCapacityGuardNeverRejects` | contracts/main.py:114-120 | under the invariant, inputGem succeeds exactly for the miner at stage 1: its capacity guard never rejects |
| `MineProperties.EvaluationCanRepeat` | contracts/main.py:153-173 | an asset already evaluated can be evaluated again by the evaluator, and its weight is committed twice while the table keeps the same assets |
| `MineProperties.RunPreservesValid` | contracts/main.py:79-194 | after any sequence of calls from a valid world the invariant still holds, in particular 1 <= stage <= 7 and committed weight <= limit |
| `MineProperties.RunPreservesConfig` | contracts/main.py:24-58 | after any sequence of calls the roles, limits and application account are those of the start |
| `MineProperties.RunNeverRemovesAssets` | contracts/main.py:130-194 | no sequence of calls removes an asset, and the next identifier never decreases |
| `MineProperties.HandoverIsIrreversible` | contracts/main.py:153-173 | once an asset's manager is the application manager it stays so after any sequence of calls |
| `MineProperties.UnfreezeIsIrreversible` | contracts/main.py:179-194 | once an asset is unfrozen it stays in the table unfrozen after any sequence of calls |
| `MineProperties.AdvancesReachStage` | contracts/main.py:90-97 | n advances by the manager from stage s with s + n <= 7 end at stage s + n with nothing else changed |
| `MineProperties.AdvancePastLastStageRejected` | contracts/main.py:90-97 | from any valid world the manager's advances reach stage 7, and one more advance is a stage error |
| `MineProperties.BatchCycleScenario` | contracts/main.py:64-194 | a whole cycle with a 10 kg limit: two gems minted, 6 kg committed after the first evaluation, a second 6 kg evaluation rejected as a capacity error, six advances, the first gem unfrozen at price "100", rollover to batch 2 at stage 1 with no weight; the second gem stays frozen with the evaluator |
| `MineContract.MineMain.constructor` | contracts/main.py:64-73 | creation leaves the object in the state `Create` describes, which satisfies the invariant |
| `MineContract.MineMain.IncrementBatch` | contracts/main.py:79-88 | the method ends in the world of `IncrementBatch`, or changes nothing and reports its error, and keeps the invariant |
| `MineContract.MineMain.IncrementState` | contracts/main.py:90-97 | the method ends in the world of `IncrementState`, or changes nothing and reports its error, and keeps the invariant |
| `MineContract.MineMain.DecrementBatch` | contracts/main.py:99-108 | the method ends in the world of `DecrementBatch`, or changes nothing and reports its error, and keeps the invariant |
| `MineContract.MineMain.SetUrl` | contracts/main.py:110-112 | the method ends in the world of `SetUrl`, or changes nothing and reports its error, and keeps the invariant |
| `MineContract.MineMain.InputGem` | contracts/main.py:114-120 | the method ends in the world of `InputGem`, or changes nothing and reports its error; on success it returns the identifier of the new asset, which was not in the table before (the evident intent: the code as written declares no return value) |
| `MineContract.MineMain.Mint` | contracts/main.py:130-151 | the inner asset creation adds the minted asset under the next identifier, advances the identifier and returns the identifier used |
| `MineContract.MineMain.EditAssetMetadata` | contracts/main.py:153-173 | the method ends in the world of `EditAssetMetadata`, or changes nothing and reports its error, and keeps the invariant |
| `MineContract.MineMain.UnfreezeAsset` | contracts/main.py:179-194 | the method ends in the world of `UnfreezeAsset`, or changes nothing and reports its error, and keeps the invariant |

## Left out

- `demo()` and the client and sandbox calls (`contracts/main.py:224-241`): these are I/O and network tooling.
- The opt-in entry point and local-state initialisation (`contracts/main.py:75-77`): this is framework plumbing, and no local fields are declared.
- `do_opt_in` and `do_axfer` (`contracts/main.py:175-177`, `:211-221`): asset holdings and transfers are ledger balances. The call at line 177 also passes three arguments to a two-parameter method. The opt-in steps inside `edit_asset_metadata` and `unfreeze_asset` change nothing in the model.
- `pay` (`contracts/main.py:200-209`): it is never called, and it is a ledger payment. Its fee is `(amount / 1000) * 300` in integer arithmetic.
- Ledger semantics of the inner asset configurations: fees, the rule that only an asset's manager may re-configure it, the clearing of address fields a re-configuration leaves out, and whether the default-frozen flag may change after creation. The model keeps only the intended effect on the asset table: `edit_asset_metadata` changes metadata and manager, and `unfreeze_asset` changes the frozen flag and the name.
- Assets the application did not mint: the model's table holds only its own assets. Any other identifier is rejected as `UnknownAsset`. The ledger's choice of a fresh identifier is modelled by the counter `nextAssetId`, whose starting value is a creation parameter.
- Ledger transactions other than this application's own calls. "Any sequence of calls" in `RunPreservesValid`, `RunNeverRemovesAssets`, `HandoverIsIrreversible`, `UnfreezeIsIrreversible` and the asset shape of `WellFormedAsset` means calls to this application's entry points only. Right after minting, the evaluator is the asset's ledger manager and the application account holds its only unit, so the evaluator can reconfigure or destroy the asset directly, outside the model.
- The ledger's identifier counter is shared by all assets and applications, so another creation can fall between two mints. Consecutive identifiers (`first + 1` in `BatchCycleScenario`) are the model's simplification.
- Transaction signing and authentication of the sender: the sender is a parameter of every call.
- `state`, `batchNo`, `batchCurrentKg` and `tracking` (`contracts/main.py:36-38`, `:44-46`, `:52-54`, `:60-62`) are written as bare annotations (`name: ApplicationStateValue(...)`, with no `=`), so in Python they bind no class attribute. The model reads these four annotations as declarations of global state fields, as the methods that use them intend.
- The declared default of `manager` (the creator, `contracts/main.py:24-26`) is taken to be in force after creation. The creation method's name coincides with the framework's own default-initialiser. Whether the framework still applies the defaults in that case is framework behaviour that the model does not capture.
- `batchCurrentKg` and `tracking` declare no default. The model starts `batchCurrentKg` at 0, which is what reading a global key that was never set gives. It starts `tracking` at the empty string by choice: an unset key reads as the integer 0, not as a byte string, and no method of the contract reads or writes `tracking` (`set_url` writes `self.url`, `contracts/main.py:112`).
- The asset name and unit name set at mint (`"CEJ"`, `"cej"`) are modelled as strings. The model ignores the asset metadata hash's fixed 32-byte length.
