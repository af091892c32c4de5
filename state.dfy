/** The persistent data of the MineMain application: its global fields and the
    table of gem assets it has minted, with the invariant every entry point keeps. */
module MineState {

  /** Largest value of the ledger's unsigned 64-bit integers. */
  const MAX_UINT64: int := 0xFFFF_FFFF_FFFF_FFFF

  type Uint64 = x: int | 0 <= x <= MAX_UINT64

  /** Account addresses are stored as byte strings in global state. */
  type Address = seq<bv8>

  /** Asset identifiers are handed out by the ledger. */
  type AssetId = nat

  /** The stage limit, written as a literal in every stage guard of the contract. */
  const STAGE_MAX: Uint64 := 7

  /** Declared defaults of the two "maximum" fields; no entry point reads them. */
  const STATE_MAX_DEFAULT: Uint64 := 7
  const BATCH_NO_MAX_DEFAULT: Uint64 := 10

  /** Why a call is rejected. A rejected call aborts as a whole and changes nothing. */
  datatype Error =
    | Unauthorized      // the sender is not the role the entry point is reserved for
    | StageGuard        // the stage does not allow the call
    | CapacityExceeded  // the batch weight limit does not allow the call
    | Underflow         // unsigned subtraction below zero aborts the call
    | Overflow          // unsigned addition past MAX_UINT64 aborts the call
    | UnknownAsset      // the asset configuration names an asset that is not in the table

  datatype Result<T> = Ok(value: T) | Err(error: Error)

  /** The application's global state. */
  datatype App = App(
    manager: Address,
    miner: Address,
    evaluator: Address,
    state: Uint64,
    stateMax: Uint64,
    batchNo: Uint64,
    batchNoMax: Uint64,
    batchCurrentKg: Uint64,
    batchMaxKg: Uint64,
    tracking: string)

  /** One gem asset as the asset configurations of the contract leave it. */
  datatype Asset = Asset(
    name: string,
    unitName: string,
    total: nat,
    decimals: nat,
    manager: Address,
    clawback: Address,
    reserve: Address,
    metadata: string,
    frozen: bool)

  /** The application together with the assets it minted; `nextAssetId` is the
      identifier the ledger gives to the next asset created. */
  datatype World = World(
    app: App,
    appAddress: Address,
    assets: map<AssetId, Asset>,
    nextAssetId: AssetId)

  /** The shape every minted asset keeps: a single indivisible unit whose
      clawback is the application manager, whose reserve is the application
      account, and whose manager is the evaluator or, once evaluated, the
      application manager. */
  ghost predicate WellFormedAsset(w: World, a: Asset) {
    && a.total == 1
    && a.decimals == 0
    && a.unitName == "cej"
    && a.clawback == w.app.manager
    && a.reserve == w.appAddress
    && (a.manager == w.app.evaluator || a.manager == w.app.manager)
  }

  /** The invariant of the application: the stage lies in 1..STAGE_MAX, the
      committed weight is within the batch limit, the never-written maxima keep
      their defaults, and every minted asset is well formed and was numbered
      before the next free identifier. */
  ghost predicate Valid(w: World) {
    && 1 <= w.app.state <= STAGE_MAX
    && w.app.batchCurrentKg <= w.app.batchMaxKg
    && w.app.stateMax == STATE_MAX_DEFAULT
    && w.app.batchNoMax == BATCH_NO_MAX_DEFAULT
    && (forall id :: id in w.assets ==> id < w.nextAssetId && WellFormedAsset(w, w.assets[id]))
  }

  /** The roles and limits, which no entry point writes after creation. */
  ghost predicate SameConfig(a: App, b: App) {
    && a.manager == b.manager
    && a.miner == b.miner
    && a.evaluator == b.evaluator
    && a.stateMax == b.stateMax
    && a.batchNoMax == b.batchNoMax
    && a.batchMaxKg == b.batchMaxKg
  }

  /** The asset table and the application account are untouched. */
  ghost predicate SameAssets(w: World, w': World) {
    w'.assets == w.assets && w'.nextAssetId == w.nextAssetId && w'.appAddress == w.appAddress
  }

  /** Application creation: the creator becomes manager (the declared default),
      the evaluator, miner and batch weight limit come from the arguments, the
      stage and batch number start at 1, and the other fields take their
      declared defaults. `firstAssetId` is the ledger's next free identifier. */
  function Create(creator: Address, appAddress: Address, maxKg: Uint64,
                  eval: Address, min: Address, firstAssetId: AssetId): (w: World)
    ensures Valid(w)
    ensures w.app.manager == creator && w.app.evaluator == eval && w.app.miner == min
    ensures w.app.state == 1 && w.app.batchNo == 1 && w.app.batchMaxKg == maxKg
    ensures w.app.batchCurrentKg == 0 && w.app.tracking == ""
    ensures w.assets == map[] && w.appAddress == appAddress
  {
    World(
      App(creator, min, eval, 1, STATE_MAX_DEFAULT, 1, BATCH_NO_MAX_DEFAULT, 0, maxKg, ""),
      appAddress, map[], firstAssetId)
  }
}
