/** The entry points of MineMain as functions from the world before a call to
    the world after it, or to the error that aborts it. Each one checks the
    sender against one stored role first, then its stage and capacity guards in
    the order the contract asserts them, and only then changes state. */
module MineTransitions {
  import opened MineState

  /** The asset the miner's intake call mints: one indivisible unit, frozen by
      default, managed by the evaluator so that it can edit the metadata, with
      the application manager as clawback and the application account as reserve.
      In any world with these roles and this account it has the shape the
      invariant demands of every asset in the table. */
  function MintedAsset(evaluator: Address, manager: Address, appAddress: Address, metadata: string): (a: Asset)
    ensures forall w: World | w.app.evaluator == evaluator && w.app.manager == manager && w.appAddress == appAddress
              :: WellFormedAsset(w, a)
  {
    Asset("CEJ", "cej", 1, 0, evaluator, manager, appAddress, metadata, true)
  }

  /** incrementBatch: closes a finished batch and opens the next one. */
  function IncrementBatch(w: World, caller: Address): (r: Result<World>)
    ensures r.Ok? <==> caller == w.app.manager && w.app.state == STAGE_MAX && w.app.batchNo < MAX_UINT64
    ensures caller != w.app.manager ==> r == Err(Unauthorized)
    ensures caller == w.app.manager && w.app.state != STAGE_MAX ==> r == Err(StageGuard)
    ensures caller == w.app.manager && w.app.state == STAGE_MAX && w.app.batchNo == MAX_UINT64 ==> r == Err(Overflow)
    ensures r.Ok? ==>
      && r.value.app.state == 1
      && r.value.app.batchNo == w.app.batchNo + 1
      && r.value.app.batchCurrentKg == 0
      && r.value.app.tracking == w.app.tracking
      && SameConfig(w.app, r.value.app)
      && SameAssets(w, r.value)
  {
    if caller != w.app.manager then Err(Unauthorized)
    else if w.app.state != STAGE_MAX then Err(StageGuard)
    else if w.app.batchNo == MAX_UINT64 then Err(Overflow)
    else Ok(w.(app := w.app.(state := 1, batchNo := w.app.batchNo + 1, batchCurrentKg := 0)))
  }

  /** incrementState: moves the batch one stage on. */
  function IncrementState(w: World, caller: Address): (r: Result<World>)
    ensures r.Ok? <==> caller == w.app.manager && w.app.state < STAGE_MAX
    ensures caller != w.app.manager ==> r == Err(Unauthorized)
    ensures r.Err? && caller == w.app.manager ==> r == Err(StageGuard)
    ensures r.Ok? ==>
      && r.value.app.state == w.app.state + 1
      && r.value.app.batchNo == w.app.batchNo
      && r.value.app.batchCurrentKg == w.app.batchCurrentKg
      && r.value.app.tracking == w.app.tracking
      && SameConfig(w.app, r.value.app)
      && SameAssets(w, r.value)
  {
    if caller != w.app.manager then Err(Unauthorized)
    else if !(w.app.state < STAGE_MAX) then Err(StageGuard)
    else Ok(w.(app := w.app.(state := w.app.state + 1)))
  }

  /** decrementBatch: administrative roll-back to the previous batch number,
      from any stage but the last. */
  function DecrementBatch(w: World, caller: Address): (r: Result<World>)
    ensures r.Ok? <==> caller == w.app.manager && w.app.state != STAGE_MAX && w.app.batchNo >= 1
    ensures caller != w.app.manager ==> r == Err(Unauthorized)
    ensures caller == w.app.manager && w.app.state == STAGE_MAX ==> r == Err(StageGuard)
    ensures caller == w.app.manager && w.app.state != STAGE_MAX && w.app.batchNo == 0 ==> r == Err(Underflow)
    ensures r.Ok? ==>
      && r.value.app.state == 1
      && r.value.app.batchNo == w.app.batchNo - 1
      && r.value.app.batchCurrentKg == 0
      && r.value.app.tracking == w.app.tracking
      && SameConfig(w.app, r.value.app)
      && SameAssets(w, r.value)
  {
    if caller != w.app.manager then Err(Unauthorized)
    else if w.app.state == STAGE_MAX then Err(StageGuard)
    else if w.app.batchNo == 0 then Err(Underflow)
    else Ok(w.(app := w.app.(state := 1, batchNo := w.app.batchNo - 1, batchCurrentKg := 0)))
  }

  /** set_url: records the shipment-tracking reference. */
  function SetUrl(w: World, caller: Address, url: string): (r: Result<World>)
    ensures r.Ok? <==> caller == w.app.manager
    ensures r.Err? ==> r == Err(Unauthorized)
    ensures r.Ok? ==>
      && r.value.app.tracking == url
      && r.value.app.state == w.app.state
      && r.value.app.batchNo == w.app.batchNo
      && r.value.app.batchCurrentKg == w.app.batchCurrentKg
      && SameConfig(w.app, r.value.app)
      && SameAssets(w, r.value)
  {
    if caller != w.app.manager then Err(Unauthorized)
    else Ok(w.(app := w.app.(tracking := url)))
  }

  /** inputGem: the miner mints the asset standing for one gem. Its capacity
      guard compares the committed weight with the limit and does not add any
      incoming weight. The new asset takes the identifier `w.nextAssetId`. */
  function InputGem(w: World, caller: Address, metadata: string): (r: Result<World>)
    ensures r.Ok? <==> caller == w.app.miner && w.app.state == 1 && w.app.batchCurrentKg <= w.app.batchMaxKg
    ensures caller != w.app.miner ==> r == Err(Unauthorized)
    ensures caller == w.app.miner && w.app.state != 1 ==> r == Err(StageGuard)
    ensures r.Ok? ==>
      && r.value.app == w.app
      && r.value.appAddress == w.appAddress
      && r.value.nextAssetId == w.nextAssetId + 1
      && r.value.assets.Keys == w.assets.Keys + {w.nextAssetId}
      && (forall id :: id in w.assets && id != w.nextAssetId ==> r.value.assets[id] == w.assets[id])
      && r.value.assets[w.nextAssetId] == MintedAsset(w.app.evaluator, w.app.manager, w.appAddress, metadata)
  {
    if caller != w.app.miner then Err(Unauthorized)
    else if w.app.state != 1 then Err(StageGuard)
    else if !(w.app.batchCurrentKg <= w.app.batchMaxKg) then Err(CapacityExceeded)
    else Ok(w.(assets := w.assets[w.nextAssetId := MintedAsset(w.app.evaluator, w.app.manager, w.appAddress, metadata)],
               nextAssetId := w.nextAssetId + 1))
  }

  /** edit_asset_metadata: the evaluator records the evaluated metadata of an
      asset, hands its management to the application manager and commits the
      gem's weight to the batch, provided the weight fits. */
  function EditAssetMetadata(w: World, caller: Address, assetId: AssetId,
                             metadata: string, weight: Uint64): (r: Result<World>)
    ensures r.Ok? <==>
      && caller == w.app.evaluator && w.app.state == 1
      && w.app.batchCurrentKg + weight <= w.app.batchMaxKg
      && assetId in w.assets
    ensures caller != w.app.evaluator ==> r == Err(Unauthorized)
    ensures caller == w.app.evaluator && w.app.state != 1 ==> r == Err(StageGuard)
    ensures (caller == w.app.evaluator && w.app.state == 1 && w.app.batchCurrentKg + weight <= MAX_UINT64
             && w.app.batchCurrentKg + weight > w.app.batchMaxKg) ==> r == Err(CapacityExceeded)
    ensures (caller == w.app.evaluator && w.app.state == 1
             && w.app.batchCurrentKg + weight > MAX_UINT64) ==> r == Err(Overflow)
    ensures (caller == w.app.evaluator && w.app.state == 1 && w.app.batchCurrentKg + weight <= w.app.batchMaxKg
             && assetId !in w.assets) ==> r == Err(UnknownAsset)
    ensures r.Ok? ==>
      && r.value.app.batchCurrentKg == w.app.batchCurrentKg + weight
      && r.value.app.batchCurrentKg <= r.value.app.batchMaxKg
      && r.value.app.state == w.app.state
      && r.value.app.batchNo == w.app.batchNo
      && r.value.app.tracking == w.app.tracking
      && SameConfig(w.app, r.value.app)
      && r.value.appAddress == w.appAddress
      && r.value.nextAssetId == w.nextAssetId
      && r.value.assets.Keys == w.assets.Keys
      && (forall id :: id in w.assets && id != assetId ==> r.value.assets[id] == w.assets[id])
      && r.value.assets[assetId] == w.assets[assetId].(metadata := metadata, manager := w.app.manager)
  {
    if caller != w.app.evaluator then Err(Unauthorized)
    else if w.app.state != 1 then Err(StageGuard)
    else if w.app.batchCurrentKg + weight > MAX_UINT64 then Err(Overflow)
    else if !(w.app.batchCurrentKg + weight <= w.app.batchMaxKg) then Err(CapacityExceeded)
    else if assetId !in w.assets then Err(UnknownAsset)
    else
      var a := w.assets[assetId].(metadata := metadata, manager := w.app.manager);
      Ok(w.(app := w.app.(batchCurrentKg := w.app.batchCurrentKg + weight),
            assets := w.assets[assetId := a]))
  }

  /** unfreeze_asset: at the last stage the manager clears the default-frozen
      flag of one asset and writes the price into its name. */
  function UnfreezeAsset(w: World, caller: Address, assetId: AssetId, price: string): (r: Result<World>)
    ensures r.Ok? <==> caller == w.app.manager && w.app.state == STAGE_MAX && assetId in w.assets
    ensures caller != w.app.manager ==> r == Err(Unauthorized)
    ensures caller == w.app.manager && w.app.state != STAGE_MAX ==> r == Err(StageGuard)
    ensures (caller == w.app.manager && w.app.state == STAGE_MAX && assetId !in w.assets) ==> r == Err(UnknownAsset)
    ensures r.Ok? ==>
      && r.value.app == w.app
      && r.value.appAddress == w.appAddress
      && r.value.nextAssetId == w.nextAssetId
      && r.value.assets.Keys == w.assets.Keys
      && (forall id :: id in w.assets && id != assetId ==> r.value.assets[id] == w.assets[id])
      && r.value.assets[assetId] == w.assets[assetId].(frozen := false, name := price)
  {
    if caller != w.app.manager then Err(Unauthorized)
    else if w.app.state != STAGE_MAX then Err(StageGuard)
    else if assetId !in w.assets then Err(UnknownAsset)
    else Ok(w.(assets := w.assets[assetId := w.assets[assetId].(frozen := false, name := price)]))
  }

  /** The external entry points with their arguments. */
  datatype Call =
    | IncrementBatchCall
    | IncrementStateCall
    | DecrementBatchCall
    | SetUrlCall(url: string)
    | InputGemCall(metadata: string)
    | EditAssetMetadataCall(assetId: AssetId, metadata: string, weight: Uint64)
    | UnfreezeAssetCall(assetId: AssetId, price: string)

  /** One call as the ledger delivers it: the sender and the entry point. */
  datatype Invocation = Invocation(caller: Address, call: Call)

  /** The role each entry point is reserved for. */
  function RequiredRole(app: App, c: Call): Address {
    match c
    case InputGemCall(_) => app.miner
    case EditAssetMetadataCall(_, _, _) => app.evaluator
    case _ => app.manager
  }

  /** Dispatches one call to its entry point. */
  function Step(w: World, caller: Address, c: Call): Result<World> {
    match c
    case IncrementBatchCall => IncrementBatch(w, caller)
    case IncrementStateCall => IncrementState(w, caller)
    case DecrementBatchCall => DecrementBatch(w, caller)
    case SetUrlCall(url) => SetUrl(w, caller, url)
    case InputGemCall(metadata) => InputGem(w, caller, metadata)
    case EditAssetMetadataCall(id, metadata, weight) => EditAssetMetadata(w, caller, id, metadata, weight)
    case UnfreezeAssetCall(id, price) => UnfreezeAsset(w, caller, id, price)
  }

  /** The world after a call: the new world when it succeeds, the old one when
      it aborts. */
  function Commit(w: World, r: Result<World>): World {
    if r.Ok? then r.value else w
  }

  /** The world after the ledger has executed a sequence of calls one after
      another, each seeing the state the previous ones left. */
  function Run(w: World, calls: seq<Invocation>): World
    decreases |calls|
  {
    if calls == [] then w
    else Run(Commit(w, Step(w, calls[0].caller, calls[0].call)), calls[1..])
  }
}
