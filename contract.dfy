/** The MineMain application as an object: its global-state fields, the table
    of assets its inner asset configurations create and change, and one method
    per entry point taking the sender as a parameter. Each method performs the
    guarded field updates of the contract and is proved to end in the world its
    transition function describes, or to change nothing when it rejects. */
module MineContract {
  import opened MineState
  import MineTransitions

  /** A call ended as `outcome` says: on success the state is the new world and
      the call reports success; on rejection the state is the old world and the
      call reports the error. */
  ghost predicate Settles<T>(before: World, after: World, status: Result<T>, outcome: Result<World>) {
    if outcome.Ok? then status.Ok? && after == outcome.value
    else status == Err(outcome.error) && after == before
  }

  class MineMain {
    // Written once, at creation.
    const manager: Address
    const miner: Address
    const evaluator: Address
    const stateMax: Uint64
    const batchNoMax: Uint64
    const batchMaxKg: Uint64
    const appAddress: Address

    // Written by the entry points.
    var state: Uint64
    var batchNo: Uint64
    var batchCurrentKg: Uint64
    var tracking: string

    // The assets created by the application's inner asset configurations, and
    // the identifier the ledger gives to the next one.
    var assets: map<AssetId, Asset>
    var nextAssetId: AssetId

    /** The application's state as a value. */
    ghost function Snapshot(): World
      reads this
    {
      World(App(manager, miner, evaluator, state, stateMax, batchNo, batchNoMax,
                batchCurrentKg, batchMaxKg, tracking),
            appAddress, assets, nextAssetId)
    }

    ghost predicate Valid()
      reads this
    {
      MineState.Valid(Snapshot())
    }

    /** initialize_application_state: creation by `creator`. */
    constructor (creator: Address, appAddress: Address, maxKg: Uint64,
                 eval: Address, min: Address, firstAssetId: AssetId)
      ensures Valid()
      ensures Snapshot() == Create(creator, appAddress, maxKg, eval, min, firstAssetId)
    {
      manager := creator;
      stateMax := STATE_MAX_DEFAULT;
      batchNoMax := BATCH_NO_MAX_DEFAULT;
      this.appAddress := appAddress;
      state := 1;
      batchNo := 1;
      batchMaxKg := maxKg;
      evaluator := eval;
      miner := min;
      batchCurrentKg := 0;
      tracking := "";
      assets := map[];
      nextAssetId := firstAssetId;
    }

    /** incrementBatch (manager only). */
    method IncrementBatch(caller: Address) returns (status: Result<()>)
      requires Valid()
      modifies this
      ensures Valid()
      ensures Settles(old(Snapshot()), Snapshot(), status, MineTransitions.IncrementBatch(old(Snapshot()), caller))
    {
      if caller != manager { return Err(Unauthorized); }
      if state != STAGE_MAX { return Err(StageGuard); }
      if batchNo == MAX_UINT64 { return Err(Overflow); }
      state := 1;
      batchNo := batchNo + 1;
      batchCurrentKg := 0;
      status := Ok(());
    }

    /** incrementState (manager only). */
    method IncrementState(caller: Address) returns (status: Result<()>)
      requires Valid()
      modifies this
      ensures Valid()
      ensures Settles(old(Snapshot()), Snapshot(), status, MineTransitions.IncrementState(old(Snapshot()), caller))
    {
      if caller != manager { return Err(Unauthorized); }
      if !(state < STAGE_MAX) { return Err(StageGuard); }
      state := state + 1;
      status := Ok(());
    }

    /** decrementBatch (manager only). */
    method DecrementBatch(caller: Address) returns (status: Result<()>)
      requires Valid()
      modifies this
      ensures Valid()
      ensures Settles(old(Snapshot()), Snapshot(), status, MineTransitions.DecrementBatch(old(Snapshot()), caller))
    {
      if caller != manager { return Err(Unauthorized); }
      if state == STAGE_MAX { return Err(StageGuard); }
      if batchNo == 0 { return Err(Underflow); }
      state := 1;
      batchNo := batchNo - 1;
      batchCurrentKg := 0;
      status := Ok(());
    }

    /** set_url (manager only): writes the tracking reference. */
    method SetUrl(caller: Address, url: string) returns (status: Result<()>)
      requires Valid()
      modifies this
      ensures Valid()
      ensures Settles(old(Snapshot()), Snapshot(), status, MineTransitions.SetUrl(old(Snapshot()), caller, url))
    {
      if caller != manager { return Err(Unauthorized); }
      tracking := url;
      status := Ok(());
    }

    /** inputGem (miner only): mints the gem's asset and returns its identifier. */
    method InputGem(caller: Address, metadata: string) returns (r: Result<AssetId>)
      requires Valid()
      modifies this
      ensures Valid()
      ensures Settles(old(Snapshot()), Snapshot(), r, MineTransitions.InputGem(old(Snapshot()), caller, metadata))
      ensures r.Ok? ==> r.value == old(nextAssetId) && r.value !in old(assets) && r.value in assets
    {
      if caller != miner { return Err(Unauthorized); }
      if state != 1 { return Err(StageGuard); }
      if !(batchCurrentKg <= batchMaxKg) { return Err(CapacityExceeded); }
      r := Mint(metadata);
    }

    /** mint: the inner asset creation, which the ledger numbers with the next
        free identifier. */
    method Mint(metadata: string) returns (r: Result<AssetId>)
      requires Valid()
      modifies this
      ensures Valid()
      ensures r == Ok(old(nextAssetId))
      ensures Snapshot() == old(Snapshot()).(
        assets := old(assets)[old(nextAssetId) := MineTransitions.MintedAsset(evaluator, manager, appAddress, metadata)],
        nextAssetId := old(nextAssetId) + 1)
    {
      var id := nextAssetId;
      assets := assets[id := MineTransitions.MintedAsset(evaluator, manager, appAddress, metadata)];
      nextAssetId := id + 1;
      r := Ok(id);
    }

    /** edit_asset_metadata (evaluator only): re-configures the asset and
        commits the gem's weight to the batch. */
    method EditAssetMetadata(caller: Address, assetId: AssetId, metadata: string, weight: Uint64)
      returns (status: Result<()>)
      requires Valid()
      modifies this
      ensures Valid()
      ensures Settles(old(Snapshot()), Snapshot(), status,
                      MineTransitions.EditAssetMetadata(old(Snapshot()), caller, assetId, metadata, weight))
    {
      if caller != evaluator { return Err(Unauthorized); }
      if state != 1 { return Err(StageGuard); }
      if batchCurrentKg + weight > MAX_UINT64 { return Err(Overflow); }
      if !(batchCurrentKg + weight <= batchMaxKg) { return Err(CapacityExceeded); }
      if assetId !in assets { return Err(UnknownAsset); }
      assets := assets[assetId := assets[assetId].(metadata := metadata, manager := manager)];
      batchCurrentKg := batchCurrentKg + weight;
      status := Ok(());
    }

    /** unfreeze_asset (manager only): clears the frozen flag and sets the price. */
    method UnfreezeAsset(caller: Address, assetId: AssetId, price: string) returns (status: Result<()>)
      requires Valid()
      modifies this
      ensures Valid()
      ensures Settles(old(Snapshot()), Snapshot(), status,
                      MineTransitions.UnfreezeAsset(old(Snapshot()), caller, assetId, price))
    {
      if caller != manager { return Err(Unauthorized); }
      if state != STAGE_MAX { return Err(StageGuard); }
      if assetId !in assets { return Err(UnknownAsset); }
      assets := assets[assetId := assets[assetId].(frozen := false, name := price)];
      status := Ok(());
    }
  }
}
