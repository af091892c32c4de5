/** What the entry points of MineMain guarantee, for one call and for any
    sequence of calls the ledger executes. */
module MineProperties {
  import opened MineState
  import opened MineTransitions

  /** An asset in the table whose management has passed to the application manager. */
  ghost predicate HandedOver(w: World, id: AssetId) {
    id in w.assets && w.assets[id].manager == w.app.manager
  }

  /** An asset in the table whose default-frozen flag has been cleared. */
  ghost predicate Unfrozen(w: World, id: AssetId) {
    id in w.assets && !w.assets[id].frozen
  }

  // ---------------------------------------------------------------------------
  // One call

  /** Every entry point rejects exactly the senders other than its role, with
      an authorization error. */
  lemma AuthorizationGate(w: World, caller: Address, c: Call)
    ensures Step(w, caller, c) == Err(Unauthorized) <==> caller != RequiredRole(w.app, c)
  {
  }

  /** A call that is rejected leaves the world as it was. For the
      transition functions this holds by the definition of `Commit`; the
      all-or-nothing behaviour of the code itself is the `Settles`
      postcondition of each method of `MineContract.MineMain`, proved of its
      early returns. */
  lemma RejectedCallChangesNothing(w: World, caller: Address, c: Call)
    requires Step(w, caller, c).Err?
    ensures Commit(w, Step(w, caller, c)) == w
  {
  }

  /** No entry point writes the roles, the limits or the application account. */
  lemma StepPreservesConfig(w: World, caller: Address, c: Call)
    ensures SameConfig(w.app, Commit(w, Step(w, caller, c)).app)
    ensures Commit(w, Step(w, caller, c)).appAddress == w.appAddress
  {
  }

  /** Every entry point keeps the invariant: stage in 1..7, committed weight
      within the limit, well-formed assets under fresh identifiers. */
  lemma StepPreservesValid(w: World, caller: Address, c: Call)
    requires Valid(w)
    ensures Valid(Commit(w, Step(w, caller, c)))
  {
  }

  /** Minting, the only way an asset enters the table, happens only on the
      miner's intake call at stage 1, and the new asset is frozen and managed
      by the evaluator. */
  lemma MintOnlyAtStageOne(w: World, caller: Address, c: Call, id: AssetId)
    requires id !in w.assets && id in Commit(w, Step(w, caller, c)).assets
    ensures c.InputGemCall? && caller == w.app.miner && w.app.state == 1
    ensures id == w.nextAssetId
    ensures Commit(w, Step(w, caller, c)).assets[id].frozen
    ensures Commit(w, Step(w, caller, c)).assets[id].manager == w.app.evaluator
  {
  }

  /** An asset's frozen flag is cleared only by the manager's unfreeze call on
      that asset at the last stage. */
  lemma UnfreezeOnlyAtTerminalStage(w: World, caller: Address, c: Call, id: AssetId)
    requires id in w.assets && w.assets[id].frozen
    requires Unfrozen(Commit(w, Step(w, caller, c)), id)
    ensures c.UnfreezeAssetCall? && c.assetId == id
    ensures caller == w.app.manager && w.app.state == STAGE_MAX
  {
  }

  /** The committed weight grows only through the evaluator's metadata edit at
      stage 1, and then by exactly the weight passed. */
  lemma WeightGrowsOnlyByEvaluation(w: World, caller: Address, c: Call)
    requires Commit(w, Step(w, caller, c)).app.batchCurrentKg > w.app.batchCurrentKg
    ensures c.EditAssetMetadataCall? && caller == w.app.evaluator && w.app.state == 1
    ensures Commit(w, Step(w, caller, c)).app.batchCurrentKg == w.app.batchCurrentKg + c.weight
  {
  }

  /** The batch number changes only through the manager's two batch calls:
      rollover from the last stage or roll-back from any other stage; both
      return to stage 1 with no weight committed. */
  lemma BatchChangesOnlyByBatchCalls(w: World, caller: Address, c: Call)
    requires Commit(w, Step(w, caller, c)).app.batchNo != w.app.batchNo
    ensures caller == w.app.manager
    ensures (c.IncrementBatchCall? && w.app.state == STAGE_MAX) || (c.DecrementBatchCall? && w.app.state != STAGE_MAX)
    ensures Commit(w, Step(w, caller, c)).app.state == 1
    ensures Commit(w, Step(w, caller, c)).app.batchCurrentKg == 0
  {
  }

  /** Under the invariant the capacity guard of inputGem never rejects: the
      call succeeds exactly for the miner at stage 1. */
  lemma InputGemCapacityGuardNeverRejects(w: World, caller: Address, metadata: string)
    requires Valid(w)
    ensures InputGem(w, caller, metadata).Ok? <==> caller == w.app.miner && w.app.state == 1
  {
  }

  /** edit_asset_metadata does not remember that an asset was evaluated: the
      evaluator can evaluate the same asset again, and its weight is then
      committed a second time. */
  lemma EvaluationCanRepeat(w: World, id: AssetId, metadata: string, weight: Uint64)
    requires EditAssetMetadata(w, w.app.evaluator, id, metadata, weight).Ok?
    requires w.app.batchCurrentKg + 2 * weight <= w.app.batchMaxKg
    ensures var w1 := EditAssetMetadata(w, w.app.evaluator, id, metadata, weight).value;
      && EditAssetMetadata(w1, w.app.evaluator, id, metadata, weight).Ok?
      && var w2 := EditAssetMetadata(w1, w.app.evaluator, id, metadata, weight).value;
         && w2.app.batchCurrentKg == w.app.batchCurrentKg + 2 * weight
         && w2.assets.Keys == w.assets.Keys
  {
  }

  // ---------------------------------------------------------------------------
  // Sequences of calls

  /** The invariant holds after any sequence of calls from a valid world. */
  lemma {:induction false} RunPreservesValid(w: World, calls: seq<Invocation>)
    requires Valid(w)
    ensures Valid(Run(w, calls))
    decreases |calls|
  {
    if calls != [] {
      StepPreservesValid(w, calls[0].caller, calls[0].call);
      RunPreservesValid(Commit(w, Step(w, calls[0].caller, calls[0].call)), calls[1..]);
    }
  }

  /** Roles, limits and the application account never change. */
  lemma {:induction false} RunPreservesConfig(w: World, calls: seq<Invocation>)
    ensures SameConfig(w.app, Run(w, calls).app)
    ensures Run(w, calls).appAddress == w.appAddress
    decreases |calls|
  {
    if calls != [] {
      var w' := Commit(w, Step(w, calls[0].caller, calls[0].call));
      StepPreservesConfig(w, calls[0].caller, calls[0].call);
      RunPreservesConfig(w', calls[1..]);
    }
  }

  /** Assets are never removed and identifiers are never reused. */
  lemma {:induction false} RunNeverRemovesAssets(w: World, calls: seq<Invocation>)
    ensures w.assets.Keys <= Run(w, calls).assets.Keys
    ensures w.nextAssetId <= Run(w, calls).nextAssetId
    decreases |calls|
  {
    if calls != [] {
      RunNeverRemovesAssets(Commit(w, Step(w, calls[0].caller, calls[0].call)), calls[1..]);
    }
  }

  /** Once an asset's management has passed to the application manager it
      stays there: no later call gives it back to the evaluator. */
  lemma {:induction false} HandoverIsIrreversible(w: World, calls: seq<Invocation>, id: AssetId)
    requires Valid(w) && HandedOver(w, id)
    ensures HandedOver(Run(w, calls), id)
    decreases |calls|
  {
    if calls != [] {
      var w' := Commit(w, Step(w, calls[0].caller, calls[0].call));
      StepPreservesValid(w, calls[0].caller, calls[0].call);
      StepPreservesConfig(w, calls[0].caller, calls[0].call);
      HandoverIsIrreversible(w', calls[1..], id);
    }
  }

  /** Once an asset is unfrozen it stays unfrozen. */
  lemma {:induction false} UnfreezeIsIrreversible(w: World, calls: seq<Invocation>, id: AssetId)
    requires Valid(w) && Unfrozen(w, id)
    ensures Unfrozen(Run(w, calls), id)
    decreases |calls|
  {
    if calls != [] {
      var w' := Commit(w, Step(w, calls[0].caller, calls[0].call));
      StepPreservesValid(w, calls[0].caller, calls[0].call);
      UnfreezeIsIrreversible(w', calls[1..], id);
    }
  }

  /** `n` advances by the manager from stage `s` reach stage `s + n` as long as
      that is within the limit, and touch nothing but the stage. */
  lemma {:induction false} AdvancesReachStage(w: World, n: nat)
    requires w.app.state + n <= STAGE_MAX
    ensures Run(w, seq(n, _ => Invocation(w.app.manager, IncrementStateCall))) ==
            w.(app := w.app.(state := w.app.state + n))
    decreases n
  {
    var calls := seq(n, _ => Invocation(w.app.manager, IncrementStateCall));
    if n > 0 {
      var w' := Commit(w, Step(w, w.app.manager, IncrementStateCall));
      assert w' == w.(app := w.app.(state := w.app.state + 1));
      assert calls[1..] == seq(n - 1, _ => Invocation(w'.app.manager, IncrementStateCall));
      AdvancesReachStage(w', n - 1);
    }
  }

  /** From a valid world the stage can be advanced to the last one and no
      further: one more advance is rejected. */
  lemma AdvancePastLastStageRejected(w: World)
    requires Valid(w)
    ensures var w' := Run(w, seq(STAGE_MAX - w.app.state, _ => Invocation(w.app.manager, IncrementStateCall)));
            && w'.app.state == STAGE_MAX
            && IncrementState(w', w.app.manager) == Err(StageGuard)
  {
    AdvancesReachStage(w, STAGE_MAX - w.app.state);
  }

  /** Running two sequences of calls one after the other is running their
      concatenation. */
  lemma {:induction false} RunConcat(w: World, a: seq<Invocation>, b: seq<Invocation>)
    ensures Run(w, a + b) == Run(Run(w, a), b)
    decreases |a|
  {
    if a == [] {
      assert a + b == b;
    } else {
      var w' := Commit(w, Step(w, a[0].caller, a[0].call));
      assert (a + b)[0] == a[0] && (a + b)[1..] == a[1..] + b;
      assert Run(w, a + b) == Run(w', a[1..] + b);
      RunConcat(w', a[1..], b);
    }
  }

  /** The calls of one batch cycle: the miner mints two gems, the evaluator
      commits 6 kg for the first and tries 6 kg more for the second, the manager
      advances six times, unfreezes the first gem at a price and rolls over. */
  function CycleCalls(o: Address, e: Address, m: Address, first: AssetId): seq<Invocation> {
    [Invocation(m, InputGemCall("h1")),
     Invocation(m, InputGemCall("h2")),
     Invocation(e, EditAssetMetadataCall(first, "h1", 6)),
     Invocation(e, EditAssetMetadataCall(first + 1, "h2", 6))]
    + seq(6, _ => Invocation(o, IncrementStateCall))
    + [Invocation(o, UnfreezeAssetCall(first, "100")),
       Invocation(o, IncrementBatchCall)]
  }

  /** A full batch cycle with a 10 kg limit: after the first evaluation 6 kg
      are committed; the second 6 kg commit is rejected for capacity, so after
      the cycle the first gem is evaluated, unfrozen and priced, the second is
      still frozen with the evaluator, and the next batch starts at stage 1
      with no weight. */
  lemma BatchCycleScenario(o: Address, e: Address, m: Address, app: Address, first: AssetId)
    requires o != e && o != m && e != m
    ensures var w3 := Run(Create(o, app, 10, e, m, first), CycleCalls(o, e, m, first)[..3]);
      && w3.app.batchCurrentKg == 6
      && Step(w3, e, EditAssetMetadataCall(first + 1, "h2", 6)) == Err(CapacityExceeded)
    ensures var w := Run(Create(o, app, 10, e, m, first), CycleCalls(o, e, m, first));
      && w.app.state == 1 && w.app.batchNo == 2 && w.app.batchCurrentKg == 0
      && w.assets.Keys == {first, first + 1}
      && !w.assets[first].frozen && w.assets[first].name == "100" && w.assets[first].manager == o
      && w.assets[first + 1].frozen && w.assets[first + 1].manager == e
  {
    var w0 := Create(o, app, 10, e, m, first);
    var intake := [Invocation(m, InputGemCall("h1")),
                   Invocation(m, InputGemCall("h2")),
                   Invocation(e, EditAssetMetadataCall(first, "h1", 6)),
                   Invocation(e, EditAssetMetadataCall(first + 1, "h2", 6))];
    var advances := seq(6, _ => Invocation(o, IncrementStateCall));
    var sale := [Invocation(o, UnfreezeAssetCall(first, "100")), Invocation(o, IncrementBatchCall)];
    assert CycleCalls(o, e, m, first) == intake + advances + sale;
    RunConcat(w0, intake + advances, sale);
    RunConcat(w0, intake, advances);

    var w1 := Commit(w0, Step(w0, m, InputGemCall("h1")));
    var w2 := Commit(w1, Step(w1, m, InputGemCall("h2")));
    var w3 := Commit(w2, Step(w2, e, EditAssetMetadataCall(first, "h1", 6)));
    assert w3.app.batchCurrentKg == 6;
    assert Step(w3, e, EditAssetMetadataCall(first + 1, "h2", 6)) == Err(CapacityExceeded);
    assert Run(w0, intake) == w3 by {
      assert Run(w0, intake) == Run(w1, intake[1..]);
      assert Run(w1, intake[1..]) == Run(w2, intake[2..]);
      assert Run(w2, intake[2..]) == Run(w3, intake[3..]);
      assert Run(w3, intake[3..]) == Run(w3, []);
    }
    assert Run(w0, CycleCalls(o, e, m, first)[..3]) == w3 by {
      var prefix := CycleCalls(o, e, m, first)[..3];
      assert prefix == intake[..3];
      assert Run(w0, prefix) == Run(w1, prefix[1..]);
      assert Run(w1, prefix[1..]) == Run(w2, prefix[2..]);
      assert Run(w2, prefix[2..]) == Run(w3, prefix[3..]);
      assert prefix[3..] == [];
    }
    AdvancesReachStage(w3, 6);
    var w4 := Run(w3, advances);
    assert w4.app.state == STAGE_MAX;
    var w5 := Commit(w4, Step(w4, o, UnfreezeAssetCall(first, "100")));
    var w6 := Commit(w5, Step(w5, o, IncrementBatchCall));
    assert Run(w4, sale) == w6 by {
      assert Run(w4, sale) == Run(w5, sale[1..]);
      assert Run(w5, sale[1..]) == Run(w6, []);
    }
  }
}
