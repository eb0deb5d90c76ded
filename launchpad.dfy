/**
 * The four-step token launch of app/transfer-hook-launchpad.tsx.
 *
 * The screen keeps a list of four steps (create the token, create the AMM
 * pool, add liquidity, enable trading), each with `completed` and `inProgress`
 * flags, and the number of the step whose panel is shown. Each handler checks
 * its guard, marks its step in progress, awaits an external call and then
 * either completes the step and moves on, or resets the step to not started.
 *
 * Each awaited call is an input (`CallResult`). Each handler runs as one
 * atomic transition from its click to its `finally`. The render gates (the
 * panel of step k is shown only while `currentStep == k`; buttons are
 * disabled while `isProcessing`) are the handlers' preconditions.
 */
module Launchpad {
  import opened Wrappers

  datatype LaunchpadStep = LaunchpadStep(
    id: int,
    title: string,
    description: string,
    completed: bool,
    inProgress: bool)

  const INITIAL_STEPS: seq<LaunchpadStep> := [
    LaunchpadStep(1, "Create Token-2022", "Create token with Transfer Hook", false, false),
    LaunchpadStep(2, "Create AMM Pool", "Create SOL-token liquidity pool", false, false),
    LaunchpadStep(3, "Add Initial Liquidity", "Provide initial liquidity to pool", false, false),
    LaunchpadStep(4, "Enable Trading", "Activate trading with hook compliance", false, false)
  ]

  /** Number of steps in the launch. */
  const STEP_COUNT: int := 4

  /** `updateStepStatus`: the map over the list that rewrites the flags of the steps with id `stepId`. */
  function UpdateStepStatus(steps: seq<LaunchpadStep>, stepId: int, completed: bool, inProgress: bool)
    : (r: seq<LaunchpadStep>)
    ensures |r| == |steps|
  {
    if steps == [] then []
    else
      var step := steps[0];
      var updated := if step.id == stepId then step.(completed := completed, inProgress := inProgress) else step;
      [updated] + UpdateStepStatus(steps[1..], stepId, completed, inProgress)
  }

  /**
   * `updateStepStatus` keeps the length, the order, every id, title and
   * description, and every step whose id differs from `stepId`; on the steps
   * with id `stepId` it sets exactly the two flags.
   */
  lemma {:induction false} UpdateStepStatusSpec(steps: seq<LaunchpadStep>, stepId: int, completed: bool, inProgress: bool)
    ensures var r := UpdateStepStatus(steps, stepId, completed, inProgress);
      && (forall i :: 0 <= i < |r| ==>
            r[i].id == steps[i].id && r[i].title == steps[i].title && r[i].description == steps[i].description)
      && (forall i :: 0 <= i < |r| && steps[i].id != stepId ==> r[i] == steps[i])
      && (forall i :: 0 <= i < |r| && steps[i].id == stepId ==>
            r[i].completed == completed && r[i].inProgress == inProgress)
  {
    if steps != [] {
      UpdateStepStatusSpec(steps[1..], stepId, completed, inProgress);
    }
  }

  /**
   * Two updates of the same step: the later one wins. This is why the
   * in-progress mark a handler sets before its await is gone after it.
   */
  lemma {:induction false} UpdateStepStatusLastWins(
    steps: seq<LaunchpadStep>, stepId: int, c1: bool, p1: bool, c2: bool, p2: bool)
    ensures UpdateStepStatus(UpdateStepStatus(steps, stepId, c1, p1), stepId, c2, p2)
         == UpdateStepStatus(steps, stepId, c2, p2)
  {
    if steps != [] {
      var mid := UpdateStepStatus(steps, stepId, c1, p1);
      assert mid[1..] == UpdateStepStatus(steps[1..], stepId, c1, p1);
      UpdateStepStatusLastWins(steps[1..], stepId, c1, p1, c2, p2);
    }
  }

  /** `steps.every(step => step.completed)`: the launch is complete. */
  predicate LaunchComplete(steps: seq<LaunchpadStep>) {
    forall i :: 0 <= i < |steps| ==> steps[i].completed
  }

  /** The colour `getStepColor` gives a step badge. */
  datatype StepColor = Success | Warning | Accent | Muted

  /** `getStepColor`: completed wins over in progress, which wins over being the current step. */
  function GetStepColor(step: LaunchpadStep, currentStep: int): (c: StepColor)
    ensures c == Success <==> step.completed
    ensures c == Warning <==> !step.completed && step.inProgress
    ensures c == Accent <==> !step.completed && !step.inProgress && step.id == currentStep
  {
    if step.completed then Success
    else if step.inProgress then Warning
    else if step.id == currentStep then Accent
    else Muted
  }

  /** The steps have the fixed ids, titles and descriptions of `INITIAL_STEPS`, in order. */
  ghost predicate WellFormed(steps: seq<LaunchpadStep>) {
    |steps| == STEP_COUNT &&
    forall i :: 0 <= i < |steps| ==>
      steps[i].id == i + 1 && steps[i].title == INITIAL_STEPS[i].title &&
      steps[i].description == INITIAL_STEPS[i].description
  }

  /**
   * The ordering invariant between handlers: steps before `currentStep` are
   * completed, steps after it are untouched, no step is in progress, and the
   * current step is completed only when it is the last one.
   */
  ghost predicate Ordered(steps: seq<LaunchpadStep>, currentStep: int) {
    WellFormed(steps) && 1 <= currentStep <= STEP_COUNT &&
    (forall i :: 0 <= i < |steps| ==> !steps[i].inProgress) &&
    (forall i :: 0 <= i < currentStep - 1 ==> steps[i].completed) &&
    (forall i :: currentStep <= i < |steps| ==> !steps[i].completed) &&
    (currentStep < STEP_COUNT ==> !steps[currentStep - 1].completed)
  }

  /** Under the ordering invariant, the launch is complete exactly when step 4 is current and completed. */
  lemma LaunchCompleteIffLastDone(steps: seq<LaunchpadStep>, currentStep: int)
    requires Ordered(steps, currentStep)
    ensures LaunchComplete(steps) <==> currentStep == STEP_COUNT && steps[STEP_COUNT - 1].completed
  {
  }

  /**
   * The state a handler leaves behind when step `k` (the current one) succeeds:
   * the step is completed and, except for the last step, the next one is current.
   */
  lemma SuccessKeepsOrder(steps: seq<LaunchpadStep>, currentStep: int)
    requires Ordered(steps, currentStep)
    ensures var next := if currentStep < STEP_COUNT then currentStep + 1 else currentStep;
      Ordered(UpdateStepStatus(steps, currentStep, true, false), next)
    ensures currentStep == STEP_COUNT ==> LaunchComplete(UpdateStepStatus(steps, currentStep, true, false))
  {
    var r := UpdateStepStatus(steps, currentStep, true, false);
    UpdateStepStatusSpec(steps, currentStep, true, false);
    assert forall i :: 0 <= i < |r| && i != currentStep - 1 ==> r[i] == steps[i];
    assert r[currentStep - 1].completed && !r[currentStep - 1].inProgress;
  }

  /** A failed step is reset to not started; everything else is as it was. */
  lemma FailureKeepsOrder(steps: seq<LaunchpadStep>, currentStep: int)
    requires Ordered(steps, currentStep)
    ensures Ordered(UpdateStepStatus(steps, currentStep, false, false), currentStep)
    ensures currentStep < STEP_COUNT ==> UpdateStepStatus(steps, currentStep, false, false) == steps
    ensures !LaunchComplete(UpdateStepStatus(steps, currentStep, false, false))
  {
    var r := UpdateStepStatus(steps, currentStep, false, false);
    UpdateStepStatusSpec(steps, currentStep, false, false);
    if currentStep < STEP_COUNT {
      assert forall i :: 0 <= i < |r| ==> r[i] == steps[i];
    }
    assert !r[currentStep - 1].completed;
  }

  /** The status messages the handlers show, each a fixed text or the prefix of one. */
  const CREATING_TOKEN: string := "Creating Token-2022 with Transfer Hook..."
  const TOKEN_CREATED: string := "Token created: "
  const CREATING_POOL: string := "Creating AMM pool with Transfer Hook support..."
  const POOL_CREATED: string := "AMM Pool created: "
  const ADDING_LIQUIDITY: string := "Adding initial liquidity with Transfer Hook compliance..."
  const LIQUIDITY_ADDED: string := "Liquidity added: "
  const ENABLING_TRADING: string := "Enabling trading with Transfer Hook compliance..."
  const TRADING_ENABLED: string := "Trading enabled! Token-2022 with Transfer Hooks is now tradable!"

  class LaunchpadScreen {
    var steps: seq<LaunchpadStep>
    var currentStep: int
    var tokenSymbol: string
    /** The name of the selected whitelisted transfer hook, if any. */
    var selectedHook: Option<string>
    var tokenMint: Option<string>
    var poolAddress: Option<string>
    var isProcessing: bool
    var statusMessage: string

    ghost predicate Valid()
      reads this
    {
      Ordered(steps, currentStep) && !isProcessing &&
      (currentStep >= 2 ==> tokenMint.Some?) &&
      (currentStep >= 3 ==> poolAddress.Some?)
    }

    constructor ()
      ensures Valid()
      ensures steps == INITIAL_STEPS && currentStep == 1
      ensures tokenSymbol == "BNTY" && selectedHook == None
      ensures tokenMint == None && poolAddress == None
      ensures !isProcessing && statusMessage == ""
    {
      steps := INITIAL_STEPS;
      currentStep := 1;
      tokenSymbol := "BNTY";
      selectedHook := None;
      tokenMint := None;
      poolAddress := None;
      isProcessing := false;
      statusMessage := "";
    }

    /** Picking a hook in the step 1 panel. */
    method SelectHook(hook: string)
      requires Valid() && currentStep == 1
      modifies this`selectedHook
      ensures Valid() && selectedHook == Some(hook)
    {
      selectedHook := Some(hook);
    }

    /** Editing the symbol in the step 1 panel. */
    method SetTokenSymbol(symbol: string)
      requires Valid() && currentStep == 1
      modifies this`tokenSymbol
      ensures Valid() && tokenSymbol == symbol
    {
      tokenSymbol := symbol;
    }

    /**
     * `handleCreateToken`. `mint` is the outcome of generating the mint
     * keypair; its public key becomes `tokenMint`.
     */
    method HandleCreateToken(walletConnected: bool, mint: CallResult<string>)
      requires Valid() && currentStep == 1
      modifies this
      ensures Valid()
      ensures !walletConnected || old(selectedHook).None? ==> unchanged(this)
      ensures walletConnected && old(selectedHook).Some? ==>
        && tokenSymbol == old(tokenSymbol) && selectedHook == old(selectedHook)
        && poolAddress == old(poolAddress) && !isProcessing
        && (mint.Resolved? ==>
              && steps == UpdateStepStatus(old(steps), 1, true, false) && currentStep == 2
              && tokenMint == Some(mint.value)
              && statusMessage == TOKEN_CREATED + tokenSymbol + " (" + mint.value + ")")
        && (mint.Rejected? ==>
              && steps == UpdateStepStatus(old(steps), 1, false, false) && currentStep == 1
              && tokenMint == old(tokenMint)
              && statusMessage == CREATING_TOKEN)
    {
      if !walletConnected || selectedHook.None? {
        return;
      }
      isProcessing := true;
      steps := UpdateStepStatus(steps, 1, false, true);
      statusMessage := CREATING_TOKEN;
      match mint {
        case Resolved(publicKey) =>
          UpdateStepStatusLastWins(old(steps), 1, false, true, true, false);
          SuccessKeepsOrder(old(steps), 1);
          tokenMint := Some(publicKey);
          steps := UpdateStepStatus(steps, 1, true, false);
          currentStep := 2;
          statusMessage := TOKEN_CREATED + tokenSymbol + " (" + publicKey + ")";
        case Rejected =>
          UpdateStepStatusLastWins(old(steps), 1, false, true, false, false);
          FailureKeepsOrder(old(steps), 1);
          steps := UpdateStepStatus(steps, 1, false, false);
      }
      isProcessing := false;
    }

    /** `handleCreateAMMPool`. `pool` is the outcome of creating the pool; its address becomes `poolAddress`. */
    method HandleCreateAMMPool(walletConnected: bool, serviceAvailable: bool, pool: CallResult<string>)
      requires Valid() && currentStep == 2
      modifies this
      ensures Valid()
      ensures !walletConnected || !serviceAvailable ==> unchanged(this)
      ensures walletConnected && serviceAvailable ==>
        && tokenSymbol == old(tokenSymbol) && selectedHook == old(selectedHook)
        && tokenMint == old(tokenMint) && !isProcessing
        && (pool.Resolved? ==>
              && steps == UpdateStepStatus(old(steps), 2, true, false) && currentStep == 3
              && poolAddress == Some(pool.value)
              && statusMessage == POOL_CREATED + pool.value)
        && (pool.Rejected? ==>
              && steps == UpdateStepStatus(old(steps), 2, false, false) && currentStep == 2
              && poolAddress == old(poolAddress)
              && statusMessage == CREATING_POOL)
    {
      // The source also tests the mint; at step 2 the invariant guarantees it.
      if !(walletConnected && tokenMint.Some? && serviceAvailable) {
        return;
      }
      isProcessing := true;
      steps := UpdateStepStatus(steps, 2, false, true);
      statusMessage := CREATING_POOL;
      match pool {
        case Resolved(address) =>
          UpdateStepStatusLastWins(old(steps), 2, false, true, true, false);
          SuccessKeepsOrder(old(steps), 2);
          poolAddress := Some(address);
          steps := UpdateStepStatus(steps, 2, true, false);
          currentStep := 3;
          statusMessage := POOL_CREATED + address;
        case Rejected =>
          UpdateStepStatusLastWins(old(steps), 2, false, true, false, false);
          FailureKeepsOrder(old(steps), 2);
          steps := UpdateStepStatus(steps, 2, false, false);
      }
      isProcessing := false;
    }

    /** `handleAddLiquidity`. `signature` is the outcome of adding the initial liquidity. */
    method HandleAddLiquidity(walletConnected: bool, serviceAvailable: bool, signature: CallResult<string>)
      requires Valid() && currentStep == 3
      modifies this
      ensures Valid()
      ensures !walletConnected || !serviceAvailable ==> unchanged(this)
      ensures walletConnected && serviceAvailable ==>
        && tokenSymbol == old(tokenSymbol) && selectedHook == old(selectedHook)
        && tokenMint == old(tokenMint) && poolAddress == old(poolAddress) && !isProcessing
        && (signature.Resolved? ==>
              && steps == UpdateStepStatus(old(steps), 3, true, false) && currentStep == 4
              && statusMessage == LIQUIDITY_ADDED + signature.value)
        && (signature.Rejected? ==>
              && steps == UpdateStepStatus(old(steps), 3, false, false) && currentStep == 3
              && statusMessage == ADDING_LIQUIDITY)
    {
      // The source also tests the pool; at step 3 the invariant guarantees it.
      if !(walletConnected && poolAddress.Some? && serviceAvailable) {
        return;
      }
      isProcessing := true;
      steps := UpdateStepStatus(steps, 3, false, true);
      statusMessage := ADDING_LIQUIDITY;
      match signature {
        case Resolved(sig) =>
          UpdateStepStatusLastWins(old(steps), 3, false, true, true, false);
          SuccessKeepsOrder(old(steps), 3);
          steps := UpdateStepStatus(steps, 3, true, false);
          currentStep := 4;
          statusMessage := LIQUIDITY_ADDED + sig;
        case Rejected =>
          UpdateStepStatusLastWins(old(steps), 3, false, true, false, false);
          FailureKeepsOrder(old(steps), 3);
          steps := UpdateStepStatus(steps, 3, false, false);
      }
      isProcessing := false;
    }

    /**
     * `handleEnableTrading`: no guard, and success does not move `currentStep`,
     * so the panel stays and the step can be run again.
     */
    method HandleEnableTrading(activation: CallResult<()>)
      requires Valid() && currentStep == 4
      modifies this
      ensures Valid()
      ensures tokenSymbol == old(tokenSymbol) && selectedHook == old(selectedHook)
      ensures tokenMint == old(tokenMint) && poolAddress == old(poolAddress)
      ensures currentStep == 4 && !isProcessing
      ensures activation.Resolved? ==>
        && steps == UpdateStepStatus(old(steps), 4, true, false) && LaunchComplete(steps)
        && statusMessage == TRADING_ENABLED
      ensures activation.Rejected? ==>
        && steps == UpdateStepStatus(old(steps), 4, false, false) && !LaunchComplete(steps)
        && statusMessage == ENABLING_TRADING
    {
      isProcessing := true;
      steps := UpdateStepStatus(steps, 4, false, true);
      statusMessage := ENABLING_TRADING;
      match activation {
        case Resolved(_) =>
          UpdateStepStatusLastWins(old(steps), 4, false, true, true, false);
          SuccessKeepsOrder(old(steps), 4);
          steps := UpdateStepStatus(steps, 4, true, false);
          statusMessage := TRADING_ENABLED;
        case Rejected =>
          UpdateStepStatusLastWins(old(steps), 4, false, true, false, false);
          FailureKeepsOrder(old(steps), 4);
          steps := UpdateStepStatus(steps, 4, false, false);
      }
      isProcessing := false;
    }
  }

  /** Four successful steps in order complete the launch; a failed step can be retried. */
  method LaunchWithOneRetry(mint: string, pool: string, signature: string) returns (complete: bool)
    ensures complete
  {
    var screen := new LaunchpadScreen();
    screen.SelectHook("Fee Collection Hook");
    screen.HandleCreateToken(true, Resolved(mint));
    assert screen.currentStep == 2;
    screen.HandleCreateAMMPool(true, true, Rejected);
    assert screen.currentStep == 2 && !LaunchComplete(screen.steps);
    screen.HandleCreateAMMPool(true, true, Resolved(pool));
    screen.HandleAddLiquidity(true, true, Resolved(signature));
    assert screen.currentStep == 4;
    screen.HandleEnableTrading(Resolved(()));
    complete := LaunchComplete(screen.steps);
  }
}
