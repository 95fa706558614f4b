/**
 * The `canvasReady` hook: on every new canvas (every scene change) the entry
 * point rebuilds its module-level bindings, closes the previous socket
 * controller before building a new one, initialises the new one, and only
 * then sets the masking flag from the `mask_default` setting.
 *
 * The objects themselves (masking, renderer, socket controller, calculators,
 * coordinators) are not part of this model; each is represented by the number
 * of the `canvasReady` pass that built it, a calculator also by its kind, and
 * a coordinator by the objects it was built around. Calls that the source awaits complete before the next
 * statement; the calls on socket controllers and on the shared state are
 * recorded, in order, in `log`.
 */
module CanvasLifecycle {

  import opened Wrappers
  import opened JsValues

  /** A recorded call on a socket controller or on the shared state. */
  datatype Event =
    | Deactivate(controller: nat)
    | Construct(controller: nat)
    | Init(controller: nat)
    | SetIsMask(value: bool)

  /** Which of the two calculators an object is. */
  datatype CalculatorKind = ActorKind | TokenKind

  /** A calculator: its kind and the pass that built it. */
  datatype Calculator = Calculator(kind: CalculatorKind, pass: nat)

  /** An update coordinator and the objects it was constructed with. */
  datatype Coordinator = Coordinator(renderer: nat, socketController: nat, calculator: Calculator, masking: nat)

  /** The controllers that, after the calls in `log`, were initialised and not deactivated since. */
  function ActiveControllers(log: seq<Event>): set<nat>
  {
    if log == [] then {}
    else
      var prev := ActiveControllers(log[..|log| - 1]);
      var last := log[|log| - 1];
      match last
      case Init(c) => prev + {c}
      case Deactivate(c) => prev - {c}
      case _ => prev
  }

  /** One more call adds to, removes from or keeps the set of active controllers. */
  lemma ActiveControllersAppend(log: seq<Event>, e: Event)
    ensures e.Init? ==> ActiveControllers(log + [e]) == ActiveControllers(log) + {e.controller}
    ensures e.Deactivate? ==> ActiveControllers(log + [e]) == ActiveControllers(log) - {e.controller}
    ensures e.Construct? || e.SetIsMask? ==> ActiveControllers(log + [e]) == ActiveControllers(log)
  {
    assert (log + [e])[..|log|] == log;
  }

  /** The calls made on the previous controller before a new one is built: deactivate it, if any. */
  function Teardown(previous: Option<nat>): seq<Event>
  {
    if previous.Some? then [Deactivate(previous.value)] else []
  }

  /** Tearing down closes the previous controller, if any, and leaves every other controller as it was. */
  lemma TeardownClosesPrevious(log: seq<Event>, previous: Option<nat>)
    ensures ActiveControllers(log + Teardown(previous)) ==
              ActiveControllers(log) - (if previous.Some? then {previous.value} else {})
  {
    if previous.Some? {
      ActiveControllersAppend(log, Deactivate(previous.value));
    } else {
      assert log + Teardown(previous) == log;
    }
  }

  /**
   * After a `canvasReady` pass, only its own controller is active, provided
   * that before it no controller other than the one it tears down was.
   */
  lemma OnlyNewControllerActive(log: seq<Event>, previous: Option<nat>, g: nat, mask: bool)
    requires ActiveControllers(log) <= if previous.Some? then {previous.value} else {}
    ensures ActiveControllers(log + Teardown(previous) + [Construct(g), Init(g), SetIsMask(mask)]) == {g}
  {
    var closed := log + Teardown(previous);
    TeardownClosesPrevious(log, previous);
    assert ActiveControllers(closed) == {};
    ActiveControllersAppend(closed, Construct(g));
    ActiveControllersAppend(closed + [Construct(g)], Init(g));
    ActiveControllersAppend(closed + [Construct(g)] + [Init(g)], SetIsMask(mask));
    assert closed + [Construct(g)] + [Init(g)] + [SetIsMask(mask)]
        == log + Teardown(previous) + [Construct(g), Init(g), SetIsMask(mask)];
  }

  /** The module-level bindings of the entry point and the shared state's masking flag. */
  class Bindings {
    var generation: nat
    var masking: Option<nat>
    var renderer: Option<nat>
    var socketController: Option<nat>
    var tokenCalculator: Option<Calculator>
    var actorCalculator: Option<Calculator>
    var actorUpdateCoordinator: Option<Coordinator>
    var tokenUpdateCoordinator: Option<Coordinator>
    var isMask: bool
    var log: seq<Event>

    /**
     * Before the first canvas nothing is bound; after one, every binding is
     * the object of the latest pass, the coordinators are built around that
     * pass's objects, and no controller other than the current one is active.
     */
    ghost predicate Valid()
      reads this
    {
      (generation == 0 ==>
         masking.None? && renderer.None? && socketController.None? &&
         tokenCalculator.None? && actorCalculator.None? &&
         actorUpdateCoordinator.None? && tokenUpdateCoordinator.None? && log == []) &&
      (generation > 0 ==>
         var g := generation - 1;
         masking == renderer == socketController == Some(g) &&
         tokenCalculator == Some(Calculator(TokenKind, g)) &&
         actorCalculator == Some(Calculator(ActorKind, g)) &&
         actorUpdateCoordinator == Some(Coordinator(g, g, Calculator(ActorKind, g), g)) &&
         tokenUpdateCoordinator == Some(Coordinator(g, g, Calculator(TokenKind, g), g)) &&
         ActiveControllers(log) <= {g})
    }

    /** Module load and the `init` hook: nothing bound yet; `initialMask` is the new state's flag. */
    constructor (initialMask: bool)
      ensures Valid()
      ensures generation == 0 && socketController.None? && log == [] && isMask == initialMask
    {
      generation := 0;
      masking, renderer, socketController := None, None, None;
      tokenCalculator, actorCalculator := None, None;
      actorUpdateCoordinator, tokenUpdateCoordinator := None, None;
      isMask := initialMask;
      log := [];
    }

    /**
     * The `canvasReady` hook, given the value of the `mask_default` setting.
     * The previous controller, if any, is deactivated before the new one is
     * constructed; the new one is initialised before the flag is set; the
     * flag is the truthiness of the setting.
     */
    method CanvasReady(maskDefault: JsValue)
      requires Valid()
      modifies this
      ensures Valid()
      ensures generation == old(generation) + 1
      ensures log == old(log) + Teardown(old(socketController)) +
                     [Construct(old(generation)), Init(old(generation)), SetIsMask(Truthy(maskDefault))]
      ensures socketController == Some(old(generation))
      ensures old(socketController).Some? ==> old(socketController).value < old(generation)
      ensures ActiveControllers(log) == {old(generation)}
      ensures isMask == Truthy(maskDefault)
    {
      var g := generation;
      masking := Some(g);
      renderer := Some(g);
      var previous := socketController;
      var calls := Teardown(previous);
      socketController := Some(g);
      calls := calls + [Construct(g)];
      tokenCalculator := Some(Calculator(TokenKind, g));
      actorCalculator := Some(Calculator(ActorKind, g));
      actorUpdateCoordinator := Some(Coordinator(g, g, actorCalculator.value, g));
      tokenUpdateCoordinator := Some(Coordinator(g, g, tokenCalculator.value, g));
      calls := calls + [Init(g)];
      isMask := Truthy(maskDefault);
      calls := calls + [SetIsMask(isMask)];
      assert calls == Teardown(previous) + [Construct(g), Init(g), SetIsMask(isMask)];
      OnlyNewControllerActive(log, previous, g, isMask);
      ghost var expected := log + Teardown(previous) + [Construct(g), Init(g), SetIsMask(isMask)];
      log := log + calls;
      assert log == expected;
      assert ActiveControllers(log) == {g};
      generation := g + 1;
    }
  }

  /** Across any number of scene changes, at most one socket controller is ever active. */
  method SceneChanges(initialMask: bool, maskDefaults: seq<JsValue>) returns (b: Bindings)
    ensures b.Valid() && b.generation == |maskDefaults|
    ensures |ActiveControllers(b.log)| <= 1
    ensures maskDefaults != [] ==> b.isMask == Truthy(maskDefaults[|maskDefaults| - 1])
    ensures maskDefaults == [] ==> b.isMask == initialMask
  {
    b := new Bindings(initialMask);
    for k := 0 to |maskDefaults|
      invariant b.Valid() && b.generation == k
      invariant k > 0 ==> b.isMask == Truthy(maskDefaults[k - 1])
      invariant k == 0 ==> b.isMask == initialMask
    {
      b.CanvasReady(maskDefaults[k]);
    }
    if b.generation > 0 {
      var active := ActiveControllers(b.log);
      assert active == {} || active == {b.generation - 1};
    }
  }
}
