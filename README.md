# combat-numbers: hook routing and actor HP paths, in Dafny

This project models the core of the Foundry VTT module *combat-numbers*, which
shows floating damage and healing numbers above tokens. It covers the
module's entry point and the actor calculator's field paths:

- **Finding the viewed scene** (`findViewedScene`): the first scene, in stored
  order, whose `isView` flag is set.
- **Routing update hooks**: `preUpdateActor`, `preUpdateToken` and
  `updateToken` decide from a few flags whether an update is ignored, handed
  to the actor-scoped update coordinator, or handed to the token-scoped one.
  Each handler is a function to a `Route`: `Ignore(warned)` or
  `Dispatch(call)`, where `call` records the coordinator and its arguments.
  A handler makes at most one coordinator call, so "called exactly once" means
  "the route is a `Dispatch`". The only other effect, the console warning for
  a missing actor, is the `warned` flag.
- **The `canvasReady` lifecycle**: the class `Bindings` holds the entry
  point's module-level bindings: masking, renderer, socket controller, both
  calculators and both coordinators. It also holds the shared state's masking
  flag. `CanvasReady` rebuilds them in the source's order. It deactivates the
  previous socket controller before constructing the new one. It initialises
  the new controller before it sets the masking flag. The flag becomes the
  truthiness of the `mask_default` setting. Each built object is
  represented by the number of the pass that built it; each calculator also
  carries its kind, so a coordinator records which calculator it was given. The calls on socket
  controllers and on the state are kept, in order, in `log`.
  `ActiveControllers(log)` is the set of controllers that were initialised
  and not deactivated since. `Valid()` keeps it within the current
  controller, so at most one controller is active.
- **Actor HP paths** (`ActorCalculator`): the four getters put `system.` in
  front of the HP and temporary-HP paths the path finder reports.
  `StripPrefix` is their inverse.

Files: `wrappers.dfy` (`Option`), `js_values.dfy` (JavaScript truthiness,
property reads and lodash `_.get`), `hooks.dfy`, `canvas_lifecycle.dfy`,
`actor_calculator.dfy`.

Inputs supplied by the host platform, or computed by classes outside this
model, are parameters:

- the world's scenes (`seq<Scene>`);
- the world's actors (`map<ActorId, Actor>`);
- `actor.getActiveTokens()` (the field `Actor.activeTokens`);
- the token calculator's `shouldUseActorCoordination(tokenDoc)` (a `bool`);
- the `mask_default` setting (a `JsValue`);
- the path finder's two paths (`HpObjectPathFinder`).

## Notes on the handlers

- The actor-coordination branch of `preUpdateToken` passes only the updated
  token to the actor coordinator, not every token of the actor.
- `preUpdateActor` passes the result of `actor.getActiveTokens()` as it is.
  The handler applies no scene filter of its own, and it does not check
  whether anything is hidden.
- `updateToken` calls the token coordinator whenever its guard passes. This
  includes tokens whose pre-update went to the actor coordinator
  (`ActorCoordinatedTokenStillReachesTokenCoordinator`).
- Each token handler reads `tokenDoc.hidden` for itself, and the post-update
  handler sees the document after the change. An update that hides or
  unhides a token therefore reaches only one of the two handlers
  (`VisibilityChangeSplitsHandlers`).

## Model

| member | source | states |
|---|---|---|
| `Hooks.FindViewedScene` | src/combat-numbers.js:88-90 | nothing is found exactly when no scene has `isView`; otherwise the result is a viewed scene at some position with no viewed scene before it |
| `Hooks.FindViewedSceneIsFirst` | src/combat-numbers.js:88-90 | a viewed scene with no viewed scene before it is exactly the one found |
| `Hooks.PreUpdateActor` | src/combat-numbers.js:172-188 | never warns; calls the coordinator iff `options.diff` is truthy and some scene is viewed; the call goes to the actor coordinator with the actor, the whole delta, the actor's active tokens and the first viewed scene |
| `JsValues.LodashGet` | src/combat-numbers.js:204 | the result is the property's value or the default; it is the property's value whenever that is not `undefined`; it is `undefined` only if the default is |
| `Hooks.ActorDataOf` | src/combat-numbers.js:204 | the actor changes are never `undefined`; when they are not `null` they are the delta's `actorData` entry |
| `Hooks.PreUpdateToken` | src/combat-numbers.js:190-236 | no call when `diff` is falsy or the token is hidden; under actor coordination the token coordinator is never called; in that branch the handler returns without a call iff the actor id is null, the actor changes are null, the actor is unknown or the token has no scene; it warns iff the actor is unknown and neither earlier exit applied; the actor call carries the found actor, the actor changes, a list holding only this token, and the token's own scene; otherwise the token coordinator gets the token |
| `Hooks.UpdateToken` | src/combat-numbers.js:238-247 | calls `coordinateUpdate(tokenDoc, delta)` on the token coordinator iff `diff` is truthy and the token is not hidden; never warns |
| `Hooks.TokenPreUpdateIsFollowedByUpdate` | src/combat-numbers.js:190-247 | for an update that leaves `hidden` unchanged, a token whose pre-update made a call has its post-update delivered to the token coordinator under the same options |
| `Hooks.TokenHandlersShareGuard` | src/combat-numbers.js:190-247 | for an update that leaves `hidden` unchanged, the post-update handler ignores it iff the guard fails, and then the pre-update handler also ignored it without a warning |
| `Hooks.ActorCoordinatedTokenStillReachesTokenCoordinator` | src/combat-numbers.js:202-247 | under actor coordination, for an update that leaves `hidden` unchanged, an admitted token's pre-update never reaches the token coordinator, yet its post-update does |
| `Hooks.VisibilityChangeSplitsHandlers` | src/combat-numbers.js:190-247 | with a truthy `diff`, hiding a token ignores its post-update while, without actor coordination, its pre-update reaches the token coordinator; unhiding a token ignores its pre-update and delivers its post-update |
| `ActorCalculator.OrigEntityHpPath` | src/module/calculator/ActorCalculator.js:7-9 | the path starts with `system.`; removing that prefix gives back the finder's HP path |
| `ActorCalculator.OrigEntityHpTempPath` | src/module/calculator/ActorCalculator.js:11-13 | the path starts with `system.`; removing that prefix gives back the finder's temporary-HP path |
| `ActorCalculator.ChangedEntityHpPath` | src/module/calculator/ActorCalculator.js:15-17 | equals the original-entity HP path for the same finder; stripping `system.` gives the finder's HP path |
| `ActorCalculator.ChangedEntityHpTempPath` | src/module/calculator/ActorCalculator.js:19-21 | equals the original-entity temporary-HP path for the same finder; stripping `system.` gives the finder's temporary-HP path |
| `ActorCalculator.StripPrefixOfPrefixed` | src/module/calculator/ActorCalculator.js:7-21 | removing a prefix put in front of a path gives back the path |
| `ActorCalculator.HpPathsDifferExactlyWhenFinderPathsDiffer` | src/module/calculator/ActorCalculator.js:7-21 | the HP and temporary-HP paths differ iff the finder's two paths differ, for both the original and the changed getters |
| `ActorCalculator.HpPathDeterminedByFinder` | src/module/calculator/ActorCalculator.js:7-21 | two finders give the same HP path iff they report the same HP path, and likewise for temporary HP |
| `CanvasLifecycle.TeardownClosesPrevious` | src/combat-numbers.js:134-136 | for every log, tearing down removes exactly the previous controller (if any) from the active set and leaves every other controller as it was |
| `CanvasLifecycle.ActiveControllersAppend` | src/combat-numbers.js:134-159 | an `init` call adds its controller to the active set, a `deactivate` call removes its controller, and other calls leave the set alone |
| `CanvasLifecycle.OnlyNewControllerActive` | src/combat-numbers.js:131-166 | if at most the previous controller was active, then after a `canvasReady` pass's calls only the new controller is active |
| `CanvasLifecycle.Bindings.constructor` | src/combat-numbers.js:95-104 | before the first canvas nothing is bound and nothing is logged |
| `CanvasLifecycle.Bindings.CanvasReady` | src/combat-numbers.js:111-170 | the log grows by: deactivate the previous controller (if any), construct the new one, init it, set the flag; the new controller has a new number; exactly it is active afterwards; all bindings and coordinators belong to this pass, the actor coordinator holds the actor calculator and the token coordinator the token calculator; the flag is the truthiness of `mask_default` |
| `CanvasLifecycle.SceneChanges` | src/combat-numbers.js:106-170 | after any number of scene changes at most one socket controller is active, and the flag is the truthiness of the last `mask_default` read |

## Left out

- Hook registration (`Hooks.on`, `Hooks.once`) and the canvas layer registration (src/combat-numbers.js:76-81) are host plumbing. The handlers are modelled as functions that the host calls.
- `Renderer` and `Masking` deal with drawing and visibility. Each is represented only by the pass that built it.
- The layer lookup (src/combat-numbers.js:112-114), `Appearance` (src/combat-numbers.js:117-120) and `CombatNumberLayer` are not represented at all. They only feed the renderer.
- `SocketController` is network broadcast. Only its construct/deactivate/init calls are modelled. Awaited calls complete before the next statement. Other hooks that run while `canvasReady` is suspended in an `await` are not modelled.
- CanvasLifecycle.SceneChanges: the host does not await async hook handlers, so a second `canvasReady` can start while the first is suspended at src/combat-numbers.js:135 or :159. It can then deactivate the same old controller twice, or deactivate a controller before its `init` finishes, and two controllers can be left initialised. The model runs each `canvasReady` to completion before the next, so its "at most one active controller" holds only for runs that do not overlap.
- `AbstractCalculator`, `TokenCalculator`, `HpObjectPathFinder`, `TokenUpdateCoordinator`, `ActorUpdateCoordinator` and `State` are not part of this model. Coordinator calls are recorded routes. `shouldUseActorCoordination` and the finder's paths are inputs. The HP delta arithmetic, snapshots and masking decisions happen inside those classes and are not modelled.
- `State`'s initial masking flag is not part of this model. It is a constructor parameter of `Bindings`.
- The `getSceneControlButtons` handler and `ControlsGenerator` (src/combat-numbers.js:249-261) inject toolbar buttons. They are UI, not modelled.
- `global.combatNumbers = new CombatNumbersApi(state)` (src/combat-numbers.js:169) is a global export for macros and is not modelled.
- `console.log` is not modelled. `console.warn` is the route's `warned` flag.
- Hooks.PreUpdateToken: a `tokenDoc.actorId` that is `undefined` rather than `null` is not modelled. Such an id passes the `=== null` test, then the actor lookup fails with a warning. The model's actor id is either `null` or a string.
- Hooks.TokenPreUpdateIsFollowedByUpdate: holds only for updates that leave `hidden` unchanged. Each handler reads `tokenDoc.hidden` itself (src/combat-numbers.js:193, 241), so hiding a token leaves its pre-update call unpaired (`VisibilityChangeSplitsHandlers`).
- Hooks.TokenHandlersShareGuard: holds only for updates that leave `hidden` unchanged. Hiding a token admits the pre-update and ignores the post-update; unhiding one does the reverse (`VisibilityChangeSplitsHandlers`).
- Hooks.ActorCoordinatedTokenStillReachesTokenCoordinator: holds only for updates that leave `hidden` unchanged. Hiding a token ignores its post-update; unhiding one sends a post-update with no pre-update.
- JsValues.Truthy: numbers are integers, so `NaN` is not modelled as a falsy value.
- JsValues.LodashGet: `_.get` is modelled for a single-segment path only, which is the only form the source uses.
- A handler whose guard passes before the first `canvasReady` reads unset bindings and throws. A handler whose guard fails returns before it reaches a binding (src/combat-numbers.js:173-180, 191-196, 239-244). `preUpdateToken` fails first on the unset `tokenCalculator` (src/combat-numbers.js:202). `preUpdateActor` and `updateToken` fail on the unset `actorUpdateCoordinator` and `tokenUpdateCoordinator`. The routing functions assume that these bindings exist.
- `canvas.scene` being `null` when `canvasReady` reads its grid is not modelled. Neither is a failing `deactivate` or `init`.
