/**
 * The update hooks of the module entry point: which coordinator, if any, an
 * actor or token update is handed to.
 *
 * The host platform's collections and the calculator's judgement are inputs:
 * the scenes of the world in their stored order, the world's actors by id, and
 * whether the token calculator asks for actor coordination. A handler's only
 * effect is at most one coordinator call (and, on one path, a console warning),
 * so each handler is a function to a `Route`.
 */
module Hooks {

  import opened Wrappers
  import opened JsValues

  type ActorId = string

  /** A scene; `isView` holds for the scene the user is currently viewing. */
  datatype Scene = Scene(id: string, isView: bool)

  /** The fields of a token document that the handlers read. `actorId == None` is `null`. */
  datatype TokenDoc = TokenDoc(id: string, hidden: bool, actorId: Option<ActorId>, scene: Option<Scene>)

  /** An actor, with the tokens `getActiveTokens()` reports for it. */
  datatype Actor = Actor(id: ActorId, activeTokens: seq<TokenDoc>)

  /** The two coordinators a handler can call. */
  datatype Scope = ActorScope | TokenScope

  /** A call to a coordinator, with its arguments. */
  datatype CoordinatorCall =
    | ActorPreUpdate(actor: Actor, delta: JsValue, tokens: seq<TokenDoc>, scene: Scene)
    | TokenPreUpdate(token: TokenDoc)
    | TokenUpdate(token: TokenDoc, delta: JsValue)
  {
    /** The coordinator that receives this call. */
    function Target(): Scope
    {
      if ActorPreUpdate? then ActorScope else TokenScope
    }
  }

  /** What a handler does: return without a call (perhaps after a warning), or make one call. */
  datatype Route = Ignore(warned: bool) | Dispatch(call: CoordinatorCall)

  /** The scene the user is viewing: the first scene, in stored order, whose `isView` holds. */
  function FindViewedScene(scenes: seq<Scene>): (r: Option<Scene>)
    ensures r.None? <==> forall i :: 0 <= i < |scenes| ==> !scenes[i].isView
    ensures r.Some? ==> exists i :: 0 <= i < |scenes| && scenes[i] == r.value && r.value.isView &&
                                    forall j :: 0 <= j < i ==> !scenes[j].isView
  {
    if scenes == [] then None
    else if scenes[0].isView then Some(scenes[0])
    else
      FindViewedScene(scenes[1..])
  }

  /** Any viewed scene that no earlier scene precedes is the one found. */
  lemma FindViewedSceneIsFirst(scenes: seq<Scene>, i: int)
    requires 0 <= i < |scenes| && scenes[i].isView
    requires forall j :: 0 <= j < i ==> !scenes[j].isView
    ensures FindViewedScene(scenes) == Some(scenes[i])
  {
  }

  /** The guard shared by both token handlers: a genuine diff, on a token that is not hidden. */
  predicate Admitted(token: TokenDoc, options: JsObject)
  {
    Truthy(Get(options, "diff")) && !token.hidden
  }

  /** `_.get(delta, 'actorData', null)`: the actor changes carried by a token update. */
  function ActorDataOf(delta: JsObject): (r: JsValue)
    ensures r != Undefined
    ensures r != Null ==> "actorData" in delta && delta["actorData"] == r
    ensures "actorData" in delta && delta["actorData"] != Undefined ==> r == delta["actorData"]
  {
    LodashGet(delta, "actorData", Null)
  }

  /** `preUpdateActor`: hand a diffed actor update to the actor coordinator, on the viewed scene. */
  function PreUpdateActor(actor: Actor, delta: JsObject, options: JsObject, scenes: seq<Scene>): (r: Route)
    ensures r.Ignore? ==> !r.warned
    ensures r.Dispatch? <==>
              Truthy(Get(options, "diff")) && exists i :: 0 <= i < |scenes| && scenes[i].isView
    ensures r.Dispatch? ==>
              r.call.ActorPreUpdate? &&
              r.call == ActorPreUpdate(actor, Obj(delta), actor.activeTokens, r.call.scene) &&
              Some(r.call.scene) == FindViewedScene(scenes)
  {
    if !Truthy(Get(options, "diff")) then Ignore(false)
    else
      match FindViewedScene(scenes)
      case None => Ignore(false)
      case Some(viewed) => Dispatch(ActorPreUpdate(actor, Obj(delta), actor.activeTokens, viewed))
  }

  /**
   * `preUpdateToken`: a token update goes to the token coordinator, unless the
   * token calculator asks for actor coordination; then the actor changes in
   * the delta go to the actor coordinator for this one token on its own scene,
   * provided the token names an actor that exists and there are actor changes.
   */
  function PreUpdateToken(token: TokenDoc, delta: JsObject, options: JsObject,
                          useActorCoordination: bool, actors: map<ActorId, Actor>): (r: Route)
    // The guard: no diff or a hidden token means no call at all.
    ensures !Admitted(token, options) ==> r == Ignore(false)
    // In actor coordination the token coordinator is never called.
    ensures useActorCoordination && r.Dispatch? ==> r.call.Target() == ActorScope
    // In actor coordination, exactly these four cases return without a call.
    ensures Admitted(token, options) && useActorCoordination ==>
              (r.Ignore? <==>
                 token.actorId.None? || ActorDataOf(delta) == Null ||
                 token.actorId.value !in actors || token.scene.None?)
    // A warning is logged exactly when the named actor is missing.
    ensures (r.Ignore? && r.warned) <==>
              Admitted(token, options) && useActorCoordination &&
              token.actorId.Some? && ActorDataOf(delta) != Null && token.actorId.value !in actors
    // The actor coordinator gets the found actor, the actor changes, this token alone, its scene.
    ensures r.Dispatch? && r.call.ActorPreUpdate? ==>
              token.actorId.Some? && token.actorId.value in actors && token.scene.Some? &&
              r.call == ActorPreUpdate(actors[token.actorId.value], ActorDataOf(delta), [token], token.scene.value)
    // Without actor coordination the token coordinator gets the token.
    ensures Admitted(token, options) && !useActorCoordination ==> r == Dispatch(TokenPreUpdate(token))
  {
    if !Admitted(token, options) then Ignore(false)
    else if useActorCoordination then
      var actorData := ActorDataOf(delta);
      if token.actorId.None? || actorData == Null then Ignore(false)
      else if token.actorId.value !in actors then Ignore(true)
      else if token.scene.None? then Ignore(false)
      else Dispatch(ActorPreUpdate(actors[token.actorId.value], actorData, [token], token.scene.value))
    else Dispatch(TokenPreUpdate(token))
  }

  /** `updateToken`: the token coordinator gets the token and the delta exactly when the guard passes. */
  function UpdateToken(token: TokenDoc, delta: JsObject, options: JsObject): (r: Route)
    ensures r.Dispatch? <==> Admitted(token, options)
    ensures r.Dispatch? ==> r.call == TokenUpdate(token, Obj(delta))
    ensures r.Ignore? ==> !r.warned
  {
    if !Admitted(token, options) then Ignore(false)
    else Dispatch(TokenUpdate(token, Obj(delta)))
  }

  /**
   * For an update that leaves `hidden` unchanged, a token whose pre-update made
   * a call has its post-update delivered to the token coordinator. `pre` and
   * `post` are the document as each handler sees it.
   */
  lemma TokenPreUpdateIsFollowedByUpdate(pre: TokenDoc, post: TokenDoc, preDelta: JsObject, delta: JsObject,
                                         options: JsObject, useActorCoordination: bool, actors: map<ActorId, Actor>)
    requires post.hidden == pre.hidden
    requires PreUpdateToken(pre, preDelta, options, useActorCoordination, actors).Dispatch?
    ensures UpdateToken(post, delta, options) == Dispatch(TokenUpdate(post, Obj(delta)))
  {
  }

  /**
   * For an update that leaves `hidden` unchanged, the two token handlers share
   * their guard: an update the post-update handler ignores was ignored,
   * silently, by the pre-update handler as well.
   */
  lemma TokenHandlersShareGuard(pre: TokenDoc, post: TokenDoc, preDelta: JsObject, delta: JsObject,
                                options: JsObject, useActorCoordination: bool, actors: map<ActorId, Actor>)
    requires post.hidden == pre.hidden
    ensures UpdateToken(post, delta, options).Ignore? <==>
            PreUpdateToken(pre, preDelta, options, useActorCoordination, actors) == Ignore(false) &&
            !Admitted(pre, options)
  {
  }

  /**
   * Under actor coordination, for an update that leaves `hidden` unchanged,
   * the token coordinator still receives the post-update of an admitted
   * token, though it never received its pre-update.
   */
  lemma ActorCoordinatedTokenStillReachesTokenCoordinator(pre: TokenDoc, post: TokenDoc, preDelta: JsObject,
                                                          delta: JsObject, options: JsObject, actors: map<ActorId, Actor>)
    requires post.hidden == pre.hidden
    requires Admitted(pre, options)
    ensures UpdateToken(post, delta, options).Dispatch?
    ensures UpdateToken(post, delta, options).call.Target() == TokenScope
    ensures !PreUpdateToken(pre, preDelta, options, true, actors).Dispatch? ||
            PreUpdateToken(pre, preDelta, options, true, actors).call.Target() == ActorScope
  {
  }

  /**
   * An update that changes `hidden` splits the pair: hiding a token lets its
   * pre-update reach the token coordinator while its post-update is ignored;
   * unhiding one ignores the pre-update and delivers the post-update.
   */
  lemma VisibilityChangeSplitsHandlers(pre: TokenDoc, post: TokenDoc, preDelta: JsObject, delta: JsObject,
                                       options: JsObject, useActorCoordination: bool, actors: map<ActorId, Actor>)
    requires Truthy(Get(options, "diff")) && post.hidden != pre.hidden
    ensures post.hidden ==>
              UpdateToken(post, delta, options) == Ignore(false) &&
              (!useActorCoordination ==>
                 PreUpdateToken(pre, preDelta, options, useActorCoordination, actors) == Dispatch(TokenPreUpdate(pre)))
    ensures !post.hidden ==>
              PreUpdateToken(pre, preDelta, options, useActorCoordination, actors) == Ignore(false) &&
              UpdateToken(post, delta, options) == Dispatch(TokenUpdate(post, Obj(delta)))
  {
  }
}
