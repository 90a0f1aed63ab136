/**
 * The Controller of src/controller.js: the path-to-configuration registry,
 * the building of an action context, the loading of the Action a path is
 * configured with, and the entering of it, guarded against navigations that
 * a later one has overtaken. Each step that the source chains through a
 * promise is a method of its own here, so a race is an interleaving of
 * method calls.
 */
module Controllers {
  import opened Js
  import opened Query
  import opened URLs
  import opened Actions
  import opened Routers

  /** What a configuration's `action` field holds. */
  datatype ActionSpec =
    | Nullish                                   // `null` or `undefined`
    | FalsyValue                                // `false`, `0` or `NaN`
    | PlainConfig(options: Options)             // an object whose constructor is `Object`
    | ClassInstance(cls: nat, options: Options) // an instance of some Action class
    | ModuleId(id: string)                      // a module id, loaded on demand

  /** One action configuration; `path` may be missing. */
  datatype ActionConfig = ActionConfig(path: Option<string>, action: ActionSpec)

  /** The argument of `registerAction`: one configuration or an array of them. */
  datatype ConfigArg = Single(config: ActionConfig) | Several(configs: seq<ActionConfig>)

  /** What `registerAction` ends with: done, or the failed assertion at a configuration's index. */
  datatype Registration = Registered | ConfigError(index: nat)

  /** What a load constructs: an Action, or (for a module id) a `String` object. */
  datatype ActionObj = Built(a: Action) | Boxed(text: string)

  datatype Loaded = Loaded(action: ActionObj, ctx: Context)

  /** What `loadAction` (or `forward`) gives: its promise's fate, or a synchronous exception. */
  datatype LoadResult =
    | Resolved(loaded: Loaded)
    | Rejected(reason: Failure)               // the promise rejects with that reason
    | Pending(id: string, ctx: Context)       // waiting for the module loader
    | Raised                                  // an exception before any promise exists

  /**
   * Why a promise rejected and `notifyError` was called: no configuration for
   * the path ('no action configured for url ' + path), a falsy action that is
   * not `null` or `undefined` ('no action implement forundefined'), or an
   * `enter` that threw.
   */
  datatype Failure = NoConfig(path: string) | NoImplementation | EnterFailed

  datatype BusEvent = ForwardAction(ctx: Context) | NotifyError(failure: Failure)

  /** What `enterAction` did. */
  datatype Entering = Stale | Began(entered: Entered)

  /** What the `.then(enterAction).fail(notifyError)` continuation did. */
  datatype Settled = Entered(entering: Entering) | Reported(failure: Failure) | Unsettled

  /** `registerAction`'s argument as an array. */
  function AsList(arg: ConfigArg): (cs: seq<ActionConfig>)
    ensures arg.Single? ==> cs == [arg.config]
    ensures arg.Several? ==> cs == arg.configs
  {
    match arg
    case Single(c) => [c]
    case Several(cs) => cs
  }

  predicate AllHavePaths(cs: seq<ActionConfig>)
  {
    forall j :: 0 <= j < |cs| ==> cs[j].path.Some?
  }

  /** Each configuration is stored under its own path. */
  predicate Consistent(mapping: map<string, ActionConfig>)
  {
    forall p :: p in mapping ==> mapping[p].path == Some(p)
  }

  /** The index of the first configuration without a path, if any. */
  function FirstPathless(cs: seq<ActionConfig>): (r: Option<nat>)
    ensures r.Some? ==> r.value < |cs| && cs[r.value].path.None? && AllHavePaths(cs[..r.value])
    ensures r.None? <==> AllHavePaths(cs)
  {
    if cs == [] then None
    else if cs[0].path.None? then Some(0)
    else
      var rest := FirstPathless(cs[1..]);
      assert forall j :: 1 <= j < |cs| ==> cs[j] == cs[1..][j - 1];
      if rest.None? then None
      else
        assert cs[..rest.value + 1] == [cs[0]] + cs[1..][..rest.value];
        Some(rest.value + 1)
  }

  /** The mapping after storing every configuration under its path, in order. */
  function RegisterAll(mapping: map<string, ActionConfig>, cs: seq<ActionConfig>): (r: map<string, ActionConfig>)
    requires AllHavePaths(cs)
    ensures Consistent(mapping) ==> Consistent(r)
  {
    if cs == [] then mapping
    else
      var last := cs[|cs| - 1];
      RegisterAll(mapping, cs[..|cs| - 1])[last.path.value := last]
  }

  /**
   * A path is registered after a call exactly when it was before or some
   * configuration names it; the configuration kept for it is the last one
   * naming it.
   */
  lemma {:induction false} RegisterLastWins(mapping: map<string, ActionConfig>, cs: seq<ActionConfig>, p: string)
    requires AllHavePaths(cs)
    ensures p in RegisterAll(mapping, cs) <==> p in mapping || exists j :: 0 <= j < |cs| && cs[j].path == Some(p)
    ensures forall j :: 0 <= j < |cs| && cs[j].path == Some(p)
              && (forall k :: j < k < |cs| ==> cs[k].path != Some(p))
              ==> RegisterAll(mapping, cs)[p] == cs[j]
    ensures ((forall j :: 0 <= j < |cs| ==> cs[j].path != Some(p)) && p in mapping)
              ==> RegisterAll(mapping, cs)[p] == mapping[p]
  {
    if cs != [] {
      var init := cs[..|cs| - 1];
      assert forall j :: 0 <= j < |init| ==> init[j] == cs[j];
      RegisterLastWins(mapping, init, p);
    }
  }

  /** Registering one more configuration stores it under its path. */
  lemma RegisterNext(mapping: map<string, ActionConfig>, cs: seq<ActionConfig>, i: nat)
    requires i < |cs| && AllHavePaths(cs[..i]) && cs[i].path.Some?
    ensures AllHavePaths(cs[..i + 1])
    ensures RegisterAll(mapping, cs[..i + 1]) == RegisterAll(mapping, cs[..i])[cs[i].path.value := cs[i]]
  {
    assert cs[..i + 1][..i] == cs[..i];
  }

  /** The first configuration without a path is the one after a run of configurations with one. */
  lemma {:induction false} FirstPathlessAt(cs: seq<ActionConfig>, i: nat)
    requires i < |cs| && AllHavePaths(cs[..i]) && cs[i].path.None?
    ensures FirstPathless(cs) == Some(i)
    decreases i
  {
    if i > 0 {
      assert cs[..i][0] == cs[0];
      assert cs[1..][..i - 1] == cs[1..i];
      FirstPathlessAt(cs[1..], i - 1);
    }
  }

  /** `{path: '/a'}` registered twice: the second configuration is the one kept. */
  lemma LaterConfigOverwrites(first: ActionSpec, second: ActionSpec)
    ensures RegisterAll(map[], [ActionConfig(Some("/a"), first), ActionConfig(Some("/a"), second)])["/a"]
            == ActionConfig(Some("/a"), second)
  {
    RegisterLastWins(map[], [ActionConfig(Some("/a"), first), ActionConfig(Some("/a"), second)], "/a");
  }

  /** The configuration `findActionConfig` looks up: exactly by the URL's path. */
  function ConfigFor(mapping: map<string, ActionConfig>, path: string): (r: Option<ActionConfig>)
    ensures r.Some? <==> path in mapping
    ensures r.Some? ==> r.value == mapping[path]
  {
    if path in mapping then Some(mapping[path]) else None
  }

  /** The Action object an `ActionObj` holds, as a frame. */
  function Held(o: Option<ActionObj>): set<object>
  {
    if o.Some? && o.value.Built? then {o.value.a} else {}
  }

  /**
   * How a load ends for a context, given the configuration found for its
   * path: no configuration rejects with the path; a `null` or `undefined`
   * `action` throws (building the message reads a property of it); another
   * falsy `action` rejects; a module id waits for the loader; an object
   * builds a live Action with the
   * configured options (with class `Action` when the object is a plain
   * one), which has only emitted `init`.
   */
  ghost predicate LoadsAs(config: Option<ActionConfig>, ctx: Context, r: LoadResult)
    reads if r.Resolved? && r.loaded.action.Built? then {r.loaded.action.a} else {}
  {
    match config
    case None => r == Rejected(NoConfig(ctx.url.path))
    case Some(c) =>
      match c.action
      case Nullish => r == Raised
      case FalsyValue => r == Rejected(NoImplementation)
      case ModuleId(id) => r == Pending(id, ctx)
      case PlainConfig(options) => Builds(r, ctx, Default, options)
      case ClassInstance(cls, options) => Builds(r, ctx, Class(cls), options)
  }

  /** `r` resolves, for `ctx`, with a new Action of that class built from those options. */
  ghost predicate Builds(r: LoadResult, ctx: Context, ctor: Ctor, options: Options)
    reads if r.Resolved? && r.loaded.action.Built? then {r.loaded.action.a} else {}
  {
    && r.Resolved? && r.loaded.ctx == ctx && r.loaded.action.Built?
    && var a := r.loaded.action.a;
    && a.ctor == ctor && a.Valid() && !a.disposed && a.log == [Emit(Event.Init)]
    && a.view == Some(Construct(options.view, DefaultViewCaps))
    && a.model == Some(Construct(options.model, DefaultModelCaps))
  }

  /** The controller instance. */
  class Controller {
    const router: Router
    var currentURL: Option<Url>
    var currentAction: Option<ActionObj>
    var globalActionLoader: Option<LoadResult>
    var actionPathMapping: map<string, ActionConfig>
    var mainContainer: Value
    /** Events fired on the global bus, in order. */
    var bus: seq<BusEvent>

    ghost predicate Valid()
      reads this, Held(currentAction)
    {
      && Consistent(actionPathMapping)
      && (currentAction.Some? && currentAction.value.Built? ==> currentAction.value.a.Valid())
    }

    /** `new Controller()` with its router set. */
    constructor (router: Router)
      ensures this.router == router && Valid()
      ensures currentURL == None && currentAction == None && globalActionLoader == None
      ensures actionPathMapping == map[] && mainContainer == Value.Undefined && bus == []
    {
      this.router := router;
      currentURL := None;
      currentAction := None;
      globalActionLoader := None;
      actionPathMapping := map[];
      mainContainer := Value.Undefined;
      bus := [];
    }

    method SetMainContainer(main: Value)
      modifies this
      ensures mainContainer == main
      ensures currentURL == old(currentURL) && currentAction == old(currentAction)
      ensures actionPathMapping == old(actionPathMapping) && bus == old(bus)
      ensures globalActionLoader == old(globalActionLoader)
    {
      mainContainer := main;
    }

    /**
     * `registerAction(configs)`: stores each configuration under its path,
     * in order. At a configuration without a path the assertion throws: the
     * earlier ones stay registered and the router is left alone. Otherwise
     * `renderAction` becomes the router's fallback.
     */
    method RegisterAction(arg: ConfigArg) returns (r: Registration)
      requires Valid()
      modifies this, router
      ensures Valid()
      ensures var cs := AsList(arg);
              var k := FirstPathless(cs);
              && (k.None? ==> r == Registered && actionPathMapping == RegisterAll(old(actionPathMapping), cs)
                              && router.backup == Some(Handler.RenderAction))
              && (k.Some? ==> r == ConfigError(k.value)
                              && actionPathMapping == RegisterAll(old(actionPathMapping), cs[..k.value])
                              && router.backup == old(router.backup))
      ensures router.rules == old(router.rules) && router.calls == old(router.calls)
      ensures router.routed == old(router.routed) && router.subscriptions == old(router.subscriptions)
      ensures currentURL == old(currentURL) && currentAction == old(currentAction)
      ensures bus == old(bus) && mainContainer == old(mainContainer)
      ensures globalActionLoader == old(globalActionLoader)
    {
      var cs := AsList(arg);
      var i := 0;
      while i < |cs|
        modifies this
        invariant 0 <= i <= |cs| && AllHavePaths(cs[..i])
        invariant currentURL == old(currentURL) && currentAction == old(currentAction)
        invariant bus == old(bus) && mainContainer == old(mainContainer)
        invariant globalActionLoader == old(globalActionLoader)
        invariant actionPathMapping == RegisterAll(old(actionPathMapping), cs[..i])
      {
        if cs[i].path.None? {
          FirstPathlessAt(cs, i);
          return ConfigError(i);
        }
        RegisterNext(old(actionPathMapping), cs, i);
        actionPathMapping := actionPathMapping[cs[i].path.value := cs[i]];
        i := i + 1;
      }
      assert cs[..i] == cs;
      router.SetBackup(Handler.RenderAction);
      r := Registered;
    }

    /**
     * `findActionConfig(url)`: the configuration registered for exactly the
     * URL's path, which names that path.
     */
    function FindActionConfig(url: Url): (r: Option<ActionConfig>)
      reads this
      ensures r.Some? <==> url.path in actionPathMapping
      ensures r.Some? ==> r.value == actionPathMapping[url.path]
      ensures r.Some? && Consistent(actionPathMapping) ==> r.value.path == Some(url.path)
    {
      ConfigFor(actionPathMapping, url.path)
    }

    /**
     * `loadAction(actionContext)`: without a configuration for the path it
     * rejects and leaves `currentURL` alone; with one, `currentURL` becomes
     * the context's URL at once, before the load settles. A `null` or
     * `undefined` `action` throws (building the message reads a property of
     * it), another falsy one rejects; a module id waits for the loader; an
     * object is passed to its own constructor, or to `Action` when that is
     * `Object`.
     */
    method LoadAction(ctx: Context) returns (r: LoadResult)
      requires Valid()
      modifies this
      ensures Valid()
      ensures actionPathMapping == old(actionPathMapping) && currentAction == old(currentAction)
      ensures bus == old(bus) && mainContainer == old(mainContainer)
      ensures globalActionLoader == old(globalActionLoader)
      ensures LoadsAs(ConfigFor(actionPathMapping, ctx.url.path), ctx, r)
      ensures r.Resolved? && r.loaded.action.Built? ==> fresh(r.loaded.action.a)
      ensures currentURL == (if ConfigFor(actionPathMapping, ctx.url.path).None? then old(currentURL) else Some(ctx.url))
    {
      var config := FindActionConfig(ctx.url);
      if config.None? {
        return Rejected(NoConfig(ctx.url.path));
      }
      currentURL := Some(ctx.url);
      match config.value.action
      case Nullish =>
        r := Raised;
      case FalsyValue =>
        r := Rejected(NoImplementation);
      case ModuleId(id) =>
        r := Pending(id, ctx);
      case PlainConfig(options) =>
        var action := new Action(Default, options);
        r := Resolved(Loaded(Built(action), ctx));
      case ClassInstance(cls, options) =>
        var action := new Action(Class(cls), options);
        r := Resolved(Loaded(Built(action), ctx));
    }

    /**
     * The module loader's callback for a pending load of module `id`: a
     * `null` or `undefined` export throws inside the callback, so the load
     * stays pending for good; another falsy export rejects. Any other
     * resolves with an object built from the configured id, not from the
     * module: `new String(id)` for a non-empty id, and for the empty id,
     * which is falsy, `new Action('')`, a default Action without options.
     */
    method ModuleLoaded(id: string, ctx: Context, exported: Value) returns (r: LoadResult)
      ensures exported.Null? || exported.Undefined? ==> r == Pending(id, ctx)
      ensures !Truthy(exported) && !exported.Null? && !exported.Undefined? ==> r == Rejected(NoImplementation)
      ensures Truthy(exported) && id != "" ==> r == Resolved(Loaded(Boxed(id), ctx))
      ensures Truthy(exported) && id == "" ==>
                Builds(r, ctx, Default, Options(NotGiven, NotGiven)) && fresh(r.loaded.action.a)
    {
      if exported.Null? || exported.Undefined? {
        return Pending(id, ctx);
      }
      if !Truthy(exported) {
        return Rejected(NoImplementation);
      }
      if id == "" {
        var action := new Action(Default, Options(NotGiven, NotGiven));
        r := Resolved(Loaded(Built(action), ctx));
      } else {
        r := Resolved(Loaded(Boxed(id), ctx));
      }
    }

    /**
     * `forward(url, container)`: the context's referrer is the current URL
     * at call time and its args copy url, container and referrer and add
     * the whole query; `forwardAction` fires before the load starts. When
     * the query cannot be decoded, `getQuery` throws first.
     */
    method Forward(url: Url, container: Value) returns (r: LoadResult, ctx: Context)
      requires Valid() && url.Valid()
      modifies this, url
      ensures Valid() && url.Valid()
      ensures actionPathMapping == old(actionPathMapping) && currentAction == old(currentAction)
      ensures mainContainer == old(mainContainer) && globalActionLoader == old(globalActionLoader)
      ensures ParseAll(url.search, url.decode).Malformed? ==>
                r == Raised && bus == old(bus) && currentURL == old(currentURL)
      ensures ParseAll(url.search, url.decode).Parsed? ==>
                && ctx == Context(url, container, old(currentURL),
                                  Args(url, container, old(currentURL), ParseAll(url.search, url.decode).query))
                && bus == old(bus) + [ForwardAction(ctx)]
                && LoadsAs(ConfigFor(actionPathMapping, url.path), ctx, r)
                && currentURL == (if ConfigFor(actionPathMapping, url.path).None? then old(currentURL) else Some(url))
      ensures r.Resolved? && r.loaded.action.Built? ==> fresh(r.loaded.action.a)
    {
      var referrer := currentURL;
      var query := url.GetQuery(None);
      if query.Threw? {
        r := Raised;
        ctx := Context(url, container, referrer, Args(url, container, referrer, map[]));
        return;
      }
      ctx := Context(url, container, referrer, Args(url, container, referrer, query.copy));
      bus := bus + [ForwardAction(ctx)];
      r := LoadAction(ctx);
    }

    /**
     * `enterAction({action, actionContext})`: when the context's URL is not
     * (by identity) the current URL, a later navigation has overtaken this
     * one and nothing happens. Otherwise the previous Action leaves, the new
     * one becomes current and is entered. An Action handed in while it is
     * the current one is left first, so its `enter` throws.
     */
    method EnterAction(action: ActionObj, ctx: Context) returns (r: Entering)
      requires Valid()
      requires action.Built? ==> action.a.Valid()
      modifies this, Held(currentAction), Held(Some(action))
      ensures Valid()
      ensures actionPathMapping == old(actionPathMapping) && currentURL == old(currentURL)
      ensures bus == old(bus) && mainContainer == old(mainContainer)
      ensures globalActionLoader == old(globalActionLoader)
      ensures old(currentURL) != Some(ctx.url) ==>
                && r == Stale && currentAction == old(currentAction)
                && unchanged(Held(old(currentAction))) && unchanged(Held(Some(action)))
      ensures old(currentURL) == Some(ctx.url) ==>
                && currentAction == Some(action)
                && (action.Boxed? ==> r == Began(EnterThrew))
                && (action.Built? ==> r.Began?)
      ensures old(currentURL) == Some(ctx.url) && old(currentAction).Some? && old(currentAction).value.Built? ==>
                var prev := old(currentAction).value.a;
                && prev.disposed
                && (old(prev.disposed) ==> prev.log == old(prev.log))
                && (!old(prev.disposed) ==> prev.log == old(prev.log) + LeaveSteps(old(prev.model).value, old(prev.view).value))
      ensures old(currentURL) == Some(ctx.url) && action.Built? && action.a in Held(old(currentAction)) ==>
                r == Began(EnterThrew)
      ensures old(currentURL) == Some(ctx.url) && action.Built? && action.a !in Held(old(currentAction)) ==>
                && action.a.disposed == old(action.a.disposed)
                && (old(action.a.disposed) || !old(action.a.view).value.caps.setContainer
                    <==> r == Began(EnterThrew))
                && (!old(action.a.disposed) && old(action.a.view).value.caps.setContainer ==>
                      r == Began(Fetching(ctx.args.query)) && action.a.log == old(action.a.log) + EnterSteps(ctx))
                && (old(action.a.disposed) || !old(action.a.view).value.caps.setContainer ==>
                      action.a.log == old(action.a.log))
    {
      if currentURL != Some(ctx.url) {
        return Stale;
      }
      if currentAction.Some? && currentAction.value.Built? {
        currentAction.value.a.Leave();
      }
      currentAction := Some(action);
      match action
      case Boxed(_) =>
        r := Began(EnterThrew);
      case Built(a) =>
        var entered := a.Enter(ctx);
        r := Began(entered);
    }

    /**
     * `renderAction(url)`: forwards the URL into the main container, and
     * keeps the loader as `globalActionLoader`; when `forward` throws, the
     * assignment never happens and the previous loader stays.
     */
    method RenderAction(url: Url) returns (r: LoadResult, ctx: Context)
      requires Valid() && url.Valid()
      modifies this, url
      ensures Valid() && url.Valid()
      ensures r.Raised? ==> globalActionLoader == old(globalActionLoader)
      ensures !r.Raised? ==> globalActionLoader == Some(r)
      ensures actionPathMapping == old(actionPathMapping) && currentAction == old(currentAction)
      ensures mainContainer == old(mainContainer)
      ensures ParseAll(url.search, url.decode).Malformed? ==>
                r == Raised && bus == old(bus) && currentURL == old(currentURL)
      ensures ParseAll(url.search, url.decode).Parsed? ==>
                && ctx == Context(url, old(mainContainer), old(currentURL),
                                  Args(url, old(mainContainer), old(currentURL), ParseAll(url.search, url.decode).query))
                && bus == old(bus) + [ForwardAction(ctx)]
                && LoadsAs(ConfigFor(actionPathMapping, url.path), ctx, r)
                && currentURL == (if ConfigFor(actionPathMapping, url.path).None? then old(currentURL) else Some(url))
      ensures r.Resolved? && r.loaded.action.Built? ==> fresh(r.loaded.action.a)
    {
      r, ctx := Forward(url, mainContainer);
      if !r.Raised? {
        globalActionLoader := Some(r);
      }
    }

    /** `renderAction` given a string: `URL.parse` first. */
    method RenderActionAt(raw: string, decode: string -> Option<string>) returns (r: LoadResult, url: Url)
      requires Valid()
      modifies this
      ensures Valid() && fresh(url) && url.Valid()
      ensures url.path == ParsedPath(raw, QuerySplit) && url.search == ParsedSearch(raw, QuerySplit)
      ensures r.Raised? ==> globalActionLoader == old(globalActionLoader)
      ensures !r.Raised? ==> globalActionLoader == Some(r)
      ensures actionPathMapping == old(actionPathMapping) && currentAction == old(currentAction)
      ensures ParseAll(url.search, decode).Parsed? ==>
                && LoadsAs(ConfigFor(actionPathMapping, url.path),
                           Context(url, old(mainContainer), old(currentURL),
                                   Args(url, old(mainContainer), old(currentURL), ParseAll(url.search, decode).query)), r)
                && currentURL == (if ConfigFor(actionPathMapping, url.path).None? then old(currentURL) else Some(url))
    {
      url := Parse(raw, None, decode);
      var ctx;
      r, ctx := RenderAction(url);
    }

    /**
     * The continuation of `renderAction`: a resolved load is entered, and a
     * rejection, or an `enter` that throws, is handed to `notifyError`.
     */
    method Settle(loader: LoadResult) returns (s: Settled)
      requires Valid()
      requires loader.Resolved? && loader.loaded.action.Built? ==> loader.loaded.action.a.Valid()
      modifies this, Held(currentAction), if loader.Resolved? then Held(Some(loader.loaded.action)) else {}
      ensures Valid()
      ensures actionPathMapping == old(actionPathMapping) && currentURL == old(currentURL)
      ensures loader.Rejected? ==>
                && s == Reported(loader.reason) && bus == old(bus) + [NotifyError(loader.reason)]
                && currentAction == old(currentAction)
      ensures loader.Pending? || loader.Raised? ==> s == Unsettled && bus == old(bus) && currentAction == old(currentAction)
      ensures loader.Resolved? && old(currentURL) != Some(loader.loaded.ctx.url) ==>
                && s == Entered(Stale) && bus == old(bus) && currentAction == old(currentAction)
                && unchanged(Held(Some(loader.loaded.action)))
      ensures loader.Resolved? && old(currentURL) == Some(loader.loaded.ctx.url) ==>
                && currentAction == Some(loader.loaded.action)
                && (s == Reported(EnterFailed) <==> bus == old(bus) + [NotifyError(EnterFailed)])
                && (s != Reported(EnterFailed) ==> bus == old(bus))
      ensures loader.Resolved? && old(currentURL) == Some(loader.loaded.ctx.url) && loader.loaded.action.Boxed? ==>
                s == Reported(EnterFailed) && bus == old(bus) + [NotifyError(EnterFailed)]
      ensures loader.Resolved? && old(currentURL) == Some(loader.loaded.ctx.url) && loader.loaded.action.Built? ==>
                var a := loader.loaded.action.a;
                && (a in Held(old(currentAction)) || old(a.disposed) || !old(a.view).value.caps.setContainer
                    <==> s == Reported(EnterFailed))
                && (a !in Held(old(currentAction)) && !old(a.disposed) && old(a.view).value.caps.setContainer ==>
                      s == Entered(Began(Fetching(loader.loaded.ctx.args.query)))
                      && a.log == old(a.log) + EnterSteps(loader.loaded.ctx))
      ensures loader.Resolved? && old(currentURL) == Some(loader.loaded.ctx.url)
              && old(currentAction).Some? && old(currentAction).value.Built? ==>
                var prev := old(currentAction).value.a;
                && prev.disposed
                && (!old(prev.disposed) ==> prev.log == old(prev.log) + LeaveSteps(old(prev.model).value, old(prev.view).value))
    {
      match loader
      case Rejected(reason) =>
        bus := bus + [NotifyError(reason)];
        s := Reported(reason);
      case Pending(_, _) =>
        s := Unsettled;
      case Raised =>
        s := Unsettled;
      case Resolved(Loaded(action, ctx)) =>
        var entering := EnterAction(action, ctx);
        if entering == Began(EnterThrew) {
          bus := bus + [NotifyError(EnterFailed)];
          s := Reported(EnterFailed);
        } else {
          s := Entered(entering);
        }
    }
  }

  /** A View that can take a container, so that `enter` gets as far as the fetch. */
  const CapableView := Instance(0, Caps(true, true))

  /** The two routes of the overlap scenario, registered on a fresh controller. */
  method TwoRoutes(options: Options) returns (controller: Controller)
    ensures fresh(controller) && controller.Valid()
    ensures controller.currentURL == None && controller.currentAction == None
    ensures controller.mainContainer == Value.Undefined
    ensures ConfigFor(controller.actionPathMapping, "/a") == Some(ActionConfig(Some("/a"), PlainConfig(options)))
    ensures ConfigFor(controller.actionPathMapping, "/b") == Some(ActionConfig(Some("/b"), PlainConfig(options)))
  {
    var router := new Router((id: nat, path: string) => false);
    controller := new Controller(router);
    var cs := [ActionConfig(Some("/a"), PlainConfig(options)), ActionConfig(Some("/b"), PlainConfig(options))];
    assert FirstPathless(cs) == None;
    var reg := controller.RegisterAction(Several(cs));
    RegisterLastWins(map[], cs, "/a");
    RegisterLastWins(map[], cs, "/b");
  }

  /**
   * Two navigations started on a fresh controller, `/a` and then `/b`, and
   * neither load settled yet: both have built a live Action, and `/b` holds
   * `currentURL`.
   */
  method StartTwo(decode: string -> Option<string>, options: Options)
    returns (controller: Controller, loadA: LoadResult, loadB: LoadResult)
    ensures fresh(controller) && controller.Valid() && controller.currentAction == None
    ensures loadA.Resolved? && Builds(loadA, loadA.loaded.ctx, Default, options)
    ensures loadB.Resolved? && Builds(loadB, loadB.loaded.ctx, Default, options)
    ensures fresh(loadA.loaded.action.a) && fresh(loadB.loaded.action.a)
    ensures loadA.loaded.action.a != loadB.loaded.action.a
    ensures controller.currentURL == Some(loadB.loaded.ctx.url)
    ensures loadA.loaded.ctx.url != loadB.loaded.ctx.url
  {
    controller := TwoRoutes(options);
    ParseNoSearchExample(decode);
    ParseWithoutSeparator("/b", QuerySplit);
    var urlA := Parse("/a", None, decode);
    var ctxA;
    loadA, ctxA := controller.RenderAction(urlA);
    assert Builds(loadA, ctxA, Default, options);
    var urlB := Parse("/b", None, decode);
    var ctxB;
    loadB, ctxB := controller.RenderAction(urlB);
    assert Builds(loadB, ctxB, Default, options);
  }

  /**
   * Two navigations overlap: `/a` is forwarded, then `/b`, and only then
   * does `/a`'s load settle. Entering `/a` is discarded as stale and its
   * Action is never entered; `/b` is entered and becomes current.
   */
  method OvertakenNavigation(decode: string -> Option<string>, model: Supplied)
    returns (first: Settled, second: Settled, firstLog: seq<Step>, secondIsCurrent: bool)
    ensures first == Entered(Stale)
    ensures firstLog == [Emit(Event.Init)]
    ensures second.Entered? && second.entering.Began? && secondIsCurrent
  {
    var options := Options(CapableView, model);
    var controller, loadA, loadB := StartTwo(decode, options);
    first := controller.Settle(loadA);
    firstLog := loadA.loaded.action.a.log;
    second := controller.Settle(loadB);
    secondIsCurrent := controller.currentAction == Some(loadB.loaded.action);
  }
}
