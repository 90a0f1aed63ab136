/**
 * The Action of src/Action.js: one screen's lifecycle over a `disposed`
 * flag and the View and Model it owns. The View and the Model are abstract
 * parts; what the Action emits and asks of them is recorded, in order, in
 * its log.
 */
module Actions {
  import opened Js
  import opened Query
  import opened URLs

  /** Which optional methods a constructed part has. */
  datatype Caps = Caps(dispose: bool, setContainer: bool)

  /** What a configuration supplies as `view` or `model`. */
  datatype Supplied =
    | NotGiven                          // a falsy value
    | PlainObject(own: Caps)            // an object whose constructor is `Object`, with its own methods
    | Instance(cls: nat, caps: Caps)    // an instance of some other class

  /** The constructor a part is built with. */
  datatype Ctor = Default | Class(cls: nat)

  /** A constructed View or Model. */
  datatype Part = Part(ctor: Ctor, caps: Caps)

  /** The framework View has `dispose` but no `setContainer` (it has `setMain`). */
  const DefaultViewCaps := Caps(true, false)

  /** The framework Model has `dispose` (inherited from the base class). */
  const DefaultModelCaps := Caps(true, false)

  /**
   * The part `init` builds: with the supplied object's own constructor when
   * it is truthy and that constructor is not `Object`, else with the default.
   * The default constructor copies a plain object's own members onto the
   * new part, so that part has a method when either the default class or
   * the plain object has it.
   */
  function Construct(supplied: Supplied, defaults: Caps): (p: Part)
    ensures p.ctor.Class? <==> supplied.Instance?
    ensures supplied.Instance? ==> p == Part(Class(supplied.cls), supplied.caps)
    ensures supplied.NotGiven? ==> p.caps == defaults
    ensures supplied.PlainObject? ==>
      (p.caps.dispose <==> defaults.dispose || supplied.own.dispose)
      && (p.caps.setContainer <==> defaults.setContainer || supplied.own.setContainer)
  {
    match supplied
    case Instance(cls, caps) => Part(Class(cls), caps)
    case PlainObject(own) =>
      Part(Default, Caps(defaults.dispose || own.dispose, defaults.setContainer || own.setContainer))
    case NotGiven => Part(Default, defaults)
  }

  /** The options an Action is built from. */
  datatype Options = Options(view: Supplied, model: Supplied)

  /** `actionContext.args`: a copy of the context's fields plus the query. */
  datatype Args = Args(url: Url, container: Value, referrer: Option<Url>, query: Query)

  /** The action context `forward` builds. */
  datatype Context = Context(url: Url, container: Value, referrer: Option<Url>, args: Args)

  datatype Event = Init | Enter | BeforeRender | AfterRender | EnterComplete | BeforeLeave | Leave

  /** One thing the Action did: an event it emitted, or a call on its View or Model. */
  datatype Step =
    | Emit(event: Event)
    | SetContainer(container: Value)
    | Fill(args: Args)
    | Fetch(query: Query)
    | Render(data: Query)
    | Ready
    | DisposeModel
    | DisposeView
    | Off
    | HandleError(errors: seq<Value>)

  /** What `enter` leads to: a pending fetch of the query, or an exception. */
  datatype Entered = Fetching(query: Query) | EnterThrew

  /** How often `x` occurs in `s`. */
  function Count(s: seq<Step>, x: Step): nat
  {
    if s == [] then 0
    else Count(s[..|s| - 1], x) + (if s[|s| - 1] == x then 1 else 0)
  }

  lemma {:induction false} CountAppend(a: seq<Step>, b: seq<Step>, x: Step)
    ensures Count(a + b, x) == Count(a, x) + Count(b, x)
    decreases |b|
  {
    if b != [] {
      var init := b[..|b| - 1];
      assert (a + b)[..|a + b| - 1] == a + init;
      assert (a + b)[|a + b| - 1] == b[|b| - 1];
      CountAppend(a, init, x);
    } else {
      assert a + b == a;
    }
  }

  /** A step that is not `x` does not count towards it. */
  lemma CountOther(y: Step, x: Step)
    ensures Count([y], x) == (if y == x then 1 else 0)
  {
    assert [y][..0] == [];
  }

  /**
   * What `leave` does the first time: `beforeLeave`, the Model's then the
   * View's `dispose` (each only where it has one), `leave`, then `off()`.
   */
  function LeaveSteps(model: Part, view: Part): (s: seq<Step>)
    ensures |s| >= 3 && s[0] == Emit(BeforeLeave) && s[|s| - 2] == Emit(Leave) && s[|s| - 1] == Off
    ensures DisposeModel in s <==> model.caps.dispose
    ensures DisposeView in s <==> view.caps.dispose
    ensures model.caps.dispose && view.caps.dispose ==> s[1] == DisposeModel && s[2] == DisposeView
  {
    [Emit(BeforeLeave)]
    + (if model.caps.dispose then [DisposeModel] else [])
    + (if view.caps.dispose then [DisposeView] else [])
    + [Emit(Leave), Off]
  }

  /** `leave` emits the `leave` event exactly once. */
  lemma LeaveOnce(model: Part, view: Part)
    ensures Count(LeaveSteps(model, view), Emit(Leave)) == 1
  {
    var head := [Emit(BeforeLeave)]
                + (if model.caps.dispose then [DisposeModel] else [])
                + (if view.caps.dispose then [DisposeView] else []);
    assert LeaveSteps(model, view) == head + [Emit(Leave)] + [Off];
    assert head == [Emit(BeforeLeave)] + (if model.caps.dispose then [DisposeModel] else [])
                   + (if view.caps.dispose then [DisposeView] else []);
    CountOther(Emit(BeforeLeave), Emit(Leave));
    CountOther(DisposeModel, Emit(Leave));
    CountOther(DisposeView, Emit(Leave));
    CountOther(Off, Emit(Leave));
    CountOther(Emit(Leave), Emit(Leave));
    assert Count([], Emit(Leave)) == 0;
    CountAppend([Emit(BeforeLeave)], if model.caps.dispose then [DisposeModel] else [], Emit(Leave));
    CountAppend([Emit(BeforeLeave)] + (if model.caps.dispose then [DisposeModel] else []),
                if view.caps.dispose then [DisposeView] else [], Emit(Leave));
    CountAppend(head, [Emit(Leave)], Emit(Leave));
    CountAppend(head + [Emit(Leave)], [Off], Emit(Leave));
  }

  /** What `createView(data)` does on a live Action, in order. */
  function RenderSteps(data: Query): (s: seq<Step>)
    ensures |s| == 5 && s[0] == Emit(BeforeRender) && s[4] == Emit(EnterComplete)
    ensures Emit(Leave) !in s
  {
    [Emit(BeforeRender), Render(data), Emit(AfterRender), Ready, Emit(EnterComplete)]
  }

  /** What `enter` does on a live Action whose View can take a container. */
  function EnterSteps(ctx: Context): (s: seq<Step>)
    ensures Emit(Leave) !in s && Off !in s
  {
    [SetContainer(ctx.container), Emit(Enter), Fill(ctx.args), Fetch(ctx.args.query)]
  }

  /** A sequence without `x` does not count it. */
  lemma {:induction false} CountAbsent(s: seq<Step>, x: Step)
    requires x !in s
    ensures Count(s, x) == 0
  {
    if s != [] {
      assert forall k :: 0 <= k < |s| - 1 ==> s[..|s| - 1][k] == s[k];
      CountAbsent(s[..|s| - 1], x);
    }
  }

  /** The truthy reasons, in order: what `reportError` means to collect. */
  function TruthyReasons(reasons: seq<Value>): (r: seq<Value>)
    ensures |r| <= |reasons|
    ensures forall v :: v in r <==> v in reasons && Truthy(v)
  {
    if reasons == [] then []
    else
      var last := reasons[|reasons| - 1];
      TruthyReasons(reasons[..|reasons| - 1]) + (if Truthy(last) then [last] else [])
  }

  /** An entry of the error list as written: the list pushes itself. */
  datatype Pushed = TheList

  /** The list `reportError` builds as written: one self-reference per truthy reason. */
  function CollectedAsWritten(reasons: seq<Value>): (r: seq<Pushed>)
    ensures |r| == |TruthyReasons(reasons)|
  {
    if reasons == [] then []
    else
      var last := reasons[|reasons| - 1];
      CollectedAsWritten(reasons[..|reasons| - 1]) + (if Truthy(last) then [TheList] else [])
  }

  /**
   * As written, the reason of a failed fetch never reaches `handleError`:
   * its list holds only references to itself.
   */
  lemma ReportErrorLosesReason(reason: Value)
    requires Truthy(reason)
    ensures CollectedAsWritten([reason]) == [TheList]
    ensures TruthyReasons([reason]) == [reason]
  {
    assert [reason][..0] == [];
  }

  /** An Action instance. */
  class Action {
    const ctor: Ctor
    var disposed: bool
    var view: Option<Part>
    var model: Option<Part>
    var log: seq<Step>
    /** Where the log stood right after `leave` finished. */
    ghost var leftAt: nat

    /**
     * A live Action owns both parts and has not emitted `leave`; a disposed
     * one owns neither, emitted `leave` exactly once, and since then has
     * only handed errors on.
     */
    ghost predicate Valid()
      reads this
    {
      && (disposed <==> view.None?) && (disposed <==> model.None?)
      && |log| >= 1 && log[0] == Emit(Event.Init)
      && Count(log, Emit(Event.Leave)) == (if disposed then 1 else 0)
      && (disposed ==>
            && 0 < leftAt <= |log| && log[leftAt - 1] == Off
            && forall i :: leftAt <= i < |log| ==> log[i].HandleError?)
    }

    /** `initialize` + `init`: builds the View and the Model, emits `init`, and is not disposed. */
    constructor (ctor: Ctor, options: Options)
      ensures this.ctor == ctor && !disposed
      ensures view == Some(Construct(options.view, DefaultViewCaps))
      ensures model == Some(Construct(options.model, DefaultModelCaps))
      ensures log == [Emit(Event.Init)] && Valid()
    {
      this.ctor := ctor;
      view := Some(Construct(options.view, DefaultViewCaps));
      model := Some(Construct(options.model, DefaultModelCaps));
      log := [Emit(Event.Init)];
      disposed := false;
      leftAt := 0;
      new;
      assert [Emit(Event.Init)][..0] == [];
    }

    /**
     * `enter(actionContext)`: sets the container, emits `enter`, fills the
     * Model with the args and fetches their query. A disposed Action has no
     * View, and a View without `setContainer` has nothing to call: both
     * throw before anything happens.
     */
    method Enter(ctx: Context) returns (r: Entered)
      requires Valid()
      modifies this
      ensures Valid() && disposed == old(disposed) && view == old(view) && model == old(model)
      ensures old(disposed) || !old(view).value.caps.setContainer ==> r == EnterThrew && log == old(log)
      ensures !old(disposed) && old(view).value.caps.setContainer ==>
                r == Fetching(ctx.args.query) && log == old(log) + EnterSteps(ctx)
    {
      if view.None? || !view.value.caps.setContainer {
        return EnterThrew;
      }
      CountAppend(log, EnterSteps(ctx), Emit(Event.Leave));
      CountAbsent(EnterSteps(ctx), Emit(Event.Leave));
      log := log + EnterSteps(ctx);
      r := Fetching(ctx.args.query);
    }

    /**
     * `leave()`: the first call disposes the Action (see `LeaveSteps`); any
     * later call returns at once and does nothing.
     */
    method Leave()
      requires Valid()
      modifies this
      ensures Valid() && disposed && view.None? && model.None?
      ensures old(disposed) ==> log == old(log)
      ensures !old(disposed) ==> log == old(log) + LeaveSteps(old(model).value, old(view).value)
    {
      if disposed {
        return;
      }
      var steps := LeaveSteps(model.value, view.value);
      LeaveOnce(model.value, view.value);
      CountAppend(log, steps, Emit(Event.Leave));
      disposed := true;
      log := log + steps;
      model := None;
      view := None;
      leftAt := |log|;
    }

    /** `createView(data)`: renders on a live Action (see `RenderSteps`); nothing once disposed. */
    method CreateView(data: Query)
      requires Valid()
      modifies this
      ensures Valid() && disposed == old(disposed) && view == old(view) && model == old(model)
      ensures old(disposed) ==> log == old(log)
      ensures !old(disposed) ==> log == old(log) + RenderSteps(data)
    {
      if disposed {
        return;
      }
      CountAppend(log, RenderSteps(data), Emit(Event.Leave));
      CountAbsent(RenderSteps(data), Emit(Event.Leave));
      log := log + RenderSteps(data);
    }

    /**
     * `reportError(...reasons)`: collects the truthy reasons and hands them
     * to `handleError`, which throws them.
     */
    method ReportError(reasons: seq<Value>) returns (thrown: seq<Value>)
      requires Valid()
      modifies this
      ensures Valid() && disposed == old(disposed) && view == old(view) && model == old(model)
      ensures thrown == TruthyReasons(reasons)
      ensures log == old(log) + [HandleError(thrown)]
    {
      var errors: seq<Value> := [];
      var i := 0;
      while i < |reasons|
        invariant 0 <= i <= |reasons|
        invariant errors == TruthyReasons(reasons[..i])
      {
        assert reasons[..i + 1][..i] == reasons[..i];
        if Truthy(reasons[i]) {
          errors := errors + [reasons[i]];
        }
        i := i + 1;
      }
      assert reasons[..i] == reasons;
      thrown := errors;
      CountAppend(log, [HandleError(thrown)], Emit(Event.Leave));
      CountOther(HandleError(thrown), Emit(Event.Leave));
      log := log + [HandleError(thrown)];
    }
  }

  /**
   * An Action left while its fetch is still pending renders nothing when
   * the fetch resolves: its log ends with the teardown.
   */
  method LeaveBeforeFetchResolves(options: Options, ctx: Context, data: Query) returns (log: seq<Step>)
    ensures Emit(BeforeRender) !in log && Emit(EnterComplete) !in log
    ensures Count(log, Emit(Leave)) == 1 && log[|log| - 1] == Off
  {
    var action := new Action(Default, options);
    var entered := action.Enter(ctx);
    action.Leave();
    action.CreateView(data);
    action.Leave();
    log := action.log;
  }
}
