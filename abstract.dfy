/**
 * The base class of src/Abstract.js: copies its options onto the instance
 * and wires the declarative `events` table, where a key `name` subscribes on
 * the instance itself and a key `component:name` on one of its components.
 */
module Abstracts {
  import opened Js
  import opened Strings

  /** An event handler function, by identity. */
  datatype Handler = Handler(id: nat)

  /** What an `events` key asks for. */
  datatype KeyKind =
    | OnHost(event: string)
    | OnComponent(component: string, event: string)

  /** Where a subscription was made: on the host's own emitter, or on the named component's. */
  datatype Target = Self | Component(name: string)

  datatype Binding = Binding(target: Target, event: string, handler: Handler)

  /** The instance's own fields (after the option copy). */
  type Props = map<string, Value>

  /** The `events` table: keys with their handlers, in key order. */
  type EventTable = seq<(string, Handler)>

  /**
   * How `bindEvents` reads a key: a `:` after the first character makes it
   * `component:event` (the first two `:`-separated parts, trimmed);
   * otherwise the whole key is an event of the host.
   */
  function Classify(key: string): (k: KeyKind)
    ensures k.OnHost? <==> IndexOf(key, ':') <= 0
    ensures k.OnHost? ==> k.event == key
  {
    if IndexOf(key, ':') > 0 then
      var parts := Split(key, ':');
      OnComponent(Trim(parts[0]), Trim(parts[1]))
    else OnHost(key)
  }

  /** A key without `:`, or whose first character is `:`, names an event of the host. */
  lemma ClassifyBare(key: string)
    requires ':' !in key || key[0] == ':'
    ensures Classify(key) == OnHost(key)
  {
  }

  /** The first piece of a split is the text before the first separator. */
  lemma SplitHead(s: string, c: char)
    ensures Split(s, c)[0] == CutAt(s, c).before
  {
  }

  /**
   * A key `a:b` with `a` non-empty and free of `:` is component `a` and event
   * `b` up to its own first `:`, both trimmed; anything after a second `:` is
   * ignored.
   */
  lemma ClassifyComponent(key: string, a: string, b: string)
    requires key == a + [':'] + b && ':' !in a && a != ""
    ensures Classify(key) == OnComponent(Trim(a), Trim(CutAt(b, ':').before))
  {
    CutAtUnique(key, ':', a, b);
    assert IndexOf(key, ':') == |a|;
    assert Split(key, ':') == [a] + Split(b, ':');
    SplitHead(b, ':');
  }

  /**
   * Parts beyond the second are ignored: `a:b:rest` binds event `b` on
   * component `a` (for `a`, `b` without `:` or surrounding white space).
   */
  lemma ExtraPartsIgnored(a: string, b: string, rest: string)
    requires a != "" && ':' !in a && !IsSpace(a[0]) && !IsSpace(a[|a| - 1])
    requires b != "" && ':' !in b && !IsSpace(b[0]) && !IsSpace(b[|b| - 1])
    ensures Classify(a + [':'] + b + [':'] + rest) == OnComponent(a, b)
  {
    var tail := b + [':'] + rest;
    assert a + [':'] + b + [':'] + rest == a + [':'] + tail;
    CutAtUnique(tail, ':', b, rest);
    ClassifyComponent(a + [':'] + tail, a, tail);
  }

  /** `"a:b:c"` binds event `b` on component `a`. */
  lemma ThreePartKey()
    ensures Classify("a:b:c") == OnComponent("a", "b")
  {
    assert "a:b:c" == "a" + [':'] + "b" + [':'] + "c";
    ExtraPartsIgnored("a", "b", "c");
  }

  /** `":x"` has its `:` at index 0, so it is an event of the host. */
  lemma LeadingColonKey()
    ensures Classify(":x") == OnHost(":x")
  {
    ClassifyBare(":x");
  }

  /**
   * The subscription one `events` entry makes: on the host for a bare key;
   * on a component only if its name is non-empty, the host has a truthy
   * field of that name, and the event name is non-empty; otherwise none.
   */
  function BindingFor(key: string, handler: Handler, props: Props): (r: Option<Binding>)
    ensures IndexOf(key, ':') <= 0 ==> r == Some(Binding(Self, key, handler))
    ensures IndexOf(key, ':') > 0 && r.Some? ==> r.value.target.Component?
    ensures r.Some? ==> r.value.handler == handler
    ensures r.Some? && r.value.target.Component? ==>
              var name := r.value.target.name;
              name != "" && name in props && Truthy(props[name]) && r.value.event != ""
  {
    match Classify(key)
    case OnHost(event) => Some(Binding(Self, event, handler))
    case OnComponent(component, event) =>
      if component != "" && component in props && Truthy(props[component]) && event != "" then
        Some(Binding(Component(component), event, handler))
      else None
  }

  /**
   * A bare key always subscribes its handler on the host under the full key;
   * a component key subscribes it exactly when the component name, the
   * host's field of that name and the event name are all truthy.
   */
  lemma BindingRule(key: string, handler: Handler, props: Props)
    ensures var b := BindingFor(key, handler, props);
            && (IndexOf(key, ':') <= 0 ==> b == Some(Binding(Self, key, handler)))
            && (IndexOf(key, ':') > 0 ==>
                  var k := Classify(key);
                  && (b.Some? <==> k.component != "" && k.component in props
                                   && Truthy(props[k.component]) && k.event != "")
                  && (b.Some? ==> b.value == Binding(Component(k.component), k.event, handler)))
  {
  }

  /** What each entry of the table yields, in key order. */
  function Attempts(events: EventTable, props: Props): (r: seq<Option<Binding>>)
    ensures |r| == |events|
  {
    seq(|events|, i requires 0 <= i < |events| => BindingFor(events[i].0, events[i].1, props))
  }

  /** The present values among some optional bindings, in order. */
  function Present(bs: seq<Option<Binding>>): seq<Binding>
  {
    if bs == [] then []
    else Present(bs[..|bs| - 1]) + (if bs[|bs| - 1].Some? then [bs[|bs| - 1].value] else [])
  }

  /** The subscriptions `bindEvents` makes, in key order. */
  function Plan(events: EventTable, props: Props): seq<Binding>
  {
    Present(Attempts(events, props))
  }

  /** A binding is present exactly when some entry holds it. */
  lemma {:induction false} PresentMembers(bs: seq<Option<Binding>>, b: Binding)
    ensures b in Present(bs) <==> Some(b) in bs
  {
    if bs != [] {
      var init := bs[..|bs| - 1];
      PresentMembers(init, b);
      assert bs == init + [bs[|bs| - 1]];
    }
  }

  /** One more optional binding: its value, if present, comes after the earlier ones. */
  lemma PresentNext(bs: seq<Option<Binding>>, i: nat)
    requires i < |bs|
    ensures Present(bs[..i + 1]) == Present(bs[..i]) + (if bs[i].Some? then [bs[i].value] else [])
  {
    assert bs[..i + 1][..i] == bs[..i];
  }

  /** Every planned subscription comes from one entry of the table, and every entry that yields one is planned. */
  lemma PlanMembers(events: EventTable, props: Props, b: Binding)
    ensures b in Plan(events, props) <==>
            exists i :: 0 <= i < |events| && BindingFor(events[i].0, events[i].1, props) == Some(b)
  {
    var attempts := Attempts(events, props);
    PresentMembers(attempts, b);
    if Some(b) in attempts {
      var i :| 0 <= i < |attempts| && attempts[i] == Some(b);
      assert BindingFor(events[i].0, events[i].1, props) == Some(b);
    }
    if exists i :: 0 <= i < |events| && BindingFor(events[i].0, events[i].1, props) == Some(b) {
      var i :| 0 <= i < |events| && BindingFor(events[i].0, events[i].1, props) == Some(b);
      assert attempts[i] == Some(b);
    }
  }

  /** The subscriptions that live on components' emitters. */
  function Delegated(bs: seq<Binding>): (r: seq<Binding>)
    ensures forall b :: b in r <==> b in bs && b.target.Component?
    ensures |r| <= |bs|
  {
    if bs == [] then []
    else Delegated(bs[..|bs| - 1]) + (if bs[|bs| - 1].target.Component? then [bs[|bs| - 1]] else [])
  }

  /** An instance of the base class. */
  class Host {
    var props: Props
    const events: EventTable
    /** Live subscriptions the host made, in order. */
    var subscriptions: seq<Binding>

    /** `initialize(options)`: every option field is copied onto the instance. */
    constructor (options: Props, events: EventTable)
      ensures props == options && this.events == events && subscriptions == []
    {
      props := options;
      this.events := events;
      subscriptions := [];
    }

    /** `init()`: `bindEvents` subscribes every entry of the table, in key order. */
    method Init()
      modifies this
      ensures props == old(props)
      ensures subscriptions == old(subscriptions) + Plan(events, props)
    {
      var i := 0;
      ghost var attempts := Attempts(events, props);
      while i < |events|
        invariant 0 <= i <= |events| && props == old(props)
        invariant subscriptions == old(subscriptions) + Present(attempts[..i])
      {
        var b := BindingFor(events[i].0, events[i].1, props);
        PresentNext(attempts, i);
        ghost var done := Present(attempts[..i]);
        if b.Some? {
          subscriptions := subscriptions + [b.value];
          assert subscriptions == old(subscriptions) + (done + [b.value]);
        }
        i := i + 1;
      }
      assert attempts[..i] == attempts;
    }

    /** `dispose()`: `off()` drops every subscription on the host itself; those on components remain. */
    method Dispose()
      modifies this
      ensures props == old(props)
      ensures subscriptions == Delegated(old(subscriptions))
    {
      subscriptions := Delegated(subscriptions);
    }
  }
}
