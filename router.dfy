/**
 * The Router of src/router.js: an ordered rule list matched against the
 * path of a parsed URL, with one fallback handler for paths no rule takes.
 */
module Routers {
  import opened Js
  import opened Query
  import opened URLs

  /** A rule's pattern: a string compared with `===`, or a RegExp (by id). */
  datatype Pattern = Literal(text: string) | RegExp(id: nat)

  /** A handler function: an application callback, or the Controller's `renderAction`. */
  datatype Handler = Callback(id: nat) | RenderAction

  datatype Rule = Rule(pattern: Pattern, handler: Handler)

  /** One invocation of a handler with the parsed URL. */
  datatype Call = Call(handler: Handler, url: Url)

  /**
   * Whether a rule's pattern accepts a path; `test(id, path)` is what the
   * RegExp numbered `id` answers (the regular-expression engine is opaque).
   */
  predicate Matches(test: (nat, string) -> bool, pattern: Pattern, path: string)
  {
    match pattern
    case Literal(text) => text == path
    case RegExp(id) => test(id, path)
  }

  /** The index of the first rule whose pattern accepts the path, if any. */
  function FirstMatch(test: (nat, string) -> bool, rules: seq<Rule>, path: string): (r: Option<nat>)
    ensures r.Some? ==> r.value < |rules| && Matches(test, rules[r.value].pattern, path)
    ensures r.Some? ==> forall j :: 0 <= j < r.value ==> !Matches(test, rules[j].pattern, path)
    ensures r.None? <==> forall j :: 0 <= j < |rules| ==> !Matches(test, rules[j].pattern, path)
  {
    if rules == [] then None
    else if Matches(test, rules[0].pattern, path) then Some(0)
    else
      var rest := FirstMatch(test, rules[1..], path);
      assert forall j :: 1 <= j < |rules| ==> rules[j] == rules[1..][j - 1];
      if rest.None? then None else Some(rest.value + 1)
  }

  /**
   * Adding a rule never changes where a path an earlier rule accepts is
   * routed; a path no earlier rule accepts goes to the new rule exactly when
   * the new rule accepts it.
   */
  lemma AddRuleKeepsEarlierMatches(test: (nat, string) -> bool, rules: seq<Rule>, rule: Rule, path: string)
    ensures FirstMatch(test, rules, path).Some? ==>
              FirstMatch(test, rules + [rule], path) == FirstMatch(test, rules, path)
    ensures FirstMatch(test, rules, path).None? ==>
              FirstMatch(test, rules + [rule], path)
              == (if Matches(test, rule.pattern, path) then Some(|rules|) else None)
  {
    var before, after := FirstMatch(test, rules, path), FirstMatch(test, rules + [rule], path);
    assert forall j :: 0 <= j < |rules| ==> (rules + [rule])[j] == rules[j];
    assert (rules + [rule])[|rules|] == rule;
    if before.Some? {
      assert after.Some? && after.value <= before.value;
    } else if after.Some? {
      assert after.value == |rules|;
    }
  }

  /**
   * A string rule is compared with `===`: a rule for exactly the path is
   * found, unless an earlier rule takes the path first; a rule for another
   * path is never the one found.
   */
  lemma LiteralRule(test: (nat, string) -> bool, rules: seq<Rule>, i: nat, path: string)
    requires i < |rules| && rules[i].pattern.Literal?
    ensures rules[i].pattern.text == path ==> FirstMatch(test, rules, path).Some? && FirstMatch(test, rules, path).value <= i
    ensures rules[i].pattern.text != path ==> FirstMatch(test, rules, path) != Some(i)
  {
  }

  /** A rule for `/a` listed before a second rule for `/a`: only the first one is called. */
  lemma FirstRuleWins(test: (nat, string) -> bool, h1: Handler, h2: Handler)
    ensures FirstMatch(test, [Rule(Literal("/a"), h1), Rule(Literal("/a"), h2)], "/a") == Some(0)
  {
  }

  /** The router: its rules, its fallback, and what routing has done so far. */
  class Router {
    const test: (nat, string) -> bool
    var rules: seq<Rule>
    var backup: Option<Handler>
    /**
     * How many times `start()` has subscribed `executeRoute` to the locator's
     * `redirect`: each subscription runs it once per event.
     */
    var subscriptions: nat
    /** Every handler invocation, in order. */
    var calls: seq<Call>
    /** The URL of every `router` event fired on the global bus, in order. */
    var routed: seq<Url>

    /** `new Router()`: no rules yet. */
    constructor (test: (nat, string) -> bool)
      ensures this.test == test && rules == [] && backup == None
      ensures subscriptions == 0 && calls == [] && routed == []
    {
      this.test := test;
      rules := [];
      backup := None;
      subscriptions := 0;
      calls := [];
      routed := [];
    }

    /** `addRule(path, handler)`: appends the rule after every earlier one. */
    method AddRule(pattern: Pattern, handler: Handler)
      modifies this
      ensures rules == old(rules) + [Rule(pattern, handler)]
      ensures backup == old(backup) && subscriptions == old(subscriptions)
      ensures calls == old(calls) && routed == old(routed)
    {
      rules := rules + [Rule(pattern, handler)];
    }

    /** `setBackup(handler)`: replaces any earlier fallback. */
    method SetBackup(handler: Handler)
      modifies this
      ensures backup == Some(handler)
      ensures rules == old(rules) && subscriptions == old(subscriptions)
      ensures calls == old(calls) && routed == old(routed)
    {
      backup := Some(handler);
    }

    /** `start()`: subscribes to the locator's `redirect` events once more, with no guard against a second call. */
    method Start()
      modifies this
      ensures subscriptions == old(subscriptions) + 1
      ensures rules == old(rules) && backup == old(backup)
      ensures calls == old(calls) && routed == old(routed)
    {
      subscriptions := subscriptions + 1;
    }

    /**
     * `executeRoute({url})`: parses the URL and calls the handler of the
     * first rule that accepts its path, and nothing else. When no rule does,
     * the fallback (if any) is called once with the URL and then the
     * `router` event fires. Whether the handler called throws is the
     * parameter `throws` (the controller's fallback, `renderAction`, throws
     * when `forward` does); a throw ends `executeRoute` at once, so a
     * fallback that throws leaves the `router` event unfired.
     */
    method ExecuteRoute(raw: string, decode: string -> Option<string>, throws: bool) returns (u: Url, threw: bool)
      modifies this
      ensures fresh(u) && u.Valid() && u.cache == None && u.decode == decode && u.separator == QuerySplit
      ensures u.path == ParsedPath(raw, QuerySplit) && u.search == ParsedSearch(raw, QuerySplit)
      ensures rules == old(rules) && backup == old(backup) && subscriptions == old(subscriptions)
      ensures var m := FirstMatch(test, rules, u.path);
              && (m.Some? ==> calls == old(calls) + [Call(rules[m.value].handler, u)] && routed == old(routed))
              && (m.Some? ==> (threw <==> throws))
              && (m.None? ==> calls == old(calls) + (if backup.Some? then [Call(backup.value, u)] else []))
              && (m.None? ==> (threw <==> backup.Some? && throws))
              && (m.None? && !threw ==> routed == old(routed) + [u])
              && (m.None? && threw ==> routed == old(routed))
    {
      u := Parse(raw, None, decode);
      var path := u.GetPath();
      var i := 0;
      while i < |rules|
        invariant 0 <= i <= |rules|
        invariant forall j :: 0 <= j < i ==> !Matches(test, rules[j].pattern, path)
      {
        if Matches(test, rules[i].pattern, path) {
          calls := calls + [Call(rules[i].handler, u)];
          threw := throws;
          return;
        }
        i := i + 1;
      }
      if backup.Some? {
        calls := calls + [Call(backup.value, u)];
        if throws {
          return u, true;
        }
      }
      threw := false;
      routed := routed + [u];
    }
  }
}
