# kira navigation core in Dafny

This project models the navigation engine of kira, a single-page application
framework. The address-bar fragment (`#/list~uid=100`) is parsed into a URL
value. The locator notices each real change of it and announces a
`redirect`. The router sends the parsed URL to the first rule whose pattern
accepts its path, or to its fallback. The controller's fallback looks up the
Action configured for the path, builds it, and enters it. An Action drives
one screen through its View and Model: `enter`, fetch, render, `leave`. The
controller guards against a navigation that a later one has overtaken. The
Model is a key/value store whose writes produce diff records.

One Dafny module models each source file:

| module | file | form |
|---|---|---|
| `Query`, `URLs` | `src/URL.js` | `parseQuery` as loops over a `map`; `URL` as class `Url` with the lazily filled query cache |
| `Models` | `src/Model.js` | class `Model` with the `store` map and the list of `change` events fired |
| `Abstracts` | `src/Abstract.js` | class `Host`; the key classification of `bindEvents` as functions |
| `Actions` | `src/Action.js` | class `Action` over `disposed`, `view`, `model` and a log of what it emitted and called |
| `Routers` | `src/router.js` | class `Router` with its rule list, fallback and a log of handler calls |
| `Locators` | `src/locator.js` | class `Locator`; the address bar is a field `href` |
| `Controllers` | `src/controller.js` | class `Controller`; each promise step is a method of its own |

`Js` holds JavaScript values (`===` is datatype equality; objects are named
by identity) and truthiness. `Strings` holds the `indexOf`, `split` and
`trim` the core relies on.

Conventions of the model:
- An event an object fires is appended to a sequence field: the Model's
  `changes`, the Action's `log`, the Router's `calls` and `routed`, the
  Locator's `fired` and `busFired`, and the Controller's `bus`.
- `decodeURIComponent` is a parameter `decode: string -> Option<string>`,
  where `None` means it throws `URIError`.
- A RegExp rule is a number, and `test(id, path)` is what that RegExp answers.
- `config.indexURL` is the Locator's constant `indexURL`.
- A promise chain is split at its `then`s. `Controller.RenderAction` starts a
  load, and `Controller.Settle` is its continuation, called whenever the load
  settles. So two overlapping navigations are an interleaving of calls, as
  in `Controllers.OvertakenNavigation`.

Where the code and its design description differ, the model follows the code:
- `executeRoute` fires the `router` event only when no rule matched, because
  a matching rule returns first (`src/router.js:75`), and only when the
  fallback returns: a fallback that throws ends `executeRoute` before the
  event (`src/router.js:79-86`).
- `enterAction` on a stale navigation returns without disposing the Action it
  was handed (`src/controller.js:112-114`).
- `set` always writes the value and returns the value, not the diff record
  (`src/Model.js:58`, `src/Model.js:141`).
- A configuration whose `action` is `null` or `undefined` makes `loadAction`
  throw a `TypeError` while it builds its message. Another falsy `action`
  (`false`, `0`, `NaN`) rejects with `'no action implement forundefined'`
  (`src/controller.js:177-181`).
- A module id that loads resolves with `new String(id)`. The loaded module
  is only tested for truthiness (`src/controller.js:183-190`). Entering that
  object then throws. The empty id is the exception: it is falsy, so the
  load resolves with `new Action('')`, a default Action. A `null` or `undefined` module throws inside the
  loader's callback, so that load never settles; another falsy module
  rejects as above.
- The framework View has no `setContainer` (it has `setMain`). The default
  View copies the plain view options onto itself (`src/Abstract.js:11-13`),
  so `enter` on an Action built with the default View throws
  (`src/Action.js:69`) unless those options supply `setContainer`.

## Model

| member | source | states |
|---|---|---|
| Strings.IndexOf | src/URL.js:79 | `indexOf` gives -1 exactly when the character is absent, otherwise the index of its first occurrence |
| Strings.CutAt | src/URL.js:79-91 | the cut at the first separator: nothing before it holds the separator, and `before + sep + after` rebuilds the string; with no separator the whole string is `before` |
| Strings.CutAtUnique | src/URL.js:79-87 | any split around a separator with none before it is the cut at the first separator |
| Strings.Split | src/URL.js:101 | `split` gives at least one piece, exactly one when the separator is absent, and no piece holds the separator |
| Strings.JoinSplit | src/URL.js:101 | joining the pieces of `split` with the separator gives the string back |
| Strings.TrimStart | src/Abstract.js:58 | drops exactly the leading white space: the result is a suffix that starts with a non-space |
| Strings.TrimEnd | src/Abstract.js:58 | drops exactly the trailing white space: the result is a prefix that ends with a non-space |
| Strings.Trim | src/Abstract.js:58 | `trim` gives the slice of the string between a white-space-only head and a white-space-only tail, with no white space at either of its ends; a string without any there is unchanged |
| Query.Merge | src/URL.js:122-130 | a new key gets its value; a key holding `true` keeps it; any other entry becomes the array of its old values followed by the new one; other keys are unchanged |
| Query.DecodeGroup | src/URL.js:112-120 | a group is cut at its first `=`; the key is the decoded text before it; the value is the decoded text after it, or `true` without `=`; the group fails exactly when one of these decodes throws |
| Query.FirstGroupOnly | src/URL.js:106-134 | the loop as written: `undefined` exactly when every group is empty; otherwise, when it parses, a query with a single key (`Query.FirstGroupOnlyKey` says when it throws) |
| Query.FirstGroupOnlyKey | src/URL.js:106-133 | as written, the first non-empty group decides: `URIError` when it fails to decode, otherwise a query whose only key is that group's, with its value |
| Query.ParseQueryAsWritten | src/URL.js:100-135 | the loop with its `return` inside computes `FirstGroupOnly` of the `&`-groups |
| Query.DecodeAll | src/URL.js:106-120 | the non-empty groups decoded in order, at most one per group |
| Query.DecodeAllStaysMalformed | src/URL.js:114-120 | once a decode throws, the rest of the search cannot undo it: the whole parse fails |
| Query.DecodeAllNext | src/URL.js:107-120 | one more group is skipped when empty, otherwise decoded and kept after the earlier ones, or the parse fails |
| Query.FoldNext | src/URL.js:122-130 | one more group is merged into the query built so far |
| Query.ParseAll | src/URL.js:100-135 | the intended parse is never `undefined` |
| Query.DecodeAllFails | src/URL.js:106-120 | decoding the groups fails exactly when some non-empty group fails to decode |
| Query.ParseAllFails | src/URL.js:112-120 | the intended parse throws `URIError` exactly when some non-empty group fails to decode |
| Query.ParseQuery | src/URL.js:100-135 | the loop with the `return` after it computes `ParseAll`: every non-empty group merged in order, or `URIError` |
| Query.FoldCollects | src/URL.js:122-130 | after merging all groups, a key is present exactly when some group gives it; it stays `true` when its first value was `true`, otherwise it holds every value given for it, in order, as a single value exactly when there is one |
| Query.SplitTwo | src/URL.js:101 | a search of two groups splits into exactly those two groups |
| Query.PlainPair | src/URL.js:112-120 | a `k=v` group without escapes decodes to key `k` and text `v` |
| Query.DecodeAllPair | src/URL.js:106-120 | two non-empty groups that decode are both kept, in order |
| Query.FoldPair | src/URL.js:122-130 | two groups merged into an empty query are the first entry merged with the second |
| Query.TwoPlainPairs | src/URL.js:100-135 | for `k1=v1&k2=v2` the parser as written keeps only `k1`, while the intended one merges both groups |
| Query.SecondGroupDropped | src/URL.js:132 | on `x=1&y=2` the parser as written returns only `x`, and the intended one returns `x` and `y` |
| Query.SecondValueMakesArray | src/URL.js:124-126 | a second text value for a key makes its entry the two-element array |
| Query.RepeatedKeyBuildsArray | src/URL.js:122-130 | `x=1&x=2` parses to `x: ["1", "2"]` |
| URLs.Url.constructor | src/URL.js:19-22 | an empty path becomes `/`, an absent separator `~`; the search is kept and the query is not parsed yet |
| URLs.Url.GetQuery | src/URL.js:54-59 | the first call parses and caches the query, and every call answers from that same parse; no key (or an empty one) gives the whole query, a key gives its entry or `undefined`; a decode that throws propagates and nothing is cached |
| URLs.Url.GetURL | src/URL.js:24-41 | without a search, `getURL()` is the path; for a non-empty path without the separator, parsing `getURL()` gives back `getPath()` and `getSearch()` |
| URLs.Parse | src/URL.js:74-93 | the new URL's path and search are those of the cut at the first separator (default `~`), and its query is not parsed yet |
| URLs.ParseCutsAtFirst | src/URL.js:79-87 | the path is the text before the first separator (or `/`), the search all of the text after it, and exactly one separator character is dropped |
| URLs.ParseWithoutSeparator | src/URL.js:89-91 | without a separator the whole string is the path (or `/`) and the search is empty |
| URLs.ParseThenGetURL | src/URL.js:24-26 | `parse(s).getURL() == s` exactly when the text before the first separator is non-empty and the text after it, if any, is too (or `s` is `/` with `/` as separator) |
| URLs.GetURLThenParse | src/URL.js:24-26 | parsing what `getURL` built gives back the path and the search, for a non-empty path without the separator |
| URLs.ParseExample | src/URL.js:74-93 | `/a~x=1&y=2` has path `/a`, search `x=1&y=2` and query `{x: "1", y: "2"}` |
| URLs.ParseNoSearchExample | src/URL.js:89-91 | `/a` has path `/a`, an empty search and an empty query |
| Models.RecordFor | src/Model.js:136-152 | there is no record exactly when the old value is identical to the new one; otherwise the record is `add` when the key was absent and `change` when present, with the old and new values |
| Models.ApplyElsewhere | src/Model.js:106-113 | `Apply`, the store after `fill`'s writes, has exactly the old keys and the data's keys, and every key outside the data keeps its value |
| Models.ApplyHolds | src/Model.js:106-113 | in `Apply`, after writing data with distinct keys, each key holds its entry's value |
| Models.FillRecordsAreDiff | src/Model.js:102-113 | for an object's own (distinct) keys, the records `fill` collects are the differences from the store as it was before the fill |
| Models.DiffEmpty | src/Model.js:143 | entries whose values the store already holds produce no records |
| Models.RefillFindsNothing | src/Model.js:102-122 | filling the same data twice: the second fill finds no records |
| Models.SetSameValue | src/Model.js:143-151 | writing the value a key already holds leaves the store as it was and gives no record |
| Models.SetUndefinedOnAbsentKey | src/Model.js:138-151 | writing `undefined` under an absent key stores the key but gives no record |
| Models.FillTwoIntoEmpty | src/Model.js:102-119 | `fill({a, b})` on an empty store collects two `add` records in key order |
| Models.Model.constructor | src/Model.js:16-21 | the store is empty and no event has fired |
| Models.Model.Fetch | src/Model.js:28-30 | `fetch` resolves with its query unchanged |
| Models.Model.Get | src/Model.js:36-38 | `get` gives the stored value, `undefined` for an absent key |
| Models.Model.SetProperty | src/Model.js:136-152 | always writes the value; returns the record `RecordFor` gives for the old store |
| Models.Model.Set | src/Model.js:49-59 | writes the value, fires one `change` with the one record when there is one and not silent, and returns the value |
| Models.Model.Remove | src/Model.js:68-92 | an absent key changes nothing, fires nothing and gives `undefined`; a present key is deleted alone, its old value returned, and a `remove` record (new value `undefined`) fired unless silent |
| Models.Model.Fill | src/Model.js:102-122 | the store is the data written in order; at most one `change` fires, holding all records in order, and none when there are none or it is silent; returns the data |
| Abstracts.Classify | src/Abstract.js:56-68 | a key is a host event (the whole key) exactly when its first `:` is missing or at index 0 |
| Abstracts.ClassifyBare | src/Abstract.js:66-68 | a key without `:`, or starting with `:`, names an event of the host under the full key |
| Abstracts.SplitHead | src/Abstract.js:57-58 | the first piece of `split` is the text before the first separator |
| Abstracts.ClassifyComponent | src/Abstract.js:56-61 | `a:b...` is component `trim(a)` and event `trim(b up to its next ':')` |
| Abstracts.ExtraPartsIgnored | src/Abstract.js:57-61 | parts beyond the second are ignored: `a:b:rest` binds event `b` on component `a` |
| Abstracts.ThreePartKey | src/Abstract.js:57-61 | `a:b:c` binds event `b` on component `a` |
| Abstracts.LeadingColonKey | src/Abstract.js:56 | `:x` binds `:x` on the host |
| Abstracts.BindingFor | src/Abstract.js:56-67 | a key without `:` after its first character binds its handler on the host under the whole key; a component key binds only on the component, and only when the component name is non-empty, the host's field of that name is truthy and the event name is non-empty |
| Abstracts.BindingRule | src/Abstract.js:56-68 | a host key always subscribes its handler on the host; a component key subscribes exactly when component name, host field and event name are all truthy |
| Abstracts.Attempts | src/Abstract.js:52-69 | one attempted subscription per `events` entry |
| Abstracts.PresentMembers | src/Abstract.js:52-69 | a binding is among the made subscriptions exactly when some entry yields it |
| Abstracts.PresentNext | src/Abstract.js:52-69 | the subscription of one more entry, if any, comes after the earlier ones |
| Abstracts.PlanMembers | src/Abstract.js:48-70 | `bindEvents` subscribes a binding exactly when some entry of the table yields it |
| Abstracts.Delegated | src/Abstract.js:29-31 | what survives `off()`: exactly the subscriptions made on components, never more |
| Abstracts.Host.constructor | src/Abstract.js:12-16 | the options are the instance's fields, and nothing is subscribed yet |
| Abstracts.Host.Init | src/Abstract.js:20-22 | `init` subscribes the planned bindings, in key order, after the existing ones |
| Abstracts.Host.Dispose | src/Abstract.js:29-31 | `dispose` drops every subscription on the host itself and keeps those on components |
| Actions.Construct | src/Action.js:31-48 | a part is built with the supplied object's own constructor and methods exactly when that is an instance of a class other than `Object`; otherwise with the default class, which has a method when the default has it or a supplied plain object brings it |
| Actions.LeaveSteps | src/Action.js:100-127 | `leave` does `beforeLeave` first, the Model's `dispose` before the View's (each only when it has one), then `leave`, then `off()` |
| Actions.LeaveOnce | src/Action.js:123 | the first `leave` emits the `leave` event exactly once |
| Actions.RenderSteps | src/Action.js:147-167 | `createView` starts with `beforeRender`, ends with `enterComplete`, and emits no `leave` |
| Actions.EnterSteps | src/Action.js:67-84 | what `enter` does neither emits `leave` nor calls `off()` |
| Actions.TruthyReasons | src/Action.js:175-186 | the intended error list: exactly the truthy reasons, in order |
| Actions.CollectedAsWritten | src/Action.js:178-183 | as written the list gets one entry per truthy reason |
| Actions.ReportErrorLosesReason | src/Action.js:181 | as written a failed fetch's reason becomes a self-reference, where the intended list holds the reason |
| Actions.Action.constructor | src/Action.js:16-48 | the View and the Model are built per `Construct`, `init` is emitted, and the Action is not disposed |
| Actions.Action.Enter | src/Action.js:67-85 | on a live Action whose View has `setContainer`: the container is set, `enter` emitted, the Model filled with the args, and the fetch of `args.query` started; otherwise it throws before doing anything |
| Actions.Action.Leave | src/Action.js:94-129 | the first call disposes the Action with the steps of `LeaveSteps`; later calls do nothing; `leave` is emitted once in a lifetime |
| Actions.Action.CreateView | src/Action.js:137-169 | a disposed Action does nothing; a live one does the steps of `RenderSteps` |
| Actions.Action.ReportError | src/Action.js:175-194 | `handleError` receives and throws exactly the truthy reasons |
| Actions.LeaveBeforeFetchResolves | src/Action.js:137-141 | an Action left before its fetch resolves renders nothing and ends its log with its teardown |
| Routers.FirstMatch | src/router.js:71-77 | the index of the first rule accepting the path: it accepts it and no earlier rule does; none exactly when no rule accepts it |
| Routers.AddRuleKeepsEarlierMatches | src/router.js:30-35 | appending a rule never reroutes a path an earlier rule accepts; an unmatched path goes to the new rule exactly when it accepts it |
| Routers.LiteralRule | src/router.js:73 | a string rule is compared with `===`: a rule for exactly the path is found unless an earlier rule takes the path, and a rule for another path is never the one found |
| Routers.FirstRuleWins | src/router.js:71-76 | of two rules for `/a` only the first is used |
| Routers.Router.constructor | src/router.js:17-19 | no rules, no fallback, nothing routed |
| Routers.Router.AddRule | src/router.js:30-35 | the rule is appended after the earlier ones, which are untouched |
| Routers.Router.SetBackup | src/router.js:51-53 | the fallback is replaced |
| Routers.Router.Start | src/router.js:54-56 | each call subscribes to `redirect` once more: a second `start()` subscribes twice |
| Routers.Router.ExecuteRoute | src/router.js:67-89 | exactly one call, to the first rule accepting the parsed path, and no `router` event; with no such rule, the fallback (if any) is called once with the URL, and the `router` event fires exactly when no fallback throws; it throws exactly when the handler it called throws |
| Locators.LocationOf | src/locator.js:19-22 | empty without `#`, otherwise starting with `#` |
| Locators.LocationIsSuffix | src/locator.js:19-22 | with a `#` in the href, the location is the href's suffix from its first `#` |
| Locators.Locator.GetLocation | src/locator.js:19-22 | the address bar from its first `#` on, or empty when it has none |
| Locators.WithHash | src/locator.js:39 | writing the hash keeps the href up to its first `#`, and the location becomes `#` + the value written, less one leading `#` |
| Locators.LocationAfterFirstHash | src/locator.js:19-22 | the location is the href from its first `#` on |
| Locators.StripHash | src/locator.js:91-93 | one leading `#` is dropped, if there is one, and nothing else |
| Locators.LocationOfWithHash | src/locator.js:39 | after `location.hash = url` the location is `#` + url, less the one leading `#` the browser drops |
| Locators.ResolveURL | src/locator.js:86-101 | `''`, `#`, `/` and `#/` become the index URL; otherwise one leading `#` is dropped and the rest kept |
| Locators.ResolveEcho | src/locator.js:91-93 | for a proper index URL, `#` followed by a resolved URL resolves to that URL again |
| Locators.ResolvedHasNoHash | src/locator.js:86-101 | for a proper index URL, a resolved URL starts with `#` only when the requested one starts with `##` |
| Locators.DoubleHashEchoDiffers | src/locator.js:91-93 | `##a` resolves to `#a`; once written to the hash that shows as `#a`, which resolves to `a` |
| Locators.AsWrittenGuardAlwaysHolds | src/locator.js:38 | as written, the guard holds for every non-empty URL without a leading `#` |
| Locators.RedundantHashWrite | src/locator.js:38-40 | with the address bar at `h#a`, the guard as written rewrites `a`, and the intended guard does not |
| Locators.Locator.constructor | src/locator.js:9-10 | the current location is empty and nothing has fired |
| Locators.Locator.UpdateURL | src/locator.js:35-44 | reports a change exactly when the URL differs from the current one, and always makes it current; writes the hash only on a change the address bar does not show already; after a change the address bar shows `#` + the URL, less one leading `#` when the hash was written |
| Locators.Locator.Redirect | src/locator.js:109-132 | resolves the URL; on a change, exactly one `redirect` on the locator and one on the bus, with the previous URL as referrer, and the resolved URL written to the hash exactly once unless the address bar shows it, the location then being `#` and that URL less one leading `#`; otherwise nothing fires or is written |
| Locators.Locator.HashChange | src/locator.js:46-49 | a `hashchange` redirects to what the address bar shows, with the same events and hash write as `Redirect` |
| Locators.RedirectThenEcho | src/locator.js:109-132 | a redirect to a URL not starting with `##` and the `hashchange` it causes: the echo finds nothing changed, so one `redirect` event results |
| Locators.DoubleHashRedirectsTwice | src/locator.js:109-132 | a redirect to `##a`: the echo changes the URL again, to `a`, so two `redirect` events result |
| Controllers.AsList | src/controller.js:38-40 | a single configuration is wrapped in a list, and a list is kept |
| Controllers.FirstPathless | src/controller.js:42-44 | the index of the first configuration without a path, all earlier ones having one; none exactly when all have one |
| Controllers.RegisterAll | src/controller.js:42-46 | storing configurations keeps each one under its own path |
| Controllers.RegisterLastWins | src/controller.js:42-46 | a path is registered exactly when it was before or some configuration names it, and the last one naming it is the one kept |
| Controllers.RegisterNext | src/controller.js:42-45 | registering one more configuration stores it under its own path over the earlier registrations |
| Controllers.FirstPathlessAt | src/controller.js:42-44 | the assertion fails first at a configuration without a path that follows only configurations with one |
| Controllers.LaterConfigOverwrites | src/controller.js:45 | two configurations for `/a`: the second is kept |
| Controllers.ConfigFor | src/controller.js:146-148 | lookup is exact by the URL's path |
| Controllers.Controller.FindActionConfig | src/controller.js:146-148 | a configuration is found exactly when one is registered for the URL's path, it is that one, and in a consistent table it names that path |
| Controllers.Controller.constructor | src/controller.js:14-20 | no current URL or Action, no loader, an empty registry |
| Controllers.Controller.SetMainContainer | src/controller.js:71-73 | the main container is replaced |
| Controllers.Controller.RegisterAction | src/controller.js:34-49 | each configuration is stored under its path, in order; at one without a path it stops, keeping the earlier ones and leaving the router alone; otherwise `renderAction` becomes the router's fallback |
| Controllers.Controller.LoadAction | src/controller.js:158-209 | no configuration rejects with the path and leaves `currentURL`; with one, `currentURL` is the context's URL at once, and the load ends as `LoadsAs` says (a `null` or `undefined` action throws, another falsy one rejects, a module id waits for the module, an object builds a fresh live Action) |
| Controllers.Controller.ModuleLoaded | src/controller.js:170-195 | a `null` or `undefined` module leaves the load pending for good; another falsy one rejects; any other resolves with `new String(id)`, or, for the empty id, with a fresh default Action |
| Controllers.Controller.Forward | src/controller.js:75-99 | the context's referrer is the current URL at call time, its args copy url, container and referrer plus the whole query; `forwardAction` fires before the load |
| Controllers.Controller.EnterAction | src/controller.js:107-144 | an overtaken context changes nothing; otherwise the previous Action is disposed, its log gaining the leave steps if it was live; the new one is current; its `enter` throws exactly when it is disposed, lacks `setContainer` or was the current Action, and otherwise its log gains the enter steps |
| Controllers.Controller.RenderAction | src/controller.js:55-65 | forwards into the main container and keeps the load as `globalActionLoader`; when `forward` throws, the previous loader stays |
| Controllers.Controller.RenderActionAt | src/controller.js:55-60 | a string is parsed first, then rendered as above, with the same rule for `globalActionLoader` |
| Controllers.Controller.Settle | src/controller.js:62-64 | a rejection goes to `notifyError` once with its reason; a stale load changes nothing; a current one is entered, the previous Action leaving, and goes to `notifyError` exactly when its `enter` throws (a module's `String` object, a disposed Action, one without `setContainer`, or the current Action itself) |
| Controllers.TwoRoutes | src/controller.js:34-49 | registering `/a` and `/b` makes both findable |
| Controllers.StartTwo | src/controller.js:158-167 | two loads started, `/a` then `/b`: each builds a fresh live Action, and `/b`, the later one, holds `currentURL` |
| Controllers.OvertakenNavigation | src/controller.js:112-114 | `/a` overtaken by `/b`: `/a`'s Action is never entered, and `/b`'s is entered and current |

## Findings

| source | as written | input that shows it | evidently intended | confidence | as-written member | corrected member |
|---|---|---|---|---|---|---|
| src/URL.js:132 | `return query` sits inside the `for` loop, so only the first non-empty group is parsed, and a search of only empty groups yields `undefined` | search `x=1&y=2` gives `{x: "1"}` | the `return` after the loop: every group is merged | high (not executed) | Query.SecondGroupDropped | Query.ParseQuery |
| src/Action.js:181 | `errors.push(errors)` pushes the list into itself, so `handleError` never sees a reason | `reportError("timeout")` hands `handleError` the list `[errors]` | `errors.push(item)`: the truthy reasons, in order | high (not executed) | Actions.ReportErrorLosesReason | Actions.Action.ReportError |
| src/locator.js:38 | `getLocation() !== url` compares `#a` with `a`, so the hash is written even when the address bar already shows it | href `h#a`, url `a` | compare with `'#' + url`, as the comment on `updateURL` says | medium (not executed) | Locators.RedundantHashWrite | Locators.Locator.UpdateURL |

The rest of the model uses the corrected behaviour. `URLs.Url.GetQuery`
parses with `ParseAll`, `Actions.Action.ReportError` collects the reasons,
and `Locators.Locator.UpdateURL` uses the `WritesHash` guard.

## Left out

- Locator `start()`, its `hashchange`/`attachEvent` listeners, the polling interval and the startup timeout are browser wiring and timers. `Locators.Locator.HashChange` stands for one delivered `hashchange`.
- The browser's escaping of a written `location.hash` is not modelled. The address bar is `href`, and a write replaces the text after its first `#` with the value written, less one leading `#` (`Locators.WithHash`).
- src/View.js is not part of this model (DOM, templates, event delegation). A View is a `Part` with the capabilities `dispose` and `setContainer`; `render` and `ready` are steps in the Action's log.
- src/events.js and the emitter mixin are not part of this model. Fired events are appended to sequences, and listeners are not run.
- src/config.js is not part of this model. The index URL is the Locator's constant `indexURL`.
- Promise scheduling is not modelled. A promise's continuation is a separate method call, such as `Controllers.Controller.Settle` or `Actions.Action.CreateView`, and its timing is the caller's choice. `window.require` is `Controllers.Controller.ModuleLoaded`, called with the loaded module.
- The `complete`/`fail` callbacks that `enterAction` attaches to `enter` are not modelled. They call `getEvents` on an unbound `this`.
- `setRouter`, `getRouter`, `setEvents`, `getEvents`, `getMainContainer`, `setLocator`, `getLocator`, the empty `Controller.start` and the module-level singletons are wiring only. They are constructor parameters and fields.
- The `router` argument of `executeRoute`'s handler call (`this`) and the `controller` field of the `forwardAction` payload are not modelled.
- `Model.dispose` is the base class's `dispose`, modelled as `Abstracts.Host.Dispose`.
- Abstracts.Host.Init: a component field that is truthy but not an emitter makes `bindEvents` throw. This is not modelled; the binding is recorded as made.
- Actions.Action.constructor: the subscriptions `bindEvents` makes for an Action, and their removal by `off()`, are modelled on `Abstracts.Host` and are not repeated in the Action. The Action's log records `Off`.
- Actions.Action.Enter: the Model is the framework Model or an abstract part. Filling it with the args and fetching are steps in the log, not calls into `Models.Model`. The data a fetch resolves with is the `Query` passed to `CreateView`.
- Actions.Action.ReportError: an application's override of `handleError` is not modelled; the default throws.
- Controllers.Controller.LoadAction: an `action` that is a truthy non-object (a number, a function) would be passed to its own constructor (`Number`, `Function`). This is not modelled; the configurations are the five kinds of `ActionSpec`.
- Controllers.Controller.RegisterAction: keys inherited from `Object.prototype` (such as `constructor`) are not in the registry, although the source's plain-object lookup would find them.
- Models.Model.Get, Models.RecordFor: keys inherited from `Object.prototype` (such as `constructor`) read as `undefined` from an empty store, although `store[name]` finds them (`src/Model.js:37`, `src/Model.js:141`). So a record for such a key carries `undefined` as its old value, and setting it to `undefined` yields no record where the source yields an `add`.
- Routers.Router.Start: the number of subscriptions is kept; that a `redirect` then runs `executeRoute` once per subscription is left to the caller of `Routers.Router.ExecuteRoute`.
- Locators.Locator.Redirect: `redirect` runs the locator's listeners before it fires the bus `redirect` (`src/locator.js:118-127`). A listener that throws, such as `executeRoute` whose fallback throws (`Routers.Router.ExecuteRoute` with `throws`), ends `redirect` before the bus event. Listeners are not run here, so the model always fires both events.
- URLs.Url.GetQuery: keys inherited from `Object.prototype` are likewise absent from the query. `hasOwnProperty` as a query key is not modelled.
- Strings.Trim: only space, tab, line feed and carriage return count as white space, not the other Unicode spaces `trim` removes.
- URLs.Parse: the separator is one character. A longer `querySeparator` string is not modelled.
- `Js.Value` has no floating point, NaN or symbols. Numbers are integers and objects are compared by identity.
