/**
 * The locator of src/locator.js: it normalises a requested URL, remembers
 * the current one, keeps the address bar's hash in step, and announces each
 * real change as a `redirect` event. The address bar is a field here.
 */
module Locators {
  import opened Js
  import opened Strings

  /** `getLocation()`: the href from its first `#` on, or `''` when it has none. */
  function LocationOf(href: string): (r: string)
    ensures '#' !in href ==> r == ""
    ensures '#' in href ==> |r| >= 1 && r[0] == '#'
  {
    match CutAt(href, '#')
    case Cut(before, None) => ""
    case Cut(before, Some(after)) => "#" + after
  }

  /** With a `#` in the href, the location is the suffix that starts at its first `#`. */
  lemma LocationIsSuffix(href: string)
    requires '#' in href
    ensures var r := LocationOf(href);
            |r| <= |href| && r == href[|href| - |r|..] && '#' !in href[..|href| - |r|]
  {
    var c := CutAt(href, '#');
    assert href[..|c.before|] == c.before && href[|c.before|..] == "#" + c.after.value;
  }

  /** The location is everything from the first `#` of the href. */
  lemma LocationAfterFirstHash(prefix: string, hash: string)
    requires '#' !in prefix
    ensures LocationOf(prefix + "#" + hash) == "#" + hash
  {
    CutAtUnique(prefix + "#" + hash, '#', prefix, hash);
  }

  /** `url` without one leading `#`, if it has one. */
  function StripHash(url: string): (r: string)
    ensures |url| > 0 && url[0] == '#' ==> url == "#" + r
    ensures |url| == 0 || url[0] != '#' ==> r == url
  {
    if |url| > 0 && url[0] == '#' then url[1..] else url
  }

  /**
   * The href once `location.hash = url` has been written: the fragment is
   * replaced, and the browser drops one leading `#` of the value written.
   */
  function WithHash(href: string, url: string): (r: string)
    ensures CutAt(r, '#').before == CutAt(href, '#').before
    ensures LocationOf(r) == "#" + StripHash(url)
  {
    var before := CutAt(href, '#').before;
    CutAtUnique(before + "#" + StripHash(url), '#', before, StripHash(url));
    before + "#" + StripHash(url)
  }

  /** Writing the hash makes the location `#` followed by what was written, less one leading `#`. */
  lemma LocationOfWithHash(href: string, url: string)
    ensures LocationOf(WithHash(href, url)) == "#" + StripHash(url)
    ensures (url == [] || url[0] != '#') ==> LocationOf(WithHash(href, url)) == "#" + url
  {
    LocationAfterFirstHash(CutAt(href, '#').before, StripHash(url));
  }

  /**
   * `resolveURL(url)`: one leading `#` is dropped; what is then `''` or `/`
   * becomes the index URL; anything else is returned as it is.
   */
  function ResolveURL(url: string, indexURL: string): (r: string)
    ensures url == "" || url == "#" || url == "/" || url == "#/" ==> r == indexURL
    ensures url != "" && url != "#" && url != "/" && url != "#/" ==>
              r == (if url[0] == '#' then url[1..] else url)
  {
    var stripped := StripHash(url);
    assert "#" + "" == "#" && "#" + "/" == "#/";
    if stripped == "" || stripped == "/" then indexURL else stripped
  }

  /** An index URL that resolves to itself: not empty, not `/`, no leading `#`. */
  predicate ProperIndex(indexURL: string)
  {
    indexURL != "" && indexURL != "/" && indexURL[0] != '#'
  }

  /**
   * Resolving is stable once `#` is put back in front: `#` followed by a
   * resolved URL resolves to that URL again.
   */
  lemma ResolveEcho(u: string, indexURL: string)
    requires ProperIndex(indexURL)
    ensures ResolveURL("#" + ResolveURL(u, indexURL), indexURL) == ResolveURL(u, indexURL)
  {
    var r := ResolveURL(u, indexURL);
    assert ("#" + r)[1..] == r;
  }

  /**
   * A resolved URL starts with `#` only when the requested one started with
   * `##`; otherwise writing it to the hash keeps it whole.
   */
  lemma ResolvedHasNoHash(u: string, indexURL: string)
    requires ProperIndex(indexURL)
    requires !(|u| >= 2 && u[0] == '#' && u[1] == '#')
    ensures var r := ResolveURL(u, indexURL); r != [] && r[0] != '#'
  {
  }

  /**
   * `resolveURL('##a')` is `#a`; written to the hash, that shows as `#a`,
   * which resolves to `a`: the echo differs from the URL just set.
   */
  lemma DoubleHashEchoDiffers()
    ensures ResolveURL("##a", "/home") == "#a"
    ensures LocationOf(WithHash("", "#a")) == "#a"
    ensures ResolveURL(LocationOf(WithHash("", "#a")), "/home") == "a"
  {
    LocationOfWithHash("", "#a");
  }

  /**
   * `updateURL`'s guard as written: it compares the location, which starts
   * with `#`, with the URL, which (once resolved) does not.
   */
  predicate WritesHashAsWritten(href: string, url: string)
  {
    LocationOf(href) != url
  }

  /** The guard as meant: write the hash unless the address bar already shows this URL. */
  predicate WritesHash(href: string, url: string)
  {
    LocationOf(href) != "#" + url
  }

  /** As written the guard holds for every URL that does not start with `#`. */
  lemma AsWrittenGuardAlwaysHolds(href: string, url: string)
    requires url != "" && url[0] != '#'
    ensures WritesHashAsWritten(href, url)
  {
  }

  /** With the address bar at `h#a`, the guard as written rewrites `a`; as meant, it does not. */
  lemma RedundantHashWrite()
    ensures WritesHashAsWritten("h#a", "a")
    ensures !WritesHash("h#a", "a")
  {
    LocationAfterFirstHash("h", "a");
    assert "h#a" == "h" + "#" + "a";
  }

  /** A `redirect` event. */
  datatype Move = Move(url: string, referrer: string)

  /** The locator module's state. */
  class Locator {
    const indexURL: string
    /** The URL last handled. */
    var currentLocation: string
    /** `location.href`, the address bar. */
    var href: string
    /** Every write to `location.hash`, in order. */
    var writes: seq<string>
    /** `redirect` events fired on the locator. */
    var fired: seq<Move>
    /** `redirect` events fired on the global bus. */
    var busFired: seq<Move>

    constructor (indexURL: string, href: string)
      ensures this.indexURL == indexURL && this.href == href
      ensures currentLocation == "" && writes == [] && fired == [] && busFired == []
    {
      this.indexURL := indexURL;
      this.href := href;
      currentLocation := "";
      writes := [];
      fired := [];
      busFired := [];
    }

    /** `getLocation()`: the address bar from its first `#` on, or `''` without one. */
    function GetLocation(): (r: string)
      reads this
      ensures '#' !in href ==> r == ""
      ensures '#' in href ==>
                && r != [] && r[0] == '#'
                && |r| <= |href| && r == href[|href| - |r|..] && '#' !in href[..|href| - |r|]
    {
      if '#' in href then LocationIsSuffix(href); LocationOf(href) else LocationOf(href)
    }

    /**
     * `updateURL(url)`: reports whether the URL differs from the current
     * one, and makes it current; the hash is written only when the URL
     * changed and the address bar does not show it already.
     */
    method UpdateURL(url: string) returns (changed: bool)
      modifies this
      ensures changed <==> old(currentLocation) != url
      ensures currentLocation == url
      ensures changed && WritesHash(old(href), url) ==>
                href == WithHash(old(href), url) && writes == old(writes) + [url]
      ensures !(changed && WritesHash(old(href), url)) ==> href == old(href) && writes == old(writes)
      ensures changed && WritesHash(old(href), url) ==> LocationOf(href) == "#" + StripHash(url)
      ensures changed && !WritesHash(old(href), url) ==> LocationOf(href) == "#" + url
      ensures fired == old(fired) && busFired == old(busFired)
    {
      changed := currentLocation != url;
      if changed && GetLocation() != "#" + url {
        href := WithHash(href, url);
        writes := writes + [url];
        LocationOfWithHash(old(href), url);
      }
      currentLocation := url;
    }

    /**
     * `redirect(url)`: resolves the URL and updates it; on a change, one
     * `redirect` event with the previous URL as referrer goes to the
     * locator's listeners and one to the global bus.
     */
    method Redirect(url: string) returns (changed: bool)
      modifies this
      ensures var r := ResolveURL(url, indexURL);
              && (changed <==> old(currentLocation) != r)
              && currentLocation == r
              && (changed && WritesHash(old(href), r) ==>
                    href == WithHash(old(href), r) && writes == old(writes) + [r]
                    && LocationOf(href) == "#" + StripHash(r))
              && (changed && !WritesHash(old(href), r) ==>
                    href == old(href) && writes == old(writes) && LocationOf(href) == "#" + r)
              && (changed ==> fired == old(fired) + [Move(r, old(currentLocation))]
                              && busFired == old(busFired) + [Move(r, old(currentLocation))])
              && (!changed ==> fired == old(fired) && busFired == old(busFired)
                               && href == old(href) && writes == old(writes))
    {
      var resolved := ResolveURL(url, indexURL);
      var referrer := currentLocation;
      changed := UpdateURL(resolved);
      if changed {
        fired := fired + [Move(resolved, referrer)];
        busFired := busFired + [Move(resolved, referrer)];
      } else {
        assert href == old(href) && writes == old(writes);
      }
    }

    /** A `hashchange`: `forwardHash` redirects to what the address bar shows. */
    method HashChange() returns (changed: bool)
      modifies this
      ensures var r := ResolveURL(LocationOf(old(href)), indexURL);
              && (changed <==> old(currentLocation) != r)
              && currentLocation == r
              && (changed ==> fired == old(fired) + [Move(r, old(currentLocation))]
                              && busFired == old(busFired) + [Move(r, old(currentLocation))])
              && (changed && WritesHash(old(href), r) ==>
                    href == WithHash(old(href), r) && writes == old(writes) + [r])
              && (changed && !WritesHash(old(href), r) ==> href == old(href) && writes == old(writes))
              && (!changed ==> fired == old(fired) && busFired == old(busFired)
                               && href == old(href) && writes == old(writes))
    {
      changed := Redirect(GetLocation());
    }
  }

  /**
   * A redirect and then the `hashchange` it causes: the echo finds the URL
   * unchanged and fires nothing, so exactly one `redirect` event results.
   * A `u` starting with `##` is the exception, shown below.
   */
  method RedirectThenEcho(indexURL: string, href: string, u: string) returns (first: bool, echo: bool, events: seq<Move>)
    requires ProperIndex(indexURL)
    requires !(|u| >= 2 && u[0] == '#' && u[1] == '#')
    ensures first && !echo
    ensures events == [Move(ResolveURL(u, indexURL), "")]
  {
    var locator := new Locator(indexURL, href);
    ResolvedHasNoHash(u, indexURL);
    first := locator.Redirect(u);
    ResolveEcho(u, indexURL);
    echo := locator.HashChange();
    events := locator.fired;
  }

  /**
   * A redirect to `##a` from an address bar without a hash: it makes `#a`
   * current and writes it, the browser shows `#a`, and the echo redirects
   * once more, to `a`, with `#a` as referrer.
   */
  method DoubleHashRedirectsTwice(indexURL: string, href: string) returns (first: bool, echo: bool, events: seq<Move>)
    requires '#' !in href
    ensures first && echo
    ensures events == [Move("#a", ""), Move("a", "#a")]
  {
    var locator := new Locator(indexURL, href);
    assert ResolveURL("##a", indexURL) == "#a";
    assert CutAt(href, '#').before == href;
    assert LocationOf(href) == "" && WritesHash(href, "#a");
    first := locator.Redirect("##a");
    assert locator.href == href + "#" + "a" && locator.currentLocation == "#a";
    LocationAfterFirstHash(href, "a");
    assert ResolveURL("#a", indexURL) == "a";
    echo := locator.HashChange();
    events := locator.fired;
  }
}
