/**
 * The URL value of src/URL.js: a hash fragment such as
 * `/action~uid=100&name=shenli` held as a path, a search and the separator
 * between them, with its query parsed lazily on first request.
 */
module URLs {
  import opened Js
  import opened Strings
  import opened Query

  /** The default separator between path and search. */
  const QuerySplit: char := '~'

  /** The separator a caller's option selects: the given one, else `~`. */
  function SeparatorOf(option: Option<char>): char
  {
    if option.Some? then option.value else QuerySplit
  }

  /** `getURL`: the path alone when the search is empty, else path, separator, search. */
  function Compose(path: string, search: string, separator: char): string
  {
    if search == "" then path else path + [separator] + search
  }

  /** The path `URL.parse` keeps: the text before the first separator, `/` when that is empty. */
  function ParsedPath(raw: string, separator: char): string
  {
    var before := CutAt(raw, separator).before;
    if before == "" then "/" else before
  }

  /** The search `URL.parse` keeps: the text after the first separator, `''` when there is none. */
  function ParsedSearch(raw: string, separator: char): string
  {
    match CutAt(raw, separator).after
    case None => ""
    case Some(after) => after
  }

  /** The answer of `getQuery(key)`. */
  datatype QueryAnswer =
    | Whole(copy: Query)                  // no key: a copy of the whole query
    | Entry(value: Option<QueryValue>)    // a key: its entry, `undefined` when absent
    | Threw                               // a decode threw `URIError`

  /** A parsed URL; the query is computed on first request and cached. */
  class Url {
    const path: string
    const search: string
    const separator: char
    /** `decodeURIComponent`; `None` where it throws. */
    const decode: string -> Option<string>
    /** The closure variable `query`: `None` until it has been parsed. */
    var cache: Option<Query>

    ghost predicate Valid()
      reads this
    {
      && path != ""
      && (cache.Some? ==> ParseAll(search, decode) == Parsed(cache.value))
    }

    /** `new URL(path, search, separator)`: an empty path becomes `/`, an absent separator `~`. */
    constructor (path: string, search: string, separator: Option<char>, decode: string -> Option<string>)
      ensures this.path == (if path == "" then "/" else path)
      ensures this.search == search
      ensures this.separator == SeparatorOf(separator)
      ensures this.decode == decode
      ensures cache == None && Valid()
    {
      this.path := if path == "" then "/" else path;
      this.search := search;
      this.separator := SeparatorOf(separator);
      this.decode := decode;
      cache := None;
    }

    /**
     * `getURL()`: the path, followed by the separator and the search when
     * there is one; parsing it gives the path and the search back.
     */
    function GetURL(): (r: string)
      ensures search == "" ==> r == path
      ensures path != "" && separator !in path ==>
                ParsedPath(r, separator) == path && ParsedSearch(r, separator) == search
    {
      var r := Compose(path, search, separator);
      if path != "" && separator !in path then
        GetURLThenParse(path, search, separator);
        r
      else r
    }

    function GetPath(): string
    {
      path
    }

    function GetSearch(): string
    {
      search
    }

    /**
     * `getQuery(key)`: parses the search on first use and caches it; with a
     * (truthy) key it answers that entry, without one a copy of the whole
     * query. Every call answers from the same parse, cached or not.
     */
    method GetQuery(key: Option<string>) returns (r: QueryAnswer)
      requires Valid()
      modifies this
      ensures Valid()
      ensures ParseAll(search, decode).Malformed? ==> r == Threw && cache == old(cache)
      ensures ParseAll(search, decode).Parsed? ==>
                var q := ParseAll(search, decode).query;
                && cache == Some(q)
                && (key.None? || key == Some("") ==> r == Whole(q))
                && (key.Some? && key != Some("") ==>
                      r == Entry(if key.value in q then Some(q[key.value]) else None))
    {
      if cache.None? {
        var parsed := ParseQuery(search, decode);
        if parsed.Malformed? {
          return Threw;
        }
        assert parsed.Parsed?;
        cache := Some(parsed.query);
      }
      var q := cache.value;
      if key.None? || key.value == "" {
        r := Whole(q);
      } else if key.value in q {
        r := Entry(Some(q[key.value]));
      } else {
        r := Entry(None);
      }
    }
  }

  /**
   * `URL.parse(raw, {querySeparator})`: cut at the first separator into
   * path and search; no separator leaves the whole string as the path.
   */
  method Parse(raw: string, separator: Option<char>, decode: string -> Option<string>) returns (u: Url)
    ensures fresh(u) && u.Valid() && u.cache == None && u.decode == decode
    ensures u.separator == SeparatorOf(separator)
    ensures u.path == ParsedPath(raw, u.separator)
    ensures u.search == ParsedSearch(raw, u.separator)
  {
    var sep := SeparatorOf(separator);
    var index := IndexOf(raw, sep);
    if index >= 0 {
      u := new Url(raw[..index], raw[index + 1..], Some(sep), decode);
    } else {
      u := new Url(raw, "", Some(sep), decode);
    }
  }

  /**
   * `parse` cuts at the FIRST separator: the path is the text before it (or
   * `/`), the search everything after it, and exactly one separator
   * character is dropped.
   */
  lemma ParseCutsAtFirst(raw: string, separator: char, before: string, after: string)
    requires raw == before + [separator] + after && separator !in before
    ensures ParsedPath(raw, separator) == (if before == "" then "/" else before)
    ensures ParsedSearch(raw, separator) == after
  {
    CutAtUnique(raw, separator, before, after);
  }

  /** Without a separator the whole string is the path (or `/`) and the search is empty. */
  lemma ParseWithoutSeparator(raw: string, separator: char)
    requires separator !in raw
    ensures ParsedPath(raw, separator) == (if raw == "" then "/" else raw)
    ensures ParsedSearch(raw, separator) == ""
  {
  }

  /**
   * `getURL` gives back the parsed string exactly when the text before the
   * first separator is non-empty and, if there is a separator, so is the
   * text after it; the one other case is the string `/` with `/` as the
   * separator.
   */
  lemma {:induction false} ParseThenGetURL(raw: string, separator: char)
    ensures var cut := CutAt(raw, separator);
            Compose(ParsedPath(raw, separator), ParsedSearch(raw, separator), separator) == raw
            <==> (cut.before != "" && cut.after != Some("")) || (raw == "/" && separator == '/')
  {
    var cut := CutAt(raw, separator);
    var path, search := ParsedPath(raw, separator), ParsedSearch(raw, separator);
    var back := Compose(path, search, separator);
    if cut.after.None? {
      assert back == path;
    } else if cut.after.value == "" {
      assert raw == cut.before + [separator];
      assert back == path;
      if cut.before != "" {
        assert |back| < |raw|;
      }
    } else {
      assert back == path + [separator] + cut.after.value;
      if cut.before == "" {
        assert |back| == |raw| + 1;
      }
    }
  }

  /**
   * Parsing what `getURL` produced gives back the path and the search,
   * provided the path is non-empty and holds no separator.
   */
  lemma GetURLThenParse(path: string, search: string, separator: char)
    requires path != "" && separator !in path
    ensures ParsedPath(Compose(path, search, separator), separator) == path
    ensures ParsedSearch(Compose(path, search, separator), separator) == search
  {
    if search != "" {
      ParseCutsAtFirst(Compose(path, search, separator), separator, path, search);
    }
  }

  /** `URL.parse('/a~x=1&y=2')` has path `/a` and the query `{x: '1', y: '2'}`. */
  lemma ParseExample()
    ensures ParsedPath("/a~x=1&y=2", QuerySplit) == "/a"
    ensures ParsedSearch("/a~x=1&y=2", QuerySplit) == "x=1&y=2"
    ensures ParseAll(ParsedSearch("/a~x=1&y=2", QuerySplit), Plain)
            == Parsed(map["x" := One(Text("1")), "y" := One(Text("2"))])
  {
    assert "/a~x=1&y=2" == "/a" + [QuerySplit] + "x=1&y=2";
    ParseCutsAtFirst("/a~x=1&y=2", QuerySplit, "/a", "x=1&y=2");
    SecondGroupDropped();
  }

  /** `URL.parse('/a')`: no separator, empty search and an empty query, whatever the decoder. */
  lemma ParseNoSearchExample(decode: string -> Option<string>)
    ensures ParsedPath("/a", QuerySplit) == "/a" && ParsedSearch("/a", QuerySplit) == ""
    ensures ParseAll("", decode) == Parsed(map[])
  {
    assert Split("", '&') == [""];
    assert [""][..0] == [];
  }
}
