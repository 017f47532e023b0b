/** The two strategies of the first downloader for search pages:
    `try_fetch_from_modern_search`, which reads a search page carrying a
    `source_module_id`, and `try_fetch_from_pinterest_api`, which asks
    Pinterest's search resource for the query. Both need parameters of the
    page URL; the network is a function from the requested URL to the
    response, and the HTML parser a function from text to the document it
    holds. */
module Search {
  import opened Strings
  import opened Collections
  import opened Ordering
  import opened Net
  import opened Scanner
  import opened Results
  import opened Extraction

  /** What `Url::parse` yields that the downloader reads: the URL as text
      (`as_str`), its path, and its decoded query pairs in order. */
  datatype PageUrl = PageUrl(text: string, path: string, query: seq<(string, string)>)

  /** `url.query_pairs().find_map(..)`: the value of the first pair with the
      key. */
  function QueryParam(query: seq<(string, string)>, key: string): (r: Option<string>)
    ensures r.None? <==> forall i :: 0 <= i < |query| ==> query[i].0 != key
    ensures r.Some? ==> exists i :: 0 <= i < |query| && query[i] == (key, r.value)
                                   && forall j :: 0 <= j < i ==> query[j].0 != key
    decreases |query|
  {
    if query == [] then None
    else if query[0].0 == key then
      assert query[0] == (key, query[0].1);
      Some(query[0].1)
    else
      var r := QueryParam(query[1..], key);
      if r.Some? then
        var i :| 0 <= i < |query[1..]| && query[1..][i] == (key, r.value)
                 && forall j :: 0 <= j < i ==> query[1..][j].0 != key;
        assert query[i + 1] == (key, r.value);
        assert forall j :: 0 <= j < i + 1 ==> query[j].0 != key by {
          forall j | 0 <= j < i + 1 ensures query[j].0 != key {
            if j > 0 { assert query[j] == query[1..][j - 1]; }
          }
        }
        r
      else
        assert forall i :: 0 <= i < |query| ==> query[i].0 != key by {
          forall i | 0 <= i < |query| ensures query[i].0 != key {
            if i > 0 { assert query[i] == query[1..][i - 1]; }
          }
        }
        r
  }

  /** A search page: `/search/` in the path, or `q=` or `query=` anywhere
      in the URL. */
  predicate IsSearchPage(url: PageUrl) {
    Contains(url.path, "/search/") || Contains(url.text, "q=") || Contains(url.text, "query=")
  }

  /** The modern search format names a `source_module_id`. */
  predicate IsModernSearch(url: PageUrl) {
    Contains(url.text, "source_module_id")
  }

  // ---------------------------------------------------------------------
  // try_fetch_from_modern_search

  const ModuleIdKey: string := "source_module_id"
  const QueryKey: string := "q"

  /** The scripts of a modern search page that are scanned. */
  predicate MentionsSource(content: string) {
    Contains(content, "\"sourceUrl\"") || Contains(content, "\"images\"") || Contains(content, "\"image_url\"")
  }

  function ScriptStep(content: string, found: set<string>): set<string> {
    PrefixListsNonempty();
    if MentionsSource(content) then ScanAll(content, ImagePrefixes, UrlDelimiters, IsPinterestImageUrl, found)
    else found
  }

  /** The set after the first `n` scripts, starting from `found`. */
  function ScriptScan(scripts: seq<string>, n: nat, found: set<string>): set<string>
    requires n <= |scripts|
    decreases n
  {
    if n == 0 then found else ScriptStep(scripts[n - 1], ScriptScan(scripts, n - 1, found))
  }

  /** What the modern search gathers from its page: the raw scan of the
      text, then the general scan of every script that mentions images. */
  function ModernCandidates(html: string, scripts: seq<string>): set<string> {
    ScriptScan(scripts, |scripts|, RawScan(html, {}))
  }

  ghost function ModernResult(url: PageUrl, fetch: string -> Response<string>, parseDoc: string -> Document): Outcome<seq<string>> {
    if QueryParam(url.query, ModuleIdKey).None? then Err(MissingParameter(ModuleIdKey))
    else if QueryParam(url.query, QueryKey).None? then Err(MissingParameter(QueryKey))
    else
      match FetchText(fetch(url.text))
      case Err(f) => Err(f)
      case Ok(html) => Ok(SortedList(ImprovedSet(ModernCandidates(html, parseDoc(html).scripts))))
  }

  method ScanScripts(scripts: seq<string>, urls: set<string>) returns (found: set<string>)
    ensures found == ScriptScan(scripts, |scripts|, urls)
  {
    found := urls;
    for k := 0 to |scripts|
      invariant found == ScriptScan(scripts, k, urls)
    {
      if MentionsSource(scripts[k]) {
        found := FindImageUrlsInText(scripts[k], found);
      }
    }
  }

  /** `try_fetch_from_modern_search(url)`; the module id and the query must
      both be present, though only their presence matters. */
  method TryModernSearch(url: PageUrl, fetch: string -> Response<string>, parseDoc: string -> Document)
    returns (r: Outcome<seq<string>>)
    ensures r == ModernResult(url, fetch, parseDoc)
    ensures QueryParam(url.query, ModuleIdKey).None? <==> r == Err(MissingParameter(ModuleIdKey))
    ensures r.Ok? ==> QueryParam(url.query, QueryKey).Some? && Delivered(fetch(url.text))
    ensures r.Ok? ==> var html := fetch(url.text).body.value;
      StrictlySorted(r.value) && Elems(r.value) == ImprovedSet(ModernCandidates(html, parseDoc(html).scripts))
  {
    var moduleId := QueryParam(url.query, ModuleIdKey);
    if moduleId.None? {
      return Err(MissingParameter(ModuleIdKey));
    }
    var searchQuery := QueryParam(url.query, QueryKey);
    if searchQuery.None? {
      return Err(MissingParameter(QueryKey));
    }
    var page := FetchText(fetch(url.text));
    if page.Err? {
      return Err(page.failure);
    }
    var html := page.value;
    PrefixListsNonempty();
    var urls := ScanPatterns(html, RawPrefixes, UrlDelimiters, IsPinterestImageUrl, {});
    urls := ScanScripts(parseDoc(html).scripts, urls);
    var processed := Finish(urls);
    r := Ok(processed);
  }

  // ---------------------------------------------------------------------
  // try_fetch_from_pinterest_api

  /** The search resource and the start of its JSON `data` parameter,
      percent-encoded; the query is inserted twice as it is. */
  const ApiResource: string := "https://www.pinterest.com/resource/BaseSearchResource/get/?source_url=/search/pins/?q="
  const ApiDataStart: string := "&data=%7B%22options%22%3A%7B%22query%22%3A%22"
  const ApiDataEnd: string := "%22%2C%22scope%22%3A%22pins%22%2C%22filters%22%3A%7B%7D%7D%2C%22context%22%3A%7B%7D%7D"

  function ApiUrl(query: string): string {
    ApiResource + query + ApiDataStart + query + ApiDataEnd
  }

  /** What the strategy makes of the answer to its request. */
  ghost function ApiAnswer(response: Response<string>): Outcome<seq<string>> {
    PrefixListsNonempty();
    match FetchText(response)
    case Err(f) => Err(f)
    case Ok(json) => Ok(SortedList(ImprovedSet(ScanAll(json, ImagePrefixes, UrlDelimiters, IsPinterestImageUrl, {}))))
  }

  ghost function ApiResult(url: PageUrl, fetch: string -> Response<string>): Outcome<seq<string>> {
    match QueryParam(url.query, QueryKey)
    case None => Err(MissingParameter(QueryKey))
    case Some(q) => ApiAnswer(fetch(ApiUrl(q)))
  }

  /** `try_fetch_from_pinterest_api(url)`: the general scan of the search
      resource's answer. An answer without image URLs is an empty success. */
  method TryPinterestApi(url: PageUrl, fetch: string -> Response<string>) returns (r: Outcome<seq<string>>)
    ensures r == ApiResult(url, fetch)
    ensures QueryParam(url.query, QueryKey).None? <==> r == Err(MissingParameter(QueryKey))
    ensures r.Ok? ==> Delivered(fetch(ApiUrl(QueryParam(url.query, QueryKey).value)))
  {
    var searchQuery := QueryParam(url.query, QueryKey);
    if searchQuery.None? {
      return Err(MissingParameter(QueryKey));
    }
    var answer := fetch(ApiUrl(searchQuery.value));
    assert ApiResult(url, fetch) == ApiAnswer(answer);
    var response := FetchText(answer);
    if response.Err? {
      assert response.failure.RequestFailed? || response.failure.BadStatus?;
      return Err(response.failure);
    }
    var urls := FindImageUrlsInText(response.value, {});
    var processed := Finish(urls);
    r := Ok(processed);
    assert r == ApiAnswer(answer);
  }

  // ---------------------------------------------------------------------
  // What the strategies find

  lemma {:induction false} ScriptScanAccepted(scripts: seq<string>, n: nat, found: set<string>, u: string)
    requires n <= |scripts| && u in ScriptScan(scripts, n, found) && u !in found
    ensures IsPinterestImageUrl(u) && Clean(u, UrlDelimiters)
    ensures exists k :: 0 <= k < |ImagePrefixes| && StartsWith(u, ImagePrefixes[k])
    decreases n
  {
    var before := ScriptScan(scripts, n - 1, found);
    if u in before {
      ScriptScanAccepted(scripts, n - 1, found, u);
    } else {
      ImageScanShape(scripts[n - 1], before, u);
    }
  }

  /** Every candidate of the modern search is a Pinterest image URL free of
      delimiters. */
  lemma ModernCandidatesAccepted(html: string, scripts: seq<string>, u: string)
    requires u in ModernCandidates(html, scripts)
    ensures IsPinterestImageUrl(u) && Clean(u, UrlDelimiters)
  {
    PrefixListsNonempty();
    PrefixesClean();
    var raw := RawScan(html, {});
    if u in raw {
      ScanAllShape(html, RawPrefixes, UrlDelimiters, IsPinterestImageUrl, {}, u);
    } else {
      ScriptScanAccepted(scripts, |scripts|, raw, u);
    }
  }

  /** Without a `q` parameter the search resource is never asked: the
      outcome is the same whatever the network would answer. */
  lemma ApiNeedsQuery(url: PageUrl, fetch1: string -> Response<string>, fetch2: string -> Response<string>)
    requires QueryParam(url.query, QueryKey).None?
    ensures ApiResult(url, fetch1) == ApiResult(url, fetch2) == Err(MissingParameter(QueryKey))
  {
  }
}
