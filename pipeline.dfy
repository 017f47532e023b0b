/** `download_images`, the whole run of the first downloader: four
    strategies are tried in turn to obtain a list of image URLs, the list
    is cut to the requested length, and each image is saved with content
    deduplication into `<pictures>/Pinterestx/<genre>/<query>`.

    Everything the run meets outside its own logic is an input: how
    `Url::parse` reads a string, the response to each strategy's request,
    the HTML parser, the pictures directory and `HOME`, whether the output
    directory can be created, and each image download's `Attempt`. */
module Pipeline {
  import opened Strings
  import opened Collections
  import opened Ordering
  import opened Net
  import opened Results
  import opened Extraction
  import opened Direct
  import opened Search
  import opened Paths
  import opened Dedup
  import opened Quality
  import opened Scanner

  /** The arguments `download_images` reads. */
  datatype Args = Args(url: string, genre: Option<string>, query: Option<string>, maxImages: nat)

  /** What the run meets: `parse` is `Url::parse`, `urlPath` the path it
      gives an image URL; `directPage`, `modernFetch`, `apiFetch` and
      `page` answer the requests of the four strategies; `parseDoc` is the
      HTML parser; `pictures` is `dirs::picture_dir()` and `home` the
      `HOME` variable. */
  datatype Env = Env(
    parse: string -> Option<PageUrl>,
    urlPath: string -> Option<string>,
    directPage: Response<string>,
    modernFetch: string -> Response<string>,
    apiFetch: string -> Response<string>,
    page: Response<string>,
    parseDoc: string -> Document,
    pictures: Option<string>,
    home: Option<string>,
    createDirOk: bool,
    attempt: nat -> Attempt)

  const DefaultGenre: string := "Uncategorized"
  const DefaultQuery: string := "Pinterest"

  function OrDefault(o: Option<string>, d: string): (r: string)
    ensures o.Some? ==> r == o.value
    ensures o.None? ==> r == d
  {
    if o.Some? then o.value else d
  }

  // ---------------------------------------------------------------------
  // The fallback chain

  /** Approach 0: the direct extraction's list, or nothing when it fails. */
  ghost function DirectList(env: Env): seq<string> {
    var d := DirectResult(env.directPage);
    if d.Ok? then d.value else []
  }

  /** Approach 1, tried on modern search URLs: a success replaces the list,
      even when it is empty. */
  ghost function ModernList(url: PageUrl, env: Env): seq<string> {
    var m := ModernResult(url, env.modernFetch, env.parseDoc);
    if IsModernSearch(url) && m.Ok? then m.value else DirectList(env)
  }

  /** Approach 2, tried on search pages while the list is empty. */
  ghost function ApiList(url: PageUrl, env: Env): seq<string> {
    var l := ModernList(url, env);
    var a := ApiResult(url, env.apiFetch);
    if l == [] && IsSearchPage(url) && a.Ok? then a.value else l
  }

  /** Approach 3, while the list is still empty: the page is fetched (its
      failure ends the run) and `extract_image_urls` reads it. */
  ghost function Chosen(url: PageUrl, env: Env): Outcome<seq<string>> {
    var l := ApiList(url, env);
    if l != [] then Ok(l)
    else
      match FetchText(env.page)
      case Err(f) => Err(f)
      case Ok(html) => Ok(SortedList(ImprovedSet(Candidates(html, env.parseDoc(html), IsSearchPage(url)))))
  }

  /** `image_urls.truncate(max_images)` when a positive limit is exceeded. */
  function Truncate(list: seq<string>, maxImages: nat): (r: seq<string>)
    ensures r <= list
    ensures maxImages > 0 ==> |r| == Min(|list|, maxImages)
    ensures maxImages == 0 ==> r == list
  {
    if maxImages > 0 && |list| > maxImages then list[..maxImages] else list
  }

  // ---------------------------------------------------------------------
  // The output directory

  const AppDir: string := "Pinterestx"
  const PicturesName: string := "Pictures"

  /** The pictures directory joined with `Pinterestx`, the genre and the
      query; without one, `$HOME/Pictures` stands in, and a missing `HOME`
      is an error. */
  function BaseDir(pictures: Option<string>, home: Option<string>, genre: string, query: string): (r: Outcome<string>)
    ensures r.Err? <==> pictures.None? && home.None?
    ensures r.Err? ==> r.failure == HomeNotSet
  {
    match pictures
    case Some(p) => Ok(PathJoin(PathJoin(PathJoin(p, AppDir), genre), query))
    case None =>
      match home
      case None => Err(HomeNotSet)
      case Some(h) => Ok(PathJoin(PathJoin(PathJoin(PathJoin(h, PicturesName), AppDir), genre), query))
  }

  /** A path that ends in a name not ending in `/`. */
  lemma JoinEndsClean(base: string, comp: string)
    requires comp != [] && comp[0] != '/' && comp[|comp| - 1] != '/'
    ensures var j := PathJoin(base, comp); j != [] && j[|j| - 1] != '/'
  {
    var j := PathJoin(base, comp);
    assert j[|j| - |comp|..] == comp;
  }

  /** With relative names the directory nests as
      `<pictures>/Pinterestx/<genre>/<query>`, or under
      `$HOME/Pictures` without a pictures directory. */
  lemma BaseDirLayout(pictures: Option<string>, home: string, genre: string, query: string)
    requires pictures.Some? ==> pictures.value != [] && pictures.value[|pictures.value| - 1] != '/'
    requires home != [] && home[|home| - 1] != '/'
    requires genre != [] && genre[0] != '/' && genre[|genre| - 1] != '/'
    requires query == [] || query[0] != '/'
    ensures var root := if pictures.Some? then pictures.value else home + "/" + PicturesName;
      BaseDir(pictures, Some(home), genre, query) == Ok(root + "/" + AppDir + "/" + genre + "/" + query)
  {
    var root := if pictures.Some? then pictures.value else home + "/" + PicturesName;
    if pictures.None? {
      JoinRelative(home, PicturesName);
      JoinEndsClean(home, PicturesName);
    }
    JoinRelative(root, AppDir);
    JoinEndsClean(root, AppDir);
    var d1 := root + "/" + AppDir;
    JoinRelative(d1, genre);
    JoinEndsClean(d1, genre);
    JoinRelative(d1 + "/" + genre, query);
  }

  // ---------------------------------------------------------------------
  // The run

  /** The four approaches of `download_images` in turn, on a URL that
      parsed. */
  method ChooseImageUrls(url: PageUrl, env: Env) returns (r: Outcome<seq<string>>)
    ensures r == Chosen(url, env)
  {
    var isSearchPage := IsSearchPage(url);
    var imageUrls: seq<string> := [];
    var direct := TryDirectExtraction(env.directPage);
    if direct.Ok? {
      imageUrls := direct.value;
    }
    assert imageUrls == DirectList(env);
    if IsModernSearch(url) {
      var modern := TryModernSearch(url, env.modernFetch, env.parseDoc);
      if modern.Ok? {
        imageUrls := modern.value;
      }
    }
    assert imageUrls == ModernList(url, env);
    if imageUrls == [] && isSearchPage {
      var api := TryPinterestApi(url, env.apiFetch);
      if api.Ok? {
        imageUrls := api.value;
      }
    }
    assert imageUrls == ApiList(url, env);
    if imageUrls == [] {
      var html := FetchText(env.page);
      if html.Err? {
        return Err(html.failure);
      }
      imageUrls := ExtractImageUrls(html.value, env.parseDoc(html.value), isSearchPage);
    }
    r := Ok(imageUrls);
  }

  /** The saving stage of the run: the output directory, then the download
      loop over the list. */
  method SaveImages(tried: seq<string>, genre: string, query: string, env: Env, files: Files)
    returns (r: Outcome<nat>, after: Files)
    ensures var dir := BaseDir(env.pictures, env.home, genre, query);
      && (dir.Err? ==> r == Err(HomeNotSet) && after == files)
      && (dir.Ok? && !env.createDirOk ==> r == Err(FileSystem) && after == files)
      && (dir.Ok? && env.createDirOk ==>
            var run := RunAfter(Destinations(tried, dir.value, env.urlPath), env.attempt, files, |tried|);
            r == Ok(run.count) && after == run.files)
    ensures r.Ok? ==> r.value <= |tried|
  {
    after := files;
    var dir := BaseDir(env.pictures, env.home, genre, query);
    if dir.Err? {
      return Err(dir.failure), after;
    }
    if !env.createDirOk {
      return Err(FileSystem), after;
    }
    var count, hashes;
    count, hashes, after := DownloadAll(tried, dir.value, env.urlPath, env.attempt, files);
    r := Ok(count);
  }

  /** `download_images(args)`. `Ok(n)` carries the number of images the run
      reports saved; `tried` is the truncated list chosen for saving, which
      the download loop walks once the output directory is known. */
  method DownloadImages(args: Args, env: Env, files: Files)
    returns (r: Outcome<nat>, tried: seq<string>, after: Files)
    ensures env.parse(args.url).None? ==> r == Err(InvalidUrl) && tried == [] && after == files
    ensures env.parse(args.url).Some? ==>
      var chosen := Chosen(env.parse(args.url).value, env);
      && (chosen.Err? ==> r == Err(chosen.failure) && tried == [] && after == files)
      && (chosen.Ok? && chosen.value == [] ==> r == Ok(0) && tried == [] && after == files)
      && (chosen.Ok? && chosen.value != [] ==>
            tried == Truncate(chosen.value, args.maxImages) &&
            var dir := BaseDir(env.pictures, env.home, OrDefault(args.genre, DefaultGenre), OrDefault(args.query, DefaultQuery));
            && (dir.Err? ==> r == Err(HomeNotSet) && after == files)
            && (dir.Ok? && !env.createDirOk ==> r == Err(FileSystem) && after == files)
            && (dir.Ok? && env.createDirOk ==>
                  var run := RunAfter(Destinations(tried, dir.value, env.urlPath), env.attempt, files, |tried|);
                  r == Ok(run.count) && after == run.files))
    ensures r.Ok? ==> r.value <= |tried|
  {
    tried, after := [], files;
    var genre := OrDefault(args.genre, DefaultGenre);
    var query := OrDefault(args.query, DefaultQuery);
    var parsed := env.parse(args.url);
    if parsed.None? {
      return Err(InvalidUrl), tried, after;
    }
    var imageUrls := ChooseImageUrls(parsed.value, env);
    if imageUrls.Err? {
      return Err(imageUrls.failure), tried, after;
    }
    if imageUrls.value == [] {
      return Ok(0), tried, after;
    }
    tried := Truncate(imageUrls.value, args.maxImages);
    r, after := SaveImages(tried, genre, query, env, files);
  }

  // ---------------------------------------------------------------------
  // What the chain promises

  /** Every strategy ends with a sorted list free of duplicates, so the
      chosen list is one, whichever approach produced it. */
  lemma ChosenSorted(url: PageUrl, env: Env)
    requires Chosen(url, env).Ok?
    ensures StrictlySorted(Chosen(url, env).value)
  {
    assert StrictlySorted(DirectList(env));
    assert StrictlySorted(ModernList(url, env));
    assert StrictlySorted(ApiList(url, env));
  }

  /** A modern search that succeeds decides the list, whatever the direct
      extraction found: its answer is used even when it is empty. */
  lemma ModernOverridesDirect(url: PageUrl, env: Env, directPage: Response<string>)
    requires IsModernSearch(url) && ModernResult(url, env.modernFetch, env.parseDoc).Ok?
    ensures Chosen(url, env.(directPage := directPage)) == Chosen(url, env)
  {
    var env' := env.(directPage := directPage);
    assert env'.modernFetch == env.modernFetch && env'.parseDoc == env.parseDoc;
    assert ModernList(url, env') == ModernList(url, env);
    assert ApiList(url, env') == ApiList(url, env);
  }

  /** The search resource is asked only on a search page whose list is
      still empty: otherwise its answer does not matter. */
  lemma ApiOnlyWhenEmpty(url: PageUrl, env: Env, apiFetch: string -> Response<string>)
    requires ModernList(url, env) != [] || !IsSearchPage(url)
    ensures Chosen(url, env.(apiFetch := apiFetch)) == Chosen(url, env)
  {
    assert ModernList(url, env.(apiFetch := apiFetch)) == ModernList(url, env);
    assert ApiList(url, env.(apiFetch := apiFetch)) == ApiList(url, env);
  }

  /** The page is fetched for the HTML strategy only while the list is
      empty: otherwise its answer does not matter. */
  lemma PageOnlyWhenEmpty(url: PageUrl, env: Env, page: Response<string>)
    requires ApiList(url, env) != []
    ensures Chosen(url, env.(page := page)) == Chosen(url, env) == Ok(ApiList(url, env))
  {
    assert ApiList(url, env.(page := page)) == ApiList(url, env);
  }

  /** A page URL that is not a search page never consults the search
      resource. */
  lemma NoApiOffSearch(url: PageUrl, env: Env, apiFetch: string -> Response<string>)
    requires !IsSearchPage(url)
    ensures Chosen(url, env.(apiFetch := apiFetch)) == Chosen(url, env)
  {
    ApiOnlyWhenEmpty(url, env, apiFetch);
  }

  /** The improved form of a URL one of the strategies accepts: a Pinterest
      image URL, or one the direct extraction's key scan keeps. */
  ghost predicate FromAccepted(x: string) {
    exists u :: KeyAccepts(u) && ImprovedUrl(u) == x
  }

  lemma ImprovedOfAccepted(c: set<string>, x: string)
    requires forall u :: u in c ==> KeyAccepts(u)
    requires x in Elems(SortedList(ImprovedSet(c)))
    ensures FromAccepted(x)
  {
    var u :| u in c && ImprovedUrl(u) == x;
  }

  lemma DirectListAccepted(env: Env, x: string)
    requires x in Elems(DirectList(env))
    ensures FromAccepted(x)
  {
    var html := FetchText(env.directPage).value;
    var c := DirectCandidates(html);
    forall u | u in c ensures KeyAccepts(u) {
      DirectCandidatesAccepted(html, u);
    }
    ImprovedOfAccepted(c, x);
  }

  lemma ModernListAccepted(url: PageUrl, env: Env, x: string)
    requires x in Elems(ModernList(url, env))
    ensures FromAccepted(x)
  {
    var m := ModernResult(url, env.modernFetch, env.parseDoc);
    if IsModernSearch(url) && m.Ok? {
      var html := FetchText(env.modernFetch(url.text)).value;
      var c := ModernCandidates(html, env.parseDoc(html).scripts);
      forall u | u in c ensures KeyAccepts(u) {
        ModernCandidatesAccepted(html, env.parseDoc(html).scripts, u);
      }
      ImprovedOfAccepted(c, x);
    } else {
      DirectListAccepted(env, x);
    }
  }

  lemma ApiListAccepted(url: PageUrl, env: Env, x: string)
    requires x in Elems(ApiList(url, env))
    ensures FromAccepted(x)
  {
    var a := ApiResult(url, env.apiFetch);
    if ModernList(url, env) == [] && IsSearchPage(url) && a.Ok? {
      PrefixListsNonempty();
      var json := FetchText(env.apiFetch(ApiUrl(QueryParam(url.query, QueryKey).value))).value;
      var c := ScanAll(json, ImagePrefixes, UrlDelimiters, IsPinterestImageUrl, {});
      forall u | u in c ensures KeyAccepts(u) {
        ImageScanShape(json, {}, u);
      }
      ImprovedOfAccepted(c, x);
    } else {
      ModernListAccepted(url, env, x);
    }
  }

  /** Whichever approach supplies the list, each of its URLs is the
      improved form of an accepted URL. */
  lemma ChosenAccepted(url: PageUrl, env: Env, x: string)
    requires Chosen(url, env).Ok? && x in Elems(Chosen(url, env).value)
    ensures FromAccepted(x)
  {
    if ApiList(url, env) != [] {
      ApiListAccepted(url, env, x);
    } else {
      var html := FetchText(env.page).value;
      var doc := env.parseDoc(html);
      var c := Candidates(html, doc, IsSearchPage(url));
      forall u | u in c ensures KeyAccepts(u) {
        CandidatesAccepted(html, doc, IsSearchPage(url), u);
      }
      ImprovedOfAccepted(c, x);
    }
  }
}
