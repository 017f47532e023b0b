/** The second downloader, `src/downloader.rs`: one page is fetched, image
    URLs are gathered from its embedded JSON (or, failing that, from its
    `<img>` tags) into a set, each is moved to the requested size, and the
    images are saved one by one into `Pictures/Pinterestx/<genre>/<query>`.

    The HTML and JSON parsers, `Url::parse`, the network and the disk are
    inputs: the page arrives as a `Response`, the parsed document as a
    `Page`, the path `Url::parse` gives a string as a function, and each
    download's outcome as an `Attempt`. Files are a map from path to
    contents. */
module Downloader {
  import opened Strings
  import opened Collections
  import opened Net
  import opened Paths
  import opened Format
  import opened Adjust

  /** The variants of `DownloadError` these operations produce. */
  datatype DownloadError =
    | Request
    | Io
    | DirCreation
    | HttpStatus(status: int)
    | PicturesDirNotFound

  datatype Result<T> = Ok(value: T) | Err(error: DownloadError)

  // ---------------------------------------------------------------------
  // Fetching the page

  /** `fetch_page`: the body of a 2xx response; a failed send or body is a
      request error and any other status is reported with its code. */
  function FetchPage(response: Response<string>): (r: Result<string>)
    ensures r.Ok? <==> Delivered(response)
    ensures r.Ok? ==> r.value == response.body.value
    ensures r.Err? && r.error.HttpStatus? <==> response.Received? && !IsSuccess(response.status)
    ensures r.Err? ==> r.error.Request? || r.error.HttpStatus?
  {
    match response
    case SendFailed => Err(Request)
    case Received(status, body) =>
      if !IsSuccess(status) then Err(HttpStatus(status))
      else if body.None? then Err(Request)
      else Ok(body.value)
  }

  // ---------------------------------------------------------------------
  // Where images go and what they are called

  const AppDir := "Pinterestx"

  /** `get_output_dir`: the pictures directory joined with `Pinterestx`,
      the genre and the query; an error when there is no pictures
      directory. */
  function OutputDir(pictures: Option<string>, genre: string, query: string): (r: Result<string>)
    ensures r.Err? <==> pictures.None?
    ensures r.Err? ==> r.error == PicturesDirNotFound
  {
    match pictures
    case None => Err(PicturesDirNotFound)
    case Some(p) => Ok(PathJoin(PathJoin(PathJoin(p, AppDir), genre), query))
  }

  /** With a relative genre and query the directory nests under
      `<pictures>/Pinterestx`. */
  lemma OutputDirLayout(p: string, genre: string, query: string)
    requires p != [] && p[|p| - 1] != '/'
    requires genre != [] && genre[0] != '/' && genre[|genre| - 1] != '/'
    requires query == [] || query[0] != '/'
    ensures OutputDir(Some(p), genre, query) == Ok(p + "/" + AppDir + "/" + genre + "/" + query)
  {
    JoinRelative(p, AppDir);
    var d1 := p + "/" + AppDir;
    assert d1[|d1| - 1] == AppDir[|AppDir| - 1];
    JoinRelative(d1, genre);
    var d2 := d1 + "/" + genre;
    assert d2[|d2| - 1] == genre[|genre| - 1];
    JoinRelative(d2, query);
  }

  /** `PathBuf::join` with an absolute component discards what came before:
      an absolute query names the directory outright. */
  lemma OutputDirAbsoluteQuery(p: string, genre: string, query: string)
    requires StartsWith(query, "/")
    ensures OutputDir(Some(p), genre, query) == Ok(query)
  {
  }

  /** `generate_filename`: the last segment of the URL's path when it holds a
      `.`; otherwise `image_NNNN.<ext>`, the index padded to four digits and
      the extension of the path, `jpg` by default. */
  function GenerateFilename(urlPath: string, index: nat): string {
    var name := FileName(urlPath);
    if name.Some? && name.value != [] && '.' in name.value then name.value
    else
      var ext := PathExtension(urlPath);
      "image_" + ZeroPad(index, 4) + "." + (if ext.Some? then ext.value else "jpg")
  }

  /** The sequential name always ends in `.jpg`: it is used only when the
      last segment has no `.`, and then the path has no extension either. */
  lemma SequentialNameIsJpg(urlPath: string, index: nat)
    ensures var name := FileName(urlPath);
      GenerateFilename(urlPath, index) ==
        if name.Some? && '.' in name.value then name.value else "image_" + ZeroPad(index, 4) + ".jpg"
  {
    var name := FileName(urlPath);
    if name.Some? && '.' !in name.value {
      var n := name.value;
      assert forall i :: 0 < i < |n| ==> n[i] != '.' by {
        forall i | 0 < i < |n| ensures n[i] != '.' {
          assert n[i] in n;
        }
      }
    }
  }

  /** Generated names are single path components, so joining them onto the
      output directory adds exactly one level. */
  lemma GeneratedNameIsComponent(urlPath: string, index: nat)
    ensures var n := GenerateFilename(urlPath, index); n != [] && '/' !in n
  {
    SequentialNameIsJpg(urlPath, index);
    var name := FileName(urlPath);
    if !(name.Some? && '.' in name.value) {
      var z := ZeroPad(index, 4);
      ZeroPadSpec(index, 4);
      assert '/' !in z by {
        forall i | 0 <= i < |z| ensures z[i] != '/' {
          assert IsDigit(z[i]);
        }
      }
      var n := "image_" + z + ".jpg";
      forall i | 0 <= i < |n| ensures n[i] != '/' {
        if i < 6 {
        } else if i < 6 + |z| {
          assert n[i] == z[i - 6];
        } else {
          assert n[i] == ".jpg"[i - 6 - |z|];
        }
      }
    }
  }

  /** Below ten thousand the index reads back from characters 6 to 9 of the
      sequential name. */
  lemma SequentialNameIndex(index: nat)
    requires index < 10000
    ensures var n := "image_" + ZeroPad(index, 4) + ".jpg";
      |n| == 14 && AllDigits(n[6..10]) && DigitsValue(n[6..10]) == index
  {
    ZeroPadSpec(index, 4);
    assert Pow10(4) == 10000;
    var z := ZeroPad(index, 4);
    assert ("image_" + z + ".jpg")[6..10] == z;
  }

  // ---------------------------------------------------------------------
  // Image URLs in embedded JSON

  /** A `serde_json::Value`. Numbers are kept only as a marker: nothing here
      looks at them. */
  datatype Json =
    | JNull
    | JBool(b: bool)
    | JNumber
    | JString(s: string)
    | JArray(items: seq<Json>)
    | JObject(members: seq<(string, Json)>)

  predicate HasImageExtension(s: string) {
    EndsWith(s, ".jpg") || EndsWith(s, ".png") || EndsWith(s, ".webp")
  }

  /** A JSON string kept by `find_urls_in_json`: it mentions `pinimg.com`,
      ends in an image extension, parses as a URL, and that URL's path
      names neither an avatar nor a user. `urlPath` is the path
      `Url::parse` yields, or `None` when the string does not parse. */
  predicate JsonCandidate(s: string, urlPath: string -> Option<string>) {
    Contains(s, "pinimg.com") && HasImageExtension(s) &&
    urlPath(s).Some? && !Contains(urlPath(s).value, "/avatar/") && !Contains(urlPath(s).value, "/user/")
  }

  /** Every string value in a JSON tree (object keys are not values). */
  function StringValues(v: Json): set<string>
    decreases v
  {
    match v
    case JString(s) => {s}
    case JArray(items) => set i, u | 0 <= i < |items| && u in StringValues(items[i]) :: u
    case JObject(members) => set i, u | 0 <= i < |members| && u in StringValues(members[i].1) :: u
    case _ => {}
  }

  /** The URLs `find_urls_in_json` collects from a tree, following its
      recursion over arrays and object values. */
  function JsonUrls(v: Json, urlPath: string -> Option<string>): set<string>
    decreases v
  {
    match v
    case JString(s) => if JsonCandidate(s, urlPath) then {s} else {}
    case JArray(items) => set i, u | 0 <= i < |items| && u in JsonUrls(items[i], urlPath) :: u
    case JObject(members) => set i, u | 0 <= i < |members| && u in JsonUrls(members[i].1, urlPath) :: u
    case _ => {}
  }

  /** What the first `n` of a sequence of trees contribute. */
  function UrlsOfFirst(trees: seq<Json>, n: nat, urlPath: string -> Option<string>): set<string>
    requires n <= |trees|
  {
    set k, u | 0 <= k < n && u in JsonUrls(trees[k], urlPath) :: u
  }

  lemma UrlsOfFirstStep(trees: seq<Json>, n: nat, urlPath: string -> Option<string>)
    requires n < |trees|
    ensures UrlsOfFirst(trees, n + 1, urlPath) == UrlsOfFirst(trees, n, urlPath) + JsonUrls(trees[n], urlPath)
  {
    forall u | u in UrlsOfFirst(trees, n + 1, urlPath)
      ensures u in UrlsOfFirst(trees, n, urlPath) + JsonUrls(trees[n], urlPath)
    {
      var k :| 0 <= k < n + 1 && u in JsonUrls(trees[k], urlPath);
    }
  }

  /** What the values of the first `n` members of an object contribute. */
  function MemberUrlsOfFirst(members: seq<(string, Json)>, n: nat, urlPath: string -> Option<string>): set<string>
    requires n <= |members|
  {
    set k, u | 0 <= k < n && u in JsonUrls(members[k].1, urlPath) :: u
  }

  lemma MemberUrlsOfFirstStep(members: seq<(string, Json)>, n: nat, urlPath: string -> Option<string>)
    requires n < |members|
    ensures MemberUrlsOfFirst(members, n + 1, urlPath) ==
              MemberUrlsOfFirst(members, n, urlPath) + JsonUrls(members[n].1, urlPath)
  {
    forall u | u in MemberUrlsOfFirst(members, n + 1, urlPath)
      ensures u in MemberUrlsOfFirst(members, n, urlPath) + JsonUrls(members[n].1, urlPath)
    {
      var k :| 0 <= k < n + 1 && u in JsonUrls(members[k].1, urlPath);
    }
  }

  /** The recursion finds exactly the candidate strings among all string
      values, at any depth. */
  lemma {:induction false} JsonUrlsAreCandidates(v: Json, urlPath: string -> Option<string>)
    ensures JsonUrls(v, urlPath) == set s | s in StringValues(v) && JsonCandidate(s, urlPath)
    decreases v
  {
    match v
    case JString(s) =>
    case JArray(items) =>
      forall i | 0 <= i < |items| {
        JsonUrlsAreCandidates(items[i], urlPath);
      }
      forall u | u in StringValues(v) && JsonCandidate(u, urlPath) ensures u in JsonUrls(v, urlPath) {
        var i :| 0 <= i < |items| && u in StringValues(items[i]);
        assert u in JsonUrls(items[i], urlPath);
      }
    case JObject(members) =>
      forall i | 0 <= i < |members| {
        JsonUrlsAreCandidates(members[i].1, urlPath);
      }
      forall u | u in StringValues(v) && JsonCandidate(u, urlPath) ensures u in JsonUrls(v, urlPath) {
        var i :| 0 <= i < |members| && u in StringValues(members[i].1);
        assert u in JsonUrls(members[i].1, urlPath);
      }
    case _ =>
  }

  /** `find_urls_in_json(data, urls)`: adds the tree's URLs to the set. */
  method FindUrlsInJson(data: Json, urlPath: string -> Option<string>, urls: set<string>)
    returns (found: set<string>)
    ensures found == urls + JsonUrls(data, urlPath)
    decreases data, 1
  {
    match data
    case JString(s) =>
      if Contains(s, "pinimg.com") && HasImageExtension(s) {
        var parsed := urlPath(s);
        if parsed.Some? && !Contains(parsed.value, "/avatar/") && !Contains(parsed.value, "/user/") {
          found := urls + {s};
        } else {
          found := urls;
        }
      } else {
        found := urls;
      }
    case JArray(items) =>
      found := FindUrlsInItems(items, urlPath, urls);
    case JObject(members) =>
      found := FindUrlsInMembers(members, urlPath, urls);
    case _ =>
      found := urls;
  }

  /** The loop over an array's items. */
  method FindUrlsInItems(items: seq<Json>, urlPath: string -> Option<string>, urls: set<string>)
    returns (found: set<string>)
    ensures found == urls + JsonUrls(JArray(items), urlPath)
    decreases JArray(items), 0
  {
    found := urls;
    for i := 0 to |items|
      invariant found == urls + UrlsOfFirst(items, i, urlPath)
    {
      found := FindUrlsInJson(items[i], urlPath, found);
      UrlsOfFirstStep(items, i, urlPath);
    }
    assert UrlsOfFirst(items, |items|, urlPath) == JsonUrls(JArray(items), urlPath);
  }

  /** The loop over an object's values (keys are skipped). */
  method FindUrlsInMembers(members: seq<(string, Json)>, urlPath: string -> Option<string>, urls: set<string>)
    returns (found: set<string>)
    ensures found == urls + JsonUrls(JObject(members), urlPath)
    decreases JObject(members), 0
  {
    found := urls;
    for i := 0 to |members|
      invariant found == urls + MemberUrlsOfFirst(members, i, urlPath)
    {
      found := FindUrlsInJson(members[i].1, urlPath, found);
      MemberUrlsOfFirstStep(members, i, urlPath);
    }
    assert MemberUrlsOfFirst(members, |members|, urlPath) == JsonUrls(JObject(members), urlPath);
  }

  // ---------------------------------------------------------------------
  // Gathering and adjusting the page's image URLs

  /** What `Html::parse_document` and the selectors yield: for each JSON
      script (`script#initial-state`, `script[type='application/json']`) its
      parsed tree, `None` when `serde_json` rejects it; and the `src` of
      every `img[src]`. */
  datatype Page = Page(scripts: seq<Option<Json>>, imgSources: seq<string>)

  /** The `<img>` fallback keeps a source on `pinimg.com` with an image
      extension. */
  predicate ImgCandidate(src: string) {
    Contains(src, "pinimg.com") && HasImageExtension(src)
  }

  /** The URLs of one script: none when it is not valid JSON. */
  function ScriptUrlsOf(script: Option<Json>, urlPath: string -> Option<string>): set<string> {
    if script.Some? then JsonUrls(script.value, urlPath) else {}
  }

  /** The URLs found in the first `n` JSON scripts. */
  function ScriptUrls(scripts: seq<Option<Json>>, n: nat, urlPath: string -> Option<string>): set<string>
    requires n <= |scripts|
  {
    set k, u | 0 <= k < n && u in ScriptUrlsOf(scripts[k], urlPath) :: u
  }

  lemma ScriptUrlsStep(scripts: seq<Option<Json>>, n: nat, urlPath: string -> Option<string>)
    requires n < |scripts|
    ensures ScriptUrls(scripts, n + 1, urlPath) == ScriptUrls(scripts, n, urlPath) + ScriptUrlsOf(scripts[n], urlPath)
  {
    forall u | u in ScriptUrls(scripts, n + 1, urlPath)
      ensures u in ScriptUrls(scripts, n, urlPath) + ScriptUrlsOf(scripts[n], urlPath)
    {
      var k :| 0 <= k < n + 1 && u in ScriptUrlsOf(scripts[k], urlPath);
    }
  }

  /** The `<img>` sources among the first `n` that pass the filter. */
  function ImgUrls(sources: seq<string>, n: nat): set<string>
    requires n <= |sources|
  {
    set k | 0 <= k < n && ImgCandidate(sources[k]) :: sources[k]
  }

  /** The set `extract_image_urls` builds before adjusting: the JSON URLs,
      or the `<img>` URLs when JSON gave none. */
  function PageUrls(page: Page, urlPath: string -> Option<string>): set<string> {
    var fromJson := ScriptUrls(page.scripts, |page.scripts|, urlPath);
    if fromJson != {} then fromJson else ImgUrls(page.imgSources, |page.imgSources|)
  }

  /** The two strategies of `extract_image_urls`, up to the set of URLs. */
  method GatherUrls(page: Page, urlPath: string -> Option<string>) returns (urls: set<string>)
    ensures urls == PageUrls(page, urlPath)
  {
    urls := {};
    for k := 0 to |page.scripts|
      invariant urls == ScriptUrls(page.scripts, k, urlPath)
    {
      ScriptUrlsStep(page.scripts, k, urlPath);
      if page.scripts[k].Some? {
        urls := FindUrlsInJson(page.scripts[k].value, urlPath, urls);
      }
    }
    if urls == {} {
      urls := ImgFallback(page.imgSources);
    }
  }

  /** The `<img>` loop of `extract_image_urls`. */
  method ImgFallback(sources: seq<string>) returns (urls: set<string>)
    ensures urls == ImgUrls(sources, |sources|)
  {
    urls := {};
    for k := 0 to |sources|
      invariant urls == ImgUrls(sources, k)
    {
      var src := sources[k];
      if ImgCandidate(src) {
        urls := urls + {src};
      }
    }
  }

  /** The URLs of a set after adjusting. */
  function AdjustedSet(urls: set<string>, quality: string): set<string> {
    set u | u in urls :: AdjustQuality(u, quality)
  }

  /** `order` lists `urls` once each, and `processed` lists their adjusted
      forms in the same order. */
  predicate AdjustedListing(order: seq<string>, processed: seq<string>, urls: set<string>, quality: string) {
    Elems(order) == urls && Distinct(order) && |processed| == |order| &&
    forall i :: 0 <= i < |order| ==> processed[i] == AdjustQuality(order[i], quality)
  }

  /** `extract_image_urls(html, quality)` on a parsed page. `order` is the
      order in which the `HashSet` hands out its elements. */
  method ExtractImageUrls(page: Page, quality: string, urlPath: string -> Option<string>)
    returns (processed: seq<string>, order: seq<string>)
    ensures AdjustedListing(order, processed, PageUrls(page, urlPath), quality)
    ensures |processed| == |PageUrls(page, urlPath)|
    ensures Elems(processed) == AdjustedSet(PageUrls(page, urlPath), quality)
  {
    var urls := GatherUrls(page, urlPath);
    order := Enumerate(urls);
    processed := seq(|order|, i requires 0 <= i < |order| => AdjustQuality(order[i], quality));
    DistinctCard(order);
    ListingElems(order, processed, urls, quality);
  }

  lemma ListingElems(order: seq<string>, processed: seq<string>, urls: set<string>, quality: string)
    requires AdjustedListing(order, processed, urls, quality)
    ensures Elems(processed) == AdjustedSet(urls, quality)
  {
    forall v | v in AdjustedSet(urls, quality) ensures v in Elems(processed) {
      var u :| u in urls && v == AdjustQuality(u, quality);
      var i :| 0 <= i < |order| && order[i] == u;
      assert processed[i] == v;
    }
  }

  /** Two different URLs that differ only in their size segment become the
      same URL, so the adjusted list can name one image twice. */
  lemma AdjustMerges(a: string, b: string, quality: string)
    requires forall i :: 0 <= i < |TierOrder| ==> OnlyAtMiddle(a, TierOrder[0], b, TierOrder[i])
    requires forall i :: 0 <= i < |TierOrder| ==> OnlyAtMiddle(a, TierOrder[1], b, TierOrder[i])
    ensures a + "/236x/" + b != a + "/474x/" + b
    ensures AdjustQuality(a + "/236x/" + b, quality) == AdjustQuality(a + "/474x/" + b, quality)
  {
    AdjustSingle(a, 0, b, quality);
    AdjustSingle(a, 1, b, quality);
    assert (a + "/236x/" + b)[|a| + 1] == '2';
    assert (a + "/474x/" + b)[|a| + 1] == '4';
  }

  /** When two gathered URLs adjust to the same one, the processed list has
      a repeat: `extract_image_urls` does not deduplicate after adjusting. */
  lemma ListingRepeats(order: seq<string>, processed: seq<string>, urls: set<string>, quality: string,
                       u1: string, u2: string)
    requires AdjustedListing(order, processed, urls, quality)
    requires u1 in urls && u2 in urls && u1 != u2
    requires AdjustQuality(u1, quality) == AdjustQuality(u2, quality)
    ensures !Distinct(processed)
  {
    var i :| 0 <= i < |order| && order[i] == u1;
    var j :| 0 <= j < |order| && order[j] == u2;
    if i < j {
      assert processed[i] == processed[j];
    } else {
      assert processed[j] == processed[i];
    }
  }

  // ---------------------------------------------------------------------
  // Saving images

  /** The attempt saves the image. */
  predicate Succeeds(a: Attempt) {
    Delivered(a.response) && a.createOk && a.writeOk
  }

  datatype Saved = Saved(result: Result<()>, files: Files)

  /** `download_image(url, dest)`: the body of a 2xx response written to
      `dest`. The file is created after the status check and before the
      body is read, so a failed body or write leaves an empty file. */
  function DownloadImage(a: Attempt, dest: string, files: Files): (s: Saved)
    ensures s.result.Ok? <==> Succeeds(a)
    ensures Succeeds(a) ==> s.files == files[dest := a.response.body.value]
    ensures s.result.Err? && s.result.error.HttpStatus? <==> a.response.Received? && !IsSuccess(a.response.status)
    ensures (a.response.SendFailed? || !IsSuccess(a.response.status) || !a.createOk) ==> s.files == files
    ensures !Succeeds(a) && a.response.Received? && IsSuccess(a.response.status) && a.createOk ==>
              s.files == files[dest := []]
    ensures forall p :: p != dest ==> (p in s.files <==> p in files)
    ensures forall p :: p != dest && p in files ==> s.files[p] == files[p]
  {
    match a.response
    case SendFailed => Saved(Err(Request), files)
    case Received(status, body) =>
      if !IsSuccess(status) then Saved(Err(HttpStatus(status)), files)
      else if !a.createOk then Saved(Err(DirCreation), files)
      else if body.None? then Saved(Err(Request), files[dest := []])
      else if !a.writeOk then Saved(Err(Io), files[dest := []])
      else Saved(Ok(()), files[dest := body.value])
  }

  /** What the download loop does with one URL: skip it when it does not
      parse, save it otherwise. */
  datatype Job = Skip | Save(dest: string, attempt: Attempt)

  /** The job for URL `i` (counted from 0): it is saved under the name
      generated for index `i + 1` in `dir`. */
  function JobOf(url: string, i: nat, dir: string, urlPath: string -> Option<string>, attempt: nat -> Attempt): Job {
    var path := urlPath(url);
    if path.None? then Skip else Save(PathJoin(dir, GenerateFilename(path.value, i + 1)), attempt(i))
  }

  function Jobs(urls: seq<string>, dir: string, urlPath: string -> Option<string>, attempt: nat -> Attempt): (jobs: seq<Job>)
    ensures |jobs| == |urls| && forall i :: 0 <= i < |urls| ==> jobs[i] == JobOf(urls[i], i, dir, urlPath, attempt)
  {
    seq(|urls|, i requires 0 <= i < |urls| => JobOf(urls[i], i, dir, urlPath, attempt))
  }

  /** The files after the first `n` jobs. */
  function FilesAfter(jobs: seq<Job>, files: Files, n: nat): Files
    requires n <= |jobs|
    decreases n
  {
    if n == 0 then files
    else
      var before := FilesAfter(jobs, files, n - 1);
      match jobs[n - 1]
      case Skip => before
      case Save(dest, a) => DownloadImage(a, dest, before).files
  }

  /** How many of the first `n` jobs save their image. */
  function SavedCount(jobs: seq<Job>, n: nat): nat
    requires n <= |jobs|
    decreases n
  {
    if n == 0 then 0
    else SavedCount(jobs, n - 1) + (if jobs[n - 1].Save? && Succeeds(jobs[n - 1].attempt) then 1 else 0)
  }

  /** The body of the download loop for URL `i`. */
  method RunJob(url: string, i: nat, dir: string, urlPath: string -> Option<string>,
                attempt: nat -> Attempt, count: nat, files: Files)
    returns (count': nat, files': Files)
    ensures var job := JobOf(url, i, dir, urlPath, attempt);
      && count' == count + (if job.Save? && Succeeds(job.attempt) then 1 else 0)
      && files' == (if job.Skip? then files else DownloadImage(job.attempt, job.dest, files).files)
  {
    count', files' := count, files;
    var path := urlPath(url);
    if path.Some? {
      var filename := GenerateFilename(path.value, i + 1);
      var dest := PathJoin(dir, filename);
      var saved := DownloadImage(attempt(i), dest, files);
      files' := saved.files;
      if saved.result.Ok? {
        count' := count + 1;
      }
    }
  }

  /** The download loop of `download_pinterest_images`: URLs that do not
      parse are skipped, every other one is saved under its generated name,
      and the successes are counted. */
  method DownloadAll(urls: seq<string>, dir: string, urlPath: string -> Option<string>,
                     attempt: nat -> Attempt, files: Files)
    returns (count: nat, after: Files)
    ensures count == SavedCount(Jobs(urls, dir, urlPath, attempt), |urls|)
    ensures after == FilesAfter(Jobs(urls, dir, urlPath, attempt), files, |urls|)
  {
    ghost var jobs := Jobs(urls, dir, urlPath, attempt);
    count := 0;
    after := files;
    for i := 0 to |urls|
      invariant count == SavedCount(jobs, i)
      invariant after == FilesAfter(jobs, files, i)
    {
      assert jobs[i] == JobOf(urls[i], i, dir, urlPath, attempt);
      count, after := RunJob(urls[i], i, dir, urlPath, attempt, count, after);
    }
  }

  /** The count never exceeds the number of jobs, and reaches it exactly
      when every job is a download that succeeds. */
  lemma {:induction false} SavedCountBound(jobs: seq<Job>, n: nat)
    requires n <= |jobs|
    ensures SavedCount(jobs, n) <= n
    ensures SavedCount(jobs, n) == n <==> forall i :: 0 <= i < n ==> jobs[i].Save? && Succeeds(jobs[i].attempt)
    decreases n
  {
    if n > 0 {
      SavedCountBound(jobs, n - 1);
    }
  }

  /** A saved image keeps its bytes to the end of the loop unless a later
      job writes to the same destination (two URLs ending in the same file
      name overwrite each other). */
  lemma {:induction false} SavedImageKept(jobs: seq<Job>, files: Files, i: nat, n: nat)
    requires i < n <= |jobs|
    requires jobs[i].Save? && Succeeds(jobs[i].attempt)
    requires forall j :: i < j < n && jobs[j].Save? ==> jobs[j].dest != jobs[i].dest
    ensures jobs[i].dest in FilesAfter(jobs, files, n)
    ensures FilesAfter(jobs, files, n)[jobs[i].dest] == jobs[i].attempt.response.body.value
    decreases n
  {
    if n > i + 1 {
      SavedImageKept(jobs, files, i, n - 1);
    }
  }

  /** A later job to the same destination replaces what an earlier one
      saved. */
  lemma LaterSaveWins(jobs: seq<Job>, files: Files, i: nat, j: nat)
    requires i < j < |jobs|
    requires jobs[i].Save? && jobs[j].Save? && jobs[j].dest == jobs[i].dest && Succeeds(jobs[j].attempt)
    ensures FilesAfter(jobs, files, j + 1)[jobs[i].dest] == jobs[j].attempt.response.body.value
  {
  }

  // ---------------------------------------------------------------------
  // The whole run

  /** `download_pinterest_images`. The page's response, the parser, the
      pictures directory, whether `create_dir_all` succeeds and each
      download's attempt are inputs. `Ok(n)` carries the number of images
      the run reports saved; `tried` is the list the download loop walked,
      empty when the run ends before that loop. */
  method DownloadPinterestImages(response: Response<string>, parse: string -> Page, quality: string,
                                 genre: string, query: string, pictures: Option<string>, createDirOk: bool,
                                 urlPath: string -> Option<string>, attempt: nat -> Attempt, files: Files)
    returns (r: Result<nat>, tried: seq<string>, after: Files)
    ensures FetchPage(response).Err? ==> r == Err(FetchPage(response).error) && tried == [] && after == files
    ensures FetchPage(response).Ok? ==>
      var urls := PageUrls(parse(FetchPage(response).value), urlPath);
      && (urls == {} ==> r == Ok(0) && tried == [] && after == files)
      && (urls != {} && pictures.None? ==> r == Err(PicturesDirNotFound) && tried == [] && after == files)
      && (urls != {} && pictures.Some? && !createDirOk ==> r == Err(Io) && tried == [] && after == files)
      && (urls != {} && pictures.Some? && createDirOk ==>
            (exists order :: AdjustedListing(order, tried, urls, quality)) &&
            |tried| == |urls| && Elems(tried) == AdjustedSet(urls, quality) &&
            var dir := OutputDir(pictures, genre, query).value;
            r == Ok(SavedCount(Jobs(tried, dir, urlPath, attempt), |tried|)) &&
            after == FilesAfter(Jobs(tried, dir, urlPath, attempt), files, |tried|))
  {
    tried := [];
    after := files;
    var html := FetchPage(response);
    if html.Err? {
      r := Err(html.error);
      return;
    }
    var processed, order := ExtractImageUrls(parse(html.value), quality, urlPath);
    if |processed| == 0 {
      r := Ok(0);
      return;
    }
    var dir := OutputDir(pictures, genre, query);
    if dir.Err? {
      r := Err(dir.error);
      return;
    }
    if !createDirOk {
      r := Err(Io);
      return;
    }
    tried := processed;
    assert AdjustedListing(order, tried, PageUrls(parse(html.value), urlPath), quality);
    var count;
    count, after := DownloadAll(processed, dir.value, urlPath, attempt, files);
    r := Ok(count);
  }
}
