/** `extract_image_urls` of the first downloader: four strategies over one
    fetched page, each gated on what the earlier ones found and on whether
    the page is a search page, followed by the shared improve, sort and
    dedup. The HTML parser is an input: the page arrives as the texts of its
    `<script>` elements and the attributes of the elements its selectors
    match. */
module Extraction {
  import opened Strings
  import opened Collections
  import opened Ordering
  import opened Scanner
  import opened Results

  /** The attributes of one element. */
  type Element = map<string, string>

  /** What `scraper` yields for a page: the inner text of every `script`,
      the elements matched by the container selectors, selector after
      selector (an element matched twice appears twice), and every `img`. */
  datatype Document = Document(scripts: seq<string>, containerImages: seq<Element>, images: seq<Element>)

  /** The attributes that may carry an image address, in the order they are
      read. */
  const SourceAttributes: seq<string> := ["src", "data-src", "srcset", "data-srcset"]

  predicate IsSrcset(attr: string) {
    attr == "srcset" || attr == "data-srcset"
  }

  // ---------------------------------------------------------------------
  // Strategy 1: scripts

  /** A script is scanned when it mentions one of the image keys, or, on a
      search page, one of the search result keys. */
  predicate MentionsImages(content: string, isSearchPage: bool) {
    || Contains(content, "\"images\"")
    || Contains(content, "\"image_url\"")
    || Contains(content, "\"orig\"")
    || Contains(content, "\"url\":")
    || (isSearchPage &&
        (|| Contains(content, "\"resource_response\"")
         || Contains(content, "\"data\"")
         || Contains(content, "\"results\"")
         || Contains(content, "\"pins\"")
         || Contains(content, "\"items\"")))
  }

  /** One script adds the scan of its text from its first `{`, when it is
      scanned and has a `{`. */
  function ScriptStep(content: string, isSearchPage: bool, found: set<string>): set<string> {
    PrefixListsNonempty();
    if MentionsImages(content, isSearchPage) then
      match FindCharFrom(content, 0, {'{'})
      case None => found
      case Some(j) => ScanAll(content[j..], ImagePrefixes, UrlDelimiters, IsPinterestImageUrl, found)
    else found
  }

  /** The set after the first `n` scripts. */
  function ScriptStage(scripts: seq<string>, isSearchPage: bool, n: nat): set<string>
    requires n <= |scripts|
    decreases n
  {
    if n == 0 then {} else ScriptStep(scripts[n - 1], isSearchPage, ScriptStage(scripts, isSearchPage, n - 1))
  }

  method ScanScripts(scripts: seq<string>, isSearchPage: bool) returns (urls: set<string>)
    ensures urls == ScriptStage(scripts, isSearchPage, |scripts|)
  {
    urls := {};
    for k := 0 to |scripts|
      invariant urls == ScriptStage(scripts, isSearchPage, k)
    {
      var content := scripts[k];
      if MentionsImages(content, isSearchPage) {
        var jsonStart := FindCharFrom(content, 0, {'{'});
        if jsonStart.Some? {
          urls := FindImageUrlsInText(content[jsonStart.value..], urls);
        }
      }
    }
  }

  // ---------------------------------------------------------------------
  // Strategies 3 and 4: element attributes

  /** One comma-separated candidate of a `srcset` contributes its first
      word, when it passes the filter. */
  function CandidateUrl(part: string): set<string> {
    match FirstWord(part)
    case None => {}
    case Some(url) => if IsPinterestImageUrl(url) then {url} else {}
  }

  /** The image addresses of a `srcset`. */
  function SrcsetUrls(srcset: string): set<string> {
    UnionOver(Split(srcset, ','), CandidateUrl)
  }

  /** What one attribute of an element contributes. A `srcset` is split into
      its candidates only when `splitSrcset` holds (the container strategy);
      the basic strategy tests the whole value. */
  function AttributeUrls(e: Element, attr: string, splitSrcset: bool): set<string> {
    if attr !in e then {}
    else if splitSrcset && IsSrcset(attr) then SrcsetUrls(e[attr])
    else if IsPinterestImageUrl(e[attr]) then {e[attr]}
    else {}
  }

  function ElementUrls(e: Element, splitSrcset: bool): set<string> {
    UnionOver(SourceAttributes, attr => AttributeUrls(e, attr, splitSrcset))
  }

  function ImagesUrls(images: seq<Element>, splitSrcset: bool): set<string> {
    UnionOver(images, e => ElementUrls(e, splitSrcset))
  }

  /** The loop over a `srcset`'s candidates. */
  method ScanSrcset(srcset: string, urls: set<string>) returns (found: set<string>)
    ensures found == urls + SrcsetUrls(srcset)
  {
    var parts := Split(srcset, ',');
    found := urls;
    for k := 0 to |parts|
      invariant found == urls + UnionOver(parts[..k], CandidateUrl)
    {
      UnionOverStep(parts, k, CandidateUrl);
      var url := FirstWord(parts[k]);
      if url.Some? && IsPinterestImageUrl(url.value) {
        found := found + {url.value};
      }
    }
    assert parts[..|parts|] == parts;
  }

  /** The loop over one element's source attributes. */
  method ScanElement(e: Element, splitSrcset: bool, urls: set<string>) returns (found: set<string>)
    ensures found == urls + ElementUrls(e, splitSrcset)
  {
    var f := attr => AttributeUrls(e, attr, splitSrcset);
    found := urls;
    for k := 0 to |SourceAttributes|
      invariant found == urls + UnionOver(SourceAttributes[..k], f)
    {
      UnionOverStep(SourceAttributes, k, f);
      var attr := SourceAttributes[k];
      if attr in e {
        var src := e[attr];
        if splitSrcset && IsSrcset(attr) {
          found := ScanSrcset(src, found);
        } else if IsPinterestImageUrl(src) {
          found := found + {src};
        }
      }
    }
    assert SourceAttributes[..|SourceAttributes|] == SourceAttributes;
  }

  /** The loop over the elements a strategy selects. */
  method ScanImages(images: seq<Element>, splitSrcset: bool, urls: set<string>) returns (found: set<string>)
    ensures found == urls + ImagesUrls(images, splitSrcset)
  {
    var f := e => ElementUrls(e, splitSrcset);
    found := urls;
    for k := 0 to |images|
      invariant found == urls + UnionOver(images[..k], f)
    {
      UnionOverStep(images, k, f);
      found := ScanElement(images[k], splitSrcset, found);
    }
    assert images[..|images|] == images;
  }

  // ---------------------------------------------------------------------
  // The gated strategies


  /** The set after the four strategies: the scripts; the raw page scan
      and the containers, each when nothing is found yet or the page is a
      search page; the basic `img` scan when still nothing is found. */
  function Candidates(html: string, doc: Document, isSearchPage: bool): set<string> {
    var s1 := ScriptStage(doc.scripts, isSearchPage, |doc.scripts|);
    var s2 := if s1 == {} || isSearchPage then RawScan(html, s1) else s1;
    var s3 := if s2 == {} || isSearchPage then s2 + ImagesUrls(doc.containerImages, true) else s2;
    if s3 == {} then ImagesUrls(doc.images, false) else s3
  }

  /** `extract_image_urls(html, is_search_page)`: the improved candidates,
      sorted and deduplicated. (An empty set gives the empty list, which the
      program returns without sorting.) */
  method ExtractImageUrls(html: string, doc: Document, isSearchPage: bool) returns (r: seq<string>)
    ensures StrictlySorted(r) && Elems(r) == ImprovedSet(Candidates(html, doc, isSearchPage))
    ensures r == SortedList(ImprovedSet(Candidates(html, doc, isSearchPage)))
  {
    PrefixListsNonempty();
    var urls := ScanScripts(doc.scripts, isSearchPage);
    if urls == {} || isSearchPage {
      urls := ScanPatterns(html, RawPrefixes, UrlDelimiters, IsPinterestImageUrl, urls);
    }
    if urls == {} || isSearchPage {
      urls := ScanImages(doc.containerImages, true, urls);
    }
    if urls == {} {
      urls := ScanImages(doc.images, false, urls);
    }
    r := Finish(urls);
  }

  // ---------------------------------------------------------------------
  // What the strategies find

  /** Everything a script contributes passed the filter. */
  lemma ScriptStepAccepted(content: string, isSearchPage: bool, found: set<string>, u: string)
    requires u in ScriptStep(content, isSearchPage, found) && u !in found
    ensures IsPinterestImageUrl(u)
  {
    PrefixListsNonempty();
    var j := FindCharFrom(content, 0, {'{'}).value;
    ScanAllSound(content[j..], ImagePrefixes, UrlDelimiters, IsPinterestImageUrl, found, u);
  }

  lemma {:induction false} ScriptStageAccepted(scripts: seq<string>, isSearchPage: bool, n: nat, u: string)
    requires n <= |scripts| && u in ScriptStage(scripts, isSearchPage, n)
    ensures IsPinterestImageUrl(u)
    decreases n
  {
    var before := ScriptStage(scripts, isSearchPage, n - 1);
    if u in before {
      ScriptStageAccepted(scripts, isSearchPage, n - 1, u);
    } else {
      ScriptStepAccepted(scripts[n - 1], isSearchPage, before, u);
    }
  }

  lemma AttributeAccepted(e: Element, attr: string, splitSrcset: bool, u: string)
    requires u in AttributeUrls(e, attr, splitSrcset)
    ensures IsPinterestImageUrl(u)
  {
    if splitSrcset && IsSrcset(attr) {
      var parts := Split(e[attr], ',');
      UnionOverMember(parts, CandidateUrl, u);
      var k :| 0 <= k < |parts| && u in CandidateUrl(parts[k]);
    }
  }

  lemma ImagesAccepted(images: seq<Element>, splitSrcset: bool, u: string)
    requires u in ImagesUrls(images, splitSrcset)
    ensures IsPinterestImageUrl(u)
  {
    var f := e => ElementUrls(e, splitSrcset);
    UnionOverMember(images, f, u);
    var i :| 0 <= i < |images| && u in f(images[i]);
    var g := attr => AttributeUrls(images[i], attr, splitSrcset);
    UnionOverMember(SourceAttributes, g, u);
    var k :| 0 <= k < |SourceAttributes| && u in g(SourceAttributes[k]);
    AttributeAccepted(images[i], SourceAttributes[k], splitSrcset, u);
  }

  /** Every candidate, whichever strategy found it, passes
      `is_pinterest_image_url`. */
  lemma CandidatesAccepted(html: string, doc: Document, isSearchPage: bool, u: string)
    requires u in Candidates(html, doc, isSearchPage)
    ensures IsPinterestImageUrl(u)
  {
    PrefixListsNonempty();
    var s1 := ScriptStage(doc.scripts, isSearchPage, |doc.scripts|);
    var s2 := if s1 == {} || isSearchPage then RawScan(html, s1) else s1;
    if u in s1 {
      ScriptStageAccepted(doc.scripts, isSearchPage, |doc.scripts|, u);
    } else if u in s2 {
      ScanAllSound(html, RawPrefixes, UrlDelimiters, IsPinterestImageUrl, s1, u);
    } else if u in ImagesUrls(doc.containerImages, true) {
      ImagesAccepted(doc.containerImages, true, u);
    } else {
      ImagesAccepted(doc.images, false, u);
    }
  }

  /** On a page that is not a search page, once the scripts yield
      something, no other strategy runs. */
  lemma ScriptsSuffice(html: string, doc: Document)
    requires ScriptStage(doc.scripts, false, |doc.scripts|) != {}
    ensures Candidates(html, doc, false) == ScriptStage(doc.scripts, false, |doc.scripts|)
  {
  }

  /** On a search page the raw scan and the containers always run, on top
      of the scripts. */
  lemma SearchPageRunsAll(html: string, doc: Document)
    ensures var s3 := RawScan(html, ScriptStage(doc.scripts, true, |doc.scripts|)) + ImagesUrls(doc.containerImages, true);
      Candidates(html, doc, true) == (if s3 == {} then ImagesUrls(doc.images, false) else s3)
  {
  }

  /** The basic `img` scan contributes only when every earlier strategy
      found nothing; then the candidates are exactly its finds. */
  lemma BasicOnlyWhenEmpty(html: string, doc: Document, isSearchPage: bool, u: string)
    requires u in Candidates(html, doc, isSearchPage)
    requires u !in ImagesUrls(doc.containerImages, true)
    requires u !in RawScan(html, ScriptStage(doc.scripts, isSearchPage, |doc.scripts|))
    ensures u in ImagesUrls(doc.images, false)
  {
    PrefixListsNonempty();
    var s1 := ScriptStage(doc.scripts, isSearchPage, |doc.scripts|);
    ScanAllGrows(html, RawPrefixes, UrlDelimiters, IsPinterestImageUrl, s1);
  }
}
