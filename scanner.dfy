/** Recognising Pinterest image URLs and scanning text for them. The text
    scanner is one loop that the program writes out four times, differing
    only in the prefixes it looks for and the characters that end a URL;
    here it is one method, `ScanPatterns`, proved against the set `ScanAll`
    describes, and each copy is an instance of it. */
module Scanner {
  import opened Strings

  /** Pinterest's image domain and its `i.` image host. */
  const PinimgDomain: string := "pinimg.com"
  const ImageHost: string := "i." + PinimgDomain
  const ImageHostUrl: string := "https://" + ImageHost

  /** The four `i.pinimg.com` prefixes of the raw page scans. */
  const RawPrefixes: seq<string> := [
    ImageHostUrl + "/originals/",
    ImageHostUrl + "/736x/",
    ImageHostUrl + "/474x/",
    ImageHostUrl + "/236x/"
  ]

  /** The six prefixes of the general text scanner: the four above, the
      `www` host and the short-link host. */
  const ImagePrefixes: seq<string> := RawPrefixes + ["https://www.pinimg.com/", "https://pin.it/"]

  /** Characters that end a URL: quotes, space, closing parenthesis or brace. */
  const UrlDelimiters: set<char> := {'"', '\'', ' ', ')', '}'}

  /** The raw scan of the direct extraction also stops at a backslash, which
      ends a URL inside an escaped JSON string. */
  const EscapedUrlDelimiters: set<char> := UrlDelimiters + {'\\'}

  /** Every prefix is nonempty, so each hit moves the scan forward. */
  predicate NonemptyPrefixes(prefixes: seq<string>) {
    forall k :: 0 <= k < |prefixes| ==> |prefixes[k]| > 0
  }

  // ---------------------------------------------------------------------
  // is_pinterest_image_url

  /** Host names, one of which an image URL must mention. */
  const HostMarkers: seq<string> := [PinimgDomain, "pin.it"]

  /** Image file extensions. */
  const ImageSuffixes: seq<string> := [".jpg", ".jpeg", ".png", ".webp", ".gif"]

  /** Size segments and image host markers. */
  const ImageMarkers: seq<string> :=
    ["/originals/", "/736x/", "/474x/", "/236x/", "images.", "media-amazon", ImageHost]

  predicate ContainsAny(s: string, ts: seq<string>) {
    exists k :: 0 <= k < |ts| && Contains(s, ts[k])
  }

  predicate EndsWithAny(s: string, ts: seq<string>) {
    exists k :: 0 <= k < |ts| && EndsWith(s, ts[k])
  }

  /** The URL, trimmed, names a Pinterest host and looks like an image: an
      image file extension, a size segment, or one of the image host markers. */
  predicate IsPinterestImageUrl(url: string) {
    var u := Trim(url);
    ContainsAny(u, HostMarkers) && (EndsWithAny(u, ImageSuffixes) || ContainsAny(u, ImageMarkers))
  }

  /** Anything mentioning the `i.pinimg.com` image host is accepted, whatever
      whitespace surrounds it and whatever its extension. */
  lemma AcceptsImageHost(url: string)
    requires Contains(url, ImageHost)
    ensures IsPinterestImageUrl(url)
  {
    MarkerFacts();
    TrimKeeps(url, ImageHost);
    var u := Trim(url);
    var i: nat :| OccursAt(u, ImageHost, i);
    OccursPart(u, ImageHost, i, 2, |ImageHost|);
    OccursContains(u, PinimgDomain, i + 2);
    assert Contains(u, HostMarkers[0]);
    assert Contains(u, ImageMarkers[6]);
  }

  lemma MarkerFacts()
    ensures |ImageHost| == 12 && ImageHost[2..|ImageHost|] == PinimgDomain
    ensures !IsWhitespace(ImageHost[0]) && !IsWhitespace(ImageHost[11])
    ensures HostMarkers[0] == PinimgDomain && ImageMarkers[6] == ImageHost
    ensures |ImageHostUrl| == 20 && ImageHostUrl[8..] == ImageHost
    ensures forall k :: 0 <= k < |RawPrefixes| ==> StartsWith(RawPrefixes[k], ImageHostUrl)
  {
  }

  /** A URL naming neither `pinimg.com` nor `pin.it` is rejected. */
  lemma RejectsForeignHost(url: string)
    requires !Contains(url, "pinimg.com") && !Contains(url, "pin.it")
    ensures !IsPinterestImageUrl(url)
  {
    TrimContained(url, "pinimg.com");
    TrimContained(url, "pin.it");
    assert HostMarkers == ["pinimg.com", "pin.it"];
  }

  /** So every hit of one of the four raw prefixes passes the filter. */
  lemma AcceptsRawPrefixHit(url: string, k: nat)
    requires k < |RawPrefixes| && StartsWith(url, RawPrefixes[k])
    ensures IsPinterestImageUrl(url)
  {
    MarkerFacts();
    var p := RawPrefixes[k];
    assert OccursAt(url, p, 0);
    OccursPart(url, p, 0, 8, 20);
    assert p[8..20] == ImageHostUrl[8..] == ImageHost;
    AcceptsImageHost(url);
  }

  lemma PrefixListsNonempty()
    ensures NonemptyPrefixes(ImagePrefixes) && NonemptyPrefixes(RawPrefixes)
  {
  }

  // ---------------------------------------------------------------------
  // find_image_urls_in_text and its inline copies

  /** The URLs a hit at `idx` contributes: the text from `idx` up to the next
      delimiter, if there is a next delimiter and `accept` passes it. */
  function Capture(text: string, idx: nat, delims: set<char>, accept: string -> bool): set<string>
    requires idx <= |text|
  {
    match FindCharFrom(text, idx, delims)
    case None => {}
    case Some(e) =>
      var url := text[idx..e];
      if accept(url) then {url} else {}
  }

  /** The set one prefix's loop leaves when it resumes searching at `start`
      holding `found`: each hit adds its capture, and the search goes on just
      past the prefix until there is no further hit or the text is used up. */
  function ScanFrom(text: string, prefix: string, delims: set<char>, accept: string -> bool,
                    start: nat, found: set<string>): set<string>
    requires |prefix| > 0 && start <= |text|
    decreases |text| - start
  {
    match FindFrom(text, prefix, start)
    case None => found
    case Some(idx) =>
      var next := idx + |prefix|;
      var found' := found + Capture(text, idx, delims, accept);
      if next >= |text| then found' else ScanFrom(text, prefix, delims, accept, next, found')
  }

  /** The set the loops over all the prefixes leave, starting from `found`. */
  function ScanAll(text: string, prefixes: seq<string>, delims: set<char>, accept: string -> bool,
                   found: set<string>): set<string>
    requires NonemptyPrefixes(prefixes)
    decreases |prefixes|
  {
    if prefixes == [] then found
    else
      var last := |prefixes| - 1;
      ScanFrom(text, prefixes[last], delims, accept, 0, ScanAll(text, prefixes[..last], delims, accept, found))
  }

  /** The body of the loop for one hit at `idx`: the text up to the next
      delimiter is kept if `accept` passes it. */
  method CaptureHit(text: string, idx: nat, delims: set<char>, accept: string -> bool, urls: set<string>)
    returns (found: set<string>)
    requires idx <= |text|
    ensures found == urls + Capture(text, idx, delims, accept)
  {
    found := urls;
    var end := FindCharFrom(text, idx, delims);
    if end.Some? {
      var url := text[idx..end.value];
      if accept(url) {
        found := found + {url};
      }
    }
  }

  /** The loop for a single prefix. */
  method ScanPattern(text: string, prefix: string, delims: set<char>, accept: string -> bool, urls: set<string>)
    returns (found: set<string>)
    requires |prefix| > 0
    ensures found == ScanFrom(text, prefix, delims, accept, 0, urls)
  {
    found := urls;
    var startIdx := 0;
    while true
      invariant startIdx <= |text|
      invariant ScanFrom(text, prefix, delims, accept, startIdx, found) == ScanFrom(text, prefix, delims, accept, 0, urls)
      decreases |text| - startIdx
    {
      var hit := FindFrom(text, prefix, startIdx);
      if hit.None? {
        break;
      }
      var idx := hit.value;
      found := CaptureHit(text, idx, delims, accept, found);
      startIdx := idx + |prefix|;
      if startIdx >= |text| {
        break;
      }
    }
  }

  /** The scan: the loops for every prefix in turn, adding to `urls`. */
  method ScanPatterns(text: string, prefixes: seq<string>, delims: set<char>, accept: string -> bool, urls: set<string>)
    returns (found: set<string>)
    requires NonemptyPrefixes(prefixes)
    ensures found == ScanAll(text, prefixes, delims, accept, urls)
  {
    found := urls;
    for k := 0 to |prefixes|
      invariant found == ScanAll(text, prefixes[..k], delims, accept, urls)
    {
      assert prefixes[..k + 1][..k] == prefixes[..k];
      found := ScanPattern(text, prefixes[k], delims, accept, found);
    }
    assert prefixes[..|prefixes|] == prefixes;
  }

  /** `find_image_urls_in_text`: the six-prefix scan with the Pinterest filter. */
  method FindImageUrlsInText(text: string, urls: set<string>) returns (found: set<string>)
    ensures found == ScanAll(text, ImagePrefixes, UrlDelimiters, IsPinterestImageUrl, urls)
  {
    PrefixListsNonempty();
    found := ScanPatterns(text, ImagePrefixes, UrlDelimiters, IsPinterestImageUrl, urls);
  }

  /** The raw page scan of the first downloader's HTML strategies: the four
      `i.pinimg.com` prefixes with the Pinterest filter. */
  function RawScan(text: string, found: set<string>): set<string> {
    PrefixListsNonempty();
    ScanAll(text, RawPrefixes, UrlDelimiters, IsPinterestImageUrl, found)
  }

  // ---------------------------------------------------------------------
  // What the scan finds

  /** A URL the scan found: it passes `accept`, is free of delimiters, and is
      the text from a hit of `prefix` at or after `start` up to the first
      delimiter after that hit. */
  predicate FoundAt(text: string, prefix: string, delims: set<char>, accept: string -> bool, start: nat, u: string) {
    && accept(u)
    && (forall i :: 0 <= i < |u| ==> u[i] !in delims)
    && exists p: nat :: start <= p && OccursAt(text, prefix, p) && OccursAt(text, u, p)
                        && p + |u| < |text| && text[p + |u|] in delims
  }

  /** The loop only adds to the set. */
  lemma {:induction false} ScanFromGrows(text: string, prefix: string, delims: set<char>, accept: string -> bool,
                                          start: nat, found: set<string>)
    requires |prefix| > 0 && start <= |text|
    ensures found <= ScanFrom(text, prefix, delims, accept, start, found)
    decreases |text| - start
  {
    match FindFrom(text, prefix, start)
    case None =>
    case Some(idx) =>
      var next := idx + |prefix|;
      if next < |text| {
        ScanFromGrows(text, prefix, delims, accept, next, found + Capture(text, idx, delims, accept));
      }
  }

  /** What the loop adds was found at a hit; a hit with no delimiter after it
      contributes nothing. */
  lemma {:induction false} ScanFromSound(text: string, prefix: string, delims: set<char>, accept: string -> bool,
                                          start: nat, found: set<string>, u: string)
    requires |prefix| > 0 && start <= |text|
    requires u in ScanFrom(text, prefix, delims, accept, start, found)
    ensures u in found || FoundAt(text, prefix, delims, accept, start, u)
    decreases |text| - start
  {
    match FindFrom(text, prefix, start)
    case None =>
    case Some(idx) =>
      var next := idx + |prefix|;
      var found' := found + Capture(text, idx, delims, accept);
      if u in Capture(text, idx, delims, accept) {
        var e := FindCharFrom(text, idx, delims).value;
        FindCharFromFirst(text, idx, delims);
        assert u == text[idx..e];
        assert OccursAt(text, u, idx);
      } else if next < |text| && u !in found {
        ScanFromSound(text, prefix, delims, accept, next, found', u);
      }
  }

  /** The capture of the first hit is kept. */
  lemma FirstHitKept(text: string, prefix: string, delims: set<char>, accept: string -> bool,
                     start: nat, found: set<string>)
    requires |prefix| > 0 && start <= |text|
    requires FindFrom(text, prefix, start).Some?
    ensures Capture(text, FindFrom(text, prefix, start).value, delims, accept)
            <= ScanFrom(text, prefix, delims, accept, start, found)
  {
    var idx := FindFrom(text, prefix, start).value;
    var next := idx + |prefix|;
    if next < |text| {
      ScanFromGrows(text, prefix, delims, accept, next, found + Capture(text, idx, delims, accept));
    }
  }

  /** The loop finds every hit of the prefix that does not overlap an
      earlier hit: the text from it up to the next delimiter is collected
      whenever `accept` passes it. */
  lemma {:induction false} ScanFromComplete(text: string, prefix: string, delims: set<char>, accept: string -> bool,
                                             start: nat, found: set<string>, p: nat, e: nat)
    requires |prefix| > 0 && start <= p
    requires OccursAt(text, prefix, p)
    requires forall q :: start <= q < p && p < q + |prefix| ==> !OccursAt(text, prefix, q)
    requires FindCharFrom(text, p, delims) == Some(e)
    requires accept(text[p..e])
    ensures text[p..e] in ScanFrom(text, prefix, delims, accept, start, found)
    decreases |text| - start
  {
    FindFromAtMost(text, prefix, start, p);
    var idx := FindFrom(text, prefix, start).value;
    var next := idx + |prefix|;
    if idx < p {
      assert next <= p < |text|;
      var found' := found + Capture(text, idx, delims, accept);
      ScanFromComplete(text, prefix, delims, accept, next, found', p, e);
      assert ScanFrom(text, prefix, delims, accept, start, found) == ScanFrom(text, prefix, delims, accept, next, found');
    } else {
      FirstHitKept(text, prefix, delims, accept, start, found);
      assert text[p..e] in Capture(text, p, delims, accept);
    }
  }

  /** The full scan only adds to the set. */
  lemma {:induction false} ScanAllGrows(text: string, prefixes: seq<string>, delims: set<char>, accept: string -> bool,
                                         found: set<string>)
    requires NonemptyPrefixes(prefixes)
    ensures found <= ScanAll(text, prefixes, delims, accept, found)
    decreases |prefixes|
  {
    if prefixes != [] {
      var last := |prefixes| - 1;
      ScanAllGrows(text, prefixes[..last], delims, accept, found);
      ScanFromGrows(text, prefixes[last], delims, accept, 0, ScanAll(text, prefixes[..last], delims, accept, found));
    }
  }

  /** What the full scan adds was found at a hit of one of the prefixes. */
  lemma {:induction false} ScanAllSound(text: string, prefixes: seq<string>, delims: set<char>, accept: string -> bool,
                                         found: set<string>, u: string)
    requires NonemptyPrefixes(prefixes)
    requires u in ScanAll(text, prefixes, delims, accept, found)
    ensures u in found || exists k :: 0 <= k < |prefixes| && FoundAt(text, prefixes[k], delims, accept, 0, u)
    decreases |prefixes|
  {
    if prefixes != [] {
      var last := |prefixes| - 1;
      var init := prefixes[..last];
      var mid := ScanAll(text, init, delims, accept, found);
      ScanFromSound(text, prefixes[last], delims, accept, 0, mid, u);
      if u in mid && u !in found {
        ScanAllSound(text, init, delims, accept, found, u);
        var k :| 0 <= k < |init| && FoundAt(text, init[k], delims, accept, 0, u);
        assert init[k] == prefixes[k];
      }
    }
  }

  /** A text without any delimiter adds nothing, whatever it contains. */
  lemma NoDelimiterNoUrls(text: string, prefixes: seq<string>, delims: set<char>, accept: string -> bool,
                          found: set<string>)
    requires NonemptyPrefixes(prefixes)
    requires forall i :: 0 <= i < |text| ==> text[i] !in delims
    ensures ScanAll(text, prefixes, delims, accept, found) == found
  {
    forall u | u in ScanAll(text, prefixes, delims, accept, found)
      ensures u in found
    {
      ScanAllSound(text, prefixes, delims, accept, found, u);
    }
    ScanAllGrows(text, prefixes, delims, accept, found);
  }

  /** No character of `t` is a delimiter. */
  predicate Clean(t: string, delims: set<char>) {
    forall i :: 0 <= i < |t| ==> t[i] !in delims
  }

  /** A URL found at a hit of a delimiter-free prefix starts with it: the
      delimiter that ends the URL cannot fall inside the prefix. */
  lemma FoundStartsWithPrefix(text: string, prefix: string, delims: set<char>, accept: string -> bool,
                              start: nat, u: string)
    requires FoundAt(text, prefix, delims, accept, start, u) && Clean(prefix, delims)
    ensures StartsWith(u, prefix)
  {
    var p: nat :| start <= p && OccursAt(text, prefix, p) && OccursAt(text, u, p)
                  && p + |u| < |text| && text[p + |u|] in delims;
    if |u| < |prefix| {
      SliceAt(text, p, p + |prefix|, |u|);
      assert false;
    }
    forall i | 0 <= i < |prefix| ensures u[i] == prefix[i] {
      SliceAt(text, p, p + |prefix|, i);
      SliceAt(text, p, p + |u|, i);
    }
  }

  /** None of the six prefixes holds a delimiter, not even a backslash. */
  lemma PrefixesClean()
    ensures forall k :: 0 <= k < |ImagePrefixes| ==> Clean(ImagePrefixes[k], EscapedUrlDelimiters)
    ensures forall k :: 0 <= k < |RawPrefixes| ==> Clean(RawPrefixes[k], EscapedUrlDelimiters)
  {
    var d := EscapedUrlDelimiters;
    assert Clean("https://", d) && Clean("i.", d) && Clean(PinimgDomain, d);
    CleanConcat("https://", ImageHost, d);
    var segments := ["/originals/", "/736x/", "/474x/", "/236x/"];
    forall k | 0 <= k < 4 ensures Clean(RawPrefixes[k], d) {
      assert Clean(segments[k], d);
      CleanConcat(ImageHostUrl, segments[k], d);
    }
    assert Clean("https://www.pinimg.com/", d) && Clean("https://pin.it/", d);
  }

  lemma CleanConcat(a: string, b: string, delims: set<char>)
    requires Clean(a, delims) && Clean(b, delims)
    ensures Clean(a + b, delims)
  {
  }

  /** Everything a scan with delimiter-free prefixes adds starts with one of
      the prefixes and holds no delimiter, so it is cut just before the first
      delimiter after its hit. */
  lemma ScanAllShape(text: string, prefixes: seq<string>, delims: set<char>, accept: string -> bool,
                     found: set<string>, u: string)
    requires NonemptyPrefixes(prefixes)
    requires forall k :: 0 <= k < |prefixes| ==> Clean(prefixes[k], delims)
    requires u in ScanAll(text, prefixes, delims, accept, found) && u !in found
    ensures accept(u) && Clean(u, delims)
    ensures exists k :: 0 <= k < |prefixes| && StartsWith(u, prefixes[k])
  {
    ScanAllSound(text, prefixes, delims, accept, found, u);
    var k :| 0 <= k < |prefixes| && FoundAt(text, prefixes[k], delims, accept, 0, u);
    FoundStartsWithPrefix(text, prefixes[k], delims, accept, 0, u);
  }

  /** `find_image_urls_in_text` adds only Pinterest image URLs that start with
      one of its six prefixes and hold none of `"`, `'`, space, `)`, `}`. */
  lemma ImageScanShape(text: string, found: set<string>, u: string)
    requires u in ScanAll(text, ImagePrefixes, UrlDelimiters, IsPinterestImageUrl, found) && u !in found
    ensures IsPinterestImageUrl(u) && Clean(u, UrlDelimiters)
    ensures exists k :: 0 <= k < |ImagePrefixes| && StartsWith(u, ImagePrefixes[k])
  {
    PrefixListsNonempty();
    PrefixesClean();
    ScanAllShape(text, ImagePrefixes, UrlDelimiters, IsPinterestImageUrl, found, u);
  }
}
