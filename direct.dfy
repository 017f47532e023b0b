/** `try_direct_pinterest_extraction`: three scans of one fetched page. The
    first scans the brace-delimited region after the `"initial_state"` key,
    the second reads the string value of each `"url"` key found shortly after
    an `"original"` key, and the third is the raw prefix scan that also stops
    at a backslash. The union is improved, sorted and deduplicated; an empty
    result is an error. */
module Direct {
  import opened Strings
  import opened Collections
  import opened Ordering
  import opened Net
  import opened Scanner
  import opened Results

  const InitialStateKey: string := "\"initial_state\""
  const OriginalKey: string := "\"original\""
  const UrlKey: string := "\"url\""

  /** How far after an `"original"` key the `"url"` key is looked for, and
      how far after that the `:` is. */
  const UrlWindow: nat := 100
  const ColonWindow: nat := 50

  function Min(a: nat, b: nat): nat {
    if a <= b then a else b
  }

  // ---------------------------------------------------------------------
  // Method 1: the brace region after "initial_state"

  /** Opening minus closing braces. */
  function Depth(t: string): int {
    Count(t, '{') - Count(t, '}')
  }

  /** Where the region that opens with the brace at `open` ends, when the
      search has reached `p` with `depth` braces still open: just after the
      brace that closes the first one, or `open + 1` when none does. */
  function BraceEndFrom(s: string, open: nat, p: nat, depth: nat): (e: nat)
    requires open < p <= |s| && depth > 0
    ensures open < e <= |s|
    decreases |s| - p
  {
    if p == |s| then open + 1
    else if s[p] == '{' then BraceEndFrom(s, open, p + 1, depth + 1)
    else if s[p] == '}' then
      if depth == 1 then p + 1 else BraceEndFrom(s, open, p + 1, depth - 1)
    else BraceEndFrom(s, open, p + 1, depth)
  }

  function BraceEnd(s: string, open: nat): (e: nat)
    requires open < |s|
    ensures open < e <= |s|
  {
    BraceEndFrom(s, open, open + 1, 1)
  }

  /** The loop of method 1 that counts braces. */
  method FindBraceEnd(s: string, open: nat) returns (end: nat)
    requires open < |s|
    ensures end == BraceEnd(s, open)
  {
    var count: nat := 1;
    end := open + 1;
    var p := open + 1;
    while p < |s|
      invariant open < p <= |s| && count > 0
      invariant BraceEndFrom(s, open, p, count) == BraceEnd(s, open)
      decreases |s| - p
    {
      var c := s[p];
      if c == '{' {
        count := count + 1;
      } else if c == '}' {
        if count == 1 {
          end := p + 1;
          return;
        }
        count := count - 1;
      }
      p := p + 1;
    }
  }

  lemma DepthStep(s: string, open: nat, p: nat)
    requires open <= p < |s|
    ensures Depth(s[open..p + 1]) == Depth(s[open..p]) + (if s[p] == '{' then 1 else if s[p] == '}' then -1 else 0)
  {
    assert s[open..p + 1][..p - open] == s[open..p];
  }

  lemma {:induction false} BraceEndFromBalanced(s: string, open: nat, p: nat, depth: nat)
    requires open < p <= |s| && depth > 0
    requires Depth(s[open..p]) == depth
    requires forall k :: open < k <= p ==> Depth(s[open..k]) > 0
    ensures var e := BraceEndFrom(s, open, p, depth);
      || (p < e && Depth(s[open..e]) == 0 && forall k :: open < k < e ==> Depth(s[open..k]) > 0)
      || (e == open + 1 && forall k :: open < k <= |s| ==> Depth(s[open..k]) > 0)
    decreases |s| - p
  {
    if p < |s| {
      DepthStep(s, open, p);
      if s[p] == '}' && depth == 1 {
      } else {
        var d: nat := if s[p] == '{' then depth + 1 else if s[p] == '}' then depth - 1 else depth;
        BraceEndFromBalanced(s, open, p + 1, d);
      }
    }
  }

  /** The region method 1 scans, from an opening brace: the shortest
      balanced piece of text starting there, or the brace alone when the
      braces never balance. */
  lemma BraceRegion(s: string, open: nat)
    requires open < |s| && s[open] == '{'
    ensures var e := BraceEnd(s, open);
      || (Depth(s[open..e]) == 0 && forall k :: open < k < e ==> Depth(s[open..k]) > 0)
      || (e == open + 1 && forall k :: open < k <= |s| ==> Depth(s[open..k]) > 0)
  {
    DepthStep(s, open, open);
    assert s[open..open] == [];
    BraceEndFromBalanced(s, open, open + 1, 1);
  }

  /** What method 1 adds: the general scan of that region, when the page
      has an `"initial_state"` key followed by a brace. */
  function InitialStateUrls(html: string): set<string> {
    PrefixListsNonempty();
    match FindFrom(html, InitialStateKey, 0)
    case None => {}
    case Some(pos) =>
      match FindCharFrom(html, pos, {'{'})
      case None => {}
      case Some(open) => ScanAll(html[open..BraceEnd(html, open)], ImagePrefixes, UrlDelimiters, IsPinterestImageUrl, {})
  }

  method ScanInitialState(html: string) returns (urls: set<string>)
    ensures urls == InitialStateUrls(html)
  {
    urls := {};
    var pos := FindFrom(html, InitialStateKey, 0);
    if pos.Some? {
      var open := FindCharFrom(html, pos.value, {'{'});
      if open.Some? {
        var end := FindBraceEnd(html, open.value);
        urls := FindImageUrlsInText(html[open.value..end], urls);
      }
    }
  }

  // ---------------------------------------------------------------------
  // Method 2: "original" ... "url": "..."

  predicate IsBlank(c: char) {
    c == ' ' || c == '\n'
  }

  /** The first position at or after `i` that is not a blank, or the end. */
  function SkipBlanks(s: string, i: nat): (r: nat)
    requires i <= |s|
    ensures i <= r <= |s|
    ensures forall k :: i <= k < r ==> IsBlank(s[k])
    ensures r < |s| ==> !IsBlank(s[r])
    decreases |s| - i
  {
    if i < |s| && IsBlank(s[i]) then SkipBlanks(s, i + 1) else i
  }

  /** What the key scan keeps: a Pinterest image URL, or anything naming the
      `pinimg.com` domain. */
  predicate KeyAccepts(u: string) {
    IsPinterestImageUrl(u) || Contains(u, PinimgDomain)
  }

  /** The `"url"` key within the window after `pos`; the window stops at the
      end of the page. */
  function UrlKeyNear(s: string, pos: nat): (r: Option<nat>)
    requires pos <= |s|
    ensures r.Some? ==> pos <= r.value && OccursAt(s, UrlKey, r.value) && r.value + |UrlKey| <= pos + UrlWindow
  {
    var w := s[pos..Min(pos + UrlWindow, |s|)];
    match FindFrom(w, UrlKey, 0)
    case None => None
    case Some(k) =>
      OccursInSlice(s, UrlKey, pos, Min(pos + UrlWindow, |s|), k);
      Some(pos + k)
  }

  /** The `:` within the window after the `"url"` key at `up`; again the
      window stops at the end of the page. */
  function ColonNear(s: string, up: nat): (r: Option<nat>)
    requires up <= |s|
    ensures r.Some? ==> up <= r.value < up + ColonWindow && r.value < |s| && s[r.value] == ':'
  {
    var w := s[up..Min(up + ColonWindow, |s|)];
    match FindCharFrom(w, 0, {':'})
    case None => None
    case Some(k) =>
      assert w[k] == s[up + k];
      Some(up + k)
  }

  /** The quoted string starting at `i`, up to the next quote. */
  function QuotedValue(s: string, i: nat): (r: Option<string>)
    requires i <= |s|
    ensures r.Some? ==> '"' !in r.value
  {
    if i < |s| && s[i] == '"' then
      match FindCharFrom(s, i + 1, {'"'})
      case None => None
      case Some(e) =>
        var u := s[i + 1..e];
        FindCharFromFirst(s, i + 1, {'"'});
        assert forall k :: 0 <= k < |u| ==> u[k] == s[i + 1 + k];
        Some(u)
    else None
  }

  /** The value an `"original"` key at `pos` yields, windows clamped to the
      page: the quoted string after the first `:` that follows the first
      `"url"` near the key, past any spaces and newlines. */
  function KeyHit(s: string, pos: nat): (r: Option<string>)
    requires pos <= |s|
    ensures r.Some? ==> '"' !in r.value
  {
    match UrlKeyNear(s, pos)
    case None => None
    case Some(up) =>
      match ColonNear(s, up)
      case None => None
      case Some(colon) => QuotedValue(s, SkipBlanks(s, colon + 1))
  }

  /** A value is kept when the key scan accepts it. */
  function Kept(h: Option<string>, accept: string -> bool): set<string> {
    match h
    case None => {}
    case Some(u) => if accept(u) then {u} else {}
  }

  /** The set after the key scan resumes at `start` holding `found`. */
  function KeyScan(s: string, start: nat, accept: string -> bool, found: set<string>): set<string>
    requires start <= |s|
    decreases |s| - start
  {
    match FindFrom(s, OriginalKey, start)
    case None => found
    case Some(pos) => KeyScan(s, pos + |OriginalKey|, accept, found + Kept(KeyHit(s, pos), accept))
  }

  /** The inner part of the loop for one `"original"` key: the two windows
      and the loop over blanks, which stops at the end of the page. */
  method ReadKeyHit(s: string, pos: nat) returns (r: Option<string>)
    requires pos <= |s|
    ensures r == KeyHit(s, pos)
  {
    var up := UrlKeyNear(s, pos);
    if up.None? {
      return None;
    }
    var colon := ColonNear(s, up.value);
    if colon.None? {
      assert KeyHit(s, pos) == None;
      return None;
    }
    var i := colon.value + 1;
    while i < |s| && IsBlank(s[i])
      invariant colon.value + 1 <= i <= |s|
      invariant SkipBlanks(s, i) == SkipBlanks(s, colon.value + 1)
      decreases |s| - i
    {
      i := i + 1;
    }
    assert i == SkipBlanks(s, colon.value + 1);
    r := QuotedValue(s, i);
    assert r == KeyHit(s, pos);
  }

  /** The loop of method 2 over the `"original"` keys. */
  method ScanOriginalKeys(s: string, accept: string -> bool, urls: set<string>) returns (found: set<string>)
    ensures found == KeyScan(s, 0, accept, urls)
  {
    found := urls;
    var start := 0;
    while true
      invariant start <= |s|
      invariant KeyScan(s, start, accept, found) == KeyScan(s, 0, accept, urls)
      decreases |s| - start
    {
      var hit := FindFrom(s, OriginalKey, start);
      if hit.None? {
        break;
      }
      var pos := hit.value;
      KeyScanStep(s, start, accept, found, pos);
      ghost var before := found;
      start := pos + |OriginalKey|;
      var value := ReadKeyHit(s, pos);
      if value.Some? && accept(value.value) {
        found := found + {value.value};
      }
      assert found == before + Kept(value, accept);
    }
  }

  /** Whatever the key scan adds is accepted and free of quotes. */
  lemma {:induction false} KeyScanSound(s: string, start: nat, accept: string -> bool, found: set<string>, u: string)
    requires start <= |s| && u in KeyScan(s, start, accept, found)
    ensures u in found || (accept(u) && '"' !in u)
    decreases |s| - start
  {
    var next := FindFrom(s, OriginalKey, start);
    if next.Some? {
      var pos := next.value;
      KeyScanStep(s, start, accept, found, pos);
      var h := KeyHit(s, pos);
      KeyScanSound(s, pos + |OriginalKey|, accept, found + Kept(h, accept), u);
      KeptSound(h, accept, found, u);
    } else {
      assert KeyScan(s, start, accept, found) == found;
    }
  }

  lemma KeptSound(h: Option<string>, accept: string -> bool, found: set<string>, u: string)
    requires h.Some? ==> '"' !in h.value
    ensures u in found + Kept(h, accept) ==> u in found || (accept(u) && '"' !in u)
  {
  }

  // ---------------------------------------------------------------------
  // Method 2 as the program writes it

  /** What one `"original"` key does in the program: a value, nothing, or a
      panic. The windows are slices `pos..pos+100` and `url_pos..url_pos+50`
      that panic when they run past the end of the page, and the loop over
      blanks reads the character after the one it skips, which panics when
      the blanks run to the end. */
  datatype Hit = NoValue | Value(url: string) | Panic

  function KeyHitAsWritten(s: string, pos: nat): Hit
    requires pos <= |s|
  {
    if pos + UrlWindow > |s| then Panic
    else
      match UrlKeyNear(s, pos)
      case None => NoValue
      case Some(up) =>
        if up + ColonWindow > |s| then Panic
        else
          match ColonNear(s, up)
          case None => NoValue
          case Some(colon) =>
            var i := SkipBlanks(s, colon + 1);
            if i == |s| && colon + 1 < |s| then Panic
            else
              match QuotedValue(s, i)
              case None => NoValue
              case Some(u) => Value(u)
  }

  datatype KeyScanOutcome = Finished(urls: set<string>) | Panicked

  function KeyScanAsWritten(s: string, start: nat, accept: string -> bool, found: set<string>): KeyScanOutcome
    requires start <= |s|
    decreases |s| - start
  {
    match FindFrom(s, OriginalKey, start)
    case None => Finished(found)
    case Some(pos) =>
      var h := KeyHitAsWritten(s, pos);
      if h.Panic? then Panicked else KeyScanAsWritten(s, pos + |OriginalKey|, accept, HitKept(h, accept, found))
  }

  /** The set after a hit that does not panic. */
  function HitKept(h: Hit, accept: string -> bool, found: set<string>): set<string> {
    if h.Value? && accept(h.url) then found + {h.url} else found
  }

  /** Where the program's hit does not panic, it yields what the clamped
      hit yields. */
  lemma HitAgrees(s: string, pos: nat)
    requires pos <= |s| && KeyHitAsWritten(s, pos) != Panic
    ensures KeyHitAsWritten(s, pos) == (if KeyHit(s, pos).Some? then Value(KeyHit(s, pos).value) else NoValue)
  {
  }

  /** One step of the clamped scan. */
  lemma KeyScanStep(s: string, start: nat, accept: string -> bool, found: set<string>, pos: nat)
    requires start <= |s| && FindFrom(s, OriginalKey, start) == Some(pos)
    ensures KeyScan(s, start, accept, found) == KeyScan(s, pos + |OriginalKey|, accept, found + Kept(KeyHit(s, pos), accept))
  {
  }

  /** One step of the program's scan, at a key that does not panic. */
  lemma AsWrittenContinue(s: string, start: nat, accept: string -> bool, found: set<string>, pos: nat)
    requires start <= |s| && FindFrom(s, OriginalKey, start) == Some(pos)
    requires KeyHitAsWritten(s, pos) != Panic
    ensures KeyScanAsWritten(s, start, accept, found) ==
              KeyScanAsWritten(s, pos + |OriginalKey|, accept, HitKept(KeyHitAsWritten(s, pos), accept, found))
  {
  }

  /** One step of the program's scan at a key that does not panic is the
      clamped step. */
  lemma AsWrittenStep(s: string, start: nat, accept: string -> bool, found: set<string>, pos: nat)
    requires start <= |s| && FindFrom(s, OriginalKey, start) == Some(pos)
    requires KeyHitAsWritten(s, pos) != Panic
    ensures KeyScanAsWritten(s, start, accept, found) == KeyScanAsWritten(s, pos + |OriginalKey|, accept, found + Kept(KeyHit(s, pos), accept))
  {
    HitAgrees(s, pos);
    AsWrittenContinue(s, start, accept, found, pos);
    assert HitKept(KeyHitAsWritten(s, pos), accept, found) == found + Kept(KeyHit(s, pos), accept);
  }

  /** A key that panics ends the program's scan. */
  lemma PanicStep(s: string, start: nat, accept: string -> bool, found: set<string>, pos: nat)
    requires start <= |s| && FindFrom(s, OriginalKey, start) == Some(pos)
    requires KeyHitAsWritten(s, pos) == Panic
    ensures KeyScanAsWritten(s, start, accept, found) == Panicked
  {
  }

  /** Wherever the program's key scan finishes, the clamped scan finds the
      same set: clamping only removes the panics. */
  lemma {:induction false} KeyScanAgrees(s: string, start: nat, accept: string -> bool, found: set<string>)
    requires start <= |s| && KeyScanAsWritten(s, start, accept, found).Finished?
    ensures KeyScanAsWritten(s, start, accept, found).urls == KeyScan(s, start, accept, found)
    decreases |s| - start
  {
    match FindFrom(s, OriginalKey, start)
    case None =>
    case Some(pos) =>
      AsWrittenStep(s, start, accept, found, pos);
      KeyScanStep(s, start, accept, found, pos);
      KeyScanAgrees(s, pos + |OriginalKey|, accept, found + Kept(KeyHit(s, pos), accept));
  }

  /** A page whose text ends with an `"original"` key makes the program
      panic: the scan reaches that last key, or panics earlier, and the
      100-character window after it runs past the end. */
  lemma {:induction false} TrailingKeyPanics(s: string, start: nat, accept: string -> bool, found: set<string>)
    requires EndsWith(s, OriginalKey) && start <= |s| - |OriginalKey|
    ensures KeyScanAsWritten(s, start, accept, found) == Panicked
    decreases |s| - start
  {
    var last := |s| - |OriginalKey|;
    assert OccursAt(s, OriginalKey, last);
    FindFromAtMost(s, OriginalKey, start, last);
    var pos := FindFrom(s, OriginalKey, start).value;
    if KeyHitAsWritten(s, pos) == Panic {
      PanicStep(s, start, accept, found, pos);
    } else {
      AsWrittenStep(s, start, accept, found, pos);
      TrailingKeyPanics(s, pos + |OriginalKey|, accept, found + Kept(KeyHit(s, pos), accept));
    }
  }

  /** A `"url":` key followed by nothing but blanks up to the end of the page
      makes the program's blank loop read past the end. */
  lemma BlankTailPanics(s: string, pos: nat)
    requires pos + UrlWindow <= |s|
    requires UrlKeyNear(s, pos).Some? && UrlKeyNear(s, pos).value + ColonWindow <= |s|
    requires ColonNear(s, UrlKeyNear(s, pos).value).Some?
    requires ColonNear(s, UrlKeyNear(s, pos).value).value + 1 < |s|
    requires forall k :: ColonNear(s, UrlKeyNear(s, pos).value).value < k < |s| ==> IsBlank(s[k])
    ensures KeyHitAsWritten(s, pos) == Panic && KeyHit(s, pos) == None
  {
  }

  // ---------------------------------------------------------------------
  // The whole extraction

  /** The union of the three methods' finds; the key scan is the clamped
      one. */
  function DirectCandidates(html: string): set<string> {
    PrefixListsNonempty();
    ScanAll(html, RawPrefixes, EscapedUrlDelimiters, IsPinterestImageUrl, KeyScan(html, 0, KeyAccepts, InitialStateUrls(html)))
  }

  /** The outcome of the direct extraction on the response to its request. */
  ghost function DirectResult(response: Response<string>): Outcome<seq<string>> {
    match FetchText(response)
    case Err(f) => Err(f)
    case Ok(html) =>
      var c := DirectCandidates(html);
      if c == {} then Err(NoImagesExtracted) else Ok(SortedList(ImprovedSet(c)))
  }

  /** `try_direct_pinterest_extraction`, given the response to its request. */
  method TryDirectExtraction(response: Response<string>) returns (r: Outcome<seq<string>>)
    ensures r == DirectResult(response)
    ensures FetchText(response).Err? ==> r == Err(FetchText(response).failure)
    ensures FetchText(response).Ok? ==>
      var c := DirectCandidates(FetchText(response).value);
      && (r.Ok? ==> StrictlySorted(r.value) && Elems(r.value) == ImprovedSet(c) && r.value != [])
      && (r.Err? <==> c == {})
      && (r.Err? ==> r.failure == NoImagesExtracted)
  {
    var page := FetchText(response);
    if page.Err? {
      return Err(page.failure);
    }
    var html := page.value;
    PrefixListsNonempty();
    var urls := ScanInitialState(html);
    urls := ScanOriginalKeys(html, KeyAccepts, urls);
    urls := ScanPatterns(html, RawPrefixes, EscapedUrlDelimiters, IsPinterestImageUrl, urls);
    var processed := Finish(urls);
    FinishEmpty(urls, processed);
    if processed == [] {
      return Err(NoImagesExtracted);
    }
    r := Ok(processed);
  }

  lemma InitialStateAccepted(html: string, u: string)
    requires u in InitialStateUrls(html)
    ensures IsPinterestImageUrl(u)
  {
    PrefixListsNonempty();
    var pos := FindFrom(html, InitialStateKey, 0).value;
    var open := FindCharFrom(html, pos, {'{'}).value;
    ScanAllSound(html[open..BraceEnd(html, open)], ImagePrefixes, UrlDelimiters, IsPinterestImageUrl, {}, u);
  }

  /** Every candidate of the direct extraction is a Pinterest image URL or
      names the `pinimg.com` domain. */
  lemma DirectCandidatesAccepted(html: string, u: string)
    requires u in DirectCandidates(html)
    ensures KeyAccepts(u)
  {
    PrefixListsNonempty();
    var s1 := InitialStateUrls(html);
    var s2 := KeyScan(html, 0, KeyAccepts, s1);
    if u in s1 {
      InitialStateAccepted(html, u);
    } else if u in s2 {
      KeyScanSound(html, 0, KeyAccepts, s1, u);
    } else {
      ScanAllSound(html, RawPrefixes, EscapedUrlDelimiters, IsPinterestImageUrl, s2, u);
    }
  }
}
