/** What every strategy of the first downloader does with the set it has
    gathered: each URL is moved to its best quality, and the list is sorted
    and freed of duplicates. Also the failures these strategies report and
    the page fetch they share. */
module Results {
  import opened Strings
  import opened Collections
  import opened Ordering
  import opened Net
  import opened Quality

  /** Why a step of the first downloader gave up (each is an `anyhow`
      error in the program). */
  datatype Failure =
    | RequestFailed
    | BadStatus(status: int)
    | InvalidUrl
    | MissingParameter(key: string)
    | NoImagesExtracted
    | HomeNotSet
    | FileSystem

  datatype Outcome<T> = Ok(value: T) | Err(failure: Failure)

  /** `fetch_page` and the first fetch of every strategy: the text of a 2xx
      response. */
  function FetchText(response: Response<string>): (r: Outcome<string>)
    ensures r.Ok? <==> Delivered(response)
    ensures r.Ok? ==> r.value == response.body.value
    ensures r.Err? && r.failure.BadStatus? <==> response.Received? && !IsSuccess(response.status)
    ensures r.Err? ==> r.failure.RequestFailed? || r.failure.BadStatus?
  {
    match response
    case SendFailed => Err(RequestFailed)
    case Received(status, body) =>
      if !IsSuccess(status) then Err(BadStatus(status))
      else if body.None? then Err(RequestFailed)
      else Ok(body.value)
  }

  /** The URLs of a set after `improve_image_quality`. */
  function ImprovedSet(urls: set<string>): set<string> {
    set u | u in urls :: ImprovedUrl(u)
  }

  /** `urls.into_iter().map(|url| improve_image_quality(&url)).collect()`
      over the list the set hands out. */
  method ImproveAll(order: seq<string>) returns (processed: seq<string>)
    ensures |processed| == |order|
    ensures forall i :: 0 <= i < |order| ==> processed[i] == ImprovedUrl(order[i])
  {
    processed := [];
    for i := 0 to |order|
      invariant |processed| == i
      invariant forall k :: 0 <= k < i ==> processed[k] == ImprovedUrl(order[k])
    {
      var improved := ImproveImageQuality(order[i]);
      ghost var before := processed;
      processed := processed + [improved];
      assert forall k :: 0 <= k < i ==> processed[k] == before[k];
      assert processed[i] == ImprovedUrl(order[i]);
    }
  }

  /** `v.sort(); v.dedup();`: the same elements, strictly increasing. */
  method SortDedup(v: seq<string>) returns (r: seq<string>)
    ensures StrictlySorted(r) && Elems(r) == Elems(v)
  {
    r := [];
    for i := 0 to |v|
      invariant StrictlySorted(r) && Elems(r) == Elems(v[..i])
    {
      assert v[..i + 1] == v[..i] + [v[i]];
      assert Elems(v[..i + 1]) == Elems(v[..i]) + {v[i]};
      r := InsertSorted(r, v[i]);
    }
    assert v[..|v|] == v;
  }

  /** The tail every strategy shares: improve each gathered URL, then sort
      and deduplicate. The list is the improved set in increasing order. */
  method Finish(urls: set<string>) returns (r: seq<string>)
    ensures StrictlySorted(r) && Elems(r) == ImprovedSet(urls)
    ensures r == SortedList(ImprovedSet(urls))
  {
    var order := Enumerate(urls);
    var processed := ImproveAll(order);
    ImprovedElems(order, processed, urls);
    r := SortDedup(processed);
    SortedUnique(r, SortedList(ImprovedSet(urls)));
  }

  lemma ImprovedElems(order: seq<string>, processed: seq<string>, urls: set<string>)
    requires Elems(order) == urls && |processed| == |order|
    requires forall i :: 0 <= i < |order| ==> processed[i] == ImprovedUrl(order[i])
    ensures Elems(processed) == ImprovedSet(urls)
  {
    forall v | v in ImprovedSet(urls) ensures v in Elems(processed) {
      var u :| u in urls && v == ImprovedUrl(u);
      var i :| 0 <= i < |order| && order[i] == u;
      assert processed[i] == v;
    }
  }

  /** The finished list does not depend on the order the set handed its
      elements out in: it is the only strictly increasing list of the
      improved URLs. */
  lemma FinishDetermined(urls: set<string>, r1: seq<string>, r2: seq<string>)
    requires StrictlySorted(r1) && Elems(r1) == ImprovedSet(urls)
    requires StrictlySorted(r2) && Elems(r2) == ImprovedSet(urls)
    ensures r1 == r2
  {
    SortedUnique(r1, r2);
  }

  /** The list is empty exactly when nothing was gathered. */
  lemma FinishEmpty(urls: set<string>, r: seq<string>)
    requires Elems(r) == ImprovedSet(urls)
    ensures r == [] <==> urls == {}
  {
    ElemsEmpty(r);
    if urls != {} {
      var u :| u in urls;
      assert ImprovedUrl(u) in ImprovedSet(urls);
    }
  }
}
