/** Saving the images of the first downloader: each body is hashed with the
    64-bit FNV-1a hash, a body whose hash was already seen in the run is
    not saved again, and the images are named `image_NNN.<ext>` after
    their place in the list. */
module Dedup {
  import opened Strings
  import opened Net
  import opened Results
  import opened Paths
  import opened Format

  // ---------------------------------------------------------------------
  // FNV-1a, 64 bits

  type Hash = bv64

  const FnvOffset: Hash := 0xcbf2_9ce4_8422_2325
  const FnvPrime: Hash := 0x100_0000_01b3

  /** One byte into the hasher: exclusive or, then multiplication modulo
      2^64. */
  function FnvByte(h: Hash, b: bv8): Hash {
    (h ^ b as Hash) * FnvPrime
  }

  /** The state of a hasher in state `h` once `data` is written. */
  function FnvFrom(h: Hash, data: Bytes): Hash
    decreases |data|
  {
    if data == [] then h else FnvByte(FnvFrom(h, data[..|data| - 1]), data[|data| - 1])
  }

  /** `FnvHasher::default()`, `write(data)`, `finish()`. */
  function Fnv1a64(data: Bytes): Hash {
    FnvFrom(FnvOffset, data)
  }

  /** Writing two pieces one after the other hashes like writing them at
      once. */
  lemma {:induction false} FnvFromConcat(h: Hash, a: Bytes, b: Bytes)
    ensures FnvFrom(FnvFrom(h, a), b) == FnvFrom(h, a + b)
    decreases |b|
  {
    if b == [] {
      assert a + b == a;
    } else {
      var front := b[..|b| - 1];
      FnvFromConcat(h, a, front);
      assert (a + b)[..|a + b| - 1] == a + front;
      assert (a + b)[|a + b| - 1] == b[|b| - 1];
    }
  }

  /** The published values for the empty input and for "a". */
  lemma FnvVectors()
    ensures Fnv1a64([]) == 0xcbf2_9ce4_8422_2325
    ensures Fnv1a64([0x61]) == 0xaf63_dc4c_8601_ec8c
  {
    assert [0x61 as bv8][..0] == [];
  }

  /** The hasher's loop over the body. */
  method HashBytes(content: Bytes) returns (h: Hash)
    ensures h == Fnv1a64(content)
  {
    h := FnvOffset;
    for i := 0 to |content|
      invariant h == FnvFrom(FnvOffset, content[..i])
    {
      assert content[..i + 1][..i] == content[..i];
      h := FnvByte(h, content[i]);
    }
    assert content[..|content|] == content;
  }

  // ---------------------------------------------------------------------
  // download_image_with_deduplication

  /** The result of one download, the hashes seen so far and the files. */
  datatype Step = Step(result: Outcome<bool>, hashes: set<Hash>, files: Files)

  /** `download_image_with_deduplication(client, url, dest, hashes)`: the
      response is checked and read, its body hashed; a known hash is
      `Ok(false)`; a new one is recorded before the file is created and
      written, and a write that fails leaves an empty file. */
  function DedupStep(a: Attempt, dest: string, hashes: set<Hash>, files: Files): (s: Step)
    ensures !Delivered(a.response) ==> s.result.Err? && s.hashes == hashes && s.files == files
    ensures a.response.Received? && !IsSuccess(a.response.status) ==> s.result == Err(BadStatus(a.response.status))
    ensures Delivered(a.response) ==>
      var h := Fnv1a64(a.response.body.value);
      && (s.result == Ok(false) <==> h in hashes)
      && (h in hashes ==> s.hashes == hashes && s.files == files)
      && (h !in hashes ==> s.hashes == hashes + {h})
    ensures s.result == Ok(true) <==>
      Delivered(a.response) && Fnv1a64(a.response.body.value) !in hashes && a.createOk && a.writeOk
    ensures s.result == Ok(true) ==> s.files == files[dest := a.response.body.value] && |s.hashes| == |hashes| + 1
    ensures s.result.Err? ==> s.files == files || s.files == files[dest := []]
    ensures hashes <= s.hashes
  {
    match a.response
    case SendFailed => Step(Err(RequestFailed), hashes, files)
    case Received(status, body) =>
      if !IsSuccess(status) then Step(Err(BadStatus(status)), hashes, files)
      else if body.None? then Step(Err(RequestFailed), hashes, files)
      else
        var h := Fnv1a64(body.value);
        if h in hashes then Step(Ok(false), hashes, files)
        else if !a.createOk then Step(Err(FileSystem), hashes + {h}, files)
        else if !a.writeOk then Step(Err(FileSystem), hashes + {h}, files[dest := []])
        else Step(Ok(true), hashes + {h}, files[dest := body.value])
  }

  /** The download itself, hashing the body with the hasher's loop. */
  method DownloadWithDedup(a: Attempt, dest: string, hashes: set<Hash>, files: Files)
    returns (r: Outcome<bool>, hashesAfter: set<Hash>, filesAfter: Files)
    ensures Step(r, hashesAfter, filesAfter) == DedupStep(a, dest, hashes, files)
  {
    hashesAfter, filesAfter := hashes, files;
    if a.response.SendFailed? {
      return Err(RequestFailed), hashesAfter, filesAfter;
    }
    if !IsSuccess(a.response.status) {
      return Err(BadStatus(a.response.status)), hashesAfter, filesAfter;
    }
    if a.response.body.None? {
      return Err(RequestFailed), hashesAfter, filesAfter;
    }
    var content := a.response.body.value;
    var h := HashBytes(content);
    if h in hashesAfter {
      return Ok(false), hashesAfter, filesAfter;
    }
    hashesAfter := hashesAfter + {h};
    if !a.createOk {
      return Err(FileSystem), hashesAfter, filesAfter;
    }
    filesAfter := filesAfter[dest := []];
    if !a.writeOk {
      return Err(FileSystem), hashesAfter, filesAfter;
    }
    filesAfter := filesAfter[dest := content];
    r := Ok(true);
  }

  /** Once a body is delivered its hash is known, so a second delivery of
      the same bytes, to any destination, is skipped and changes nothing. */
  lemma SecondCopySkipped(a: Attempt, b: Attempt, d1: string, d2: string, hashes: set<Hash>, files: Files)
    requires Delivered(a.response) && Delivered(b.response) && b.response.body == a.response.body
    ensures var s := DedupStep(a, d1, hashes, files);
      DedupStep(b, d2, s.hashes, s.files) == Step(Ok(false), s.hashes, s.files)
  {
  }

  // ---------------------------------------------------------------------
  // File names

  /** `format!("image_{:03}.{}", n, ext)` with the extension of the URL's
      path, `jpg` when it has none. */
  function SaveName(urlPath: string, n: nat): string {
    var ext := PathExtension(urlPath);
    "image_" + ZeroPad(n, 3) + "." + (if ext.Some? then ext.value else "jpg")
  }

  /** The extension of a path holds neither `.` nor `/`. */
  lemma ExtensionClean(urlPath: string)
    ensures var ext := PathExtension(urlPath);
      ext.Some? ==> '.' !in ext.value && '/' !in ext.value
  {
    var ext := PathExtension(urlPath);
    if ext.Some? {
      var e := ext.value;
      var fname := FileName(urlPath).value;
      var k: nat :| 0 < k < |fname| && fname == fname[..k] + "." + e;
      forall i | 0 <= i < |e| ensures e[i] != '/' {
        assert e[i] == fname[k + 1 + i];
      }
    }
  }

  /** A zero-padded number is all digits, so it holds no `.` and no `/`. */
  lemma DigitsClean(z: string)
    requires AllDigits(z)
    ensures '.' !in z && '/' !in z
  {
    forall i | 0 <= i < |z| ensures z[i] != '.' && z[i] != '/' {
      assert IsDigit(z[i]);
    }
  }

  /** The pieces of a name: `image_`, the digits, `.`, the extension. */
  lemma NamePieces(z: string, e: string)
    requires '/' !in z && '/' !in e
    ensures var name := "image_" + z + "." + e;
      && |name| == 7 + |z| + |e| && name[..6] == "image_" && name[6..6 + |z|] == z && name[6 + |z|] == '.'
      && name[7 + |z|..] == e && '/' !in name
  {
    var name := "image_" + z + "." + e;
    assert name[..6] == "image_";
    assert name[6..6 + |z|] == z;
    assert name[7 + |z|..] == e;
    forall i | 0 <= i < |name| ensures name[i] != '/' {
      if i < 6 {
      } else if i < 6 + |z| {
        assert name[i] == z[i - 6];
      } else if i > 6 + |z| {
        assert name[i] == e[i - 7 - |z|];
      }
    }
  }

  /** The name begins with `image_`, then the number in decimal, at least
      three digits wide, then a `.`; the extension after it holds no `.`,
      and the name holds no `/`. */
  lemma SaveNameShape(urlPath: string, n: nat)
    ensures var z := ZeroPad(n, 3); var name := SaveName(urlPath, n);
      && AllDigits(z) && DigitsValue(z) == n && |z| >= 3
      && |name| >= 7 + |z| && name[..6] == "image_" && name[6..6 + |z|] == z && name[6 + |z|] == '.'
      && '.' !in name[7 + |z|..] && '/' !in name
  {
    ZeroPadSpec(n, 3);
    DigitsLength(n, 3);
    var z := ZeroPad(n, 3);
    var ext := PathExtension(urlPath);
    var e := if ext.Some? then ext.value else "jpg";
    ExtensionClean(urlPath);
    DigitsClean(z);
    NamePieces(z, e);
  }

  /** Two names holding runs of digits that start at the same place and end
      at a `.` hold the same run when the names are equal. */
  lemma DigitsUpToDot(x: string, y: string, a: nat, z1: string, z2: string)
    requires a + |z1| < |x| && x[a..a + |z1|] == z1 && x[a + |z1|] == '.' && AllDigits(z1)
    requires a + |z2| < |y| && y[a..a + |z2|] == z2 && y[a + |z2|] == '.' && AllDigits(z2)
    ensures x == y ==> z1 == z2
  {
    if x == y && |z1| < |z2| {
      SliceAt(y, a, a + |z2|, |z1|);
      assert false;
    } else if x == y && |z2| < |z1| {
      SliceAt(x, a, a + |z1|, |z2|);
      assert false;
    }
  }

  /** Names that carry different numbers in digits after `image_` differ. */
  lemma NumberedNamesDistinct(x: string, y: string, zm: string, zn: string, m: nat, n: nat)
    requires m != n
    requires AllDigits(zm) && DigitsValue(zm) == m && 6 + |zm| < |x| && x[6..6 + |zm|] == zm && x[6 + |zm|] == '.'
    requires AllDigits(zn) && DigitsValue(zn) == n && 6 + |zn| < |y| && y[6..6 + |zn|] == zn && y[6 + |zn|] == '.'
    ensures x != y
  {
    DigitsUpToDot(x, y, 6, zm, zn);
  }

  /** Different numbers give different names, whatever the extensions:
      within one run no image is saved over another. */
  lemma SaveNamesDistinct(p1: string, p2: string, m: nat, n: nat)
    requires m != n
    ensures SaveName(p1, m) != SaveName(p2, n)
  {
    SaveNameShape(p1, m);
    SaveNameShape(p2, n);
    NumberedNamesDistinct(SaveName(p1, m), SaveName(p2, n), ZeroPad(m, 3), ZeroPad(n, 3), m, n);
  }

  /** Joining onto one directory keeps different names apart. */
  lemma JoinDistinct(base: string, x: string, y: string)
    requires x != y && (x == [] || x[0] != '/') && (y == [] || y[0] != '/')
    ensures PathJoin(base, x) != PathJoin(base, y)
  {
    var pre := if base != [] && base[|base| - 1] != '/' then base + "/" else base;
    assert PathJoin(base, x) == pre + x && PathJoin(base, y) == pre + y;
    assert (pre + x)[|pre|..] == x && (pre + y)[|pre|..] == y;
  }

  // ---------------------------------------------------------------------
  // The download loop of download_images

  /** What the loop has after some URLs: the count of saved images, the
      hashes seen and the files. */
  datatype Run = Run(count: nat, hashes: set<Hash>, files: Files)

  /** Where URL `i` (counted from 0) is saved: nowhere when it does not
      parse, `image_<i + 1>` in the output directory otherwise. `urlPath`
      is the path `Url::parse` yields, or `None`. */
  function Destination(url: string, i: nat, base: string, urlPath: string -> Option<string>): Option<string> {
    match urlPath(url)
    case None => None
    case Some(p) => Some(PathJoin(base, SaveName(p, i + 1)))
  }

  /** The destinations of a list of URLs, in order. */
  function Destinations(urls: seq<string>, base: string, urlPath: string -> Option<string>): (r: seq<Option<string>>)
    ensures |r| == |urls| && forall i :: 0 <= i < |urls| ==> r[i] == Destination(urls[i], i, base, urlPath)
  {
    seq(|urls|, i requires 0 <= i < |urls| => Destination(urls[i], i, base, urlPath))
  }

  /** The state after the first `n` destinations; the run starts with no
      hashes and no saves. `attempt(i)` is what the download of URL `i`
      meets. A saved image always brings a hash no earlier save had, so the
      count never exceeds the number of distinct hashes. */
  function RunAfter(dests: seq<Option<string>>, attempt: nat -> Attempt, files: Files, n: nat): (r: Run)
    requires n <= |dests|
    ensures r.count <= n && r.count <= |r.hashes|
    decreases n
  {
    if n == 0 then Run(0, {}, files)
    else RunStep(RunAfter(dests, attempt, files, n - 1), dests[n - 1], attempt(n - 1))
  }

  /** One URL of the loop: nothing for a URL that does not parse, the
      download otherwise, counted when it saves. */
  function RunStep(before: Run, dest: Option<string>, a: Attempt): (r: Run)
    ensures dest.None? ==> r == before
    ensures dest.Some? ==>
      var s := DedupStep(a, dest.value, before.hashes, before.files);
      r.hashes == s.hashes && r.files == s.files &&
      r.count == before.count + (if s.result == Ok(true) then 1 else 0)
    ensures before.hashes <= r.hashes && before.count <= r.count <= before.count + 1
    ensures r.count - before.count <= |r.hashes| - |before.hashes|
  {
    match dest
    case None => before
    case Some(d) =>
      var s := DedupStep(a, d, before.hashes, before.files);
      Run(before.count + (if s.result == Ok(true) then 1 else 0), s.hashes, s.files)
  }

  /** The body of the loop for URL `i`. */
  method DownloadOne(url: string, i: nat, base: string, urlPath: string -> Option<string>, a: Attempt,
                     count: nat, hashes: set<Hash>, files: Files)
    returns (count': nat, hashes': set<Hash>, files': Files)
    ensures Run(count', hashes', files') == RunStep(Run(count, hashes, files), Destination(url, i, base, urlPath), a)
  {
    count', hashes', files' := count, hashes, files;
    var path := urlPath(url);
    if path.Some? {
      var filename := SaveName(path.value, i + 1);
      var dest := PathJoin(base, filename);
      var result;
      result, hashes', files' := DownloadWithDedup(a, dest, hashes, files);
      if result == Ok(true) {
        count' := count + 1;
      }
    }
  }

  /** `for (index, img_url_str) in image_urls.iter().enumerate()`: URLs that
      do not parse are skipped, and only `Ok(true)` is counted. */
  method DownloadAll(urls: seq<string>, base: string, urlPath: string -> Option<string>,
                     attempt: nat -> Attempt, files: Files)
    returns (count: nat, hashes: set<Hash>, after: Files)
    ensures Run(count, hashes, after) == RunAfter(Destinations(urls, base, urlPath), attempt, files, |urls|)
    ensures count <= |urls| && count <= |hashes|
  {
    ghost var dests := Destinations(urls, base, urlPath);
    count, hashes, after := 0, {}, files;
    for i := 0 to |urls|
      invariant Run(count, hashes, after) == RunAfter(dests, attempt, files, i)
    {
      assert dests[i] == Destination(urls[i], i, base, urlPath);
      count, hashes, after := DownloadOne(urls[i], i, base, urlPath, attempt(i), count, hashes, after);
    }
  }

  /** Files saved under different numbers land on different paths. */
  lemma SavePathsDistinct(base: string, p: string, q: string, m: nat, n: nat)
    requires m != n
    ensures PathJoin(base, SaveName(p, m)) != PathJoin(base, SaveName(q, n))
  {
    SaveNamesDistinct(p, q, m, n);
    NameStart(p, m);
    NameStart(q, n);
    JoinDistinct(base, SaveName(p, m), SaveName(q, n));
  }

  /** URLs at different places of the list, when both parse, get
      different destinations. */
  lemma DestinationPairDistinct(u: string, v: string, i: nat, j: nat, base: string, urlPath: string -> Option<string>)
    requires i != j && urlPath(u).Some? && urlPath(v).Some?
    ensures Destination(u, i, base, urlPath) != Destination(v, j, base, urlPath)
  {
    SavePathsDistinct(base, urlPath(u).value, urlPath(v).value, i + 1, j + 1);
  }

  /** Each URL that parses gets a destination of its own. */
  lemma DestinationsDistinct(urls: seq<string>, base: string, urlPath: string -> Option<string>, i: nat, j: nat)
    requires i < j < |urls|
    requires Destination(urls[i], i, base, urlPath).Some? && Destination(urls[j], j, base, urlPath).Some?
    ensures Destination(urls[i], i, base, urlPath) != Destination(urls[j], j, base, urlPath)
  {
    DestinationPairDistinct(urls[i], urls[j], i, j, base, urlPath);
  }

  /** A destination leaves every file but its own as it was. */
  lemma RunStepKeeps(dests: seq<Option<string>>, attempt: nat -> Attempt, files: Files, n: nat, p: string)
    requires 0 < n <= |dests| && p in RunAfter(dests, attempt, files, n - 1).files
    requires dests[n - 1] != Some(p)
    ensures var after := RunAfter(dests, attempt, files, n).files;
      p in after && after[p] == RunAfter(dests, attempt, files, n - 1).files[p]
  {
    var before := RunAfter(dests, attempt, files, n - 1);
    var dest := dests[n - 1];
    if dest.Some? {
      var s := DedupStep(attempt(n - 1), dest.value, before.hashes, before.files);
      assert s.files == before.files || s.files == before.files[dest.value := []] ||
             s.files == before.files[dest.value := attempt(n - 1).response.body.value];
    }
  }

  /** An image saved at URL `i` is still on disk, with its bytes, after any
      later URL, as long as later URLs write to other names. */
  lemma {:induction false} SavedImageKept(dests: seq<Option<string>>, attempt: nat -> Attempt, files: Files, i: nat, n: nat)
    requires i < n <= |dests| && dests[i].Some?
    requires var before := RunAfter(dests, attempt, files, i);
      DedupStep(attempt(i), dests[i].value, before.hashes, before.files).result == Ok(true)
    requires forall j :: i < j < n ==> dests[j] != dests[i]
    ensures dests[i].value in RunAfter(dests, attempt, files, n).files
    ensures RunAfter(dests, attempt, files, n).files[dests[i].value] == attempt(i).response.body.value
    decreases n
  {
    if n > i + 1 {
      SavedImageKept(dests, attempt, files, i, n - 1);
      RunStepKeeps(dests, attempt, files, n, dests[i].value);
    }
  }

  /** In the loop of `download_images` every image saved is still on disk,
      with its bytes, when the loop ends. */
  lemma SavedImagesKept(urls: seq<string>, base: string, urlPath: string -> Option<string>,
                        attempt: nat -> Attempt, files: Files, i: nat)
    requires i < |urls| && Destination(urls[i], i, base, urlPath).Some?
    requires var dests := Destinations(urls, base, urlPath); var before := RunAfter(dests, attempt, files, i);
      DedupStep(attempt(i), dests[i].value, before.hashes, before.files).result == Ok(true)
    ensures var dests := Destinations(urls, base, urlPath);
      && dests[i].value in RunAfter(dests, attempt, files, |urls|).files
      && RunAfter(dests, attempt, files, |urls|).files[dests[i].value] == attempt(i).response.body.value
  {
    var dests := Destinations(urls, base, urlPath);
    forall j | i < j < |urls| ensures dests[j] != dests[i] {
      if dests[j].Some? {
        DestinationsDistinct(urls, base, urlPath, i, j);
      }
    }
    SavedImageKept(dests, attempt, files, i, |urls|);
  }

  lemma NameStart(urlPath: string, n: nat)
    ensures |SaveName(urlPath, n)| > 0 && SaveName(urlPath, n)[0] == 'i'
  {
  }
}
