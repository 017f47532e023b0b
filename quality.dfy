/** `improve_image_quality`: rewriting a Pinterest image URL to ask for the
    original-size image. The three smaller size segments are replaced by
    `/originals/`; a URL that then names no size at all gets `originals`
    spliced into its path by a loop over its `/`-separated pieces. */
module Quality {
  import opened Strings

  /** Size segments the rewrite upgrades, in the order it does so. */
  const LowResSegments: seq<string> := ["/236x/", "/474x/", "/736x/"]
  const OriginalsSegment: string := "/originals/"

  /** The three replacements, `/236x/` first and `/736x/` last. */
  function Upgraded(url: string): string {
    ReplaceAll(ReplaceAll(ReplaceAll(url, "/236x/", OriginalsSegment), "/474x/", OriginalsSegment),
               "/736x/", OriginalsSegment)
  }

  /** The pieces, each with a `/` in front, concatenated. */
  function Prefixed(parts: seq<string>): string
    decreases |parts|
  {
    if parts == [] then [] else Prefixed(parts[..|parts| - 1]) + "/" + parts[|parts| - 1]
  }

  /** Whether the splice is attempted, and whether it happens: the URL names
      neither `/originals/` nor `/736x/`, mentions `pinimg.com`, and has at
      least five pieces, so that a fourth piece exists before the last. */
  predicate SpliceApplies(improved: string) {
    && !Contains(improved, OriginalsSegment) && !Contains(improved, "/736x/")
    && Contains(improved, "pinimg.com") && Contains(improved, "/")
    && |Split(improved, '/')| >= 5
  }

  /** The splice: the pieces are rejoined with `/` in front of each, the
      fourth piece (the one after the host in a `https://host/...` URL) is
      replaced by `/originals/`, and the leading slashes are dropped. */
  function Spliced(improved: string): string {
    var parts := Split(improved, '/');
    if |parts| < 4 then improved
    else TrimStartChar(Prefixed(parts[..3]) + OriginalsSegment + Prefixed(parts[4..]), '/')
  }

  /** What `improve_image_quality` returns. */
  function ImprovedUrl(url: string): string {
    var improved := Upgraded(url);
    if SpliceApplies(improved) then Spliced(improved) else improved
  }

  lemma {:induction false} PrefixedConcat(a: seq<string>, b: seq<string>)
    ensures Prefixed(a + b) == Prefixed(a) + Prefixed(b)
    decreases |b|
  {
    if b == [] {
      assert a + b == a;
    } else {
      assert (a + b)[..|a + b| - 1] == a + b[..|b| - 1];
      PrefixedConcat(a, b[..|b| - 1]);
    }
  }

  lemma PrefixedOne(parts: seq<string>, i: nat)
    requires i < |parts|
    ensures Prefixed(parts[..i + 1]) == Prefixed(parts[..i]) + "/" + parts[i]
  {
    assert parts[..i + 1][..i] == parts[..i];
  }

  lemma PrefixedFrom(parts: seq<string>, k: nat, i: nat)
    requires k <= i < |parts|
    ensures Prefixed(parts[k..i + 1]) == Prefixed(parts[k..i]) + "/" + parts[i]
  {
    assert parts[k..i + 1][..i - k] == parts[k..i];
  }

  /** The loop over the pieces, with the `inserted` flag of the source: the
      first piece after the third that is not the last is replaced by
      `/originals/`, and every other piece is appended after a `/`. */
  method SpliceParts(parts: seq<string>) returns (result: string, inserted: bool)
    ensures inserted <==> |parts| >= 5
    ensures inserted ==> result == Prefixed(parts[..3]) + OriginalsSegment + Prefixed(parts[4..])
    ensures !inserted ==> result == Prefixed(parts)
  {
    result := "";
    inserted := false;
    for i := 0 to |parts|
      invariant inserted <==> 4 <= i && 5 <= |parts|
      invariant !inserted ==> result == Prefixed(parts[..i])
      invariant inserted ==> result == Prefixed(parts[..3]) + OriginalsSegment + Prefixed(parts[4..i])
    {
      if !inserted && i > 2 && i < |parts| - 1 {
        result := result + OriginalsSegment;
        inserted := true;
        assert parts[4..i + 1] == [];
      } else {
        if inserted {
          PrefixedFrom(parts, 4, i);
        } else {
          PrefixedOne(parts, i);
        }
        result := result + "/" + parts[i];
      }
    }
    if inserted {
      assert parts[4..|parts|] == parts[4..];
    } else {
      assert parts[..|parts|] == parts;
    }
  }

  /** `improve_image_quality`. */
  method ImproveImageQuality(url: string) returns (r: string)
    ensures r == ImprovedUrl(url)
  {
    var improved := ReplaceAll(ReplaceAll(ReplaceAll(url, "/236x/", OriginalsSegment), "/474x/", OriginalsSegment),
                               "/736x/", OriginalsSegment);
    r := improved;
    if !Contains(improved, OriginalsSegment) && !Contains(improved, "/736x/") {
      if Contains(improved, "pinimg.com") && Contains(improved, "/") {
        var parts := Split(improved, '/');
        if |parts| >= 4 {
          var result, inserted := SpliceParts(parts);
          if inserted {
            r := TrimStartChar(result, '/');
          }
        }
      }
    }
  }

  // ---------------------------------------------------------------------
  // Properties of the rewrite

  /** A URL naming none of the three smaller sizes survives the replacements. */
  lemma UpgradedUnchanged(url: string)
    requires !Contains(url, "/236x/") && !Contains(url, "/474x/") && !Contains(url, "/736x/")
    ensures Upgraded(url) == url
  {
    ReplaceAllAbsent(url, "/236x/", OriginalsSegment);
    ReplaceAllAbsent(url, "/474x/", OriginalsSegment);
    ReplaceAllAbsent(url, "/736x/", OriginalsSegment);
  }

  /** The `contains("/")` test is implied by the count of pieces: the splice
      happens exactly when the URL names neither `/originals/` nor `/736x/`,
      mentions `pinimg.com`, and has at least four slashes. */
  lemma SpliceGate(u: string)
    ensures SpliceApplies(u) <==>
              && !Contains(u, OriginalsSegment) && !Contains(u, "/736x/")
              && Contains(u, "pinimg.com") && Count(u, '/') >= 4
  {
    if Count(u, '/') >= 4 {
      if '/' !in u {
        CountAbsent(u, '/');
      }
      var i :| 0 <= i < |u| && u[i] == '/';
      assert u[i..i + 1] == "/";
      OccursContains(u, "/", i);
    }
  }

  /** A URL that is already an original (or is not on `pinimg.com`, or has
      fewer than four slashes) and names none of the smaller sizes is returned
      unchanged. */
  lemma ImprovedUnchanged(url: string)
    requires !Contains(url, "/236x/") && !Contains(url, "/474x/") && !Contains(url, "/736x/")
    requires Contains(url, OriginalsSegment) || !Contains(url, "pinimg.com") || Count(url, '/') < 4
    ensures ImprovedUrl(url) == url
  {
    UpgradedUnchanged(url);
    SpliceGate(url);
  }

  /** Rejoining pieces with a `/` in front of each is a `/` followed by
      their join. */
  lemma {:induction false} PrefixedJoin(parts: seq<string>)
    requires |parts| > 0
    ensures Prefixed(parts) == "/" + Join(parts, '/')
    decreases |parts|
  {
    if |parts| == 1 {
      assert parts[..0] == [];
    } else {
      var rest := parts[1..];
      PrefixedJoin(rest);
      assert parts == [parts[0]] + rest;
      PrefixedConcat([parts[0]], rest);
      assert [parts[0]][..0] == [];
    }
  }

  /** Dropping the leading `/` in front of a piece that does not start with one. */
  lemma TrimOneSlash(x: string)
    requires x != [] && x[0] != '/'
    ensures TrimStartChar("/" + x, '/') == x
  {
    var s := "/" + x;
    var r := TrimStartChar(s, '/');
    assert r == s[|s| - |r|..];
  }

  /** Four leading slash-free pieces are the first four pieces of the split. */
  lemma SplitFour(p0: string, p1: string, p2: string, p3: string, rest: string)
    requires '/' !in p0 && '/' !in p1 && '/' !in p2 && '/' !in p3
    ensures Split(p0 + "/" + p1 + "/" + p2 + "/" + p3 + "/" + rest, '/')
         == [p0, p1, p2, p3] + Split(rest, '/')
  {
    var tail3 := p3 + "/" + rest;
    var tail2 := p2 + "/" + tail3;
    var tail1 := p1 + "/" + tail2;
    var u := p0 + "/" + tail1;
    assert p0 + "/" + p1 + "/" + p2 + "/" + p3 + "/" + rest == u;
    var r := Split(rest, '/');
    SplitCons(p3, rest, '/');
    SplitCons(p2, tail3, '/');
    SplitCons(p1, tail2, '/');
    SplitCons(p0, tail1, '/');
    assert Split(u, '/') == [p0] + ([p1] + ([p2] + ([p3] + r)));
    ConsFour(p0, p1, p2, p3, r);
  }

  lemma ConsFour<T>(a: T, b: T, c: T, d: T, r: seq<T>)
    ensures [a] + ([b] + ([c] + ([d] + r))) == [a, b, c, d] + r
  {
  }

  lemma PrefixedThree(p0: string, p1: string, p2: string)
    ensures Prefixed([p0, p1, p2]) == "/" + (p0 + "/" + p1 + "/" + p2)
  {
    assert [p0, p1, p2][..2] == [p0, p1];
    assert [p0, p1][..1] == [p0];
    assert [p0][..0] == [];
    assert Prefixed([p0]) == "/" + p0;
    assert Prefixed([p0, p1]) == "/" + p0 + "/" + p1;
  }

  /** The shape of the splice on a URL with four leading pieces and a rest:
      the fourth piece is dropped, `/originals/` and an empty piece take its
      place, and the leading slashes are trimmed. For `https://host/a/b/c.jpg`
      this is `https://host/originals//b/c.jpg`. */
  lemma SplicedShape(p0: string, p1: string, p2: string, p3: string, rest: string)
    requires '/' !in p0 && '/' !in p1 && '/' !in p2 && '/' !in p3
    requires p0 != []
    ensures Spliced(p0 + "/" + p1 + "/" + p2 + "/" + p3 + "/" + rest)
         == p0 + "/" + p1 + "/" + p2 + OriginalsSegment + ("/" + rest)
  {
    var u := p0 + "/" + p1 + "/" + p2 + "/" + p3 + "/" + rest;
    SplitFour(p0, p1, p2, p3, rest);
    var parts := Split(u, '/');
    var restParts := Split(rest, '/');
    assert parts[..3] == [p0, p1, p2];
    assert parts[4..] == restParts;
    PrefixedJoin(restParts);
    PrefixedThree(p0, p1, p2);
    var a := p0 + "/" + p1 + "/" + p2;
    SlashFront(a, OriginalsSegment, "/" + rest);
    TrimOneSlash(a + OriginalsSegment + ("/" + rest));
  }

  /** The whole rewrite on a `pinimg.com` URL that names no size at all and
      has at least four slashes: `originals` is spliced in place of its fourth
      piece. */
  lemma ImprovedSplices(p0: string, p1: string, p2: string, p3: string, rest: string)
    requires '/' !in p0 && '/' !in p1 && '/' !in p2 && '/' !in p3
    requires p0 != []
    requires var u := p0 + "/" + p1 + "/" + p2 + "/" + p3 + "/" + rest;
      && !Contains(u, "/236x/") && !Contains(u, "/474x/") && !Contains(u, "/736x/")
      && !Contains(u, OriginalsSegment) && Contains(u, "pinimg.com")
    ensures ImprovedUrl(p0 + "/" + p1 + "/" + p2 + "/" + p3 + "/" + rest)
         == p0 + "/" + p1 + "/" + p2 + OriginalsSegment + ("/" + rest)
  {
    var u := p0 + "/" + p1 + "/" + p2 + "/" + p3 + "/" + rest;
    UpgradedUnchanged(u);
    FourSlashesSplit(p0, p1, p2, p3, rest);
    SplicedShape(p0, p1, p2, p3, rest);
  }

  /** Four leading pieces give at least five pieces and a slash. */
  lemma FourSlashesSplit(p0: string, p1: string, p2: string, p3: string, rest: string)
    requires '/' !in p0 && '/' !in p1 && '/' !in p2 && '/' !in p3
    ensures var u := p0 + "/" + p1 + "/" + p2 + "/" + p3 + "/" + rest;
      |Split(u, '/')| >= 5 && Contains(u, "/")
  {
    var u := p0 + "/" + p1 + "/" + p2 + "/" + p3 + "/" + rest;
    SplitFour(p0, p1, p2, p3, rest);
    assert u[|p0|..|p0| + 1] == "/";
    OccursContains(u, "/", |p0|);
  }

  lemma SlashFront(a: string, b: string, c: string)
    ensures "/" + a + b + c == "/" + (a + b + c)
  {
  }

  /** `/736x/736x/` names neither of the two smaller sizes. */
  lemma DoubledKeepsSmall()
    ensures ReplaceAll("/736x/" + "736x/", "/236x/", OriginalsSegment) == "/736x/" + "736x/"
    ensures ReplaceAll("/736x/" + "736x/", "/474x/", OriginalsSegment) == "/736x/" + "736x/"
  {
    MissingCharNotContained("/736x/" + "736x/", "/236x/", '2');
    ReplaceAllAbsent("/736x/" + "736x/", "/236x/", OriginalsSegment);
    MissingCharNotContained("/736x/" + "736x/", "/474x/", '4');
    ReplaceAllAbsent("/736x/" + "736x/", "/474x/", OriginalsSegment);
  }

  /** In `/736x/736x/` only the first `/736x/` is replaced: the second has
      lost its leading slash to the first. */
  lemma UpgradedDoubled()
    ensures Upgraded("/736x/" + "736x/") == OriginalsSegment + "736x/"
  {
    DoubledKeepsSmall();
    ReplaceAllHead("736x/", "/736x/", OriginalsSegment);
    ReplaceAllAbsent("736x/", "/736x/", OriginalsSegment);
  }

  /** A text free of `7` cannot hold the start of a `/736x/` that overlaps
      it. */
  lemma NoSevenBefore(x: string, y: string)
    requires '7' !in x && |y| > 0 && y[0] == '/'
    ensures forall j :: 0 <= j < |x| ==> !OccursAt(x + y, "/736x/", j)
  {
    forall j | 0 <= j < |x| ensures !OccursAt(x + y, "/736x/", j) {
      if OccursAt(x + y, "/736x/", j) {
        SliceAt(x + y, j, j + 6, 1);
        assert false;
      }
    }
  }

  /** `/originals/736x/` names neither of the two smaller sizes. */
  lemma AfterOriginalsKeepsSmall()
    ensures ReplaceAll("/originals" + "/736x/", "/236x/", OriginalsSegment) == "/originals" + "/736x/"
    ensures ReplaceAll("/originals" + "/736x/", "/474x/", OriginalsSegment) == "/originals" + "/736x/"
  {
    MissingCharNotContained("/originals" + "/736x/", "/236x/", '2');
    ReplaceAllAbsent("/originals" + "/736x/", "/236x/", OriginalsSegment);
    MissingCharNotContained("/originals" + "/736x/", "/474x/", '4');
    ReplaceAllAbsent("/originals" + "/736x/", "/474x/", OriginalsSegment);
  }

  /** `/originals/736x/`: the closing slash of `/originals/` starts a
      `/736x/`, which is replaced in turn. */
  lemma UpgradedAfterOriginals()
    ensures Upgraded("/originals" + "/736x/") == "/originals" + OriginalsSegment
  {
    AfterOriginalsKeepsSmall();
    NoSevenBefore("/originals", "/736x/");
    ReplaceAllTail("/originals", "/736x/", OriginalsSegment);
  }

  /** A URL holding `/originals/` right after the replacements is not
      spliced. */
  lemma NoSpliceAfterOriginals(u: string)
    requires Contains(Upgraded(u), OriginalsSegment)
    ensures ImprovedUrl(u) == Upgraded(u)
  {
  }

  lemma StartsWithOriginals(y: string)
    ensures Contains(OriginalsSegment + y, OriginalsSegment)
  {
    assert OccursAt(OriginalsSegment + y, OriginalsSegment, 0);
    OccursContains(OriginalsSegment + y, OriginalsSegment, 0);
  }

  lemma ImprovedDoubled()
    ensures ImprovedUrl("/736x/" + "736x/") == OriginalsSegment + "736x/"
  {
    UpgradedDoubled();
    StartsWithOriginals("736x/");
    NoSpliceAfterOriginals("/736x/" + "736x/");
  }

  lemma ImprovedAfterOriginals()
    ensures ImprovedUrl(OriginalsSegment + "736x/") == OriginalsSegment + "originals/"
  {
    assert OriginalsSegment + "736x/" == "/originals" + "/736x/";
    UpgradedAfterOriginals();
    assert "/originals" + OriginalsSegment == OriginalsSegment + "originals/";
    StartsWithOriginals("originals/");
    NoSpliceAfterOriginals(OriginalsSegment + "736x/");
  }

  /** The rewrite is not idempotent: on `/736x/736x/` it gives
      `/originals/736x/`, and applied to that it gives
      `/originals/originals/`. */
  lemma NotIdempotent()
    ensures ImprovedUrl(ImprovedUrl("/736x/" + "736x/")) != ImprovedUrl("/736x/" + "736x/")
  {
    ImprovedDoubled();
    ImprovedAfterOriginals();
    assert (OriginalsSegment + "originals/")[11] != (OriginalsSegment + "736x/")[11];
  }
}
