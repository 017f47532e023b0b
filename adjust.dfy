/** `adjust_quality` of the second downloader: a quality name selects one
    size segment, and each of the four known segments in the URL is rewritten
    to it. */
module Adjust {
  import opened Strings

  /** The four size segments, in the order `adjust_quality` rewrites them. */
  const TierOrder: seq<string> := ["/236x/", "/474x/", "/736x/", "/originals/"]

  /** A size segment: a name between two slashes with no slash inside. */
  predicate IsTier(t: string) {
    |t| >= 2 && t[0] == '/' && t[|t| - 1] == '/' && forall k :: 0 < k < |t| - 1 ==> t[k] != '/'
  }

  /** The segment a quality name asks for; unknown names fall back to
      `/736x/`. */
  function QualitySegment(quality: string): (seg: string)
    ensures seg in TierOrder
    ensures quality == "original" ==> seg == "/originals/"
    ensures quality !in ["original", "originals", "736x", "474x", "236x"] ==> seg == "/736x/"
  {
    if quality == "original" || quality == "originals" then "/originals/"
    else if quality == "736x" then "/736x/"
    else if quality == "474x" then "/474x/"
    else if quality == "236x" then "/236x/"
    else "/736x/"
  }

  /** `adjust_quality(url, quality)`. */
  function AdjustQuality(url: string, quality: string): string {
    var seg := QualitySegment(quality);
    ReplaceAll(ReplaceAll(ReplaceAll(ReplaceAll(url, "/236x/", seg), "/474x/", seg), "/736x/", seg),
               "/originals/", seg)
  }

  lemma TiersAreTiers()
    ensures forall k :: 0 <= k < |TierOrder| ==> IsTier(TierOrder[k])
  {
  }

  /** Every segment is selected by the name between its slashes. */
  lemma QualitySegmentNames()
    ensures forall k :: 0 <= k < |TierOrder| ==>
              QualitySegment(TierOrder[k][1..|TierOrder[k]| - 1]) == TierOrder[k]
  {
    assert "/236x/"[1..5] == "236x";
    assert "/474x/"[1..5] == "474x";
    assert "/736x/"[1..5] == "736x";
    assert "/originals/"[1..10] == "originals";
  }

  /** A URL naming none of the four segments is returned unchanged. */
  lemma AdjustUnchanged(url: string, quality: string)
    requires forall k :: 0 <= k < |TierOrder| ==> !Contains(url, TierOrder[k])
    ensures AdjustQuality(url, quality) == url
  {
    var seg := QualitySegment(quality);
    assert !Contains(url, TierOrder[0]) && !Contains(url, TierOrder[1]);
    assert !Contains(url, TierOrder[2]) && !Contains(url, TierOrder[3]);
    ReplaceAllAbsent(url, "/236x/", seg);
    ReplaceAllAbsent(url, "/474x/", seg);
    ReplaceAllAbsent(url, "/736x/", seg);
    ReplaceAllAbsent(url, "/originals/", seg);
  }

  // ---------------------------------------------------------------------
  // A URL holding a single segment

  /** `t` occurs in `a + x + b` only at the place of `x`. */
  ghost predicate OnlyAtMiddle(a: string, x: string, b: string, t: string) {
    forall j: nat :: OccursAt(a + x + b, t, j) ==> j == |a|
  }

  /** An occurrence of a segment that does not start where `x` starts
      touches `x` at most at one of its two slashes. */
  lemma TierWindow(a: string, x: string, b: string, t: string, j: nat)
    requires IsTier(x) && IsTier(t) && OccursAt(a + x + b, t, j) && j != |a|
    ensures j + |t| <= |a| + 1 || j >= |a| + |x| - 1
  {
    var s := a + x + b;
    if j < |a| && j + |t| > |a| + 1 {
      SliceAt(s, j, j + |t|, |a| - j);
      assert false;
    } else if |a| < j < |a| + |x| - 1 {
      SliceAt(s, j, j + |t|, 0);
      assert false;
    }
  }

  /** A segment at the place of another segment is that segment. */
  lemma TierAtMiddle(a: string, x: string, b: string, t: string)
    requires IsTier(x) && IsTier(t) && OccursAt(a + x + b, t, |a|)
    ensures t == x
  {
    var s := a + x + b;
    if |t| < |x| {
      SliceAt(s, |a|, |a| + |t|, |t| - 1);
      assert false;
    } else if |t| > |x| {
      SliceAt(s, |a|, |a| + |t|, |x| - 1);
      assert false;
    } else {
      assert s[|a|..|a| + |t|] == x;
    }
  }

  /** Which segment stands between `a` and `b` does not create or remove
      occurrences elsewhere. */
  lemma CleanTransfer(a: string, x: string, y: string, b: string, t: string)
    requires IsTier(x) && IsTier(y) && IsTier(t)
    requires OnlyAtMiddle(a, x, b, t)
    ensures OnlyAtMiddle(a, y, b, t)
  {
    var sx := a + x + b;
    var sy := a + y + b;
    forall j: nat | OccursAt(sy, t, j) ensures j == |a| {
      if j != |a| {
        TierWindow(a, y, b, t, j);
        if j + |t| <= |a| + 1 {
          forall o | 0 <= o < |t| ensures sx[j + o] == t[o] {
            assert sy[j..j + |t|][o] == sy[j + o];
          }
          assert sx[j..j + |t|] == t;
          assert OccursAt(sx, t, j);
        } else {
          var j2: nat := j - |y| + |x|;
          forall o | 0 <= o < |t| ensures sx[j2 + o] == t[o] {
            assert sy[j..j + |t|][o] == sy[j + o];
          }
          assert sx[j2..j2 + |t|] == t;
          assert OccursAt(sx, t, j2);
        }
      }
    }
  }

  /** One `replace` of a segment on a URL where it can occur only in the
      middle: the middle is replaced if it is that segment, and nothing
      changes otherwise. */
  lemma ReplaceStep(a: string, x: string, b: string, t: string, seg: string)
    requires IsTier(x) && IsTier(t)
    requires OnlyAtMiddle(a, x, b, t)
    ensures ReplaceAll(a + x + b, t, seg) == a + (if t == x then seg else x) + b
  {
    var s := a + x + b;
    if t == x {
      assert s == a + (x + b);
      ReplaceAllSkip(a, x + b, t, seg);
      ReplaceAllHead(b, x, seg);
      forall i: nat | OccursAt(b, x, i) ensures false {
        assert s[|a| + |x|..] == b;
        OccursInDrop(s, x, |a| + |x|, i);
      }
      ReplaceAllAbsent(b, x, seg);
    } else {
      forall j: nat | OccursAt(s, t, j) ensures false {
        TierAtMiddle(a, x, b, t);
      }
      ReplaceAllAbsent(s, t, seg);
    }
  }

  /** A URL holding exactly one of the four segments gets exactly that
      segment replaced by the one the quality name selects. */
  lemma AdjustSingle(a: string, k: nat, b: string, quality: string)
    requires k < |TierOrder|
    requires forall i :: 0 <= i < |TierOrder| ==> OnlyAtMiddle(a, TierOrder[k], b, TierOrder[i])
    ensures AdjustQuality(a + TierOrder[k] + b, quality) == a + QualitySegment(quality) + b
  {
    var seg := QualitySegment(quality);
    var x := TierOrder[k];
    TiersAreTiers();
    var t0, t1, t2, t3 := TierOrder[0], TierOrder[1], TierOrder[2], TierOrder[3];
    assert OnlyAtMiddle(a, x, b, t0) && OnlyAtMiddle(a, x, b, t1);
    assert OnlyAtMiddle(a, x, b, t2) && OnlyAtMiddle(a, x, b, t3);
    ReplaceStep(a, x, b, t0, seg);
    var y1 := if t0 == x then seg else x;
    CleanTransfer(a, x, y1, b, t1);
    ReplaceStep(a, y1, b, t1, seg);
    var y2 := if t1 == y1 then seg else y1;
    CleanTransfer(a, x, y2, b, t2);
    ReplaceStep(a, y2, b, t2, seg);
    var y3 := if t2 == y2 then seg else y2;
    CleanTransfer(a, x, y3, b, t3);
    ReplaceStep(a, y3, b, t3, seg);
    var y4 := if t3 == y3 then seg else y3;
    assert y4 == seg;
  }

  /** On a URL holding exactly one segment the rewrite is a fixed point:
      applying it to its own result changes nothing. */
  lemma AdjustSingleStable(a: string, k: nat, b: string, quality: string)
    requires k < |TierOrder|
    requires forall i :: 0 <= i < |TierOrder| ==> OnlyAtMiddle(a, TierOrder[k], b, TierOrder[i])
    ensures var once := AdjustQuality(a + TierOrder[k] + b, quality);
      AdjustQuality(once, quality) == once
  {
    AdjustSingle(a, k, b, quality);
    var seg := QualitySegment(quality);
    var k2: nat :| k2 < |TierOrder| && TierOrder[k2] == seg;
    TiersAreTiers();
    forall i | 0 <= i < |TierOrder| ensures OnlyAtMiddle(a, seg, b, TierOrder[i]) {
      CleanTransfer(a, TierOrder[k], seg, b, TierOrder[i]);
    }
    AdjustSingle(a, k2, b, quality);
  }

  // ---------------------------------------------------------------------
  // A URL holding a segment twice

  /** No occurrence of `pat` starts inside `x` when its second character is
      missing from `x` and differs from the first of `y`. */
  lemma NoOccurrenceBefore(x: string, y: string, pat: string)
    requires |pat| >= 2 && pat[1] !in x && |y| > 0 && y[0] != pat[1]
    ensures forall j :: 0 <= j < |x| ==> !OccursAt(x + y, pat, j)
  {
    forall j | 0 <= j < |x| ensures !OccursAt(x + y, pat, j) {
      if OccursAt(x + y, pat, j) {
        SliceAt(x + y, j, j + |pat|, 1);
        assert false;
      }
    }
  }

  /** The middle two segments are absent from a text holding neither `4`
      nor `7`. */
  lemma MiddleAbsent(s: string, seg: string)
    requires '4' !in s && '7' !in s
    ensures ReplaceAll(s, "/474x/", seg) == s && ReplaceAll(s, "/736x/", seg) == s
  {
    MissingCharNotContained(s, "/474x/", '4');
    ReplaceAllAbsent(s, "/474x/", seg);
    MissingCharNotContained(s, "/736x/", '7');
    ReplaceAllAbsent(s, "/736x/", seg);
  }

  /** A segment at the very start of `pat + rest` is replaced and `rest`,
      being shorter than the segment, is left alone. */
  lemma ReplaceHeadOnly(rest: string, pat: string, rep: string)
    requires |rest| < |pat|
    ensures ReplaceAll(pat + rest, pat, rep) == rep + rest
  {
    ReplaceAllHead(rest, pat, rep);
    ShortNotContained(rest, pat);
    ReplaceAllAbsent(rest, pat, rep);
  }

  /** With quality `original`, `/236x/236x/` becomes `/originals/236x/`: the
      second `/236x/` shares its slash with the first and survives the pass. */
  lemma AdjustDoubledOnce()
    ensures AdjustQuality("/236x/" + ("236x" + "/"), "original") == "/originals" + "/236x/"
  {
    var seg, rest := "/originals/", "236x" + "/";
    ReplaceHeadOnly(rest, "/236x/", seg);
    assert '4' !in seg && '4' !in rest && '7' !in seg && '7' !in rest;
    MiddleAbsent(seg + rest, seg);
    ReplaceHeadOnly(rest, "/originals/", seg);
    SlashMoves();
  }

  lemma SlashMoves()
    ensures "/originals/" + ("236x" + "/") == "/originals" + "/236x/"
  {
    assert "/originals/" == "/originals" + "/";
    assert "/236x/" == "/" + ("236x" + "/");
  }

  /** A second pass then rewrites the surviving `/236x/`. */
  lemma AdjustDoubledTwice()
    ensures AdjustQuality("/originals" + "/236x/", "original") == "/originals/" + ("originals" + "/")
  {
    var seg, rest := "/originals/", "originals" + "/";
    NoOccurrenceBefore("/originals", "/236x/", "/236x/");
    ReplaceAllTail("/originals", "/236x/", seg);
    assert "/originals" + seg == seg + rest;
    assert '4' !in seg && '4' !in rest && '7' !in seg && '7' !in rest;
    MiddleAbsent(seg + rest, seg);
    ReplaceHeadOnly(rest, "/originals/", seg);
  }

  /** `adjust_quality` is not idempotent: with quality `original` a second
      pass changes `/originals/236x/`, the result of the first pass on
      `/236x/236x/`. */
  lemma AdjustNotIdempotent()
    ensures var once := AdjustQuality("/236x/" + ("236x" + "/"), "original");
      AdjustQuality(once, "original") != once
  {
    AdjustDoubledOnce();
    AdjustDoubledTwice();
    assert ("/originals/" + ("originals" + "/"))[11] != ("/originals" + "/236x/")[11];
  }
}
