/**
 * The Expo config plugin that adds the Google Maps pods to the iOS Podfile
 * (plugins/withGoogleMaps.js). The new Podfile text is computed from the old
 * one with `includes`, a first-occurrence `replace` and concatenation, and is
 * then written back into the config object the plugin received.
 */
module PodfilePatch {
  import opened Wrappers

  /** The line the pods are injected after. */
  const Anchor: string := "use_expo_modules!"

  /** The pods block, exactly as the template literal writes it (note the
      trailing space after "Google Maps"). */
  const GoogleMapsPods: string :=
    "\n  # Google Maps \n  pod 'GoogleMaps'\n  pod 'Google-Maps-iOS-Utils'\n"

  /** `p` occurs in `s` starting at index `i`. */
  predicate OccursAt(s: string, p: string, i: int)
  {
    0 <= i && i + |p| <= |s| && s[i..i + |p|] == p
  }

  /** `i` is the first index at which `p` occurs in `s`. */
  predicate IsFirstOccurrence(s: string, p: string, i: int)
  {
    OccursAt(s, p, i) && forall j :: 0 <= j < i ==> !OccursAt(s, p, j)
  }

  /** The first index at or after `from` at which `p` occurs in `s`. */
  function IndexOfFrom(s: string, p: string, from: nat): (r: Option<nat>)
    requires from <= |s|
    ensures r.Some? ==> from <= r.value && OccursAt(s, p, r.value)
    ensures r.Some? ==> forall j :: from <= j < r.value ==> !OccursAt(s, p, j)
    ensures r.None? ==> forall j :: from <= j ==> !OccursAt(s, p, j)
    decreases |s| - from
  {
    if from + |p| > |s| then None
    else if s[from..from + |p|] == p then Some(from)
    else IndexOfFrom(s, p, from + 1)
  }

  /** JavaScript's `s.indexOf(p)`, with -1 as `None`. */
  function IndexOf(s: string, p: string): (r: Option<nat>)
    ensures r.Some? <==> exists i :: OccursAt(s, p, i)
    ensures r.Some? ==> IsFirstOccurrence(s, p, r.value)
  {
    IndexOfFrom(s, p, 0)
  }

  /** JavaScript's `s.includes(p)`. */
  function Includes(s: string, p: string): (b: bool)
    ensures b <==> exists i :: OccursAt(s, p, i)
  {
    IndexOf(s, p).Some?
  }

  /** JavaScript's `s.replace(p, rep)` with a string pattern: only the first
      occurrence is replaced. The replacement is taken literally, which is
      what JavaScript does when, as here, it holds no `$` pattern. */
  function ReplaceFirst(s: string, p: string, rep: string): (r: string)
    ensures IndexOf(s, p).None? ==> r == s
    ensures IndexOf(s, p).Some? ==> |r| == |s| - |p| + |rep|
  {
    match IndexOf(s, p)
    case None => s
    case Some(i) => s[..i] + rep + s[i + |p|..]
  }

  /** The new Podfile contents computed by the plugin callback. */
  function PatchPodfile(podfile: string): string
  {
    if Includes(podfile, Anchor) then ReplaceFirst(podfile, Anchor, Anchor + GoogleMapsPods)
    else podfile + GoogleMapsPods
  }

  /** The part of the config the plugin touches: `config.modResults`. */
  class PodfileModResults {
    var contents: string

    constructor (contents: string)
      ensures this.contents == contents
    {
      this.contents := contents;
    }
  }

  /** The config object handed to the Podfile mod. */
  class PodfileConfig {
    const modResults: PodfileModResults

    constructor (modResults: PodfileModResults)
      ensures this.modResults == modResults
    {
      this.modResults := modResults;
    }
  }

  /** The callback given to `withPodfile`: it overwrites
      `config.modResults.contents` and hands back the same config object. */
  method WithGoogleMaps(config: PodfileConfig) returns (r: PodfileConfig)
    modifies config.modResults`contents
    ensures r == config
    ensures config.modResults.contents == PatchPodfile(old(config.modResults.contents))
  {
    var podfile := config.modResults.contents;
    if Includes(podfile, Anchor) {
      config.modResults.contents := ReplaceFirst(podfile, Anchor, Anchor + GoogleMapsPods);
    } else {
      config.modResults.contents := config.modResults.contents + GoogleMapsPods;
    }
    r := config;
  }

  /** With the anchor present, the result is the text up to and including the
      first anchor, then the pods block, then the untouched remainder. */
  lemma {:induction false} PatchInsertsAfterFirstAnchor(podfile: string, i: nat)
    requires IsFirstOccurrence(podfile, Anchor, i)
    ensures PatchPodfile(podfile)
         == podfile[..i + |Anchor|] + GoogleMapsPods + podfile[i + |Anchor|..]
  {
    ReplaceFirstAt(podfile, Anchor, Anchor + GoogleMapsPods, i);
    InsertAfter(podfile, Anchor, GoogleMapsPods, i);
  }

  /** Replacing the first occurrence at `i` splices `rep` in at `i`. */
  lemma ReplaceFirstAt(s: string, p: string, rep: string, i: nat)
    requires IsFirstOccurrence(s, p, i)
    ensures Includes(s, p)
    ensures ReplaceFirst(s, p, rep) == s[..i] + rep + s[i + |p|..]
  {
    assert IndexOf(s, p) == Some(i) by {
      var k := IndexOf(s, p).value;
      assert !(k < i) && !(i < k);
    }
  }

  /** Putting `p + extra` in place of the occurrence of `p` at `i` is
      inserting `extra` right after it. */
  lemma InsertAfter(s: string, p: string, extra: string, i: nat)
    requires OccursAt(s, p, i)
    ensures s[..i] + (p + extra) + s[i + |p|..] == s[..i + |p|] + extra + s[i + |p|..]
  {
    assert s[..i + |p|] == s[..i] + p;
  }

  /** An occurrence in the second part of a concatenation is an occurrence in
      that part alone, at the index shifted by the first part's length. */
  lemma OccursInSecondPart(a: string, b: string, p: string, j: int)
    requires |a| <= j
    ensures OccursAt(a + b, p, j) <==> OccursAt(b, p, j - |a|)
  {
    if j + |p| <= |a| + |b| {
      assert (a + b)[j..j + |p|] == b[j - |a|..j - |a| + |p|];
    }
  }

  /** No proper suffix of the anchor is also a prefix of it. */
  lemma AnchorHasNoBorder(d: int)
    requires 0 < d < |Anchor|
    ensures Anchor[d..] != Anchor[..|Anchor| - d]
  {
    assert Anchor[d..][0] == Anchor[d] && Anchor[..|Anchor| - d][0] == Anchor[0];
    if d == 12 {
      assert Anchor[d..][1] != Anchor[..|Anchor| - d][1];
    }
  }

  /** Two occurrences of the anchor never overlap. */
  lemma AnchorsDoNotOverlap(s: string, i: int, j: int)
    requires OccursAt(s, Anchor, i) && OccursAt(s, Anchor, j) && i < j
    ensures i + |Anchor| <= j
  {
    if j < i + |Anchor| {
      var d := j - i;
      assert s[j..i + |Anchor|] == s[i..i + |Anchor|][d..];
      assert s[j..i + |Anchor|] == s[j..j + |Anchor|][..|Anchor| - d];
      AnchorHasNoBorder(d);
    }
  }

  /** Every occurrence of the anchor after the first one is carried over
      unchanged, shifted by the length of the pods block. */
  lemma {:induction false} PatchKeepsLaterAnchors(podfile: string, i: nat, j: nat)
    requires IsFirstOccurrence(podfile, Anchor, i)
    requires i < j && OccursAt(podfile, Anchor, j)
    ensures OccursAt(PatchPodfile(podfile), Anchor, j + |GoogleMapsPods|)
  {
    PatchInsertsAfterFirstAnchor(podfile, i);
    AnchorsDoNotOverlap(podfile, i, j);
    var prefix, rest := podfile[..i + |Anchor|], podfile[i + |Anchor|..];
    assert podfile == prefix + rest;
    OccursInSecondPart(prefix, rest, Anchor, j);
    assert PatchPodfile(podfile) == (prefix + GoogleMapsPods) + rest;
    OccursInSecondPart(prefix + GoogleMapsPods, rest, Anchor, j + |GoogleMapsPods|);
  }

  /** Without the anchor the block is appended, so the old contents are a
      prefix of the new ones. */
  lemma PatchAppendsWithoutAnchor(podfile: string)
    requires forall i :: !OccursAt(podfile, Anchor, i)
    ensures PatchPodfile(podfile) == podfile + GoogleMapsPods
    ensures podfile <= PatchPodfile(podfile)
  {
  }

  /** In both branches the contents grow by exactly the pods block. */
  lemma PatchLength(podfile: string)
    ensures |PatchPodfile(podfile)| == |podfile| + |GoogleMapsPods|
  {
  }

  /** The patch leaves the first anchor where it was. */
  lemma {:induction false} PatchKeepsFirstAnchor(podfile: string, i: nat)
    requires IsFirstOccurrence(podfile, Anchor, i)
    ensures IsFirstOccurrence(PatchPodfile(podfile), Anchor, i)
  {
    PatchInsertsAfterFirstAnchor(podfile, i);
    var once := PatchPodfile(podfile);
    var n := i + |Anchor|;
    assert once[..n] == podfile[..n] by {
      SplitConcat(podfile[..n], GoogleMapsPods + podfile[n..]);
    }
    FirstOccurrenceInPrefix(podfile, once, Anchor, i);
  }

  /** The first occurrence of `p` lies in the text up to its end, so a text
      with the same beginning has it first at the same place. */
  lemma FirstOccurrenceInPrefix(s: string, t: string, p: string, i: nat)
    requires IsFirstOccurrence(s, p, i)
    requires i + |p| <= |t| && t[..i + |p|] == s[..i + |p|]
    ensures IsFirstOccurrence(t, p, i)
  {
    var n := i + |p|;
    SliceOfPrefix(t, n, i, n);
    SliceOfPrefix(s, n, i, n);
    forall j | 0 <= j < i
      ensures !OccursAt(t, p, j)
    {
      assert !OccursAt(s, p, j);
      SliceOfPrefix(t, n, j, j + |p|);
      SliceOfPrefix(s, n, j, j + |p|);
    }
  }

  /** A slice inside a prefix is the same slice of the whole text. */
  lemma SliceOfPrefix(s: string, n: nat, lo: nat, hi: nat)
    requires lo <= hi <= n <= |s|
    ensures s[..n][lo..hi] == s[lo..hi]
  {
  }

  /** Nothing guards against a second run: patching twice inserts the block
      twice, right after the same first anchor. */
  lemma {:induction false} PatchTwiceInsertsTwice(podfile: string, i: nat)
    requires IsFirstOccurrence(podfile, Anchor, i)
    ensures PatchPodfile(PatchPodfile(podfile))
         == podfile[..i + |Anchor|] + GoogleMapsPods + GoogleMapsPods + podfile[i + |Anchor|..]
  {
    var prefix, rest := podfile[..i + |Anchor|], podfile[i + |Anchor|..];
    var once := PatchPodfile(podfile);
    assert once == prefix + (GoogleMapsPods + rest) by {
      PatchInsertsAfterFirstAnchor(podfile, i);
    }
    assert once[..i + |Anchor|] == prefix && once[i + |Anchor|..] == GoogleMapsPods + rest by {
      SplitConcat(prefix, GoogleMapsPods + rest);
    }
    PatchKeepsFirstAnchor(podfile, i);
    PatchInsertsAfterFirstAnchor(once, i);
  }

  /** Slicing a concatenation at the seam gives back its parts. */
  lemma SplitConcat(a: string, b: string)
    ensures (a + b)[..|a|] == a && (a + b)[|a|..] == b
  {
  }

  /** Consequently the patch is never idempotent. */
  lemma PatchIsNotIdempotent(podfile: string)
    ensures PatchPodfile(PatchPodfile(podfile)) != PatchPodfile(podfile)
  {
    PatchLength(podfile);
    PatchLength(PatchPodfile(podfile));
  }
}
