/** The whitespace-tolerant edit: exact match first, else one match of the
    whitespace-collapsed texts mapped back to bytes (crates/tools-std/src/common.rs).
    Texts are the bytes of valid UTF-8. */
module Hunk {
  import opened Base

  const SPACE: byte := 32

  datatype HunkError = Ambiguous(spans: nat) | MissingSearch | OnlyWhitespace | NotFound
  datatype HunkResult = Edited(text: Bytes) | Rejected(error: HunkError)

  predicate Ws(b: byte) {
    b == 32 || b == 9 || b == 10 || b == 13
  }

  /** Position `i` begins a byte of the collapsed text: it does not continue a whitespace run. */
  predicate Starts(s: Bytes, i: nat)
    requires i < |s|
  {
    i == 0 || !Ws(s[i]) || !Ws(s[i - 1])
  }

  /** Every whitespace run becomes one space. */
  function Collapse(s: Bytes): Bytes {
    if s == [] then []
    else
      var n := |s| - 1;
      if !Starts(s, n) then Collapse(s[..n])
      else Collapse(s[..n]) + [if Ws(s[n]) then SPACE else s[n]]
  }

  lemma {:induction false} CollapseConcat(u: Bytes, v: Bytes)
    requires u == [] || v == [] || !Ws(u[|u| - 1]) || !Ws(v[0])
    ensures Collapse(u + v) == Collapse(u) + Collapse(v)
  {
    if v == [] {
      assert u + v == u;
    } else {
      var n := |v| - 1;
      CollapseConcat(u, v[..n]);
      var w, m := u + v, |u| + n;
      assert w[..m] == u + v[..n] && w[m] == v[n];
      assert Starts(w, m) == Starts(v, n) by {
        assert n > 0 ==> w[m - 1] == v[n - 1];
        assert n == 0 && u != [] ==> w[m - 1] == u[|u| - 1];
      }
      assert Collapse(v) == Collapse(v[..n]) + (if Starts(v, n) then [if Ws(v[n]) then SPACE else v[n]] else []);
    }
  }

  /** A cut at a start splits the collapsed text. */
  lemma CollapseCut(s: Bytes, i: nat)
    requires i <= |s| && (i < |s| ==> Starts(s, i))
    ensures Collapse(s) == Collapse(s[..i]) + Collapse(s[i..])
  {
    assert s[..i] + s[i..] == s;
    CollapseConcat(s[..i], s[i..]);
  }

  /** The index map: entry k is where byte k of the collapsed text begins. */
  ghost predicate IndexMap(s: Bytes, out: Bytes, index: seq<nat>) {
    && |index| == |out|
    && (forall k :: 0 <= k < |index| ==> index[k] < |s| && Starts(s, index[k]) && Collapse(s[..index[k]]) == out[..k])
    && (forall j, k :: 0 <= j < k < |index| ==> index[j] < index[k])
    && (forall i: nat :: i < |s| && Starts(s, i) ==> |Collapse(s[..i])| < |index| && index[|Collapse(s[..i])|] == i)
  }

  lemma {:induction false} SkipRun(s: Bytes, i: nat, j: nat)
    requires i < j <= |s| && forall k :: i <= k < j ==> Ws(s[k])
    ensures Collapse(s[..j]) == Collapse(s[..i + 1])
  {
    if i + 1 < j {
      SkipRun(s, i, j - 1);
      assert s[..j][..j - 1] == s[..j - 1];
    }
  }

  lemma CollapseStep(s: Bytes, i: nat)
    requires i < |s| && Starts(s, i)
    ensures Collapse(s[..i + 1]) == Collapse(s[..i]) + [if Ws(s[i]) then SPACE else s[i]]
  {
    assert s[..i + 1][..i] == s[..i];
    assert Starts(s[..i + 1], i);
  }

  /** The index map of the first `i` bytes. */
  ghost predicate MapTo(s: Bytes, out: Bytes, index: seq<nat>, i: nat)
    requires i <= |s|
  {
    && |index| == |out| && out == Collapse(s[..i])
    && (forall k :: 0 <= k < |index| ==> index[k] < i && Starts(s, index[k]) && Collapse(s[..index[k]]) == out[..k])
    && (forall j, k :: 0 <= j < k < |index| ==> index[j] < index[k])
    && (forall j: nat :: j < i && Starts(s, j) ==> |Collapse(s[..j])| < |index| && index[|Collapse(s[..j])|] == j)
  }

  lemma MapGrows(s: Bytes, out: Bytes, index: seq<nat>, i: nat, b: byte)
    requires i < |s| && Starts(s, i) && MapTo(s, out, index, i) && b == (if Ws(s[i]) then SPACE else s[i])
    ensures MapTo(s, out + [b], index + [i], i + 1)
  {
    hide Collapse, Starts;
    CollapseStep(s, i);
    var map', out' := index + [i], out + [b];
    forall k | 0 <= k < |map'|
      ensures map'[k] < i + 1 && Starts(s, map'[k]) && Collapse(s[..map'[k]]) == out'[..k]
    {
      assert out'[..k] == out[..k];
      assert out[..|out|] == out;
    }
  }

  /** Nothing starts inside a run. */
  lemma MapSkips(s: Bytes, out: Bytes, index: seq<nat>, i: nat, j: nat)
    requires i < j <= |s| && (forall k :: i <= k < j ==> Ws(s[k])) && MapTo(s, out, index, i + 1)
    ensures MapTo(s, out, index, j)
  {
    hide Collapse;
    SkipRun(s, i, j);
  }

  lemma MapWhole(s: Bytes, out: Bytes, index: seq<nat>)
    requires MapTo(s, out, index, |s|)
    ensures out == Collapse(s) && IndexMap(s, out, index)
  {
    hide Collapse;
    assert s[..|s|] == s;
  }

  method CollapseWs(s: Bytes) returns (out: Bytes, index: seq<nat>)
    ensures out == Collapse(s) && IndexMap(s, out, index)
  {
    out, index := [], [];
    var i := 0;
    assert MapTo(s, out, index, 0);
    hide Collapse, MapTo;
    while i < |s|
      invariant i <= |s| && (i < |s| ==> Starts(s, i))
      invariant MapTo(s, out, index, i)
    {
      ghost var start := i;
      index := index + [i];
      if Ws(s[i]) {
        MapGrows(s, out, index[..|index| - 1], i, SPACE);
        out := out + [SPACE];
        while i < |s| && Ws(s[i])
          invariant start <= i <= |s| && forall k :: start <= k < i ==> Ws(s[k])
        {
          i := i + 1;
        }
        MapSkips(s, out, index, start, i);
      } else {
        MapGrows(s, out, index[..|index| - 1], i, s[i]);
        out := out + [s[i]];
        i := i + 1;
      }
    }
    MapWhole(s, out, index);
  }

  /** Bytes between two map entries continue a whitespace run. */
  lemma GapsAreWhitespace(s: Bytes, out: Bytes, index: seq<nat>, k: nat, i: nat)
    requires IndexMap(s, out, index) && k < |index|
    requires index[k] < i < (if k + 1 < |index| then index[k + 1] else |s|)
    ensures Ws(s[i]) && Ws(s[i - 1])
  {
    hide Collapse;
    var j := |Collapse(s[..i])|;
    assert j >= 0;
    assert !Starts(s, i);
  }

  // ---- leftmost scan ----

  /** A UTF-8 character boundary. */
  predicate Boundary(text: Bytes, i: nat) {
    i == |text| || (i < |text| && !(0x80 <= text[i] < 0xC0))
  }

  /** `match_indices`: leftmost non-overlapping occurrences; an empty pattern occurs at every boundary. */
  function Matches(text: Bytes, pat: Bytes, from: nat): seq<nat>
    decreases |text| + 1 - from
  {
    if from + |pat| > |text| then []
    else if pat == [] then (if Boundary(text, from) then [from] else []) + Matches(text, pat, from + 1)
    else if OccursAt(text, pat, from) then [from] + Matches(text, pat, from + |pat|)
    else Matches(text, pat, from + 1)
  }

  /** The scan lists occurrences only. */
  lemma {:induction false} MatchesOccur(text: Bytes, pat: Bytes, from: nat)
    ensures forall m <- Matches(text, pat, from) :: from <= m && OccursAt(text, pat, m)
    decreases |text| + 1 - from
  {
    if from + |pat| <= |text| {
      if pat == [] || !OccursAt(text, pat, from) {
        MatchesOccur(text, pat, from + 1);
      } else {
        MatchesOccur(text, pat, from + |pat|);
      }
    }
  }

  /** A listed match begins at or before `i` and reaches past it. */
  predicate Covered(hits: seq<nat>, width: nat, i: nat) {
    exists m :: m in hits && m <= i < m + width
  }

  lemma CoveredLater(hits: seq<nat>, width: nat, i: nat, m: nat)
    requires Covered(hits, width, i) || m <= i < m + width
    ensures Covered([m] + hits, width, i)
  {
    assert m in [m] + hits;
    assert forall h :: h in hits ==> h in [m] + hits;
  }

  /** Any occurrence overlaps a listed one that begins no later. */
  lemma {:induction false} MatchesCover(text: Bytes, pat: Bytes, from: nat, i: nat)
    requires pat != [] && from <= i && OccursAt(text, pat, i)
    ensures Covered(Matches(text, pat, from), |pat|, i)
    decreases |text| + 1 - from
  {
    assert i + |pat| <= |text|;
    hide OccursAt, Covered;
    if !OccursAt(text, pat, from) {
      MatchesCover(text, pat, from + 1, i);
    } else {
      if from + |pat| <= i {
        MatchesCover(text, pat, from + |pat|, i);
      }
      CoveredLater(Matches(text, pat, from + |pat|), |pat|, i, from);
    }
  }

  /** Region [s, e) of a text, cut at run starts. */
  ghost predicate Region(text: Bytes, s: nat, e: nat) {
    s < e <= |text| && Starts(text, s) && (e < |text| ==> Starts(text, e))
  }

  lemma RegionCollapse(text: Bytes, s: nat, e: nat)
    requires Region(text, s, e)
    ensures Collapse(text[..e]) == Collapse(text[..s]) + Collapse(text[s..e])
    ensures Collapse(text) == Collapse(text[..s]) + Collapse(text[s..e]) + Collapse(text[e..])
  {
    assert text[..e][..s] == text[..s] && text[..e][s..] == text[s..e];
    CollapseCut(text[..e], s);
    CollapseCut(text, e);
  }

  /** The edit replaced exactly the region whose collapsed text is the collapsed search, at that one place. */
  ghost predicate Fallback(text: Bytes, search: Bytes, replace: Bytes, result: Bytes, s: nat, e: nat) {
    && Region(text, s, e)
    && result == text[..s] + replace + text[e..]
    && Collapse(text[s..e]) == Collapse(search)
    && Matches(Collapse(text), Collapse(search), 0) == [|Collapse(text[..s])|]
  }

  /** The only scan hit was replaced in place. */
  ghost predicate Exact(text: Bytes, search: Bytes, replace: Bytes, result: Bytes, s: nat) {
    && OccursAt(text, search, s)
    && Matches(text, search, 0) == [s]
    && result == text[..s] + replace + text[s + |search|..]
  }

  /** What `ApplyHunk` must answer. */
  ghost predicate Answer(text: Bytes, search: Bytes, replace: Bytes, r: HunkResult) {
    var exact := Matches(text, search, 0);
    var hits := Matches(Collapse(text), Collapse(search), 0);
    if |exact| == 1 then r.Edited? && Exact(text, search, replace, r.text, exact[0])
    else if |exact| > 1 then r == Rejected(Ambiguous(|exact|))
    else if hits == [] then r == Rejected(NotFound)
    else if |hits| > 1 then r == Rejected(Ambiguous(|hits|))
    else r.Edited? && exists s: nat, e: nat :: Fallback(text, search, replace, r.text, s, e)
  }

  method ApplyHunk(text: Bytes, search: Bytes, replace: Bytes) returns (r: HunkResult)
    ensures Answer(text, search, replace, r)
  {
    hide Fallback, Collapse;
    var exact := Matches(text, search, 0);
    EmptyMatches(text, search);
    if |exact| == 1 {
      MatchesOccur(text, search, 0);
      var s := exact[0];
      assert s in exact;
      r := Edited(text[..s] + replace + text[s + |search|..]);
    } else if |exact| > 1 {
      r := Rejected(Ambiguous(|exact|));
    } else if search == [] {
      r := Rejected(MissingSearch);
    } else {
      r := ApplyCollapsed(text, search, replace);
    }
  }

  method ApplyCollapsed(text: Bytes, search: Bytes, replace: Bytes) returns (r: HunkResult)
    requires search != []
    ensures
      var hits := Matches(Collapse(text), Collapse(search), 0);
      if hits == [] then r == Rejected(NotFound)
      else if |hits| > 1 then r == Rejected(Ambiguous(|hits|))
      else r.Edited? && exists s: nat, e: nat :: Fallback(text, search, replace, r.text, s, e)
  {
    hide Fallback, Collapse, Matches, IndexMap;
    var ntext, tmap := CollapseWs(text);
    var nsearch, _ := CollapseWs(search);
    CollapseNonEmpty(search);
    if nsearch == [] {
      r := Rejected(OnlyWhitespace);
    } else {
      var hits := Matches(ntext, nsearch, 0);
      if hits == [] {
        r := Rejected(NotFound);
      } else if |hits| > 1 {
        r := Rejected(Ambiguous(|hits|));
      } else {
        MatchesOccur(ntext, nsearch, 0);
        var ns := hits[0];
        assert ns in hits;
        var ne := ns + |nsearch|;
        var s, e := MapBack(text, ntext, tmap, ns, ne);
        r := Edited(text[..s] + replace + text[e..]);
        MappedIsFallback(text, search, replace, r.text, s, e, ns);
      }
    }
  }

  /** A byte range of the collapsed text, taken back to the text through the index map. */
  method MapBack(text: Bytes, ntext: Bytes, tmap: seq<nat>, ns: nat, ne: nat) returns (s: nat, e: nat)
    requires ntext == Collapse(text) && IndexMap(text, ntext, tmap) && ns < ne <= |ntext|
    ensures Region(text, s, e)
    ensures Collapse(text[..s]) == ntext[..ns] && Collapse(text[..e]) == ntext[..ne]
  {
    hide Collapse;
    s, e := tmap[ns], tmap[ne - 1] + 1;
    var runEnd := if ne < |tmap| then tmap[ne] else |text|;
    assert tmap[ne - 1] < runEnd;
    while e < runEnd && e < |text| && Ws(text[e])
      invariant tmap[ne - 1] < e <= runEnd
    {
      e := e + 1;
    }
    if e < runEnd { GapsAreWhitespace(text, ntext, tmap, ne - 1, e); }
    assert ns < ne - 1 ==> tmap[ns] < tmap[ne - 1];
    assert text[..|text|] == text;
  }

  lemma MappedIsFallback(text: Bytes, search: Bytes, replace: Bytes, result: Bytes, s: nat, e: nat, ns: nat)
    requires Region(text, s, e) && result == text[..s] + replace + text[e..]
    requires Matches(Collapse(text), Collapse(search), 0) == [ns]
    requires OccursAt(Collapse(text), Collapse(search), ns)
    requires Collapse(text[..s]) == Collapse(text)[..ns]
    requires Collapse(text[..e]) == Collapse(text)[..ns + |Collapse(search)|]
    ensures Fallback(text, search, replace, result, s, e)
  {
    hide Collapse, Matches;
    RegionCollapse(text, s, e);
    var ntext, nsearch := Collapse(text), Collapse(search);
    assert Collapse(text[s..e]) == (ntext[..ns] + Collapse(text[s..e]))[ns..]
           == ntext[..ns + |nsearch|][ns..] == nsearch;
  }

  /** An empty search is never reported as missing: it occurs in every text. */
  lemma EmptyMatches(text: Bytes, search: Bytes)
    ensures Matches(text, search, 0) == [] ==> search != []
  {
    if search == [] {
      EndMatches(text, 0);
    }
  }

  lemma {:induction false} EndMatches(text: Bytes, from: nat)
    requires from <= |text|
    ensures |text| in Matches(text, [], from)
    decreases |text| - from
  {
    if from < |text| { EndMatches(text, from + 1); }
  }

  lemma CollapseNonEmpty(s: Bytes)
    ensures s != [] ==> Collapse(s) != []
  {
    if s != [] {
      CollapseCut(s, 0);
      FirstStarts(s, |s|);
    }
  }

  lemma {:induction false} FirstStarts(s: Bytes, n: nat)
    requires 0 < n <= |s|
    ensures Collapse(s[..n]) != []
  {
    if n > 1 {
      FirstStarts(s, n - 1);
      assert s[..n][..n - 1] == s[..n - 1];
    }
  }

  /** No other region could have been meant: one with the same collapsed text overlaps the edited one. */
  lemma OnlyRegion(text: Bytes, search: Bytes, replace: Bytes, result: Bytes, s: nat, e: nat, s': nat, e': nat)
    requires search != [] && Fallback(text, search, replace, result, s, e)
    requires Region(text, s', e') && Collapse(text[s'..e']) == Collapse(search)
    ensures |Collapse(text[..s])| <= |Collapse(text[..s'])| < |Collapse(text[..e])|
  {
    RegionCollapse(text, s, e);
    RegionCollapse(text, s', e');
    CollapseNonEmpty(search);
    var ntext, nsearch, at := Collapse(text), Collapse(search), |Collapse(text[..s'])|;
    assert ntext[at..at + |nsearch|] == nsearch;
    assert OccursAt(ntext, nsearch, at);
    MatchesCover(ntext, nsearch, 0, at);
  }
}
