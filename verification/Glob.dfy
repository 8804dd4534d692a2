/** The deny-glob matcher (crates/tools-std/src/policy.rs) against the language its patterns denote. */
module Glob {
  import opened Base

  const STAR: byte := 42
  const SLASH: byte := 47

  // ---- what a pattern means ----

  datatype Tok =
    | Lit(b: byte)  // that byte
    | Star          // any run without a slash
    | Dirs          // nothing, or anything up to and including a slash
    | Deep          // anything

  predicate DirsAhead(p: Bytes) {
    |p| >= 3 && p[0] == STAR && p[1] == STAR && p[2] == SLASH
  }

  /** The length of the leading run of stars. */
  function Stars(p: Bytes): (q: nat)
    ensures q <= |p| && (q < |p| ==> p[q] != STAR)
    ensures forall i :: 0 <= i < q ==> p[i] == STAR
  {
    if p == [] || p[0] != STAR then 0 else 1 + Stars(p[1..])
  }

  /** Two stars mean anything only at the end of the pattern; inside it a run that no slash follows is one star. */
  function Tokens(p: Bytes): seq<Tok> {
    if p == [] then []
    else if DirsAhead(p) then [Dirs] + Tokens(p[3..])
    else if p[0] == STAR then
      var q := Stars(p);
      if q < |p| then [Star] + Tokens(p[q..]) else if q >= 2 then [Deep] else [Star]
    else [Lit(p[0])] + Tokens(p[1..])
  }

  predicate Accepts(t: Tok, w: Bytes) {
    match t
    case Lit(b) => w == [b]
    case Star => SLASH !in w
    case Dirs => w == [] || w[|w| - 1] == SLASH
    case Deep => true
  }

  /** The path splits into one piece per token. */
  predicate Denotes(ts: seq<Tok>, s: Bytes) {
    if ts == [] then s == []
    else exists k: nat :: k <= |s| && Accepts(ts[0], s[..k]) && Denotes(ts[1..], s[k..])
  }

  // ---- the matcher ----

  method GlobMatch(pat: Bytes, path: Bytes) returns (r: bool)
    ensures r <==> Denotes(Tokens(pat), path)
  {
    r := Go(pat, path);
  }

  method Go(p: Bytes, s: Bytes) returns (r: bool)
    ensures r <==> Denotes(Tokens(p), s)
    decreases |p|
  {
    if p == [] {
      return s == [];
    }
    hide Denotes;
    if DirsAhead(p) {
      r := GoDirs(p, s);
      return;
    }
    if p[0] == STAR {
      r := GoStar(p, s);
      return;
    }
    if s == [] || p[0] != s[0] {
      LitStep(p[0], Tokens(p[1..]), s);
      return false;
    }
    r := Go(p[1..], s[1..]);
    LitStep(p[0], Tokens(p[1..]), s);
  }

  method GoDirs(p: Bytes, s: Bytes) returns (r: bool)
    requires DirsAhead(p)
    ensures r <==> Denotes(Tokens(p), s)
    decreases |p|, 0
  {
    ghost var ts := Tokens(p[3..]);
    assert Tokens(p) == [Dirs] + ts;
    hide Tokens, Denotes, NoSplitBy;
    r := Go(p[3..], s);
    assert s[0..] == s;
    if r {
      Split(Dirs, ts, s, 0);
      return;
    }
    NotAtOnce(ts, s);
    var i := 0;
    while i < |s|
      invariant i <= |s| && NoSplitBy(ts, s, i)
    {
      var from := i;
      while i < |s| && s[i] != SLASH
        invariant from <= i <= |s| && forall k :: from <= k < i ==> s[k] != SLASH
      {
        i := i + 1;
      }
      NotInside(ts, s, from, i);
      if i >= |s| {
        break;
      }
      i := i + 1;
      r := Go(p[3..], s[i..]);
      if r {
        assert s[..i][i - 1] == SLASH;
        Split(Dirs, ts, s, i);
        return;
      }
      NotThere(ts, s, i);
    }
    NeverSplit(ts, s);
    r := false;
  }

  /** No directories of at most `i` bytes leave a tail with the rest of the pattern. */
  ghost predicate NoSplitBy(ts: seq<Tok>, s: Bytes, i: nat)
    requires i <= |s|
  {
    forall k: nat :: k <= i && Accepts(Dirs, s[..k]) ==> !Denotes(ts, s[k..])
  }

  lemma NotAtOnce(ts: seq<Tok>, s: Bytes)
    requires !Denotes(ts, s)
    ensures NoSplitBy(ts, s, 0)
  {
    hide Denotes;
    assert s[0..] == s;
  }

  lemma NotInside(ts: seq<Tok>, s: Bytes, from: nat, i: nat)
    requires from <= i <= |s| && NoSplitBy(ts, s, from) && forall k :: from <= k < i ==> s[k] != SLASH
    ensures NoSplitBy(ts, s, i)
  {
    hide Denotes;
    forall k: nat | from < k <= i ensures !Accepts(Dirs, s[..k]) { assert s[..k][k - 1] == s[k - 1]; }
  }

  lemma NotThere(ts: seq<Tok>, s: Bytes, i: nat)
    requires 1 <= i <= |s| && NoSplitBy(ts, s, i - 1) && !Denotes(ts, s[i..])
    ensures NoSplitBy(ts, s, i)
  {
    hide Denotes, Accepts;
  }

  lemma NeverSplit(ts: seq<Tok>, s: Bytes)
    requires NoSplitBy(ts, s, |s|)
    ensures !Denotes([Dirs] + ts, s)
  {
    hide Denotes, Accepts;
    NoSplit(Dirs, ts, s);
  }

  method GoStar(p: Bytes, s: Bytes) returns (r: bool)
    requires p != [] && p[0] == STAR && !DirsAhead(p)
    ensures r <==> Denotes(Tokens(p), s)
    decreases |p|, 0
  {
    StarTokens(p);
    hide Tokens, Denotes;
    var q := 1;
    while q < |p| && p[q] == STAR
      invariant 1 <= q <= |p| && forall k :: 0 <= k < q ==> p[k] == STAR
    {
      q := q + 1;
    }
    assert q == Stars(p);
    if q == |p| {
      r := q >= 2 || SLASH !in s;
      WholeRest(if q >= 2 then Deep else Star, s);
      return;
    }
    ghost var ts := Tokens(p[q..]);
    var i := 0;
    while true
      invariant i <= |s| && SLASH !in s[..i]
      invariant forall k: nat :: k < i ==> !Denotes(ts, s[k..])
      decreases |s| - i
    {
      r := Go(p[q..], s[i..]);
      if r {
        Split(Star, ts, s, i);
        return;
      }
      if i >= |s| || s[i] == SLASH {
        assert forall k: nat :: i < k <= |s| ==> s[..k][i] == SLASH;
        NoSplit(Star, ts, s);
        return false;
      }
      assert s[..i + 1] == s[..i] + [s[i]];
      i := i + 1;
    }
  }

  lemma StarTokens(p: Bytes)
    requires p != [] && p[0] == STAR && !DirsAhead(p)
    ensures var q := Stars(p);
      Tokens(p) == if q < |p| then [Star] + Tokens(p[q..]) else [if q >= 2 then Deep else Star]
  {
  }

  lemma Split(t: Tok, ts: seq<Tok>, s: Bytes, k: nat)
    requires k <= |s| && Accepts(t, s[..k]) && Denotes(ts, s[k..])
    ensures Denotes([t] + ts, s)
  {
    assert ([t] + ts)[1..] == ts;
  }

  lemma NoSplit(t: Tok, ts: seq<Tok>, s: Bytes)
    requires forall k: nat :: k <= |s| && Accepts(t, s[..k]) ==> !Denotes(ts, s[k..])
    ensures !Denotes([t] + ts, s)
  {
    assert ([t] + ts)[1..] == ts;
  }

  lemma WholeRest(t: Tok, s: Bytes)
    requires t.Deep? || t.Star?
    ensures Denotes([t], s) <==> Accepts(t, s)
  {
    assert [t] == [t] + [];
    assert s[..|s|] == s && s[|s|..] == [];
    if Accepts(t, s) {
      Split(t, [], s, |s|);
    } else {
      NoSplit(t, [], s);
    }
  }

  lemma LitStep(b: byte, ts: seq<Tok>, s: Bytes)
    ensures Denotes([Lit(b)] + ts, s) <==> s != [] && s[0] == b && Denotes(ts, s[1..])
  {
    if s != [] && s[0] == b && Denotes(ts, s[1..]) {
      assert s[..1] == [b];
      Split(Lit(b), ts, s, 1);
    } else {
      forall k: nat | k <= |s| && Accepts(Lit(b), s[..k]) ensures !Denotes(ts, s[k..]) {
        assert |s[..k]| == 1 && s[..k][0] == b;
      }
      NoSplit(Lit(b), ts, s);
    }
  }

  // ---- what follows for callers ----

  function Slashes(s: Bytes): nat {
    if s == [] then 0 else Slashes(s[..|s| - 1]) + if s[|s| - 1] == SLASH then 1 else 0
  }

  lemma {:induction false} SlashesConcat(a: Bytes, b: Bytes)
    ensures Slashes(a + b) == Slashes(a) + Slashes(b)
  {
    if b == [] {
      assert a + b == a;
    } else {
      SlashesConcat(a, b[..|b| - 1]);
      assert (a + b)[..|a + b| - 1] == a + b[..|b| - 1];
    }
  }

  lemma {:induction false} NoSlashes(s: Bytes)
    ensures Slashes(s) == 0 <==> SLASH !in s
  {
    if s != [] {
      NoSlashes(s[..|s| - 1]);
      assert s == s[..|s| - 1] + [s[|s| - 1]];
    }
  }

  /** No two stars in a row. */
  predicate Shallow(p: Bytes) {
    |p| < 2 || (!(p[0] == STAR && p[1] == STAR) && Shallow(p[1..]))
  }

  lemma StarCut(ts: seq<Tok>, s: Bytes) returns (k: nat)
    requires Denotes([Star] + ts, s)
    ensures k <= |s| && SLASH !in s[..k] && Denotes(ts, s[k..])
  {
    assert ([Star] + ts)[1..] == ts;
    k :| k <= |s| && Accepts(Star, s[..k]) && Denotes(ts, s[k..]);
  }

  lemma SlashHead(s: Bytes)
    requires s != []
    ensures Slashes(s) == (if s[0] == SLASH then 1 else 0) + Slashes(s[1..])
  {
    assert s == [s[0]] + s[1..];
    assert [s[0]][..0] == [];
    SlashesConcat([s[0]], s[1..]);
  }

  lemma SlashFree(s: Bytes, k: nat)
    requires k <= |s| && SLASH !in s[..k]
    ensures Slashes(s) == Slashes(s[k..])
  {
    assert s == s[..k] + s[k..];
    SlashesConcat(s[..k], s[k..]);
    NoSlashes(s[..k]);
  }

  /** Without `**`, a match has exactly the pattern's directory depth. */
  lemma {:induction false} StarsStayInDirectory(p: Bytes, s: Bytes)
    requires Shallow(p) && Denotes(Tokens(p), s)
    ensures Slashes(s) == Slashes(p)
    decreases |p|
  {
    if p != [] {
      var rest := p[1..];
      SlashHead(p);
      assert Shallow(rest);
      if p[0] == STAR {
        assert Stars(p) == 1;
        assert Tokens(p) == [Star] + Tokens(rest);
        hide *;
        var k := StarCut(Tokens(rest), s);
        SlashFree(s, k);
        StarsStayInDirectory(rest, s[k..]);
      } else {
        assert Tokens(p) == [Lit(p[0])] + Tokens(rest);
        hide *;
        LitStep(p[0], Tokens(rest), s);
        SlashHead(s);
        StarsStayInDirectory(rest, s[1..]);
      }
    }
  }

  lemma {:induction false} LiteralOnly(name: Bytes, s: Bytes)
    requires STAR !in name
    ensures Denotes(Tokens(name), s) <==> s == name
    decreases |name|
  {
    if name != [] {
      LitStep(name[0], Tokens(name[1..]), s);
      assert name == [name[0]] + name[1..];
      if s != [] {
        assert s == [s[0]] + s[1..];
        LiteralOnly(name[1..], s[1..]);
      }
    }
  }

  /** When only the tail from `at` on meets the rest of a pattern, the leading element must meet all before it. */
  lemma OnlyTail(t: Tok, ts: seq<Tok>, s: Bytes, at: nat)
    requires at <= |s| && forall k :: 0 <= k <= |s| ==> (Denotes(ts, s[k..]) <==> k == at)
    ensures Denotes([t] + ts, s) <==> Accepts(t, s[..at])
  {
    hide Denotes, Accepts;
    if Accepts(t, s[..at]) {
      Split(t, ts, s, at);
    } else {
      NoSplit(t, ts, s);
    }
  }

  lemma LeadingDirs(name: Bytes)
    ensures Tokens([STAR, STAR, SLASH] + name) == [Dirs] + Tokens(name)
  {
    assert ([STAR, STAR, SLASH] + name)[3..] == name;
  }

  lemma NameFrom(name: Bytes, path: Bytes, k: nat)
    requires STAR !in name && k <= |path|
    ensures Denotes(Tokens(name), path[k..]) <==> path[k..] == name
    ensures path[k..] == name ==> k == |path| - |name|
  {
    hide Tokens, Denotes;
    LiteralOnly(name, path[k..]);
  }

  /** Directories before a plain name take up all that precedes its one place, the end of the path. */
  lemma DirsThenName(name: Bytes, path: Bytes, at: int)
    requires STAR !in name && at == |path| - |name|
    ensures Denotes([Dirs] + Tokens(name), path) <==> at >= 0 && path[at..] == name && Accepts(Dirs, path[..at])
  {
    hide Tokens, Denotes, Accepts;
    var ts := Tokens(name);
    if at >= 0 && path[at..] == name {
      forall k: nat | k <= |path| ensures Denotes(ts, path[k..]) <==> k == at { NameFrom(name, path, k); }
      OnlyTail(Dirs, ts, path, at);
    } else {
      forall k: nat | k <= |path| ensures !Denotes(ts, path[k..]) { NameFrom(name, path, k); }
      NoSplit(Dirs, ts, path);
    }
  }

  /** A leading double star makes a plain name match at every depth: at the root, or after any slash. */
  lemma NameAtAnyDepth(name: Bytes, path: Bytes)
    requires STAR !in name
    ensures
      Denotes(Tokens([STAR, STAR, SLASH] + name), path) <==>
      path == name || (|path| > |name| && path[|path| - |name| - 1] == SLASH && path[|path| - |name|..] == name)
  {
    hide Tokens, Denotes;
    var at := |path| - |name|;
    LeadingDirs(name);
    DirsThenName(name, path, at);
    if at == 0 {
      assert path[0..] == path;
    } else if at > 0 {
      assert path[..at][at - 1] == path[at - 1];
    }
  }
}
