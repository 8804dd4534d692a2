/** Paging a file by lines (crates/tools-std/src/view.rs). */
module View {
  import opened Base

  const OUT_CAP: nat := 8000
  const VIEW_CAP: nat := 16384

  predicate Fits(s: string, cap: nat) {
    ByteLen(s) <= cap && |s| <= OUT_CAP
  }

  /** A page of whole lines, or the cut head of one line too long for any page. Line numbers count from 0 here. */
  datatype Page =
    | Lines(start: nat, shown: seq<string>, total: nat)
    | CutLine(start: nat, head: string, total: nat)

  datatype ViewResult = Shown(page: Page) | BeyondEnd(offset: nat, total: nat)

  function EndOf(p: Page): nat {
    match p
    case Lines(start, shown, _) => start + |shown|
    case CutLine(start, _, _) => start + 1
  }

  /** The offset the notice names; a page that reaches the last line whole names none. */
  function NextOffset(p: Page): Option<nat> {
    if p.Lines? && EndOf(p) >= p.total then None else Some(EndOf(p) + 1)
  }

  function Body(p: Page): string {
    match p
    case Lines(_, shown, _) => Join(shown)
    case CutLine(_, head, _) => head
  }

  /** The notice up to the offset it names. */
  function Lead(p: Page): string {
    match p
    case Lines(start, _, total) =>
      "\n[Showing lines " + Decimal(start + 1) + "-" + Decimal(EndOf(p)) + " of " + Decimal(total) + "."
    case CutLine(start, _, total) =>
      "\n[Line " + Decimal(start + 1) + " of " + Decimal(total) + " exceeds the read cap and was truncated."
  }

  function UseOffset(offset: nat): string {
    " Use offset=" + Decimal(offset) + " to continue.]"
  }

  function Text(p: Page): string {
    match p
    case Lines(start, shown, total) =>
      if EndOf(p) < total then Join(shown) + Lead(p) + UseOffset(EndOf(p) + 1) else Join(shown)
    case CutLine(start, head, _) => head + Lead(p) + UseOffset(start + 2)
  }

  function CapChars(s: string, n: nat): string {
    if |s| <= n then s else s[..n]
  }

  lemma JoinSize(shown: seq<string>, line: string)
    ensures var sep := if shown == [] then 0 else 1;
      && ByteLen(Join(shown + [line])) == ByteLen(Join(shown)) + ByteLen(line) + sep
      && |Join(shown + [line])| == |Join(shown)| + |line| + sep
  {
    JoinSnoc(shown, line);
    if shown != [] {
      ByteLenConcat(Join(shown) + "\n", line);
      ByteLenConcat(Join(shown), "\n");
      assert "\n"[..0] == "";
      assert ByteLen("\n") == 1;
    }
  }

  /** The page at line `start`: as many whole lines as both caps hold, or the head of one that alone exceeds them. */
  ghost predicate PageAt(all: seq<string>, start: nat, cap: nat, p: Page)
    requires start < |all|
  {
    && p.start == start && p.total == |all|
    && match p
       case Lines(_, shown, _) =>
         && shown != [] && start + |shown| <= |all| && shown == all[start..start + |shown|]
         && Fits(Join(shown), cap)
         && (start + |shown| < |all| ==> !Fits(Join(all[start..start + |shown| + 1]), cap))
       case CutLine(_, head, _) => !Fits(all[start], cap) && head == CapChars(all[start], Min(cap, OUT_CAP))
  }

  /** What one more line adds to both counts. */
  lemma NextLine(all: seq<string>, start: nat, i: nat)
    requires start <= i < |all|
    ensures var sep := if i == start then 0 else 1;
      && ByteLen(Join(all[start..i + 1])) == ByteLen(Join(all[start..i])) + ByteLen(all[i]) + sep
      && |Join(all[start..i + 1])| == |Join(all[start..i])| + |all[i]| + sep
    ensures ByteLen(Join(all[start..start])) == 0 && |Join(all[start..start])| == 0
  {
    JoinSize(all[start..i], all[i]);
    assert all[start..i + 1] == all[start..i] + [all[i]];
  }

  /** The page at an offset, its text, and whether the text tells the reader to continue. */
  method ViewPage(all: seq<string>, offset: nat, cap: nat) returns (r: ViewResult, text: string, more: bool)
    ensures var start := Max(offset, 1) - 1;
      if start >= |all| then r == BeyondEnd(offset, |all|) && text == "" && !more
      else
        && r.Shown? && PageAt(all, start, cap, r.page)
        && text == Text(r.page) && more == NextOffset(r.page).Some?
  {
    hide ByteLen, Join, Text;
    var start := Max(offset, 1) - 1;
    var total := |all|;
    if start >= total {
      return BeyondEnd(offset, total), "", false;
    }
    var shown: seq<string> := [];
    var bytes, chars := 0, 0;
    NextLine(all, start, start);
    var i := start;
    while i < total
      invariant start <= i <= total && shown == all[start..i]
      invariant bytes == ByteLen(Join(all[start..i])) && chars == |Join(all[start..i])|
      invariant bytes <= cap && chars <= OUT_CAP
    {
      var line := all[i];
      var sep := if shown != [] then 1 else 0;
      NextLine(all, start, i);
      if bytes + ByteLen(line) + sep > cap || chars + |line| + sep > OUT_CAP {
        break;
      }
      bytes := bytes + ByteLen(line) + sep;
      chars := chars + |line| + sep;
      shown := shown + [line];
      i := i + 1;
    }
    if shown == [] {
      r := Shown(CutLine(start, CapChars(all[start], Min(cap, OUT_CAP)), total));
      more := true;
    } else {
      r := Shown(Lines(start, shown, total));
      more := start + |shown| < total;
    }
    text := Text(r.page);
  }

  /** What the reader is told: the body, and after it exactly the offset that comes next, if any. */
  lemma NoticeNamesNext(p: Page)
    ensures Text(p) == Body(p) + match NextOffset(p) case None => "" case Some(n) => Lead(p) + UseOffset(n)
  {
    hide Lead, UseOffset, Join;
    assert Body(p) + "" == Body(p);
  }

  // ---- one page ----

  /** A joined prefix is never larger than the whole, and neither is any one line. */
  lemma {:induction false} PrefixSmaller(lines: seq<string>, n: nat)
    requires n <= |lines|
    ensures ByteLen(Join(lines[..n])) <= ByteLen(Join(lines)) && |Join(lines[..n])| <= |Join(lines)|
    ensures n < |lines| ==> ByteLen(lines[n]) <= ByteLen(Join(lines)) && |lines[n]| <= |Join(lines)|
    decreases |lines|
  {
    if n == |lines| {
      assert lines[..n] == lines;
    } else {
      var init := lines[..|lines| - 1];
      assert lines == init + [lines[|lines| - 1]];
      hide ByteLen, Join;
      JoinSize(init, lines[|lines| - 1]);
      assert init[..n] == lines[..n];
      PrefixSmaller(init, n);
    }
  }

  /** Every shorter page fits, and so does each of its lines. */
  lemma ShorterFits(all: seq<string>, start: nat, cap: nat, p: Page, n: nat)
    requires start < |all| && PageAt(all, start, cap, p) && p.Lines? && n <= |p.shown|
    ensures Fits(Join(all[start..start + n]), cap)
    ensures n < |p.shown| ==> Fits(all[start + n], cap)
  {
    hide ByteLen, Join;
    PrefixSmaller(p.shown, n);
    assert p.shown[..n] == all[start..start + n];
  }

  /** The caps leave no choice: one page only answers each offset. */
  lemma PageUnique(all: seq<string>, start: nat, cap: nat, p: Page, q: Page)
    requires start < |all| && PageAt(all, start, cap, p) && PageAt(all, start, cap, q)
    ensures p == q
  {
    hide ByteLen, Join;
    FirstFits(all, start, cap, p);
    FirstFits(all, start, cap, q);
    if p.Lines? && q.Lines? {
      NotLonger(all, start, cap, p, q);
      NotLonger(all, start, cap, q, p);
    }
  }

  lemma FirstFits(all: seq<string>, start: nat, cap: nat, p: Page)
    requires start < |all| && PageAt(all, start, cap, p)
    ensures p.Lines? ==> Fits(all[start], cap)
  {
    if p.Lines? { ShorterFits(all, start, cap, p, 0); }
  }

  lemma NotLonger(all: seq<string>, start: nat, cap: nat, p: Page, q: Page)
    requires start < |all| && PageAt(all, start, cap, p) && PageAt(all, start, cap, q) && p.Lines? && q.Lines?
    ensures |q.shown| <= |p.shown|
  {
    hide Fits, Join;
    if |p.shown| < |q.shown| { ShorterFits(all, start, cap, q, |p.shown| + 1); }
  }

  /** How many characters lie at `low` or above. */
  function CountFrom(s: string, low: nat): nat {
    if s == [] then 0 else CountFrom(s[..|s| - 1], low) + (if s[|s| - 1] as int >= low then 1 else 0)
  }

  /** The bytes that a text takes beyond one for each character. */
  function Surplus(s: string): nat {
    CountFrom(s, 0x80) + CountFrom(s, 0x800) + CountFrom(s, 0x10000)
  }

  lemma {:induction false} SurplusAdds(s: string)
    ensures ByteLen(s) == |s| + Surplus(s)
  {
    if s != [] { SurplusAdds(s[..|s| - 1]); }
  }

  /** The cut of this line, which counts characters, keeps the byte cap: it is made, and the wide characters among
      those it keeps leave room. Up to the character cap that means there are none. */
  predicate CutKeepsBytes(line: string, cap: nat) {
    if cap <= OUT_CAP then cap <= |line| && forall i :: 0 <= i < cap ==> line[i] as int < 0x80
    else OUT_CAP <= |line| && Surplus(line[..OUT_CAP]) <= cap - OUT_CAP
  }

  /** Every body keeps the character cap. A body of whole lines keeps the byte cap too; a cut line keeps it
      exactly when the leading characters that the cut keeps are narrow enough. */
  lemma BodyWithinCaps(all: seq<string>, start: nat, cap: nat, p: Page)
    requires start < |all| && PageAt(all, start, cap, p)
    ensures |Body(p)| <= OUT_CAP && |Body(p)| <= cap
    ensures ByteLen(Body(p)) <= cap <==> Fits(all[start], cap) || CutKeepsBytes(all[start], cap)
  {
    CharsAtMostBytes(Body(p));
    FirstFits(all, start, cap, p);
    if p.CutLine? { CutBytes(all[start], cap); }
  }

  lemma CutBytes(line: string, cap: nat)
    requires !Fits(line, cap)
    ensures ByteLen(CapChars(line, Min(cap, OUT_CAP))) <= cap <==> CutKeepsBytes(line, cap)
  {
    var n := Min(cap, OUT_CAP);
    if |line| >= n {
      assert |line| == n ==> line[..n] == line;
      if cap <= OUT_CAP { NarrowIff(line[..n]); } else { SurplusAdds(line[..n]); }
    }
  }

  lemma {:induction false} CountBounds(s: string, low: nat)
    ensures CountFrom(s, low) <= |s|
    ensures (forall i :: 0 <= i < |s| ==> s[i] as int < low) ==> CountFrom(s, low) == 0
    ensures (forall i :: 0 <= i < |s| ==> s[i] as int >= low) ==> CountFrom(s, low) == |s|
  {
    if s != [] { CountBounds(s[..|s| - 1], low); }
  }

  /** Under the tool's own cap a page keeps the byte cap when the leading characters of its first line take at most
      two bytes each, and a cut one breaks it when they all take three or more. */
  lemma DefaultCapBytes(all: seq<string>, start: nat, p: Page)
    requires start < |all| && PageAt(all, start, VIEW_CAP, p)
    ensures (forall i :: 0 <= i < |all[start]| && i < OUT_CAP ==> all[start][i] as int < 0x800) ==>
              ByteLen(Body(p)) <= VIEW_CAP
    ensures OUT_CAP <= |all[start]| && (forall i :: 0 <= i < OUT_CAP ==> all[start][i] as int >= 0x800) ==>
              ByteLen(Body(p)) >= 3 * OUT_CAP > VIEW_CAP
  {
    var head := CapChars(all[start], OUT_CAP);
    assert forall i :: 0 <= i < |head| ==> head[i] == all[start][i];
    SurplusAdds(head);
    CountBounds(head, 0x80);
    CountBounds(head, 0x800);
    CountBounds(head, 0x10000);
    FirstFits(all, start, VIEW_CAP, p);
    if |head| < |all[start]| {
      ByteLenConcat(head, all[start][OUT_CAP..]);
      assert head + all[start][OUT_CAP..] == all[start];
    }
  }

  /** As many bytes as characters means one byte each. */
  lemma {:induction false} NarrowIff(s: string)
    ensures |s| <= ByteLen(s)
    ensures ByteLen(s) == |s| <==> forall i :: 0 <= i < |s| ==> s[i] as int < 0x80
  {
    if s != [] { NarrowIff(s[..|s| - 1]); }
  }

  lemma {:induction false} CharsAtMostBytes(s: string)
    ensures |s| <= ByteLen(s)
  {
    if s != [] { CharsAtMostBytes(s[..|s| - 1]); }
  }

  /** A wide character beats the byte cap, and the page calls itself truncated though the line is whole. */
  lemma WideLineOverflows(p: Page)
    requires PageAt(["\U{00E9}"], 0, 1, p)
    ensures p == CutLine(0, "\U{00E9}", 1) && ByteLen(Body(p)) == 2
  {
    var line := "\U{00E9}";
    assert line[..0] == [];
    assert ByteLen(line) == 2;
    FirstFits([line], 0, 1, p);
  }

  // ---- following the offsets ----

  /** The pages a reader gets by asking for `offset` and then for each offset that a page names, until a page
      names none or the named one lies past the end. */
  ghost predicate Follows(all: seq<string>, offset: Option<nat>, cap: nat, pages: seq<Page>)
    decreases |pages|
  {
    if offset.None? || Max(offset.value, 1) - 1 >= |all| then pages == []
    else
      && pages != [] && PageAt(all, Max(offset.value, 1) - 1, cap, pages[0])
      && Follows(all, NextOffset(pages[0]), cap, pages[1..])
  }

  function ShownBy(p: Page): seq<string> {
    match p
    case Lines(_, shown, _) => shown
    case CutLine(_, head, _) => [head]
  }

  function Flatten(pages: seq<Page>): seq<string> {
    if pages == [] then [] else ShownBy(pages[0]) + Flatten(pages[1..])
  }

  /** A line as paging shows it: whole, unless it alone exceeds a cap. */
  function Trimmed(line: string, cap: nat): string {
    if Fits(line, cap) then line else CapChars(line, Min(cap, OUT_CAP))
  }

  function AllTrimmed(lines: seq<string>, cap: nat): seq<string> {
    seq(|lines|, i requires 0 <= i < |lines| => Trimmed(lines[i], cap))
  }

  lemma PageShows(all: seq<string>, start: nat, cap: nat, p: Page)
    requires start < |all| && PageAt(all, start, cap, p)
    ensures start < EndOf(p) <= |all|
    ensures ShownBy(p) == AllTrimmed(all[start..EndOf(p)], cap)
  {
    if p.Lines? {
      forall i | 0 <= i < |p.shown| ensures p.shown[i] == Trimmed(all[start + i], cap) {
        ShorterFits(all, start, cap, p, i);
      }
    }
  }

  lemma TrimmedConcat(a: seq<string>, b: seq<string>, cap: nat)
    ensures AllTrimmed(a + b, cap) == AllTrimmed(a, cap) + AllTrimmed(b, cap)
  {
    hide Trimmed;
  }

  lemma {:induction false} PagingFrom(all: seq<string>, start: nat, cap: nat, pages: seq<Page>)
    requires start <= |all| && Follows(all, Some(start + 1), cap, pages)
    ensures Flatten(pages) == AllTrimmed(all[start..], cap) && |pages| <= |all| - start
    decreases |pages|
  {
    hide PageAt, AllTrimmed, ShownBy, EndOf, NextOffset, Flatten, Fits, Join;
    NothingToTrim(all, cap);
    NothingShown();
    if start < |all| {
      FirstPage(all, start, cap, pages);
      var next, rest := EndOf(pages[0]), pages[1..];
      CoversOn(all, start, next, cap, pages);
      if NextOffset(pages[0]).Some? {
        PagingFrom(all, next, cap, rest);
      }
    }
  }

  /** One step of following the offsets: the first page, and what is asked after it. */
  lemma FirstPage(all: seq<string>, start: nat, cap: nat, pages: seq<Page>)
    requires start < |all| && Follows(all, Some(start + 1), cap, pages)
    ensures pages != [] && start < EndOf(pages[0]) <= |all|
    ensures ShownBy(pages[0]) == AllTrimmed(all[start..EndOf(pages[0])], cap)
    ensures NextOffset(pages[0]).Some? ==> Follows(all, Some(EndOf(pages[0]) + 1), cap, pages[1..])
    ensures NextOffset(pages[0]).None? ==> EndOf(pages[0]) == |all| && pages[1..] == []
  {
    hide PageAt, AllTrimmed, ShownBy, EndOf, NextOffset;
    PageShows(all, start, cap, pages[0]);
    NextIsEnd(all, start, cap, pages[0]);
  }

  lemma NothingShown()
    ensures Flatten([]) == []
  {
  }

  /** Paging from any offset shows every line from there on once, in order, and ends. */
  lemma {:induction false} PagingCovers(all: seq<string>, offset: nat, cap: nat, pages: seq<Page>)
    requires Max(offset, 1) - 1 <= |all| && Follows(all, Some(offset), cap, pages)
    ensures Flatten(pages) == AllTrimmed(all[Max(offset, 1) - 1..], cap)
    ensures |pages| <= |all| - (Max(offset, 1) - 1)
  {
    hide PageAt, NextOffset, AllTrimmed, Flatten;
    PagingFrom(all, Max(offset, 1) - 1, cap, pages);
  }

  lemma CoversOn(all: seq<string>, start: nat, next: nat, cap: nat, pages: seq<Page>)
    requires start <= next <= |all| && pages != [] && ShownBy(pages[0]) == AllTrimmed(all[start..next], cap)
    ensures Flatten(pages[1..]) == AllTrimmed(all[next..], cap) ==> Flatten(pages) == AllTrimmed(all[start..], cap)
  {
    hide AllTrimmed, ShownBy;
    assert all[start..] == all[start..next] + all[next..];
    TrimmedConcat(all[start..next], all[next..], cap);
  }

  lemma NextIsEnd(all: seq<string>, start: nat, cap: nat, p: Page)
    requires start < |all| && PageAt(all, start, cap, p)
    ensures NextOffset(p).Some? ==> NextOffset(p).value == EndOf(p) + 1
    ensures NextOffset(p).None? ==> EndOf(p) == |all|
  {
  }

  lemma NothingToTrim(all: seq<string>, cap: nat)
    ensures AllTrimmed(all[|all|..], cap) == []
  {
  }
}
