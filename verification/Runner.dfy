/** Child-process plumbing: the bounded pipe reader and the quote-aware command
    splitter (crates/tools-std/src/runner.rs). */
module Runner {
  import opened Base

  const PIPE_HEAD_CAP: nat := 65536
  const PIPE_TAIL_CAP: nat := 65536

  // ---- what a whole stream leaves ----

  function HeadOf(s: Bytes): Bytes {
    s[..Min(PIPE_HEAD_CAP, |s|)]
  }

  function BodyOf(s: Bytes): Bytes {
    s[|HeadOf(s)|..]
  }

  function Capped(tail: Bytes): Bytes {
    if |tail| > PIPE_TAIL_CAP then tail[|tail| - PIPE_TAIL_CAP..] else tail
  }

  function TailOf(s: Bytes): Bytes {
    Capped(BodyOf(s))
  }

  function DroppedOf(s: Bytes): nat {
    |s| - |HeadOf(s)| - |TailOf(s)|
  }

  function Ascii(text: string): Bytes {
    seq(|text|, i requires 0 <= i < |text| => (text[i] as int % 256) as byte)
  }

  function Notice(dropped: nat): Bytes {
    Ascii("\n[..." + Decimal(dropped) + " bytes of child output omitted: bounded read keeps head+tail]\n")
  }

  /** What the reader reports for a stream read to its end. */
  function Report(s: Bytes): Bytes {
    HeadOf(s) + (if DroppedOf(s) > 0 then Notice(DroppedOf(s)) else []) + TailOf(s)
  }

  function Concat(chunks: seq<Bytes>): Bytes {
    if chunks == [] then [] else Concat(chunks[..|chunks| - 1]) + chunks[|chunks| - 1]
  }

  // ---- the reader ----

  class BoundedOut {
    var head: Bytes
    var tail: Bytes
    var total: nat
    ghost var stream: Bytes

    constructor ()
      ensures Holds() && stream == []
    {
      head, tail, total, stream := [], [], 0, [];
      new;
      assert HeadOf([]) == [] && BodyOf([]) == [];
    }

    /** The retained bytes are those of the whole stream so far. */
    ghost predicate Holds()
      reads this
    {
      head == HeadOf(stream) && tail == TailOf(stream) && total == |stream|
    }

    method Push(chunk: Bytes)
      requires Holds()
      modifies this
      ensures Holds() && stream == old(stream) + chunk
    {
      hide HeadOf, BodyOf, TailOf;
      PushKeeps(stream, chunk);
      total := total + |chunk|;
      var rest := chunk;
      if |head| < PIPE_HEAD_CAP {
        var take := Min(PIPE_HEAD_CAP - |head|, |rest|);
        head := head + rest[..take];
        rest := rest[take..];
      }
      if rest != [] {
        tail := tail + rest;
        if |tail| > PIPE_TAIL_CAP {
          tail := tail[|tail| - PIPE_TAIL_CAP..];
        }
      }
      stream := stream + chunk;
    }

    method Bytes() returns (out: Bytes)
      requires Holds()
      ensures out == Report(stream)
    {
      var dropped := total - (|head| + |tail|);
      out := head;
      if dropped > 0 {
        out := out + Notice(dropped);
      }
      out := out + tail;
    }
  }

  /** The part of a chunk that the head has no room for. */
  function AfterHead(s: Bytes, chunk: Bytes): Bytes {
    if |HeadOf(s)| < PIPE_HEAD_CAP then chunk[Min(PIPE_HEAD_CAP - |HeadOf(s)|, |chunk|)..] else chunk
  }

  lemma HeadFills(s: Bytes, chunk: Bytes)
    ensures
      var after := AfterHead(s, chunk);
      HeadOf(s + chunk) == HeadOf(s) + chunk[..|chunk| - |after|] && BodyOf(s + chunk) == BodyOf(s) + after
  {
    if |s| >= PIPE_HEAD_CAP {
      assert chunk[..0] == [];
    }
  }

  lemma TailSlides(t: Bytes, more: Bytes)
    ensures Capped(t + more) == Capped(Capped(t) + more)
  {
  }

  /** One more chunk: the head fills first, the rest slides through the tail. */
  lemma PushKeeps(s: Bytes, chunk: Bytes)
    ensures
      var after := AfterHead(s, chunk);
      && HeadOf(s + chunk) == HeadOf(s) + chunk[..|chunk| - |after|]
      && TailOf(s + chunk) == if after == [] then TailOf(s) else Capped(TailOf(s) + after)
  {
    HeadFills(s, chunk);
    hide HeadOf, BodyOf, Capped;
    var after := AfterHead(s, chunk);
    TailSlides(BodyOf(s), after);
    assert BodyOf(s) + [] == BodyOf(s);
  }

  /** For every way the bytes arrive in chunks, the reader ends as if they had come at once. */
  method DrainPipe(chunks: seq<Bytes>) returns (out: BoundedOut)
    ensures fresh(out) && out.Holds() && out.stream == Concat(chunks)
  {
    out := new BoundedOut();
    var i := 0;
    assert chunks[..0] == [];
    while i < |chunks|
      invariant i <= |chunks| && out.Holds() && out.stream == Concat(chunks[..i]) && fresh(out)
    {
      assert chunks[..i + 1][..i] == chunks[..i];
      out.Push(chunks[i]);
      i := i + 1;
    }
    assert chunks[..|chunks|] == chunks;
  }

  /** Nothing is invented and nothing reordered: the stream is head, a gap of the counted size, tail. */
  lemma OnlyTheMiddleIsLost(s: Bytes)
    ensures var h, t, d := HeadOf(s), TailOf(s), DroppedOf(s);
      && s == h + s[|h|..|h| + d] + t
      && |t| == Min(PIPE_TAIL_CAP, |s| - |h|)
      && (d > 0 ==> |h| == PIPE_HEAD_CAP && |t| == PIPE_TAIL_CAP)
      && (d == 0 <==> |s| <= PIPE_HEAD_CAP + PIPE_TAIL_CAP)
  {
  }

  /** A stream within the caps is reported exactly. */
  lemma ShortStreamsWhole(s: Bytes)
    requires |s| <= PIPE_HEAD_CAP + PIPE_TAIL_CAP
    ensures Report(s) == s
  {
    OnlyTheMiddleIsLost(s);
  }

  // ---- splitting a command ----

  /** The words of `s`, with the word being read, the open quote, and whether an ordinary character was read. */
  function SplitFrom(s: string, cur: string, quote: Option<char>, pushed: bool): seq<string> {
    if s == [] then (if cur != [] || pushed then [cur] else [])
    else
      var c, rest := s[0], s[1..];
      if quote.None? && (c == '\'' || c == '"') then SplitFrom(rest, cur, Some(c), pushed)
      else if quote == Some(c) then SplitFrom(rest, cur, None, pushed)
      else if c == '\\' then
        if rest != [] then SplitFrom(rest[1..], cur + [rest[0]], quote, pushed) else SplitFrom(rest, cur, quote, pushed)
      else if quote.None? && White(c) then
        if cur != [] || pushed then [cur] + SplitFrom(rest, [], None, false) else SplitFrom(rest, cur, None, pushed)
      else SplitFrom(rest, cur + [c], quote, true)
  }

  method SplitCmd(cmd: string) returns (parts: seq<string>)
    ensures parts == SplitFrom(cmd, [], None, false)
  {
    parts := [];
    var cur: string := [];
    var quote: Option<char> := None;
    var pushed := false;
    var i := 0;
    assert cmd[0..] == cmd;
    while i < |cmd|
      invariant i <= |cmd|
      invariant parts + SplitFrom(cmd[i..], cur, quote, pushed) == SplitFrom(cmd, [], None, false)
    {
      var c := cmd[i];
      assert cmd[i..][0] == c && cmd[i..][1..] == cmd[i + 1..];
      i := i + 1;
      if quote.None? && (c == '\'' || c == '"') {
        quote := Some(c);
      } else if quote == Some(c) {
        quote := None;
      } else if c == '\\' {
        if i < |cmd| {
          assert cmd[i..][0] == cmd[i] && cmd[i..][1..] == cmd[i + 1..];
          cur := cur + [cmd[i]];
          i := i + 1;
        }
      } else if quote.None? && White(c) {
        if cur != [] || pushed {
          parts, cur, pushed := parts + [cur], [], false;
        }
      } else {
        cur, pushed := cur + [c], true;
      }
    }
    if cur != [] || pushed {
      parts := parts + [cur];
    }
  }

  predicate Plain(c: char) {
    c != '\'' && c != '"' && c != '\\'
  }

  /** Without quotes and backslashes the split is the whitespace split. */
  lemma {:induction false} PlainSplit(s: string, cur: string)
    requires forall i :: 0 <= i < |s| ==> Plain(s[i])
    ensures SplitFrom(s, cur, None, cur != []) == Words(s, cur)
    decreases |s|
  {
    if s != [] {
      PlainSplit(s[1..], if White(s[0]) then [] else cur + [s[0]]);
    }
  }

  /** An argument as a caller quotes it. */
  function Escaped(a: string): string {
    if a == [] then []
    else (if a[0] == '"' || a[0] == '\\' then ['\\', a[0]] else [a[0]]) + Escaped(a[1..])
  }

  function Quoted(a: string): string {
    ['"'] + Escaped(a) + ['"']
  }

  function CommandLine(args: seq<string>): string {
    if args == [] then [] else Quoted(args[0]) + [' '] + CommandLine(args[1..])
  }

  function NonEmpty(args: seq<string>): seq<string> {
    if args == [] then [] else (if args[0] == [] then [] else [args[0]]) + NonEmpty(args[1..])
  }

  /** Once a character is read, the flag no longer matters. */
  lemma {:induction false} FlagIdle(s: string, cur: string, quote: Option<char>)
    requires cur != []
    ensures SplitFrom(s, cur, quote, true) == SplitFrom(s, cur, quote, false)
    decreases |s|
  {
    if s != [] {
      var c, rest := s[0], s[1..];
      if quote.None? && (c == '\'' || c == '"') {
        FlagIdle(rest, cur, Some(c));
      } else if quote == Some(c) {
        FlagIdle(rest, cur, None);
      } else if c == '\\' {
        if rest != [] { FlagIdle(rest[1..], cur + [rest[0]], quote); } else { FlagIdle(rest, cur, quote); }
      }
    }
  }

  lemma ReadEscape(c: char, rest: string, cur: string)
    ensures SplitFrom(['\\', c] + rest, cur, Some('"'), false) == SplitFrom(rest, cur + [c], Some('"'), false)
  {
    var s := ['\\', c] + rest;
    assert s[1..] == [c] + rest && s[1..][1..] == rest;
  }

  lemma ReadPlain(c: char, rest: string, cur: string)
    requires c != '"' && c != '\\'
    ensures SplitFrom([c] + rest, cur, Some('"'), false) == SplitFrom(rest, cur + [c], Some('"'), false)
  {
    assert ([c] + rest)[1..] == rest;
    FlagIdle(rest, cur + [c], Some('"'));
  }

  lemma ReadQuote(rest: string, cur: string, quote: Option<char>)
    requires quote.None? || quote == Some('"')
    ensures SplitFrom(['"'] + rest, cur, quote, false) ==
            SplitFrom(rest, cur, if quote.None? then Some('"') else None, false)
  {
    assert (['"'] + rest)[1..] == rest;
  }

  lemma {:induction false} EscapedReads(a: string, tail: string, cur: string)
    ensures SplitFrom(Escaped(a) + tail, cur, Some('"'), false) == SplitFrom(tail, cur + a, Some('"'), false)
    decreases |a|
  {
    hide SplitFrom;
    if a == [] {
      assert Escaped(a) + tail == tail && cur + a == cur;
    } else {
      var c, more := a[0], Escaped(a[1..]) + tail;
      EscapedReads(a[1..], tail, cur + [c]);
      assert cur + [c] + a[1..] == cur + a;
      if c == '"' || c == '\\' {
        assert Escaped(a) + tail == ['\\', c] + more;
        ReadEscape(c, more, cur);
      } else {
        assert Escaped(a) + tail == [c] + more;
        ReadPlain(c, more, cur);
      }
    }
  }

  lemma ReadArgument(a: string, rest: string)
    ensures SplitFrom(Quoted(a) + [' '] + rest, [], None, false)
            == (if a == [] then [] else [a]) + SplitFrom(rest, [], None, false)
  {
    var after := [' '] + rest;
    assert after[1..] == rest;
    assert Quoted(a) + [' '] + rest == ['"'] + (Escaped(a) + (['"'] + after));
    ReadQuote(Escaped(a) + (['"'] + after), [], None);
    EscapedReads(a, ['"'] + after, []);
    assert [] + a == a;
    ReadQuote(after, a, Some('"'));
  }

  /** Quoting round-trips: splitting a quoted command line gives the arguments back, less the empty ones. */
  lemma {:induction false} QuotingRoundTrips(args: seq<string>)
    ensures SplitFrom(CommandLine(args), [], None, false) == NonEmpty(args)
  {
    if args != [] {
      hide SplitFrom;
      QuotingRoundTrips(args[1..]);
      ReadArgument(args[0], CommandLine(args[1..]));
    }
  }

  /** An empty quoted argument is lost, and nothing else is. */
  lemma LosesOnlyEmpty(args: seq<string>)
    ensures SplitFrom(CommandLine(args), [], None, false) == args <==> [] !in args
  {
    QuotingRoundTrips(args);
    NonEmptyIdle(args);
  }

  lemma {:induction false} NonEmptyIdle(args: seq<string>)
    ensures |NonEmpty(args)| <= |args|
    ensures NonEmpty(args) == args <==> [] !in args
    ensures |NonEmpty(args)| == |args| ==> [] !in args
  {
    if args != [] {
      NonEmptyIdle(args[1..]);
      assert args == [args[0]] + args[1..];
    }
  }
}
