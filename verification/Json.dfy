/** The two salvage scanners for truncated or sloppy tool arguments
    (crates/provider-core/src/json.rs). Escapes are those of section 7 of RFC 8259. */
module Json {
  import opened Base

  // ---- the bracket scan ----

  datatype Lex = Lex(inStr: bool, esc: bool, stack: seq<char>)

  const START := Lex(false, false, [])

  function Feed(l: Lex, c: char): Lex {
    if l.inStr then
      if l.esc then l.(esc := false)
      else if c == '\\' then l.(esc := true)
      else if c == '"' then l.(inStr := false)
      else l
    else if c == '"' then l.(inStr := true)
    else if c == '{' then l.(stack := l.stack + ['}'])
    else if c == '[' then l.(stack := l.stack + [']'])
    else if (c == '}' || c == ']') && l.stack != [] && l.stack[|l.stack| - 1] == c then
      l.(stack := l.stack[..|l.stack| - 1])
    else l
  }

  function Run(l: Lex, s: string): Lex {
    if s == [] then l else Feed(Run(l, s[..|s| - 1]), s[|s| - 1])
  }

  lemma {:induction false} RunConcat(l: Lex, a: string, b: string)
    ensures Run(l, a + b) == Run(Run(l, a), b)
  {
    if b == [] {
      assert a + b == a;
    } else {
      RunConcat(l, a, b[..|b| - 1]);
      assert (a + b)[..|a + b| - 1] == a + b[..|b| - 1];
    }
  }

  lemma RunOne(l: Lex, c: char)
    ensures Run(l, [c]) == Feed(l, c)
  {
    assert [c][..0] == [];
  }

  /** Outside every string, with no bracket open. */
  predicate Balanced(s: string) {
    Run(START, s) == START
  }

  // ---- closing ----

  predicate Dangling(c: char) {
    White(c) || c == ',' || c == ':'
  }

  /** The text without its trailing whitespace, commas and colons. */
  function DropTail(s: string): string {
    if s != [] && Dangling(s[|s| - 1]) then DropTail(s[..|s| - 1]) else s
  }

  function Reversed(s: string): string {
    if s == [] then [] else [s[|s| - 1]] + Reversed(s[..|s| - 1])
  }

  function Closed(s: string): string {
    var l := Run(START, s);
    DropTail(s) + (if l.inStr then ['"'] else []) + Reversed(l.stack)
  }

  lemma {:induction false} DropsTrimmed(s: string)
    ensures DropTail(TrimEnd(s)) == DropTail(s)
  {
    if s != [] && White(s[|s| - 1]) { DropsTrimmed(s[..|s| - 1]); }
  }

  method CloseTruncated(s: string) returns (out: string)
    ensures out == Closed(s)
  {
    var stack: seq<char> := [];
    var inStr, esc := false, false;
    var i := 0;
    while i < |s|
      invariant i <= |s|
      invariant Lex(inStr, esc, stack) == Run(START, s[..i])
    {
      var c := s[i];
      assert s[..i + 1][..i] == s[..i];
      if inStr {
        if esc {
          esc := false;
        } else if c == '\\' {
          esc := true;
        } else if c == '"' {
          inStr := false;
        }
      } else if c == '"' {
        inStr := true;
      } else if c == '{' {
        stack := stack + ['}'];
      } else if c == '[' {
        stack := stack + [']'];
      } else if (c == '}' || c == ']') && stack != [] && stack[|stack| - 1] == c {
        stack := stack[..|stack| - 1];
      }
      i := i + 1;
    }
    assert s[..|s|] == s;
    out := TrimTail(s);
    if inStr {
      out := out + ['"'];
    }
    out := CloseAll(out, stack);
  }

  /** The open brackets closed, innermost first. */
  method CloseAll(text: string, open: seq<char>) returns (out: string)
    ensures out == text + Reversed(open)
  {
    var stack := open;
    out := text;
    while stack != []
      invariant out + Reversed(stack) == text + Reversed(open)
      decreases |stack|
    {
      out, stack := out + [stack[|stack| - 1]], stack[..|stack| - 1];
    }
    assert out + [] == out;
  }

  method TrimTail(s: string) returns (out: string)
    ensures out == DropTail(s)
  {
    hide TrimEnd;
    DropsTrimmed(s);
    out := TrimEnd(s);
    while true
      invariant DropTail(out) == DropTail(s)
      decreases |out|
    {
      var t := TrimEnd(out);
      DropsTrimmed(out);
      TrimShortens(out);
      if t != [] && (t[|t| - 1] == ',' || t[|t| - 1] == ':') {
        out := t[..|t| - 1];
      } else {
        out := t;
        break;
      }
    }
  }

  lemma {:induction false} TrimShortens(s: string)
    ensures |TrimEnd(s)| <= |s| && (TrimEnd(s) != [] ==> !White(TrimEnd(s)[|TrimEnd(s)| - 1]))
  {
    if s != [] && White(s[|s| - 1]) { TrimShortens(s[..|s| - 1]); }
  }

  // ---- when closing closes ----

  /** In every scan, an escape is pending only inside a string and only right after a backslash. */
  lemma {:induction false} EscapeInString(s: string)
    ensures Run(START, s).esc ==>
              && Run(START, s).inStr && s != [] && s[|s| - 1] == '\\'
              && Run(START, s[..|s| - 1]).inStr && !Run(START, s[..|s| - 1]).esc
  {
    if s != [] { EscapeInString(s[..|s| - 1]); }
  }

  /** Dropping the tail changes nothing but a pending escape that the tail had absorbed. */
  lemma {:induction false} TailIsInert(s: string)
    ensures Run(START, DropTail(s)).inStr == Run(START, s).inStr
    ensures Run(START, DropTail(s)).stack == Run(START, s).stack
    ensures DropTail(s) <= s
    ensures |DropTail(s)| < |s| ==> Dangling(s[|DropTail(s)|])
  {
    if s != [] && Dangling(s[|s| - 1]) {
      TailIsInert(s[..|s| - 1]);
      EscapeInString(s[..|s| - 1]);
    }
  }

  predicate OnlyClosers(stack: seq<char>) {
    forall i :: 0 <= i < |stack| ==> stack[i] == '}' || stack[i] == ']'
  }

  lemma {:induction false} StackHoldsClosers(s: string)
    ensures OnlyClosers(Run(START, s).stack)
  {
    if s != [] { StackHoldsClosers(s[..|s| - 1]); }
  }

  lemma {:induction false} ClosersPop(l: Lex)
    requires !l.inStr && !l.esc && OnlyClosers(l.stack)
    ensures Run(l, Reversed(l.stack)) == l.(stack := [])
    decreases |l.stack|
  {
    if l.stack != [] {
      var n := |l.stack| - 1;
      var popped := l.(stack := l.stack[..n]);
      ClosersPop(popped);
      RunConcat(l, [l.stack[n]], Reversed(popped.stack));
      RunOne(l, l.stack[n]);
    }
  }

  /** `close_truncated` balances a text exactly when trimming leaves no escape pending. */
  lemma ClosesIff(s: string)
    ensures Balanced(Closed(s)) <==> !Run(START, DropTail(s)).esc
  {
    var t := DropTail(s);
    var l := Run(START, t);
    TailIsInert(s);
    StackHoldsClosers(t);
    EscapeInString(t);
    var quote := if l.inStr then ['"'] else [];
    RunConcat(START, t + quote, Reversed(l.stack));
    RunConcat(START, t, quote);
    if l.inStr { RunOne(l, '"'); }
    assert Run(l, quote) == if l.esc then l.(esc := false) else l.(inStr := false);
    hide Feed, DropTail;
    if l.esc {
      StaysInString(l.(esc := false), Reversed(l.stack), l.stack);
    } else {
      ClosersPop(l.(inStr := false));
    }
  }

  lemma {:induction false} StaysInString(l: Lex, s: string, stack: seq<char>)
    requires l.inStr && !l.esc && OnlyClosers(stack) && s == Reversed(stack)
    ensures Run(l, s) == l
    decreases |stack|
  {
    if stack != [] {
      var n := |stack| - 1;
      RunConcat(l, [stack[n]], Reversed(stack[..n]));
      RunOne(l, stack[n]);
      StaysInString(l, Reversed(stack[..n]), stack[..n]);
    }
  }

  /** Trimming can uncover an escape: a string cut after a backslash and a space is not closed. */
  lemma DanglingEscape()
    ensures !Balanced(Closed(['"', '\\', ' ']))
  {
    var s := ['"', '\\', ' '];
    assert s[..2] == ['"', '\\'] && s[..2][..1] == ['"'] && s[..2][..1][..0] == [];
    assert DropTail(s) == s[..2];
    assert Run(START, s[..2][..1]) == START.(inStr := true);
    assert Run(START, s[..2]).esc;
    ClosesIff(s);
  }

  // ---- repairing ----

  predicate EscLetter(c: char) {
    c == '"' || c == '\\' || c == '/' || c == 'b' || c == 'f' || c == 'n' || c == 'r' || c == 't' || c == 'u'
  }

  function HexDigit(d: nat): char
    requires d < 16
  {
    if d < 10 then (48 + d) as char else (87 + d) as char
  }

  /** The escape written for a raw control character. */
  function Patch(c: char): string
    requires c as int < 0x20
  {
    if c == '\n' then ['\\', 'n']
    else if c == '\r' then ['\\', 'r']
    else if c == '\t' then ['\\', 't']
    else ['\\', 'u', '0', '0', HexDigit(c as int / 16), HexDigit(c as int % 16)]
  }

  function RepairFrom(s: string, inStr: bool, esc: bool): string {
    if s == [] then []
    else
      var c, rest := s[0], s[1..];
      if !inStr then [c] + RepairFrom(rest, c == '"', false)
      else if esc then [c] + RepairFrom(rest, true, false)
      else if c == '\\' then
        if rest != [] && EscLetter(rest[0]) then ['\\'] + RepairFrom(rest, true, true)
        else ['\\', '\\'] + RepairFrom(rest, true, false)
      else if c == '"' then [c] + RepairFrom(rest, false, false)
      else if c as int < 0x20 then Patch(c) + RepairFrom(rest, true, false)
      else [c] + RepairFrom(rest, true, false)
  }

  function Repaired(s: string): string {
    RepairFrom(s, false, false)
  }

  /** What one character writes, and the flags it leaves. */
  function Emit(s: string, inStr: bool, esc: bool): (string, bool, bool)
    requires s != []
  {
    var c, known := s[0], |s| > 1 && EscLetter(s[1]);
    if !inStr then ([c], c == '"', esc)
    else if esc then ([c], true, false)
    else if c == '\\' then (if known then [c] else ['\\', '\\'], true, known)
    else if c == '"' then ([c], false, false)
    else (if c as int < 0x20 then Patch(c) else [c], true, false)
  }

  lemma EmitStep(s: string, inStr: bool, esc: bool)
    requires s != [] && (esc ==> inStr)
    ensures var e := Emit(s, inStr, esc);
      RepairFrom(s, inStr, esc) == e.0 + RepairFrom(s[1..], e.1, e.2) && (e.2 ==> e.1)
  {
    hide Patch, EscLetter;
  }

  /** One character read, with a look at the next. */
  method RepairOne(s: string, i: nat, inStr: bool, esc: bool) returns (piece: string, inStr': bool, esc': bool)
    requires i < |s|
    ensures (piece, inStr', esc') == Emit(s[i..], inStr, esc)
  {
    hide Patch, EscLetter;
    var c := s[i];
    piece, inStr', esc' := [c], inStr, esc;
    if inStr {
      if esc {
        esc' := false;
      } else if c == '\\' {
        if i + 1 < |s| && EscLetter(s[i + 1]) {
          esc' := true;
        } else {
          piece := ['\\', '\\'];
        }
      } else if c == '"' {
        inStr' := false;
      } else if c as int < 0x20 {
        piece := Patch(c);
      }
    } else if c == '"' {
      inStr' := true;
    }
  }

  lemma NothingLeft(inStr: bool, esc: bool)
    ensures RepairFrom([], inStr, esc) == []
  {
  }

  method RepairJson(s: string) returns (out: string)
    ensures out == Repaired(s)
  {
    hide Emit, RepairFrom;
    out := [];
    var inStr, esc := false, false;
    var i := 0;
    assert s[0..] == s;
    while i < |s|
      invariant i <= |s| && (esc ==> inStr)
      invariant out + RepairFrom(s[i..], inStr, esc) == Repaired(s)
    {
      EmitStep(s[i..], inStr, esc);
      assert s[i..][1..] == s[i + 1..];
      var piece;
      piece, inStr, esc := RepairOne(s, i, inStr, esc);
      out := out + piece;
      i := i + 1;
    }
    NothingLeft(inStr, esc);
    assert s[|s|..] == [] && out + [] == out;
  }

  // ---- what repair leaves ----

  /** Inside a string, position `i` is no raw control character, and a backslash starts a known escape. */
  predicate CleanAt(l: Lex, t: string, i: nat)
    requires i < |t|
  {
    var at := Run(l, t[..i]);
    at.inStr && !at.esc ==> t[i] as int >= 0x20 && (t[i] == '\\' ==> i + 1 < |t| && EscLetter(t[i + 1]))
  }

  predicate Clean(l: Lex, t: string) {
    forall i :: 0 <= i < |t| ==> CleanAt(l, t, i)
  }

  lemma CleanShift(l: Lex, a: string, b: string, i: nat)
    requires i < |b|
    ensures CleanAt(l, a + b, |a| + i) <==> CleanAt(Run(l, a), b, i)
  {
    assert (a + b)[..|a| + i] == a + b[..i];
    RunConcat(l, a, b[..i]);
  }

  lemma CleanCons(l: Lex, c: char, t: string)
    ensures Clean(l, [c] + t) <==>
      && Clean(Feed(l, c), t)
      && (l.inStr && !l.esc ==> c as int >= 0x20 && (c == '\\' ==> t != [] && EscLetter(t[0])))
  {
    hide EscLetter, Feed;
    var s := [c] + t;
    RunOne(l, c);
    assert s[..0] == [];
    assert CleanAt(l, s, 0) <==> (l.inStr && !l.esc ==> c as int >= 0x20 && (c == '\\' ==> t != [] && EscLetter(t[0])));
    forall i: nat | i < |t|
      ensures CleanAt(l, s, i + 1) <==> CleanAt(Feed(l, c), t, i)
    {
      CleanShift(l, [c], t, i);
    }
    hide CleanAt;
    if Clean(l, s) {
      forall i: nat | i < |t| ensures CleanAt(Feed(l, c), t, i) { assert CleanAt(l, s, i + 1); }
    }
    if Clean(Feed(l, c), t) && CleanAt(l, s, 0) {
      forall i: nat | i < |s| ensures CleanAt(l, s, i) {
        if i > 0 { assert CleanAt(Feed(l, c), t, i - 1); }
      }
    }
  }

  lemma CleanAppend(l: Lex, a: string, b: string)
    requires Clean(l, a) && Clean(Run(l, a), b)
    ensures Clean(l, a + b)
  {
    hide Run, EscLetter;
    forall i: nat | i < |a + b| ensures CleanAt(l, a + b, i) {
      if i < |a| {
        assert (a + b)[..i] == a[..i];
        assert CleanAt(l, a, i);
      } else {
        CleanShift(l, a, b, i - |a|);
        assert CleanAt(Run(l, a), b, i - |a|);
      }
    }
  }

  /** A patched control character is clean text and leaves the scan where it was. */
  lemma PatchIsClean(l: Lex, c: char)
    requires l.inStr && !l.esc && c as int < 0x20
    ensures Clean(l, Patch(c)) && Run(l, Patch(c)) == l
  {
    var p := Patch(c);
    var pending := l.(esc := true);
    assert Feed(l, '\\') == pending && Feed(pending, p[1]) == l;
    hide Clean, Feed, Run;
    PlainIsClean(l, p[2..]);
    assert p[1..] == [p[1]] + p[2..] && p == ['\\'] + p[1..];
    CleanCons(pending, p[1], p[2..]);
    CleanCons(l, '\\', p[1..]);
    RunConcat(pending, [p[1]], p[2..]);
    RunConcat(l, ['\\'], p[1..]);
    RunOne(pending, p[1]);
    RunOne(l, '\\');
  }

  lemma {:induction false} PlainIsClean(l: Lex, t: string)
    requires l.inStr && !l.esc && forall i :: 0 <= i < |t| ==> t[i] as int >= 0x20 && t[i] != '\\' && t[i] != '"'
    ensures Clean(l, t) && Run(l, t) == l
  {
    if t != [] {
      PlainIsClean(l, t[1..]);
      assert t == [t[0]] + t[1..];
      CleanCons(l, t[0], t[1..]);
      RunConcat(l, [t[0]], t[1..]);
      RunOne(l, t[0]);
    }
  }

  /** The scan stands inside an escape only where repair left one open. */
  predicate InStep(l: Lex, s: string) {
    l.esc ==> l.inStr && s != [] && EscLetter(s[0])
  }

  lemma RunCons(l: Lex, c: char, t: string)
    ensures Run(l, [c] + t) == Run(Feed(l, c), t)
  {
    RunConcat(l, [c], t);
    RunOne(l, c);
  }

  lemma Doubled(l: Lex)
    requires l.inStr && !l.esc
    ensures Clean(l, ['\\', '\\']) && Run(l, ['\\', '\\']) == l
  {
    var pending := l.(esc := true);
    assert ['\\', '\\'] == ['\\'] + ['\\'] && ['\\'] == ['\\'] + [];
    CleanCons(pending, '\\', []);
    CleanCons(l, '\\', ['\\']);
    RunCons(l, '\\', ['\\']);
    RunOne(pending, '\\');
  }

  /** A backslash that starts no known escape leaves the scan where skipping it would. */
  lemma StrayIsInert(l: Lex, rest: string)
    requires l.inStr && !l.esc && !InStep(l.(esc := true), rest)
    ensures Run(l, ['\\'] + rest).(esc := false) == Run(l, rest).(esc := false)
  {
    RunCons(l, '\\', rest);
    if rest != [] {
      assert rest == [rest[0]] + rest[1..];
      RunCons(l, rest[0], rest[1..]);
      RunCons(l.(esc := true), rest[0], rest[1..]);
    }
  }

  /** Repair leaves clean text with no escape pending, and moves no string end and no bracket. */
  lemma {:induction false} RepairCleans(l: Lex, s: string)
    requires InStep(l, s)
    ensures
      var r := RepairFrom(s, l.inStr, l.esc);
      Clean(l, r) && Run(l, r) == Run(l, s).(esc := false)
    decreases |s|
  {
    if s != [] {
      var c, rest := s[0], s[1..];
      assert s == [c] + rest;
      RunCons(l, c, rest);
      if l.inStr && !l.esc && c == '\\' && !InStep(l.(esc := true), rest) {
        hide Patch, Clean, Run, Feed;
        RepairCleans(l, rest);
        StrayIsInert(l, rest);
        Doubled(l);
        CleanAppend(l, ['\\', '\\'], RepairFrom(rest, true, false));
        RunConcat(l, ['\\', '\\'], RepairFrom(rest, true, false));
      } else if l.inStr && !l.esc && c as int < 0x20 {
        assert Feed(l, c) == l;
        hide Patch, Clean, Run, Feed;
        RepairCleans(l, rest);
        PatchIsClean(l, c);
        CleanAppend(l, Patch(c), RepairFrom(rest, true, false));
        RunConcat(l, Patch(c), RepairFrom(rest, true, false));
      } else {
        var next := Feed(l, c);
        RepairCleans(next, rest);
        var r := RepairFrom(rest, next.inStr, next.esc);
        assert RepairFrom(s, l.inStr, l.esc) == [c] + r;
        if next.esc { RepairHead(rest, next.inStr, next.esc); }
        hide Clean, Run, Feed, RepairFrom;
        CleanCons(l, c, r);
        RunCons(l, c, r);
      }
    }
  }

  lemma RepairHead(s: string, inStr: bool, esc: bool)
    requires s != [] && esc
    ensures RepairFrom(s, inStr, esc) != [] && RepairFrom(s, inStr, esc)[0] == s[0]
  {
  }

  /** Trimming clean text uncovers no escape: what follows its backslashes is never trimmed. */
  lemma CleanTail(r: string)
    requires Clean(START, r) && !Run(START, r).esc
    ensures !Run(START, DropTail(r)).esc
  {
    hide Run, Feed, DropTail;
    var t := DropTail(r);
    TailIsInert(r);
    EscapeInString(t);
    if |t| == |r| {
      assert t == r;
    } else if t != [] {
      var i := |t| - 1;
      assert t[..i] == r[..i];
      assert CleanAt(START, r, i);
    }
  }

  /** Whatever the input, closing what repair wrote leaves every string and bracket closed. */
  lemma SalvageCloses(s: string)
    ensures Balanced(Closed(Repaired(s)))
  {
    RepairCleans(START, s);
    CleanTail(Repaired(s));
    ClosesIff(Repaired(s));
  }

  lemma {:induction false} CleanStays(l: Lex, s: string)
    requires InStep(l, s) && Clean(l, s)
    ensures RepairFrom(s, l.inStr, l.esc) == s
    decreases |s|
  {
    if s != [] {
      assert s == [s[0]] + s[1..];
      CleanCons(l, s[0], s[1..]);
      hide Clean;
      CleanStays(Feed(l, s[0]), s[1..]);
    }
  }

  /** Repair leaves a text alone exactly when its strings hold no raw control character and no unknown escape. */
  lemma RepairIdleIff(s: string)
    ensures Repaired(s) == s <==> Clean(START, s)
  {
    RepairCleans(START, s);
    if Clean(START, s) { CleanStays(START, s); }
  }

  /** Repairing twice is repairing once. */
  lemma RepairIdempotent(s: string)
    ensures Repaired(Repaired(s)) == Repaired(s)
  {
    RepairCleans(START, s);
    CleanStays(START, Repaired(s));
  }

  // ---- what a text says ----

  /** Structure outside strings, code units inside; `BadEscape` is a `\u` without its four digits. */
  datatype Piece = Mark(c: char) | Unit(code: nat) | BadEscape

  function HexOf(c: char): Option<nat> {
    if '0' <= c <= '9' then Some(c as int - 48)
    else if 'a' <= c <= 'f' then Some(c as int - 87)
    else if 'A' <= c <= 'F' then Some(c as int - 55)
    else None
  }

  /** The value of `k` leading hex digits. */
  function HexRun(s: string, k: nat, acc: nat): Option<nat> {
    if k == 0 then Some(acc)
    else if s == [] || HexOf(s[0]).None? then None
    else HexRun(s[1..], k - 1, acc * 16 + HexOf(s[0]).value)
  }

  function Escaped(c: char): nat
    requires EscLetter(c) && c != 'u'
  {
    match c
    case 'b' => 8
    case 'f' => 12
    case 'n' => 10
    case 'r' => 13
    case 't' => 9
    case _ => c as int
  }

  /** The lenient reading: a raw control character and a stray backslash stand for themselves.
      On clean text neither occurs and this is the reading of RFC 8259. */
  function Read(s: string, inStr: bool): seq<Piece> {
    if s == [] then []
    else
      var c, rest := s[0], s[1..];
      if !inStr then [Mark(c)] + Read(rest, c == '"')
      else if c == '"' then [Mark(c)] + Read(rest, false)
      else if c != '\\' || rest == [] || !EscLetter(rest[0]) then [Unit(c as int)] + Read(rest, true)
      else if rest[0] != 'u' then [Unit(Escaped(rest[0]))] + Read(rest[1..], true)
      else
        var code := HexRun(rest[1..], 4, 0);
        if code.Some? && |rest| >= 5 then [Unit(code.value)] + Read(rest[5..], true)
        else [BadEscape] + Read(rest[1..], true)
  }

  /** Repair leaves a leading hex digit as it is, and puts none where there was none. */
  lemma HexHead(s: string)
    ensures
      var r := RepairFrom(s, true, false);
      if s != [] && HexOf(s[0]).Some? then r == [s[0]] + RepairFrom(s[1..], true, false)
      else r == [] || HexOf(r[0]).None?
  {
  }

  /** Repair neither makes nor breaks a run of hex digits. */
  lemma {:induction false} HexKept(s: string, k: nat, acc: nat)
    ensures
      var r := RepairFrom(s, true, false);
      && HexRun(r, k, acc) == HexRun(s, k, acc)
      && (HexRun(s, k, acc).Some? ==> k <= |s| && |r| >= k && r[k..] == RepairFrom(s[k..], true, false))
    decreases k
  {
    HexHead(s);
    hide RepairFrom, HexOf;
    var r := RepairFrom(s, true, false);
    if k == 0 {
      assert r[0..] == r && s[0..] == s;
    } else if s != [] && HexOf(s[0]).Some? {
      var value := acc * 16 + HexOf(s[0]).value;
      HexKept(s[1..], k - 1, value);
      assert r[1..] == RepairFrom(s[1..], true, false);
      assert HexRun(s, k, acc) == HexRun(s[1..], k - 1, value) && HexRun(r, k, acc) == HexRun(r[1..], k - 1, value);
      assert k <= |s| ==> s[k..] == s[1..][k - 1..];
    } else {
      assert HexRun(s, k, acc).None? && HexRun(r, k, acc).None?;
    }
  }

  lemma PatchReads(c: char, t: string)
    requires c as int < 0x20
    ensures Read(Patch(c) + t, true) == [Unit(c as int)] + Read(t, true)
  {
    var s := Patch(c) + t;
    var rest := s[1..];
    assert s[0] == '\\' && rest[0] == Patch(c)[1];
    if rest[0] == 'u' {
      var hi, lo := HexDigit(c as int / 16), HexDigit(c as int % 16);
      assert HexOf(hi) == Some(c as int / 16) && HexOf(lo) == Some(c as int % 16);
      var h := rest[1..];
      assert h == ['0', '0', hi, lo] + t;
      HexStep(h, 4, 0);
      HexStep(h[1..], 3, 0);
      HexStep(h[2..], 2, 0);
      HexStep(h[3..], 1, c as int / 16);
      assert rest[5..] == t;
    } else {
      assert rest[1..] == t;
    }
  }

  lemma HexStep(s: string, k: nat, acc: nat)
    requires s != [] && k > 0 && HexOf(s[0]).Some?
    ensures HexRun(s, k, acc) == HexRun(s[1..], k - 1, acc * 16 + HexOf(s[0]).value)
  {
  }

  /** Repair changes how a text is spelled, never what it says. */
  lemma {:induction false} RepairKeepsMeaning(s: string, inStr: bool)
    ensures Read(RepairFrom(s, inStr, false), inStr) == Read(s, inStr)
    decreases |s|
  {
    if s != [] {
      var c, rest := s[0], s[1..];
      if !inStr {
        RepairKeepsMeaning(rest, c == '"');
      } else if c == '"' {
        RepairKeepsMeaning(rest, false);
      } else if c as int < 0x20 {
        RepairKeepsMeaning(rest, true);
        PatchReads(c, RepairFrom(rest, true, false));
      } else if c != '\\' || rest == [] || !EscLetter(rest[0]) {
        RepairKeepsMeaning(rest, true);
        var r := RepairFrom(s, true, false);
        if c == '\\' { assert r[1..][1..] == RepairFrom(rest, true, false); }
      } else {
        var tail := RepairFrom(rest[1..], true, false);
        assert RepairFrom(s, true, false)[1..] == [rest[0]] + tail;
        assert ([rest[0]] + tail)[1..] == tail;
        RepairKeepsMeaning(rest[1..], true);
        if rest[0] == 'u' {
          HexKept(rest[1..], 4, 0);
          if HexRun(rest[1..], 4, 0).Some? {
            RepairKeepsMeaning(rest[5..], true);
            assert ([rest[0]] + tail)[5..] == tail[4..] && rest[1..][4..] == rest[5..];
          }
        }
      }
    }
  }

  // ---- the cascade ----

  function TrimWhere(p: char -> bool, s: string): string {
    if s != [] && p(s[|s| - 1]) then TrimWhere(p, s[..|s| - 1]) else s
  }

  /** A text without its trailing partial literal and the separators before it. `word` is what a literal is made of. */
  function CutLiteral(word: char -> bool, s: string): string {
    TrimEnd(TrimWhere(c => c == ':', TrimWhere(c => c == ',', TrimEnd(TrimWhere(word, TrimEnd(s))))))
  }

  function PartialParse<V>(parse: string -> Option<V>, word: char -> bool, s: string): Option<V> {
    var cut := CutLiteral(word, s);
    if parse(Closed(s)).Some? then parse(Closed(s))
    else if |cut| < |TrimEnd(s)| then parse(Closed(cut))
    else None
  }

  /** Valid, repaired, partial, partial of repaired, and at last the empty object. */
  function ParseStreaming<V>(parse: string -> Option<V>, word: char -> bool, empty: V, s: string): V {
    if parse(s).Some? then parse(s).value
    else if parse(Repaired(s)).Some? then parse(Repaired(s)).value
    else if PartialParse(parse, word, s).Some? then PartialParse(parse, word, s).value
    else if PartialParse(parse, word, Repaired(s)).Some? then PartialParse(parse, word, Repaired(s)).value
    else empty
  }

  /** A text that the salvage may hand to the parser: the input or its repair, whole or cut short and closed. */
  ghost predicate Salvaged(s: string, t: string) {
    || t == s || t == Repaired(s)
    || exists p: string :: t == Closed(p) && (p <= s || p <= Repaired(s))
  }

  lemma {:induction false} TrimWherePrefix(p: char -> bool, s: string)
    ensures TrimWhere(p, s) <= s
  {
    if s != [] && p(s[|s| - 1]) { TrimWherePrefix(p, s[..|s| - 1]); }
  }

  lemma {:induction false} TrimEndPrefix(s: string)
    ensures TrimEnd(s) <= s
  {
    if s != [] && White(s[|s| - 1]) { TrimEndPrefix(s[..|s| - 1]); }
  }

  lemma CutIsPrefix(word: char -> bool, s: string)
    ensures CutLiteral(word, s) <= s
  {
    var a := TrimEnd(s);
    var b := TrimWhere(word, a);
    var c := TrimEnd(b);
    var d := TrimWhere(x => x == ',', c);
    var e := TrimWhere(x => x == ':', d);
    TrimEndPrefix(s);
    TrimWherePrefix(word, a);
    TrimEndPrefix(b);
    TrimWherePrefix(x => x == ',', c);
    TrimWherePrefix(x => x == ':', d);
    TrimEndPrefix(e);
  }

  /** The salvage never fails and never invents: its value is the empty object, or what the parser made of the
      input or its repair, whole or cut short and closed; and a text that parses is taken as it stands. */
  lemma SalvageOrigin<V>(parse: string -> Option<V>, word: char -> bool, empty: V, s: string)
    ensures
      var v := ParseStreaming(parse, word, empty, s);
      v == empty || exists t :: Salvaged(s, t) && parse(t) == Some(v)
    ensures parse(s).Some? ==> ParseStreaming(parse, word, empty, s) == parse(s).value
  {
    hide Closed, Repaired, CutLiteral;
    CutIsPrefix(word, s);
    CutIsPrefix(word, Repaired(s));
    assert Salvaged(s, s) && Salvaged(s, Repaired(s));
    assert Salvaged(s, Closed(s)) && Salvaged(s, Closed(Repaired(s)));
    assert Salvaged(s, Closed(CutLiteral(word, s))) && Salvaged(s, Closed(CutLiteral(word, Repaired(s))));
  }
}
