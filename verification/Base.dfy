/** Shared vocabulary: options, fixed-width unsigned arithmetic, decimal text. */
module Base {
  datatype Option<+T> = None | Some(value: T)

  function Optional<T>(t: Option<T>): seq<T> {
    if t.Some? then [t.value] else []
  }

  const U32_MAX: nat := 0xFFFF_FFFF
  const U64_MAX: nat := 0xFFFF_FFFF_FFFF_FFFF

  newtype byte = x: int | 0 <= x < 256
  type Bytes = seq<byte>

  predicate OccursAt<T(==)>(text: seq<T>, pat: seq<T>, i: nat) {
    i + |pat| <= |text| && text[i..i + |pat|] == pat
  }

  function Min(a: nat, b: nat): nat {
    if a <= b then a else b
  }

  function Max(a: nat, b: nat): nat {
    if a >= b then a else b
  }

  /** `saturating_add` of an unsigned integer whose largest value is `top`. */
  function SatAdd(a: nat, b: nat, top: nat): nat {
    if a + b <= top then a + b else top
  }

  /** `saturating_sub` of an unsigned integer. */
  function SatSub(a: nat, b: nat): nat {
    if a >= b then a - b else 0
  }

  function Digit(d: nat): char
    requires d < 10
  {
    (48 + d) as char
  }

  /** Decimal rendering, as `{n}` prints it. */
  function Decimal(n: nat): string {
    if n < 10 then [Digit(n)] else Decimal(n / 10) + [Digit(n % 10)]
  }

  /** Lines joined by newlines, as `join("\n")` does. */
  function Join(lines: seq<string>): string {
    if lines == [] then ""
    else if |lines| == 1 then lines[0]
    else Join(lines[..|lines| - 1]) + "\n" + lines[|lines| - 1]
  }

  lemma JoinSnoc(lines: seq<string>, line: string)
    ensures Join(lines + [line]) == if lines == [] then line else Join(lines) + "\n" + line
  {
    assert (lines + [line])[..|lines|] == lines;
  }

  /** `char::is_whitespace`. */
  predicate White(c: char) {
    var n := c as int;
    || 9 <= n <= 13 || n == 32 || n == 0x85 || n == 0xA0 || n == 0x1680 || 0x2000 <= n <= 0x200A
    || n == 0x2028 || n == 0x2029 || n == 0x202F || n == 0x205F || n == 0x3000
  }

  function TrimStart(s: string): string {
    if s != [] && White(s[0]) then TrimStart(s[1..]) else s
  }

  function TrimEnd(s: string): string {
    if s != [] && White(s[|s| - 1]) then TrimEnd(s[..|s| - 1]) else s
  }

  function Trim(s: string): string {
    TrimEnd(TrimStart(s))
  }

  /** `split_whitespace`, with the word being read. */
  function Words(s: string, word: string): seq<string> {
    var done := if word == [] then [] else [word];
    if s == [] then done
    else if White(s[0]) then done + Words(s[1..], [])
    else Words(s[1..], word + [s[0]])
  }

  /** UTF-8 bytes of a character. */
  function Width(c: char): nat {
    if c as int < 0x80 then 1 else if c as int < 0x800 then 2 else if c as int < 0x1_0000 then 3 else 4
  }

  function ByteLen(s: string): nat {
    if s == [] then 0 else ByteLen(s[..|s| - 1]) + Width(s[|s| - 1])
  }

  lemma {:induction false} ByteLenConcat(a: string, b: string)
    ensures ByteLen(a + b) == ByteLen(a) + ByteLen(b)
  {
    if b == [] {
      assert a + b == a;
    } else {
      ByteLenConcat(a, b[..|b| - 1]);
      assert (a + b)[..|a + b| - 1] == a + b[..|b| - 1];
    }
  }
}
