/** The append-only log file: one record per LF-terminated line, repaired on open,
    read back with a torn last line dropped (crates/agent-log/src/writer.rs, reader.rs).
    The JSON codec is a parameter; `Lawful` says what is assumed of it. */
module LogFile {
  import opened Base
  import opened Items

  const LF: byte := 10
  const CR: byte := 13

  datatype Codec<!T> = Codec(encode: T -> seq<byte>, decode: seq<byte> -> Option<T>)

  /** Decoding inverts encoding; a record is LF-free, does not end in CR, and no proper prefix of one decodes. */
  ghost predicate LawfulFor<T>(c: Codec<T>, t: T) {
    var body := c.encode(t);
    && body != [] && LF !in body && body[|body| - 1] != CR
    && c.decode(body) == Some(t)
    && forall n :: 0 <= n < |body| ==> c.decode(body[..n]) == None
  }

  ghost predicate Lawful<T(!new)>(c: Codec<T>) {
    forall t: T :: LawfulFor(c, t)
  }

  /** The file content of whole records. */
  function Frames<T>(c: Codec<T>, records: seq<T>): seq<byte> {
    if records == [] then [] else Frames(c, records[..|records| - 1]) + c.encode(records[|records| - 1]) + [LF]
  }

  lemma FramesSnoc<T>(c: Codec<T>, records: seq<T>, t: T)
    ensures Frames(c, records + [t]) == Frames(c, records) + c.encode(t) + [LF]
  {
    assert (records + [t])[..|records|] == records;
  }

  lemma FramesEndInLf<T>(c: Codec<T>, records: seq<T>)
    ensures records != [] ==> Frames(c, records) != [] && Frames(c, records)[|Frames(c, records)| - 1] == LF
  {
  }

  /** Bytes to keep so that the file ends on a record boundary: everything up to the last LF. */
  method TornTailStart(raw: seq<byte>) returns (keep: nat)
    ensures keep <= |raw|
    ensures keep > 0 ==> raw[keep - 1] == LF
    ensures LF !in raw[keep..]
  {
    if raw == [] || raw[|raw| - 1] == LF {
      return |raw|;
    }
    keep := |raw|;
    while keep > 0 && raw[keep - 1] != LF
      invariant keep <= |raw| && LF !in raw[keep..]
    {
      keep := keep - 1;
    }
  }

  /** A file is whole records followed by the torn start of one more. */
  ghost predicate Holds<T>(c: Codec<T>, file: seq<byte>, records: seq<T>, torn: seq<byte>) {
    file == Frames(c, records) + torn && LF !in torn
  }

  lemma RepairPoint<T>(c: Codec<T>, file: seq<byte>, records: seq<T>, torn: seq<byte>, keep: nat)
    requires Holds(c, file, records, torn)
    requires keep <= |file| && (keep > 0 ==> file[keep - 1] == LF) && LF !in file[keep..]
    ensures file[..keep] == Frames(c, records)
  {
    var whole := Frames(c, records);
    FramesEndInLf(c, records);
    forall i | keep <= i < |file|
      ensures file[i] != LF
    {
      assert file[i] == file[keep..][i - keep];
    }
    forall i | |whole| <= i < |file|
      ensures file[i] != LF
    {
      assert file[i] == torn[i - |whole|];
    }
    assert whole != [] ==> file[|whole| - 1] == LF;
  }

  /** The log file and its single live writer. */
  class LogWriter<!T(!new)> {
    const codec: Codec<T>
    var file: seq<byte>
    ghost var records: seq<T>   // whole records in the file
    ghost var acked: seq<T>     // items whose append returned Ok
    ghost var torn: seq<byte>   // start of a record that a crash cut short
    ghost var intact: bool      // no append has failed

    /** Until an append fails, the bytes are the records and the torn tail. */
    ghost predicate Valid()
      reads this
    {
      intact ==> Holds(codec, file, records, torn)
    }

    constructor (codec: Codec<T>, file: seq<byte>, ghost records: seq<T>, ghost torn: seq<byte>)
      requires Holds(codec, file, records, torn)
      ensures this.codec == codec && this.file == file && this.records == records && this.torn == torn
      ensures Valid() && intact && acked == records
    {
      this.codec, this.file, this.records, this.torn := codec, file, records, torn;
      acked, intact := records, true;
    }

    /** Repair the torn tail, then be ready to append. */
    method Open() returns (ok: bool)
      requires Valid()
      modifies this`file, this`torn
      ensures Valid()
      ensures ok && intact ==> torn == [] && file == Frames(codec, records)
      ensures !ok ==> file == old(file) && torn == old(torn)
    {
      ok := *;
      if !ok {
        return;
      }
      var keep := TornTailStart(file);
      if intact {
        RepairPoint(codec, file, records, torn, keep);
      }
      file := file[..keep];
      torn := [];
    }

    /** One record, then its LF; `ok` means durable. Nothing is said about the bytes of a failed append. */
    method Append(item: T) returns (ok: bool)
      requires Valid() && (intact ==> torn == [])
      requires LawfulFor(codec, item)
      modifies this`file, this`records, this`acked, this`torn, this`intact
      ensures Valid() && (intact ==> torn == [])
      ensures ok && old(intact) ==> intact && records == old(records) + [item] && acked == old(acked) + [item]
      ensures !ok ==> !intact
      ensures intact ==> old(intact)
    {
      ok := *;
      if !ok {
        intact := false;
        file := *;
        return;
      }
      FramesSnoc(codec, records, item);
      hide Frames, LawfulFor;
      if intact { assert file == Frames(codec, records) + [] == Frames(codec, records); }
      file := file + (codec.encode(item) + [LF]);
      records, acked, torn := records + [item], acked + [item], [];
      if intact { assert file + [] == file; }
    }

    /** The process dies inside an append: `written` bytes of the record and its LF reached the disk. */
    method CrashDuring(item: T, written: nat)
      requires Valid() && intact && torn == []
      requires LawfulFor(codec, item) && written <= |codec.encode(item)| + 1
      modifies this`file, this`records, this`torn
      ensures Valid()
      ensures if written == |codec.encode(item)| + 1
              then records == old(records) + [item] && torn == []
              else records == old(records) && torn == codec.encode(item)[..written]
    {
      var line := codec.encode(item) + [LF];
      FramesSnoc(codec, records, item);
      file := file + line[..written];
      if written == |line| {
        records := records + [item];
      } else {
        torn := codec.encode(item)[..written];
        assert line[..written] == torn;
      }
    }
  }

  // ---- reading ----

  /** Split at every LF; n LFs give n + 1 chunks. */
  function Chunks(raw: seq<byte>): (cs: seq<seq<byte>>)
    ensures cs != []
  {
    if raw == [] then [[]]
    else
      var rest := Chunks(raw[1..]);
      if raw[0] == LF then [[]] + rest else [[raw[0]] + rest[0]] + rest[1..]
  }

  lemma {:induction false} ChunksOfLine(line: seq<byte>, rest: seq<byte>)
    requires LF !in line
    ensures Chunks(line + [LF] + rest) == [line] + Chunks(rest)
  {
    var all := line + [LF] + rest;
    if line == [] {
      assert all[1..] == rest;
    } else {
      assert all[1..] == line[1..] + [LF] + rest;
      ChunksOfLine(line[1..], rest);
      assert [line[0]] + line[1..] == line;
    }
  }

  lemma {:induction false} ChunksOfTail(tail: seq<byte>)
    requires LF !in tail
    ensures Chunks(tail) == [tail]
  {
    if tail != [] {
      ChunksOfTail(tail[1..]);
      assert [tail[0]] + tail[1..] == tail;
    }
  }

  function StripCr(line: seq<byte>): seq<byte> {
    if line != [] && line[|line| - 1] == CR then line[..|line| - 1] else line
  }

  function NonEmpty(chunks: seq<seq<byte>>): seq<seq<byte>> {
    if chunks == [] then []
    else (if StripCr(chunks[0]) == [] then [] else [StripCr(chunks[0])]) + NonEmpty(chunks[1..])
  }

  /** The decoded chunks; an undecodable last chunk is dropped, any other is fatal. */
  function DecodeAll<T>(c: Codec<T>, chunks: seq<seq<byte>>): Option<seq<T>> {
    if chunks == [] then Some([])
    else
      match c.decode(chunks[0])
      case None => if |chunks| == 1 then Some([]) else None
      case Some(item) =>
        Before([item], DecodeAll(c, chunks[1..]))
  }

  function Before<T>(items: seq<T>, rest: Option<seq<T>>): Option<seq<T>> {
    if rest.None? then None else Some(items + rest.value)
  }

  lemma BeforeTwice<T>(a: seq<T>, b: seq<T>, rest: Option<seq<T>>)
    ensures Before(a, Before(b, rest)) == Before(a + b, rest)
  {
    if rest.Some? { assert a + (b + rest.value) == (a + b) + rest.value; }
  }

  lemma BeforeNothing<T>(rest: Option<seq<T>>)
    ensures Before([], rest) == rest
  {
    if rest.Some? { assert [] + rest.value == rest.value; }
  }

  lemma {:induction false} DecodePrefix<T>(c: Codec<T>, done: seq<T>, chunks: seq<seq<byte>>, k: nat)
    requires k == |done| <= |chunks|
    requires forall i :: 0 <= i < k ==> c.decode(chunks[i]) == Some(done[i])
    ensures DecodeAll(c, chunks) == Before(done, DecodeAll(c, chunks[k..]))
  {
    if k == 0 {
      assert chunks[0..] == chunks && done == [];
      BeforeNothing(DecodeAll(c, chunks));
    } else {
      DecodePrefix(c, done[1..], chunks[1..], k - 1);
      assert chunks[1..][k - 1..] == chunks[k..];
      BeforeTwice([done[0]], done[1..], DecodeAll(c, chunks[k..]));
      assert [done[0]] + done[1..] == done;
    }
  }

  function ReadSpec<T>(c: Codec<T>, raw: seq<byte>): Option<seq<T>> {
    DecodeAll(c, NonEmpty(Chunks(raw)))
  }

  /** Reads the whole log; `None` is a corrupt entry. */
  method ReadLog<T>(c: Codec<T>, raw: seq<byte>) returns (items: Option<seq<T>>)
    ensures items == ReadSpec(c, raw)
  {
    var chunks := NonEmpty(Chunks(raw));
    var done: seq<T> := [];
    var k := 0;
    while k < |chunks|
      invariant k == |done| <= |chunks|
      invariant forall i :: 0 <= i < k ==> c.decode(chunks[i]) == Some(done[i])
    {
      DecodePrefix(c, done, chunks, k);
      match c.decode(chunks[k]) {
        case Some(item) => done := done + [item];
        case None =>
          if k + 1 == |chunks| {
            assert chunks[k..] == [chunks[k]] && done + [] == done;
            return Some(done);
          }
          return None;
      }
      k := k + 1;
    }
    DecodePrefix(c, done, chunks, k);
    assert chunks[k..] == [] && done + [] == done;
    return Some(done);
  }

  /** The log a reader accepts: a header of the supported version first, then gapless sequence numbers. */
  method ValidateLog(items: seq<Item>) returns (ok: bool)
    ensures ok == ValidLog(items)
  {
    if items == [] {
      return true;
    }
    if items[0].kind != Header(LOG_VERSION) {
      return false;
    }
    for i := 0 to |items|
      invariant forall k :: 0 <= k < i ==> items[k].seqNo == k + 1
    {
      if items[i].seqNo != i + 1 {
        return false;
      }
    }
    return true;
  }

  // ---- crash recovery ----

  lemma DecodeFirst<T>(c: Codec<T>, t: T, rest: seq<seq<byte>>)
    requires LawfulFor(c, t)
    ensures DecodeAll(c, NonEmpty([c.encode(t)] + rest)) ==
            Before([t], DecodeAll(c, NonEmpty(rest)))
  {
    var body := c.encode(t);
    assert ([body] + rest)[1..] == rest;
    assert NonEmpty([body] + rest) == [body] + NonEmpty(rest);
    assert ([body] + NonEmpty(rest))[1..] == NonEmpty(rest);
  }

  lemma ReadOneMore<T>(c: Codec<T>, t: T, after: seq<byte>)
    requires LawfulFor(c, t)
    ensures ReadSpec(c, c.encode(t) + [LF] + after) == Before([t], ReadSpec(c, after))
  {
    ChunksOfLine(c.encode(t), after);
    DecodeFirst(c, t, Chunks(after));
  }

  lemma {:induction false} ReadTorn<T>(c: Codec<T>, records: seq<T>, torn: seq<byte>)
    requires LF !in torn
    requires forall i :: 0 <= i < |records| ==> LawfulFor(c, records[i])
    ensures ReadSpec(c, Frames(c, records) + torn) == Before(records, DecodeAll(c, NonEmpty([torn])))
  {
    hide LawfulFor, DecodeAll, NonEmpty;
    var last := DecodeAll(c, NonEmpty([torn]));
    if records == [] {
      assert Frames(c, records) + torn == torn;
      ChunksOfTail(torn);
      BeforeNothing(last);
    } else {
      hide Frames, LawfulFor, ReadSpec, DecodeAll, NonEmpty, Before;
      var t, others := records[0], records[1..];
      assert records == [t] + others;
      assert LawfulFor(c, t);
      ReadTorn(c, others, torn);
      FramesCons(c, t, others);
      assert Frames(c, records) + torn == c.encode(t) + [LF] + (Frames(c, others) + torn);
      ReadOneMore(c, t, Frames(c, others) + torn);
      BeforeTwice([t], others, last);
    }
  }

  lemma {:induction false} FramesCons<T>(c: Codec<T>, first: T, others: seq<T>)
    ensures Frames(c, [first] + others) == c.encode(first) + [LF] + Frames(c, others)
  {
    if others == [] {
      assert [first] + others == [] + [first];
      FramesSnoc(c, [], first);
    } else {
      var n := |others| - 1;
      FramesCons(c, first, others[..n]);
      assert [first] + others == ([first] + others[..n]) + [others[n]];
      FramesSnoc(c, [first] + others[..n], others[n]);
      assert others[..n] + [others[n]] == others;
      FramesSnoc(c, others[..n], others[n]);
    }
  }

  /** After a repairing open, reading returns exactly the whole records. */
  lemma ReadRepaired<T>(c: Codec<T>, records: seq<T>)
    requires forall i :: 0 <= i < |records| ==> LawfulFor(c, records[i])
    ensures ReadSpec(c, Frames(c, records)) == Some(records)
  {
    ReadTorn(c, records, []);
    assert Frames(c, records) + [] == Frames(c, records);
    var empty: seq<seq<byte>> := [[]];
    assert empty[1..] == [];
    assert records + [] == records;
  }

  /** Read before the repair, a crashed file shows at most one row more than after it: the row
      in flight, exactly when the crash fell between its body and its LF. */
  lemma ReadUnrepaired<T>(c: Codec<T>, records: seq<T>, item: T, written: nat)
    requires forall i :: 0 <= i < |records| ==> LawfulFor(c, records[i])
    requires LawfulFor(c, item) && written <= |c.encode(item)|
    ensures ReadSpec(c, Frames(c, records) + c.encode(item)[..written]) ==
            Some(if written == |c.encode(item)| then records + [item] else records)
  {
    var torn := c.encode(item)[..written];
    ReadTorn(c, records, torn);
    DecodeTorn(c, item, written);
    assert records + [] == records;
  }

  lemma DecodeTorn<T>(c: Codec<T>, item: T, written: nat)
    requires LawfulFor(c, item) && written <= |c.encode(item)|
    ensures DecodeAll(c, NonEmpty([c.encode(item)[..written]])) ==
            Some(if written == |c.encode(item)| then [item] else [])
  {
    var body, none: seq<seq<byte>> := c.encode(item), [];
    var torn := body[..written];
    if written == |body| {
      assert torn == body && [torn] == [body] + none;
      DecodeFirst(c, item, none);
      assert [item] + [] == [item];
    } else {
      var shown := StripCr(torn);
      assert shown == body[..|shown|];
      assert [torn][1..] == none;
      if shown != [] { assert NonEmpty([torn]) == [shown]; }
    }
  }

  // ---- any interleaving of appends, crashes and reopens ----

  datatype DiskEvent<T> = Appended(item: T) | Crashed(inFlight: T, written: nat)

  /** Whole records of the file after a history; a crash keeps the record in flight only with its LF. */
  ghost function RecordsOf<T>(c: Codec<T>, history: seq<DiskEvent<T>>): seq<T> {
    if history == [] then []
    else
      var before := RecordsOf(c, history[..|history| - 1]);
      match history[|history| - 1]
      case Appended(t) => before + [t]
      case Crashed(t, n) => if n == |c.encode(t)| + 1 then before + [t] else before
  }

  ghost function AckedOf<T>(history: seq<DiskEvent<T>>): seq<T> {
    if history == [] then []
    else
      var before := AckedOf(history[..|history| - 1]);
      match history[|history| - 1]
      case Appended(t) => before + [t]
      case Crashed(_, _) => before
  }

  /** `kept` lists where the items of `a` sit in `b`, in order. */
  ghost predicate Embeds<T>(a: seq<T>, b: seq<T>, kept: seq<nat>) {
    && |kept| == |a|
    && (forall i :: 0 <= i < |kept| ==> kept[i] < |b| && b[kept[i]] == a[i])
    && (forall i, j :: 0 <= i < j < |kept| ==> kept[i] < kept[j])
  }

  /** No crash loses or reorders an acknowledged item. */
  lemma {:induction false} AckedSurvive<T>(c: Codec<T>, history: seq<DiskEvent<T>>) returns (kept: seq<nat>)
    ensures Embeds(AckedOf(history), RecordsOf(c, history), kept)
  {
    kept := [];
    if history != [] {
      var n := |history| - 1;
      kept := AckedSurvive(c, history[..n]);
      if history[n].Appended? {
        kept := kept + [|RecordsOf(c, history[..n])|];
      }
    }
  }

  function Crashes<T>(history: seq<DiskEvent<T>>): nat {
    if history == [] then 0
    else Crashes(history[..|history| - 1]) + if history[|history| - 1].Crashed? then 1 else 0
  }

  /** A crash adds at most one record that nobody was told of. */
  lemma {:induction false} CrashesAddLittle<T>(c: Codec<T>, history: seq<DiskEvent<T>>)
    ensures |AckedOf(history)| <= |RecordsOf(c, history)| <= |AckedOf(history)| + Crashes(history)
  {
    if history != [] {
      CrashesAddLittle(c, history[..|history| - 1]);
    }
  }

  /** The live file over a whole history of appends and crashes, reopened after each crash. */
  method Replay<T(!new)>(c: Codec<T>, history: seq<DiskEvent<T>>) returns (w: LogWriter<T>, alive: bool)
    requires Lawful(c)
    requires forall i :: 0 <= i < |history| && history[i].Crashed? ==>
               history[i].written <= |c.encode(history[i].inFlight)| + 1
    ensures alive ==>
              && w.file == Frames(c, RecordsOf(c, history)) && w.acked == AckedOf(history)
              && ReadSpec(c, w.file) == Some(RecordsOf(c, history))
  {
    w := new LogWriter<T>(c, [], [], []);
    alive := w.Open();
    for k := 0 to |history|
      invariant w.codec == c && fresh(w)
      invariant alive ==> w.Valid() && w.intact && w.torn == []
      invariant alive ==> w.records == RecordsOf(c, history[..k]) && w.acked == AckedOf(history[..k])
    {
      assert history[..k + 1][..k] == history[..k];
      if alive {
        match history[k] {
          case Appended(t) =>
            assert LawfulFor(c, t);
            alive := w.Append(t);
          case Crashed(t, n) =>
            assert LawfulFor(c, t);
            w.CrashDuring(t, n);
            alive := w.Open();
        }
      }
    }
    assert history[..|history|] == history;
    if alive {
      ReadRepaired(c, w.records);
      assert Frames(c, w.records) + [] == Frames(c, w.records);
    }
  }
}
