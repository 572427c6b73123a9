/**
 Newline-delimited frames: the bounded reader and writer, a splitter that works on
 whole lines, and the round trip between them.  Values are written by an abstract
 encoder; a read error or deadline leaves the reader's frame as it is and is not
 part of this model.
*/
module Framing {
  import opened Basics

  const LF: byte := 10
  const CR: byte := 13

  const BOM: Bytes := [0xEF, 0xBB, 0xBF]

  /** What one read gives: a frame's bytes, the end of the stream, or an error. */
  datatype Item = Frame(bytes: Bytes) | End | TooLarge | Incomplete

  function Flat(chunks: seq<Bytes>): Bytes {
    if chunks == [] then [] else chunks[0] + Flat(chunks[1..])
  }

  function Chomp(frame: Bytes): Bytes {
    if frame != [] && frame[|frame| - 1] == CR then frame[..|frame| - 1] else frame
  }

  function StripBom(frame: Bytes): Bytes {
    if BOM <= frame then frame[|BOM|..] else frame
  }

  /** One read over the bytes to come: the item, the frame kept, and the bytes left. */
  function Scan(frame: Bytes, input: Bytes, max: nat): (Item, Bytes, Bytes)
    decreases |input|
  {
    if input == [] then (if frame == [] then End else Incomplete, frame, [])
    else if input[0] == LF then
      (if Chomp(frame) == [] then Scan([], input[1..], max) else (Frame(StripBom(Chomp(frame))), [], input[1..]))
    else if |frame| == max then (TooLarge, frame, input[1..])
    else Scan(frame + [input[0]], input[1..], max)
  }

  // -------------------------------------------------------------- the line view

  /** Length of the first line, or of everything when no line ends. */
  function LineEnd(input: Bytes): (n: nat)
    ensures n <= |input|
  {
    if input == [] || input[0] == LF then 0 else 1 + LineEnd(input[1..])
  }

  lemma {:induction false} LineEndFacts(input: Bytes)
    ensures LineEnd(input) < |input| ==> input[LineEnd(input)] == LF
    ensures forall i :: 0 <= i < LineEnd(input) ==> input[i] != LF
  {
    if input != [] && input[0] != LF {
      LineEndFacts(input[1..]);
    }
  }

  /** The splitter: it looks at whole lines only. */
  function Split(input: Bytes, max: nat): (Item, Bytes, Bytes)
    decreases |input|
  {
    var n := LineEnd(input);
    if n > max then (TooLarge, input[..max], input[max + 1..])
    else if n == |input| then (if input == [] then End else Incomplete, input, [])
    else if Chomp(input[..n]) == [] then Split(input[n + 1..], max)
    else (Frame(StripBom(Chomp(input[..n]))), [], input[n + 1..])
  }

  /** Scanning byte by byte inside a line gives what its end says. */
  lemma {:induction false} ScanLine(frame: Bytes, input: Bytes, max: nat)
    requires |frame| <= max
    ensures
      var n := LineEnd(input);
      Scan(frame, input, max) ==
      if |frame| + n > max then (TooLarge, frame + input[..max - |frame|], input[max - |frame| + 1..])
      else if n == |input| then (if frame + input == [] then End else Incomplete, frame + input, [])
      else if Chomp(frame + input[..n]) == [] then Scan([], input[n + 1..], max)
      else (Frame(StripBom(Chomp(frame + input[..n]))), [], input[n + 1..])
    decreases |input|
  {
    LineEndFacts(input);
    if input == [] {
      assert frame + input == frame;
    } else if input[0] == LF {
      assert frame + input[..0] == frame;
    } else if |frame| == max {
      assert frame + input[..0] == frame;
    } else {
      var next, rest, n := frame + [input[0]], input[1..], LineEnd(input);
      ScanLine(next, rest, max);
      LineEndFacts(rest);
      assert next + rest == frame + input;
      assert next + rest[..n - 1] == frame + input[..n];
      if |frame| + n > max {
        var k := max - |frame|;
        assert next + rest[..k - 1] == frame + input[..k];
        assert rest[k - 1 + 1..] == input[k + 1..];
      } else if n < |input| {
        assert rest[n - 1 + 1..] == input[n + 1..];
      }
    }
  }

  /** The reader refines the splitter. */
  lemma {:induction false} ScanIsSplit(input: Bytes, max: nat)
    ensures Scan([], input, max) == Split(input, max)
    decreases |input|
  {
    ScanLine([], input, max);
    LineEndFacts(input);
    var n := LineEnd(input);
    assert [] + input == input && [] + input[..n] == input[..n];
    if n > max {
      assert [] + input[..max] == input[..max];
    } else if n < |input| {
      ScanIsSplit(input[n + 1..], max);
    }
  }

  lemma {:induction false} ScanBounded(frame: Bytes, input: Bytes, max: nat)
    requires |frame| <= max
    ensures |Scan(frame, input, max).1| <= max
    ensures Scan(frame, input, max).0.Frame? ==> |Scan(frame, input, max).0.bytes| <= max
    decreases |input|
  {
    if input != [] {
      if input[0] == LF {
        ScanBounded([], input[1..], max);
      } else if |frame| < max {
        ScanBounded(frame + [input[0]], input[1..], max);
      }
    }
  }

  // ------------------------------------------------------------------ the reader

  class BoundedFrameReader {
    /** Chunks the transport will still deliver; none is empty. */
    var source: seq<Bytes>
    var frame: Bytes
    var chunk: Bytes
    var chunkStart: nat
    const maxFrameBytes: nat

    ghost predicate Valid()
      reads this
    {
      && chunkStart <= |chunk| && |frame| <= maxFrameBytes
      && forall c <- source :: c != []
    }

    /** Every byte still to be scanned, however it is cut. */
    ghost function Pending(): Bytes
      requires Valid()
      reads this
    {
      chunk[chunkStart..] + Flat(source)
    }

    constructor (source: seq<Bytes>, maxFrameBytes: nat)
      requires forall c <- source :: c != []
      ensures Valid() && Pending() == Flat(source) && frame == [] && this.maxFrameBytes == maxFrameBytes
    {
      this.source, this.frame, this.chunk, this.chunkStart := source, [], [], 0;
      this.maxFrameBytes := maxFrameBytes;
    }

    /** The next byte, fetching a chunk when the current one is used up; `None` at the end. */
    method TakeByte() returns (b: Option<byte>)
      requires Valid()
      modifies this
      ensures Valid() && frame == old(frame)
      ensures b.None? ==> old(Pending()) == [] && Pending() == []
      ensures b.Some? ==> old(Pending()) == [b.value] + Pending()
    {
      if chunkStart == |chunk| {
        if source == [] {
          return None;
        }
        assert source[0] in source && forall c <- source[1..] :: c in source;
        chunk, chunkStart, source := source[0], 0, source[1..];
        assert old(Pending()) == chunk + Flat(source);
      }
      b := Some(chunk[chunkStart]);
      chunkStart := chunkStart + 1;
      assert chunk[chunkStart - 1..] == [b.value] + chunk[chunkStart..];
    }

    /** The result depends on the bytes alone, and the frame never outgrows its bound. */
    method Read() returns (item: Item)
      requires Valid()
      modifies this
      ensures Valid()
      ensures (item, frame, Pending()) == Scan(old(frame), old(Pending()), maxFrameBytes)
    {
      while true
        invariant Valid()
        invariant Scan(frame, Pending(), maxFrameBytes) == Scan(old(frame), old(Pending()), maxFrameBytes)
        decreases |Pending()|
      {
        hide Scan, Flat;
        ScanStep(frame, Pending(), maxFrameBytes);
        ghost var todo := Pending();
        var next := TakeByte();
        if next.None? {
          return if frame == [] then End else Incomplete;
        }
        assert todo[0] == next.value && todo[1..] == Pending();
        if next.value == LF {
          if frame != [] && frame[|frame| - 1] == CR {
            frame := frame[..|frame| - 1];
          }
          if frame == [] {
            continue;
          }
          item := Frame(StripBom(frame));
          frame := [];
          return;
        }
        if |frame| == maxFrameBytes {
          return TooLarge;
        }
        frame := frame + [next.value];
      }
    }
  }

  lemma ScanStep(frame: Bytes, input: Bytes, max: nat)
    ensures
      Scan(frame, input, max) ==
      if input == [] then (if frame == [] then End else Incomplete, frame, [])
      else if input[0] == LF then
        (if Chomp(frame) == [] then Scan([], input[1..], max) else (Frame(StripBom(Chomp(frame))), [], input[1..]))
      else if |frame| == max then (TooLarge, frame, input[1..])
      else Scan(frame + [input[0]], input[1..], max)
  {
  }

  // ------------------------------------------------------------------ the writer

  class BoundedWriter {
    var bytes: Bytes
    var overflowed: bool
    const maxBytes: nat

    constructor (maxBytes: nat)
      ensures bytes == [] && !overflowed && this.maxBytes == maxBytes
    {
      bytes, overflowed, this.maxBytes := [], false, maxBytes;
    }

    method Write(buffer: Bytes) returns (ok: bool)
      requires |bytes| <= maxBytes
      modifies this
      ensures |bytes| <= maxBytes
      ensures ok <==> |old(bytes)| + |buffer| <= maxBytes
      ensures ok ==> bytes == old(bytes) + buffer && overflowed == old(overflowed)
      ensures !ok ==> overflowed && bytes == (old(bytes) + buffer)[..maxBytes]
    {
      var remaining := maxBytes - |bytes|;
      if |buffer| > remaining {
        bytes, overflowed := bytes + buffer[..remaining], true;
        return false;
      }
      bytes := bytes + buffer;
      return true;
    }
  }

  lemma FlatSnoc(parts: seq<Bytes>, n: nat)
    requires n < |parts|
    ensures Flat(parts[..n + 1]) == Flat(parts[..n]) + parts[n]
  {
    FlatAppend(parts[..n], [parts[n]]);
    assert parts[..n + 1] == parts[..n] + [parts[n]];
    assert [parts[n]][1..] == [] && Flat([parts[n]]) == parts[n];
  }

  lemma {:induction false} FlatAppend(a: seq<Bytes>, b: seq<Bytes>)
    ensures Flat(a + b) == Flat(a) + Flat(b)
    decreases |a|
  {
    if a == [] {
      assert a + b == b;
    } else {
      assert (a + b)[1..] == a[1..] + b;
      FlatAppend(a[1..], b);
    }
  }

  datatype Written = Line(bytes: Bytes) | Oversized | Malformed

  /**
   The encoder hands out its output in parts and may then fail (`complete` is false).
   Nothing is kept beyond the bound, and overflow is reported before an encoder error.
  */
  method Serialize(parts: seq<Bytes>, complete: bool, max: nat) returns (r: Written)
    ensures r.Oversized? <==> |Flat(parts)| > max
    ensures r.Malformed? <==> |Flat(parts)| <= max && !complete
    ensures r.Line? ==> r.bytes == Flat(parts) + [LF] && |r.bytes| <= max + 1
  {
    var writer := new BoundedWriter(max);
    for i := 0 to |parts|
      invariant fresh(writer) && writer.maxBytes == max && !writer.overflowed
      invariant writer.bytes == Flat(parts[..i]) && |writer.bytes| <= max
    {
      FlatSnoc(parts, i);
      FlatAppend(parts[..i + 1], parts[i + 1..]);
      assert parts == parts[..i + 1] + parts[i + 1..];
      var ok := writer.Write(parts[i]);
      if !ok {
        return Oversized;
      }
    }
    assert parts[..|parts|] == parts;
    r := if complete then Line(writer.bytes + [LF]) else Malformed;
  }

  // -------------------------------------------------------------- the round trip

  /** What is asked of a JSON encoder: one line, not empty, no trailing carriage return, no byte order mark. */
  predicate OneLine(text: Bytes) {
    text != [] && LF !in text && text[|text| - 1] != CR && !(BOM <= text)
  }

  lemma {:induction false} LineEndOf(text: Bytes, rest: Bytes)
    requires LF !in text
    ensures LineEnd(text + [LF] + rest) == |text|
    decreases |text|
  {
    var all := text + [LF] + rest;
    if text != [] {
      assert all[0] == text[0] && all[1..] == text[1..] + [LF] + rest;
      assert text[0] in text;
      LineEndOf(text[1..], rest);
    } else {
      assert all[0] == LF;
    }
  }

  lemma ReadsOne(text: Bytes, rest: Bytes, max: nat)
    requires OneLine(text) && |text| <= max
    ensures Scan([], text + [LF] + rest, max) == (Frame(text), [], rest)
  {
    var input := text + [LF] + rest;
    LineEndOf(text, rest);
    ScanLine([], input, max);
    LineEndFacts(input);
    assert [] + input[..|text|] == text && input[|text| + 1..] == rest;
  }

  /** A line may end in a carriage return as well, and its text may follow a byte order mark; neither is part of the frame. */
  lemma ReadsDressed(text: Bytes, mark: bool, cr: bool, rest: Bytes, max: nat)
    requires OneLine(text) && |(if mark then BOM else []) + text + (if cr then [CR] else [])| <= max
    ensures
      var line := (if mark then BOM else []) + text + (if cr then [CR] else []);
      Scan([], line + [LF] + rest, max) == (Frame(text), [], rest)
  {
    var marked := (if mark then BOM else []) + text;
    var line := marked + (if cr then [CR] else []);
    var input := line + [LF] + rest;
    LineEndOf(line, rest);
    ScanLine([], input, max);
    hide Scan;
    assert [] + input[..|line|] == line && input[|line| + 1..] == rest;
    assert cr ==> line[..|line| - 1] == marked;
    assert !cr ==> line == marked;
    assert Chomp(line) == marked && marked != [];
    assert if mark then BOM <= marked && marked[|BOM|..] == text else marked == text;
    assert StripBom(marked) == text;
  }

  /** Blank lines are skipped, with or without a carriage return. */
  lemma SkipsBlank(cr: bool, rest: Bytes, max: nat)
    requires max > 0
    ensures Scan([], (if cr then [CR, LF] else [LF]) + rest, max) == Scan([], rest, max)
  {
    var line := if cr then [CR] else [];
    var input := line + [LF] + rest;
    assert input == (if cr then [CR, LF] else [LF]) + rest;
    LineEndOf(line, rest);
    ScanLine([], input, max);
    assert [] + input[..|line|] == line && input[|line| + 1..] == rest;
  }

  /** Repeated reads: the frames in order, and the first item that is not a frame. */
  function ReadAll(input: Bytes, max: nat): (seq<Bytes>, Item)
    decreases |input|
  {
    var (item, frame, rest) := Scan([], input, max);
    if item.Frame? && |rest| < |input| then
      var (more, last) := ReadAll(rest, max);
      ([item.bytes] + more, last)
    else ([], item)
  }

  /** The stream `serialize` produces for a list of encoded values. */
  function Stream(texts: seq<Bytes>): Bytes {
    if texts == [] then [] else texts[0] + [LF] + Stream(texts[1..])
  }

  lemma {:induction false} ReadAllOfStream(texts: seq<Bytes>, max: nat)
    requires forall t <- texts :: OneLine(t) && |t| <= max
    ensures ReadAll(Stream(texts), max) == (texts, End)
    decreases |texts|
  {
    if texts != [] {
      assert texts[0] in texts && forall t <- texts[1..] :: t in texts;
      ReadsOne(texts[0], Stream(texts[1..]), max);
      ReadAllOfStream(texts[1..], max);
      assert [texts[0]] + texts[1..] == texts;
    }
  }

  function Encoded<V>(values: seq<V>, enc: V -> Bytes): seq<Bytes> {
    seq(|values|, i requires 0 <= i < |values| => enc(values[i]))
  }

  function Decoded<V>(frames: seq<Bytes>, dec: Bytes -> Option<V>): seq<Option<V>> {
    seq(|frames|, i requires 0 <= i < |frames| => dec(frames[i]))
  }

  /** Writing values and reading the stream back under the same bound gives the values, then the end. */
  lemma RoundTrip<V(!new)>(values: seq<V>, enc: V -> Bytes, dec: Bytes -> Option<V>, max: nat)
    requires forall v :: OneLine(enc(v)) && dec(enc(v)) == Some(v)
    requires forall v <- values :: |enc(v)| <= max
    ensures
      var (frames, last) := ReadAll(Stream(Encoded(values, enc)), max);
      last == End && |frames| == |values| && forall i :: 0 <= i < |values| ==> Decoded(frames, dec)[i] == Some(values[i])
  {
    var texts := Encoded(values, enc);
    forall t <- texts ensures OneLine(t) && |t| <= max {
      var i :| 0 <= i < |texts| && texts[i] == t;
      assert values[i] in values;
    }
    ReadAllOfStream(texts, max);
  }

  function Texts(outputs: seq<seq<Bytes>>): seq<Bytes> {
    seq(|outputs|, i requires 0 <= i < |outputs| => Flat(outputs[i]))
  }

  lemma {:induction false} StreamSnoc(texts: seq<Bytes>, text: Bytes)
    ensures Stream(texts + [text]) == Stream(texts) + text + [LF]
    decreases |texts|
  {
    if texts == [] {
      assert texts + [text] == [text] && [text][1..] == [];
    } else {
      assert (texts + [text])[1..] == texts[1..] + [text];
      StreamSnoc(texts[1..], text);
      assert texts[0] + [LF] + (Stream(texts[1..]) + text + [LF]) == texts[0] + [LF] + Stream(texts[1..]) + text + [LF];
    }
  }

  /** Serialized values one after the other, whatever parts the encoder hands out: the stream, unless one is too large. */
  method SerializeAll(outputs: seq<seq<Bytes>>, max: nat) returns (stream: Option<Bytes>)
    ensures stream.Some? <==> forall i :: 0 <= i < |outputs| ==> |Flat(outputs[i])| <= max
    ensures stream.Some? ==> stream.value == Stream(Texts(outputs))
  {
    var bytes := [];
    for i := 0 to |outputs|
      invariant bytes == Stream(Texts(outputs[..i]))
      invariant forall j :: 0 <= j < i ==> |Flat(outputs[j])| <= max
    {
      var line := Serialize(outputs[i], true, max);
      if !line.Line? {
        return None;
      }
      StreamSnoc(Texts(outputs[..i]), Flat(outputs[i]));
      assert Texts(outputs[..i + 1]) == Texts(outputs[..i]) + [Flat(outputs[i])];
      assert bytes + (Flat(outputs[i]) + [LF]) == bytes + Flat(outputs[i]) + [LF];
      bytes := bytes + line.bytes;
    }
    assert outputs[..|outputs|] == outputs;
    return Some(bytes);
  }

  /**
   The writer against the reader: values serialized one after the other and carried
   by a transport that cuts the bytes anywhere are read back one by one, then the end.
  */
  method WriteThenRead(outputs: seq<seq<Bytes>>, max: nat, cut: Bytes -> seq<Bytes>) returns (frames: seq<Bytes>, last: Item)
    requires forall i :: 0 <= i < |outputs| ==> OneLine(Flat(outputs[i])) && |Flat(outputs[i])| <= max
    requires forall b :: Flat(cut(b)) == b && forall c <- cut(b) :: c != []
    ensures frames == Texts(outputs) && last == End
  {
    var stream := SerializeAll(outputs, max);
    var reader := new BoundedFrameReader(cut(stream.value), max);
    ghost var texts := Texts(outputs);
    frames := [];
    for i := 0 to |outputs|
      invariant fresh(reader) && reader.Valid() && reader.frame == [] && reader.maxFrameBytes == max
      invariant frames == texts[..i] && reader.Pending() == Stream(texts[i..])
    {
      assert texts[i..][0] == texts[i] && texts[i..][1..] == texts[i + 1..];
      ReadsOne(texts[i], Stream(texts[i + 1..]), max);
      last := reader.Read();
      frames := frames + [last.bytes];
    }
    assert texts[|outputs|..] == [];
    last := reader.Read();
  }

  /** However two transports cut the same bytes, two readers give the same item and stay in step. */
  method ReadTwice(a: BoundedFrameReader, b: BoundedFrameReader) returns (x: Item, y: Item)
    requires a != b && a.Valid() && b.Valid() && a.maxFrameBytes == b.maxFrameBytes
    requires a.frame == b.frame && a.Pending() == b.Pending()
    modifies a, b
    ensures x == y && a.Valid() && b.Valid() && a.frame == b.frame && a.Pending() == b.Pending()
  {
    x := a.Read();
    y := b.Read();
  }

  // ------------------------------------------------------------ oversized lines

  /** `k` reads one after the other: their items, the frame kept and the bytes left. */
  function Reads(frame: Bytes, input: Bytes, max: nat, k: nat): (seq<Item>, Bytes, Bytes)
    decreases k
  {
    if k == 0 then ([], frame, input)
    else
      var (item, kept, left) := Scan(frame, input, max);
      var (items, kept', left') := Reads(kept, left, max, k - 1);
      ([item] + items, kept', left')
  }

  function Errors(n: nat): seq<Item> {
    if n == 0 then [] else [TooLarge] + Errors(n - 1)
  }

  /** From a full frame every read drops one byte of the line and reports an error again. */
  lemma {:induction false} DropsByteByByte(frame: Bytes, tail: Bytes, after: Bytes, max: nat)
    requires |frame| == max && LF !in tail
    ensures Reads(frame, tail + after, max, |tail|) == (Errors(|tail|), frame, after)
    decreases |tail|
  {
    if tail == [] {
      assert tail + after == after;
    } else {
      var input := tail + after;
      assert input[0] == tail[0] && input[1..] == tail[1..] + after && tail[0] in tail;
      DropsByteByByte(frame, tail[1..], after, max);
    }
  }

  lemma {:induction false} LineEndPast(line: Bytes, after: Bytes)
    requires LF !in line
    ensures LineEnd(line + after) >= |line|
    decreases |line|
  {
    if line != [] {
      assert (line + after)[0] == line[0] && (line + after)[1..] == line[1..] + after && line[0] in line;
      LineEndPast(line[1..], after);
    }
  }

  /** An oversized line costs one error per byte beyond the bound and leaves its first `max` bytes in the frame. */
  lemma OversizedLineErrors(line: Bytes, after: Bytes, max: nat)
    requires LF !in line && |line| > max
    ensures Reads([], line + after, max, |line| - max) == (Errors(|line| - max), line[..max], after)
  {
    var input := line + after;
    LineEndPast(line, after);
    ScanLine([], input, max);
    assert [] + input[..max] == line[..max] && input[max + 1..] == line[max + 1..] + after;
    DropsByteByByte(line[..max], line[max + 1..], after, max);
    hide Scan;
    assert Scan([], input, max) == (TooLarge, line[..max], line[max + 1..] + after);
    assert Reads([], input, max, |line| - max).0 == [TooLarge] + Errors(|line| - max - 1);
  }

  /**
   What the read after those errors gives, for every oversized line.  A terminated
   line hands out what is left of its first `max` bytes without a trailing carriage
   return and a byte order mark, unless nothing is left: then the line is gone.  An
   unterminated line never gives a frame.
  */
  lemma OversizedLineResurfaces(line: Bytes, rest: Bytes, max: nat)
    requires LF !in line && |line| > max
    ensures
      var (errors, kept, left) := Reads([], line + [LF] + rest, max, |line| - max);
      && errors == Errors(|line| - max)
      && Scan(kept, left, max) ==
           if Chomp(line[..max]) == [] then Scan([], rest, max) else (Frame(StripBom(Chomp(line[..max]))), [], rest)
    ensures
      var (errors, kept, left) := Reads([], line, max, |line| - max);
      && errors == Errors(|line| - max)
      && Scan(kept, left, max) == (if max == 0 then End else Incomplete, line[..max], [])
  {
    OversizedLineErrors(line, [LF] + rest, max);
    OversizedLineErrors(line, [], max);
    assert line + [] == line && line + ([LF] + rest) == line + [LF] + rest;
    assert ([LF] + rest)[0] == LF && ([LF] + rest)[1..] == rest;
  }

  /** So the next read takes its frame from the oversized line exactly when something of that line is left to hand out. */
  lemma OversizedLineResurfacesIff(line: Bytes, rest: Bytes, max: nat)
    requires LF !in line && |line| > max
    ensures
      var (_, kept, left) := Reads([], line + [LF] + rest, max, |line| - max);
      var (item, kept', left') := Scan(kept, left, max);
      (item.Frame? && left' == rest) <==> Chomp(line[..max]) != []
  {
    OversizedLineResurfaces(line, rest, max);
    hide Reads, Chomp, StripBom;
    if Chomp(line[..max]) == [] {
      FrameConsumes([], rest, max);
    }
  }

  /** A frame is only ever given once its line feed is consumed. */
  lemma {:induction false} FrameConsumes(frame: Bytes, input: Bytes, max: nat)
    ensures Scan(frame, input, max).0.Frame? ==> |Scan(frame, input, max).2| < |input|
    decreases |input|
  {
    if input != [] {
      if input[0] == LF {
        FrameConsumes([], input[1..], max);
      } else if |frame| != max {
        FrameConsumes(frame + [input[0]], input[1..], max);
      }
    }
  }
}
