/** Delimited reading, io/read_task.rs: a byte stream arrives in pieces, with
    suspensions and I/O errors in between, and is cut at a delimiter.  What the
    reader does at each call is a script fixed in advance; the results must not
    depend on it. */
module ReadUntil {
  import opened Options

  type Byte = b: int | 0 <= b < 256

  datatype Poll<T> = Pending | Ok(value: T) | Err

  /** What one `poll_fill_buf` does: it is suspended, it fails, or it offers the
      next `more + 1` bytes, fewer only if fewer are left. */
  datatype Turn = Wait | Fail | Give(more: nat)

  // ----- the reference -----

  /** The first position of the delimiter, or the length. */
  function Find(s: seq<Byte>, delim: Byte): (i: nat)
    ensures i <= |s| && delim !in s[..i] && (i < |s| ==> s[i] == delim)
  {
    if s == [] || s[0] == delim then 0
    else
      var i := 1 + Find(s[1..], delim);
      assert s[..i] == [s[0]] + s[1..][..i - 1];
      i
  }

  /** A stream cut at every delimiter; a last piece without one counts. */
  function Segments(s: seq<Byte>, delim: Byte): seq<seq<Byte>>
    decreases |s|
  {
    var i := Find(s, delim);
    if s == [] then [] else if i == |s| then [s] else [s[..i]] + Segments(s[i + 1..], delim)
  }

  /** Every piece followed by a delimiter. */
  function Join(parts: seq<seq<Byte>>, delim: Byte): seq<Byte> {
    if parts == [] then [] else parts[0] + [delim] + Join(parts[1..], delim)
  }

  ghost predicate Clean(parts: seq<seq<Byte>>, delim: Byte) { forall p | p in parts :: delim !in p }

  /** The stream, with a last delimiter if it was left unfinished. */
  function Finished(s: seq<Byte>, delim: Byte): seq<Byte> {
    if s == [] || s[|s| - 1] == delim then s else s + [delim]
  }

  lemma FinishedCons(p: seq<Byte>, rest: seq<Byte>, delim: Byte)
    ensures Finished(p + [delim] + rest, delim) == p + [delim] + Finished(rest, delim)
  {
    if rest == [] {
      assert p + [delim] + rest == p + [delim];
    } else {
      assert (p + [delim] + rest)[|p| + |rest|] == rest[|rest| - 1];
    }
  }

  /** No segment contains the delimiter. */
  lemma {:induction false} SegmentsClean(s: seq<Byte>, delim: Byte)
    ensures Clean(Segments(s, delim), delim)
    decreases |s|
  {
    var i := Find(s, delim);
    if s == [] {
    } else if i == |s| {
      assert s[..i] == s;
    } else {
      SegmentsClean(s[i + 1..], delim);
    }
  }

  lemma JoinCons(p: seq<Byte>, parts: seq<seq<Byte>>, delim: Byte)
    ensures Join([p] + parts, delim) == p + [delim] + Join(parts, delim)
  {
    assert ([p] + parts)[1..] == parts;
  }

  lemma JoinOne(p: seq<Byte>, delim: Byte)
    ensures Join([p], delim) == p + [delim]
  {
    assert [p] + [] == [p];
    JoinCons(p, [], delim);
  }

  lemma FindIs(p: seq<Byte>, rest: seq<Byte>, delim: Byte)
    requires delim !in p
    ensures Find(p + [delim] + rest, delim) == |p|
  {
    var s := p + [delim] + rest;
    assert s[|p|] == delim && forall j | 0 <= j < |p| :: s[j] == p[j];
  }

  /** They are the only pieces with that property. */
  lemma {:induction false} SegmentsUnique(parts: seq<seq<Byte>>, delim: Byte)
    requires Clean(parts, delim)
    ensures Segments(Join(parts, delim), delim) == parts
    decreases |parts|
  {
    if parts != [] {
      var p, rest := parts[0], Join(parts[1..], delim);
      var s := p + [delim] + rest;
      assert Clean(parts[1..], delim);
      SegmentsUnique(parts[1..], delim);
      FindIs(p, rest, delim);
      assert s[..|p|] == p && s[|p| + 1..] == rest;
    }
  }

  /** A piece ends at the first delimiter. */
  lemma SegmentsCons(p: seq<Byte>, rest: seq<Byte>, delim: Byte)
    requires delim !in p
    ensures Segments(p + [delim] + rest, delim) == [p] + Segments(rest, delim)
  {
    var s := p + [delim] + rest;
    FindIs(p, rest, delim);
    assert s[..|p|] == p && s[|p| + 1..] == rest;
  }

  lemma SegmentsLast(p: seq<Byte>, delim: Byte)
    requires delim !in p && p != []
    ensures Segments(p, delim) == [p]
  {
    assert forall i | 0 <= i < |p| :: p[i] in p;
  }

  lemma JoinStep(p: seq<Byte>, rest: seq<Byte>, delim: Byte)
    requires delim !in p && Join(Segments(rest, delim), delim) == Finished(rest, delim)
    ensures var s := p + [delim] + rest; Join(Segments(s, delim), delim) == Finished(s, delim)
  {
    SegmentsCons(p, rest, delim);
    JoinCons(p, Segments(rest, delim), delim);
    FinishedCons(p, rest, delim);
  }

  lemma JoinLast(s: seq<Byte>, delim: Byte)
    requires delim !in s && s != []
    ensures Join(Segments(s, delim), delim) == Finished(s, delim)
  {
    SegmentsLast(s, delim);
    JoinOne(s, delim);
    assert s[|s| - 1] in s;
  }

  /** Nothing is lost: putting a delimiter after each segment gives the stream
      back, finished. */
  lemma {:induction false} SegmentsJoin(s: seq<Byte>, delim: Byte)
    ensures Join(Segments(s, delim), delim) == Finished(s, delim)
    decreases |s|
  {
    var i := Find(s, delim);
    if s == [] {
    } else if i == |s| {
      assert s[..i] == s;
      JoinLast(s, delim);
    } else {
      SegmentsJoin(s[i + 1..], delim);
      JoinStep(s[..i], s[i + 1..], delim);
      assert s == s[..i] + [delim] + s[i + 1..];
    }
  }

  // ----- the readers -----

  function Offered(rest: seq<Byte>, more: nat): (k: nat)
    ensures k <= |rest| && (k == 0 <==> rest == [])
  {
    if more + 1 < |rest| then more + 1 else |rest|
  }

  datatype Kind = Ends | Suspends | Fails

  /** How a read up to a delimiter comes out: the bytes it gets, and the script
      from then on. */
  datatype Pulled = Pulled(kind: Kind, bytes: nat, script: seq<Turn>)

  function Pull(rest: seq<Byte>, script: seq<Turn>, delim: Byte): (p: Pulled)
    ensures p.bytes <= |rest| && |p.script| <= |script|
    decreases |script|
  {
    if script == [] then Pulled(Ends, Reach(rest, delim), [])
    else
      var later := script[1..];
      match script[0]
      case Wait => Pulled(Suspends, 0, later)
      case Fail => Pulled(Fails, 0, later)
      case Give(more) =>
        var k := Offered(rest, more);
        if k == 0 || delim in rest[..k] then Pulled(Ends, Reach(rest[..k], delim), later)
        else Shift(k, Pull(rest[k..], later, delim))
  }

  function Shift(n: nat, p: Pulled): Pulled { p.(bytes := n + p.bytes) }

  /** The bytes up to the first delimiter and with it, or all. */
  function Reach(s: seq<Byte>, delim: Byte): (n: nat)
    ensures n <= |s|
  {
    var i := Find(s, delim);
    if i < |s| then i + 1 else i
  }

  /** Whether a failure of the reader strikes inside a piece: with something read
      of it, as `some` says of the current one, and its delimiter not. */
  predicate StrikesInside(some: bool, rest: seq<Byte>, script: seq<Turn>, delim: Byte)
    decreases |script|
  {
    script != [] &&
    var later := script[1..];
    match script[0]
    case Wait => StrikesInside(some, rest, later, delim)
    case Fail => some || StrikesInside(false, rest, later, delim)
    case Give(more) =>
      var k := Offered(rest, more);
      if k == 0 || delim in rest[..k] then StrikesInside(false, rest[Reach(rest[..k], delim)..], later, delim)
      else StrikesInside(true, rest[k..], later, delim)
  }

  /** Reading by reading: what strikes from here on is the failure that ends this
      read, if something of the piece was read, or it comes later. */
  lemma {:induction false} PullStrikes(some: bool, rest: seq<Byte>, script: seq<Turn>, delim: Byte)
    ensures var p := Pull(rest, script, delim);
      var read := some || p.bytes > 0;
      StrikesInside(some, rest, script, delim) ==
        match p.kind
        case Ends => StrikesInside(false, rest[p.bytes..], p.script, delim)
        case Suspends => StrikesInside(read, rest[p.bytes..], p.script, delim)
        case Fails => read || StrikesInside(false, rest[p.bytes..], p.script, delim)
    decreases |script|
  {
    if script != [] {
      assert rest[0..] == rest;
      if script[0].Give? {
        var k := Offered(rest, script[0].more);
        if k > 0 && delim !in rest[..k] {
          var p := Pull(rest[k..], script[1..], delim);
          PullStrikes(true, rest[k..], script[1..], delim);
          assert rest[k..][p.bytes..] == rest[k + p.bytes..];
        }
      }
    }
  }

  /** At the end of the stream with nothing read it no longer does. */
  lemma {:induction false} StrikesNothing(script: seq<Turn>, delim: Byte)
    ensures !StrikesInside(false, [], script, delim)
    decreases |script|
  {
    if script != [] {
      StrikesNothing(script[1..], delim);
      assert Find([], delim) == 0;
    }
  }

  /** A buffered reader over the bytes `rest` that follows a script; when that is
      used up it gives all it has. */
  class Reader {
    var rest: seq<Byte>
    var script: seq<Turn>

    constructor (stream: seq<Byte>, script: seq<Turn>)
      ensures rest == stream && this.script == script
    {
      rest, this.script := stream, script;
    }

    /** `poll_fill_buf`: an empty slice only at the end of the stream. */
    method FillBuf() returns (r: Poll<seq<Byte>>)
      modifies this`script
      ensures r.Ok? ==> r.value <= rest && (r.value == [] ==> rest == []) && |script| <= old(|script|)
      ensures !r.Ok? ==> |script| < old(|script|)
      ensures r == Err <==> old(script) != [] && old(script)[0] == Fail
      ensures !r.Ok? ==> script == old(script)[1..]
      ensures r == Pending <==> old(script) != [] && old(script)[0] == Wait
      ensures r.Ok? && old(script) == [] ==> r.value == rest && script == []
      ensures r.Ok? && old(script) != [] ==>
                r.value == rest[..Offered(rest, old(script)[0].more)] && script == old(script)[1..]
    {
      if script == [] {
        return Ok(rest);
      }
      var turn := script[0];
      script := script[1..];
      match turn
      case Wait => return Pending;
      case Fail => return Err;
      case Give(more) => return Ok(rest[..Offered(rest, more)]);
    }

    method Consume(n: nat)
      requires n <= |rest|
      modifies this`rest
      ensures rest == old(rest)[n..]
    {
      rest := rest[n..];
    }
  }

  /** Where a delimiter is in the bytes at hand, as `iter().position` finds it. */
  method Position(s: seq<Byte>, delim: Byte) returns (r: Option<nat>)
    ensures r == None <==> delim !in s
    ensures r.Some? ==> r.value < |s| && s[r.value] == delim && delim !in s[..r.value]
  {
    for i := 0 to |s|
      invariant delim !in s[..i]
    {
      if s[i] == delim {
        return Some(i);
      }
    }
    return None;
  }

  lemma FindIsPosition(s: seq<Byte>, delim: Byte, at: Option<nat>)
    requires at == None ==> delim !in s
    requires at.Some? ==> at.value < |s| && s[at.value] == delim && delim !in s[..at.value]
    ensures Find(s, delim) == if at.Some? then at.value else |s|
  {
    assert forall i | 0 <= i < |s| :: s[i] in s;
  }

  /** The bytes of a finished read: up to the delimiter, or what was left. */
  ghost predicate Complete(data: seq<Byte>, rest: seq<Byte>, delim: Byte) {
    if data != [] && data[|data| - 1] == delim then delim !in data[..|data| - 1] else rest == [] && delim !in data
  }

  /** One turn of the loop of `poll_read_until`: the bytes up to a delimiter, or
      all that are at hand, are consumed. */
  method ReadSome(reader: Reader, delim: Byte) returns (r: Poll<seq<Byte>>, done: bool)
    modifies reader
    ensures |reader.script| <= old(|reader.script|)
    ensures !r.Ok? ==> reader.rest == old(reader.rest) && |reader.script| < old(|reader.script|)
    ensures r.Ok? ==> old(reader.rest) == r.value + reader.rest
    ensures r.Ok? ==> if done then Complete(r.value, reader.rest, delim) else r.value != [] && delim !in r.value
    ensures Pull(old(reader.rest), old(reader.script), delim) ==
              match r
              case Pending => Pulled(Suspends, 0, reader.script)
              case Err => Pulled(Fails, 0, reader.script)
              case Ok(got) =>
                if done then Pulled(Ends, |got|, reader.script)
                else Shift(|got|, Pull(reader.rest, reader.script, delim))
  {
    r := reader.FillBuf();
    if r == Pending || r == Err {
      return r, false;
    }
    var available := r.value;
    var at := Position(available, delim);
    FindIsPosition(available, delim, at);
    var used := if at.Some? then at.value + 1 else |available|;
    assert used == Reach(available, delim);
    assert reader.rest == available[..used] + reader.rest[used..];
    reader.Consume(used);
    return Ok(available[..used]), at.Some? || used == 0;
  }

  lemma Regroup(a: seq<Byte>, b: seq<Byte>, c: seq<Byte>)
    ensures a + (b + c) == a + b + c
  {
  }

  lemma CompleteAfter(data: seq<Byte>, more: seq<Byte>, rest: seq<Byte>, delim: Byte)
    requires delim !in data && Complete(more, rest, delim)
    ensures Complete(data + more, rest, delim)
  {
    if more != [] {
      assert (data + more)[..|data + more| - 1] == data + more[..|more| - 1];
    } else {
      assert data + more == data;
    }
  }

  function KindOf(r: Poll<nat>): Kind {
    match r
    case Pending => Suspends
    case Err => Fails
    case Ok(_) => Ends
  }

  /** `poll_read_until`, with the vector and the length it updates passed in and
      out: whatever the outcome, the bytes `data` move from the reader to the
      vector and are counted. */
  method PollReadUntil(reader: Reader, delim: Byte, buf: seq<Byte>, rLen: nat)
    returns (r: Poll<nat>, buf': seq<Byte>, rLen': nat, ghost data: seq<Byte>)
    modifies reader
    ensures old(reader.rest) == data + reader.rest && buf' == buf + data
    ensures r.Ok? ==> r.value == rLen + |data| && rLen' == 0 && Complete(data, reader.rest, delim)
    ensures !r.Ok? ==> rLen' == rLen + |data| && delim !in data && |reader.script| < old(|reader.script|)
    ensures |reader.script| <= old(|reader.script|)
    ensures Pull(old(reader.rest), old(reader.script), delim) == Pulled(KindOf(r), |data|, reader.script)
  {
    buf', rLen', data := buf, rLen, [];
    ghost var pulled := Pull(reader.rest, reader.script, delim);
    while true
      invariant old(reader.rest) == data + reader.rest && buf' == buf + data && rLen' == rLen + |data| && delim !in data
      invariant |reader.script| <= old(|reader.script|)
      invariant pulled == Shift(|data|, Pull(reader.rest, reader.script, delim))
      decreases |reader.rest|
    {
      var got, done := ReadSome(reader, delim);
      if got == Pending {
        r := Pending;
        return;
      } else if got == Err {
        r := Err;
        return;
      }
      var more := got.value;
      Regroup(buf, data, more);
      Regroup(data, more, reader.rest);
      if done {
        CompleteAfter(data, more, reader.rest, delim);
      }
      buf', rLen', data := buf' + more, rLen' + |more|, data + more;
      if done {
        r, rLen' := Ok(rLen'), 0;
        return;
      }
    }
  }

  /** A piece without the delimiter at its end. */
  function Trimmed(piece: seq<Byte>, delim: Byte): seq<Byte> {
    if piece != [] && piece[|piece| - 1] == delim then piece[..|piece| - 1] else piece
  }

  lemma CompleteSegment(before: seq<Byte>, data: seq<Byte>, rest: seq<Byte>, delim: Byte)
    requires delim !in before && Complete(data, rest, delim) && before + data != []
    ensures var piece := before + data;
      Segments(piece + rest, delim) == [Trimmed(piece, delim)] + Segments(rest, delim)
  {
    var piece := before + data;
    if piece[|piece| - 1] == delim {
      var p := piece[..|piece| - 1];
      assert piece == p + [delim] && p == before + data[..|data| - 1];
      SegmentsCons(p, rest, delim);
    } else {
      assert piece + rest == piece;
      SegmentsLast(piece, delim);
    }
  }

  /** `SplitTask`. */
  class SplitTask {
    const reader: Reader
    const delim: Byte
    var buf: seq<Byte>
    var rLen: nat

    /** Between calls: what was read of the current piece, without a delimiter. */
    ghost predicate Valid()
      reads this
    {
      delim !in buf && rLen == |buf|
    }

    /** The bytes not yet handed out. */
    ghost function Whole(): seq<Byte>
      reads this, reader
    {
      buf + reader.rest
    }

    constructor (reader: Reader, delim: Byte)
      ensures Valid() && this.reader == reader && this.delim == delim && Whole() == reader.rest
    {
      this.reader, this.delim, buf, rLen := reader, delim, [], 0;
    }

    /** One call of `poll_next`.  A piece handed out is the next segment of the
        bytes not yet handed out, None comes only at their end, and a call that
        is not finished changes nothing of them: however the stream was cut,
        delayed or interrupted. */
    method PollNext() returns (r: Poll<Option<seq<Byte>>>)
      requires Valid()
      modifies this, reader
      ensures Valid() && |reader.script| <= old(|reader.script|)
      ensures !r.Ok? ==> Whole() == old(Whole()) && |reader.script| < old(|reader.script|)
      ensures r == Ok(None) <==> r.Ok? && old(Whole()) == []
      ensures r == Ok(None) ==> Whole() == []
      ensures r.Ok? && r.value.Some? ==>
                && Segments(old(Whole()), delim) == [r.value.value] + Segments(Whole(), delim)
                && |Whole()| < |old(Whole())|
    {
      ghost var before := buf;
      var res; ghost var data;
      res, buf, rLen, data := PollReadUntil(reader, delim, buf, rLen);
      assert old(Whole()) == before + data + reader.rest;
      if res == Pending {
        return Pending;
      } else if res == Err {
        return Err;
      }
      if buf == [] && res.value == 0 {
        return Ok(None);
      }
      r := TakePiece(before, data);
    }

    /** The rest of the call, when a piece has been read. */
    method TakePiece(ghost before: seq<Byte>, ghost data: seq<Byte>) returns (r: Poll<Option<seq<Byte>>>)
      requires buf == before + data != [] && rLen == 0 && delim !in before && Complete(data, reader.rest, delim)
      modifies this
      ensures Valid() && Whole() == reader.rest && r.Ok? && r.value.Some?
      ensures Segments(before + data + reader.rest, delim) == [r.value.value] + Segments(Whole(), delim)
    {
      CompleteSegment(before, data, reader.rest, delim);
      if buf != [] && buf[|buf| - 1] == delim {
        buf := buf[..|buf| - 1];
      }
      assert buf == Trimmed(before + data, delim);
      r := Ok(Some(buf));
      buf := [];
      assert Whole() == reader.rest;
    }

    /** The whole stream, a call again after every suspension and every error:
        the segments of the stream, for every script. */
    method Collect() returns (parts: seq<seq<Byte>>)
      requires Valid()
      modifies this, reader
      ensures parts == Segments(old(Whole()), delim)
    {
      parts := [];
      while true
        invariant Valid() && parts + Segments(Whole(), delim) == Segments(old(Whole()), delim)
        decreases |Whole()|, |reader.script|
      {
        var r := PollNext();
        if r.Ok? {
          if r.value == None {
            return;
          }
          parts := parts + [r.value.value];
        }
      }
    }
  }

  // ----- lines of text -----

  const NL: Byte := 10
  const CR: Byte := 13

  /** The first line of a stream with its line feed, or all of it. */
  function FirstLine(s: seq<Byte>): seq<Byte> {
    var i := Find(s, NL);
    if i < |s| then s[..i + 1] else s
  }

  /** A line without its line feed and the carriage return before it. */
  function Stripped(line: seq<Byte>): seq<Byte> {
    if line == [] || line[|line| - 1] != NL then line
    else
      var text := line[..|line| - 1];
      if text != [] && text[|text| - 1] == CR then text[..|text| - 1] else text
  }

  /** The lines of a stream, without those that are not text. */
  function Lines(s: seq<Byte>, isText: seq<Byte> -> bool): seq<seq<Byte>>
    decreases |s|
  {
    if s == [] then []
    else
      var line := FirstLine(s);
      (if isText(line) then [Stripped(line)] else []) + Lines(s[|line|..], isText)
  }

  lemma CompleteLine(before: seq<Byte>, data: seq<Byte>, rest: seq<Byte>)
    requires NL !in before && Complete(data, rest, NL) && before + data != []
    ensures var line := before + data;
      FirstLine(line + rest) == line && (line + rest)[|line|..] == rest
  {
    var line := before + data;
    if line[|line| - 1] == NL {
      var p := line[..|line| - 1];
      assert line == p + [NL] && p == before + data[..|data| - 1];
      FindIs(p, rest, NL);
    } else {
      assert line + rest == line;
      assert forall i | 0 <= i < |line| :: line[i] in line;
    }
  }

  datatype Text = Good(bytes: nat) | BadData | IoFail | Panics

  /** `io_string_result`: the outcome and what `output` becomes.  `io` is the
      number of bytes read, None an I/O error. */
  function IoStringResult(io: Option<nat>, bytes: seq<Byte>, readLen: nat, isText: seq<Byte> -> bool)
    : (Text, seq<Byte>)
  {
    if isText(bytes) then (if io.Some? then Good(io.value) else IoFail, bytes)
    else
      var cut := if io.Some? then io.value else readLen;
      if cut > |bytes| || !isText(bytes[..|bytes| - cut]) then (Panics, [])
      else (if io.Some? then BadData else IoFail, bytes[..|bytes| - cut])
  }

  /** With the length `stale` bytes ahead of the vector: the outcome follows the
      two results, and only a stale length can make it panic. */
  lemma IoStringMeans(io: Option<nat>, bytes: seq<Byte>, readLen: nat, stale: nat, isText: seq<Byte> -> bool)
    requires isText([]) && (if io.Some? then io.value else readLen) == |bytes| + stale
    ensures var (text, output) := IoStringResult(io, bytes, readLen, isText);
      && (text == Panics ==> stale > 0 && !isText(bytes))
      && (text == IoFail ==> io == None)
      && (text == BadData ==> io.Some? && !isText(bytes))
      && (text.Good? ==> io == Some(text.bytes) && isText(bytes) && output == bytes)
  {
    assert bytes[..|bytes| - |bytes|] == [];
  }

  lemma LinesCons(before: seq<Byte>, data: seq<Byte>, rest: seq<Byte>, isText: seq<Byte> -> bool)
    requires NL !in before && Complete(data, rest, NL) && before + data != []
    ensures var line := before + data;
      Lines(line + rest, isText) == (if isText(line) then [Stripped(line)] else []) + Lines(rest, isText)
  {
    CompleteLine(before, data, rest);
  }

  method Strip(line: seq<Byte>) returns (text: seq<Byte>)
    ensures text == Stripped(line)
  {
    text := line;
    if text != [] && text[|text| - 1] == NL {
      text := text[..|text| - 1];
      if text != [] && text[|text| - 1] == CR {
        text := text[..|text| - 1];
      }
    }
  }

  datatype LinePoll = Later | Next(text: seq<Byte>) | End | IoError | BadText | Panicked

  /** `LinesTask`.  `stale` is how far its length has run ahead of its buffer
      after I/O errors, which empty the buffer and keep the length. */
  class LinesTask {
    const reader: Reader
    const isText: seq<Byte> -> bool
    var buf: seq<Byte>
    var output: seq<Byte>
    var rLen: nat
    ghost var stale: nat

    ghost predicate Valid()
      reads this
    {
      NL !in buf && rLen == |buf| + stale && isText([])
    }

    ghost function Whole(): seq<Byte>
      reads this, reader
    {
      buf + reader.rest
    }

    constructor (reader: Reader, isText: seq<Byte> -> bool)
      requires isText([])
      ensures Valid() && this.reader == reader && this.isText == isText && Whole() == reader.rest && stale == 0
    {
      this.reader, this.isText, buf, output, rLen, stale := reader, isText, [], [], 0, 0;
    }

    /** One call of `poll_next_line`.  As long as no I/O error has struck inside a
        line, it hands out the next line of the bytes not yet handed out.  An
        I/O error drops `part`, what had been read of the current line; only if
        that is nothing are the bytes, and the length, as before. */
    method PollNextLine() returns (r: LinePoll, ghost part: seq<Byte>)
      requires Valid()
      modifies this, reader
      ensures r != Panicked ==> Valid()
      ensures |reader.script| <= old(|reader.script|)
      ensures r == Later ==> Whole() == old(Whole()) && stale == old(stale) && |reader.script| < old(|reader.script|)
      ensures r == IoError ==> part <= old(Whole()) && Whole() == old(Whole())[|part|..] && stale == old(stale) + |part|
      ensures r == IoError ==> (Whole() == old(Whole()) && stale == old(stale) <==> part == [])
      ensures r == IoError ==> |reader.script| < old(|reader.script|)
      ensures r == Panicked ==> old(stale) > 0
      ensures r == End ==> old(Whole()) == [] && old(stale) == 0 && Whole() == [] && stale == 0
      ensures r.Next? && old(Whole()) == [] ==> r.text == [] && old(stale) > 0 && stale == 0
      ensures r.Next? && old(Whole()) != [] ==>
                && Lines(old(Whole()), isText) == [r.text] + Lines(Whole(), isText)
                && stale == 0 && |Whole()| < |old(Whole())|
      ensures r == BadText ==>
                && Lines(old(Whole()), isText) == Lines(Whole(), isText)
                && stale == 0 && |Whole()| < |old(Whole())|
      ensures var pulled := Pull(old(reader.rest), old(reader.script), NL);
        && |part| == |old(buf)| + pulled.bytes && reader.rest == old(reader.rest)[pulled.bytes..]
        && reader.script == pulled.script && (r == Later <==> pulled.kind == Suspends)
        && (r == IoError ==> pulled.kind == Fails) && (pulled.kind == Fails ==> r == IoError || r == Panicked)
      ensures r == Panicked || r == BadText ==> !isText(part)
      ensures r == Later ==> buf == part
      ensures r != Later && r != Panicked ==> buf == []
    {
      ghost var before := buf;
      var res; ghost var data;
      res, buf, rLen, data := PollReadUntil(reader, NL, buf, rLen);
      part := before + data;
      assert old(Whole()) == part + reader.rest && (part + reader.rest)[|part|..] == reader.rest;
      if res == Pending {
        return Later, part;
      }
      r := TakeLine(if res.Ok? then Some(res.value) else None, before, data);
      assert r != Panicked ==> Whole() == reader.rest;
    }

    /** The rest of the call, when the read has ended. */
    method TakeLine(io: Option<nat>, ghost before: seq<Byte>, ghost data: seq<Byte>) returns (r: LinePoll)
      requires buf == before + data && NL !in before && isText([])
      requires io.Some? ==> rLen == 0 && io.value == |buf| + stale && Complete(data, reader.rest, NL)
      requires io.None? ==> rLen == |buf| + stale
      modifies this
      ensures r != Later && (r == IoError ==> io == None)
      ensures r == Panicked ==> old(stale) > 0
      ensures r == Panicked || r == BadText ==> !isText(old(buf))
      ensures r != Panicked ==> buf == [] && rLen == old(rLen) == stale
      ensures r == End ==> old(buf) == [] && old(stale) == 0
      ensures r.Next? && old(buf) == [] ==> r.text == [] && old(stale) > 0
      ensures r.Next? && old(buf) != [] ==>
                Lines(old(buf) + reader.rest, isText) == [r.text] + Lines(reader.rest, isText)
      ensures r == BadText ==> old(buf) != [] && Lines(old(buf) + reader.rest, isText) == Lines(reader.rest, isText)
      ensures r.Next? || r == BadText || r == End ==> io.Some?
    {
      var bytes := buf;
      IoStringMeans(io, bytes, rLen, stale, isText);
      var out := IoStringResult(io, bytes, rLen, isText);
      if out.0 == Panics {
        return Panicked;
      }
      buf, output, stale := [], out.1, rLen;
      if out.0 == IoFail {
        return IoError;
      }
      if bytes != [] {
        LinesCons(before, data, reader.rest, isText);
      }
      if out.0 == BadData {
        return BadText;
      }
      if output == [] && out.0.bytes == 0 {
        return End;
      }
      var text := Strip(output);
      output := [];
      return Next(text);
    }

    /** The reader is going to fail inside a line. */
    ghost predicate Struck()
      reads this, reader
    {
      StrikesInside(buf != [], reader.rest, reader.script, NL)
    }

    /** One call, seen from the failures to come. */
    method PollStruck() returns (r: LinePoll, ghost part: seq<Byte>)
      requires Valid()
      modifies this, reader
      ensures r != Panicked ==> Valid() && old(Struck()) == ((r == IoError && part != []) || Struck())
      ensures r == Panicked ==> old(stale) > 0
      ensures r == End ==> old(Whole()) == [] && Whole() == [] && !Struck()
      ensures r == Later || r == IoError ==> |reader.script| < old(|reader.script|)
      ensures r == Later ==> Whole() == old(Whole()) && stale == old(stale)
      ensures r == IoError ==> |Whole()| + stale == |old(Whole())| + old(stale)
      ensures r == IoError ==> (part == [] <==> Whole() == old(Whole()) && stale == old(stale))
      ensures r.Next? || r == BadText ==> stale == 0 && |Whole()| < |old(Whole())| + old(stale)
      ensures r.Next? && old(stale) == 0 ==> Lines(old(Whole()), isText) == [r.text] + Lines(Whole(), isText)
      ensures r == BadText ==> Lines(old(Whole()), isText) == Lines(Whole(), isText)
    {
      PullStrikes(buf != [], reader.rest, reader.script, NL);
      r, part := PollNextLine();
      if r == End {
        StrikesNothing(reader.script, NL);
      }
    }

    /** The whole stream, a call again after every suspension and every error,
        until the end or a panic.  `lost` are the bytes that errors dropped:
        some exactly when the reader fails inside a line, and without any the
        lines are those of the stream, however it arrives. */
    method CollectLines() returns (lines: seq<seq<Byte>>, panicked: bool, ghost lost: seq<Byte>)
      requires Valid() && stale == 0
      modifies this, reader
      ensures lost != [] <==> old(Struck())
      ensures lost == [] ==> !panicked && lines == Lines(old(Whole()), isText)
    {
      lines, panicked, lost := [], false, [];
      while true
        invariant Valid() && (stale > 0 ==> lost != []) && old(Struck()) == (lost != [] || Struck())
        invariant lost == [] ==> lines + Lines(Whole(), isText) == Lines(old(Whole()), isText)
        decreases |Whole()| + stale, |reader.script|
      {
        ghost var part;
        var r;
        r, part := PollStruck();
        if r == End {
          return;
        } else if r == Panicked {
          panicked := true;
          return;
        } else if r == IoError {
          lost := lost + part;
        } else if r.Next? {
          lines := lines + [r.text];
        }
      }
    }
  }

  function AnyText(bytes: seq<Byte>): bool { true }

  lemma FailsInside(a: Byte, rest: seq<Byte>)
    requires a != NL && rest != []
    ensures Pull([a] + rest, [Give(0), Fail], NL) == Pulled(Fails, 1, [])
  {
    var s, script: seq<Turn> := [a] + rest, [Give(0), Fail];
    var later := script[1..];
    assert Offered(s, 0) == 1 && s[..1] == [a];
    assert later[0] == Fail && later[1..] == [];
    assert Pull(s[1..], later, NL) == Pulled(Fails, 0, later[1..]);
  }

  lemma OneLine(text: seq<Byte>)
    requires NL !in text && CR !in text
    ensures Lines(text + [NL], AnyText) == [text]
  {
    var s := text + [NL];
    assert s + [] == s;
    FindIs(text, [], NL);
    assert s[..|text| + 1] == s && s[..|s| - 1] == text && s[|s|..] == [];
  }

  /** Whatever the length a reader of lines has kept, what is left is a line. */
  method LastLine(lines: LinesTask, text: seq<Byte>) returns (r: LinePoll)
    requires lines.Valid() && lines.isText == AnyText && lines.reader.script == []
    requires NL !in text && CR !in text && lines.Whole() == text + [NL]
    modifies lines, lines.reader
    ensures r == Next(text)
  {
    OneLine(text);
    ghost var part;
    r, part := lines.PollNextLine();
    assert lines.isText(part) == AnyText(part);
    assert r.Next?;
    assert ([r.text] + Lines(lines.Whole(), AnyText))[0] == r.text;
  }

  /** A line lost: of a line of text the reader gives one byte and then fails
      once, and the line handed out afterwards lacks that byte. */
  method ErrorInsideLine(a: Byte, text: seq<Byte>) returns (first: LinePoll, second: LinePoll)
    requires NL !in [a] + text && CR !in [a] + text
    ensures first == IoError && second == Next(text)
  {
    var rest := text + [NL];
    FailsInside(a, rest);
    var reader := new Reader([a] + rest, [Give(0), Fail]);
    var lines := new LinesTask(reader, AnyText);
    ghost var part;
    first, part := lines.PollNextLine();
    assert first == IoError && |part| == 1;
    assert lines.Whole() == ([a] + rest)[1..] == rest;
    second := LastLine(lines, text);
  }
}
