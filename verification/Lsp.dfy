/** The incremental parser of `Content-Length` frames on a language server's stream
    (Language Server Protocol 3.17, "Base Protocol", "Header Part"). A byte is the character with its code. */
module Lsp {
  import opened Outcomes
  import opened Text

  // ----- Searching and splitting -----

  predicate OccursAt(s: string, p: string, j: nat) { j <= |s| && p <= s[j..] }

  function IndexOf(s: string, p: string): (r: Option<nat>)
    requires p != ""
    ensures r.Some? ==> r.value + |p| <= |s| && OccursAt(s, p, r.value)
    ensures r.Some? ==> forall j :: 0 <= j < r.value ==> !OccursAt(s, p, j)
    ensures r.None? ==> forall j: nat :: !OccursAt(s, p, j)
  {
    if |s| < |p| then None
    else if p <= s then assert s[0..] == s; Some(0)
    else
      var r := IndexOf(s[1..], p);
      assert forall j: nat :: OccursAt(s, p, j) ==> j > 0 && s[j..] == s[1..][j - 1..] && OccursAt(s[1..], p, j - 1);
      if r.None? then None
      else
        assert s[1..][r.value..] == s[r.value + 1..];
        Some(r.value + 1)
  }

  /** `String.prototype.split` for a separator. */
  function SplitOn(s: string, separator: string): (r: seq<string>)
    requires separator != ""
    ensures r != []
    decreases |s|
  {
    match IndexOf(s, separator)
    case None => [s]
    case Some(i) => [s[..i]] + SplitOn(s[i + |separator|..], separator)
  }

  predicate IsBlank(c: char) { c == ' ' || '\t' <= c <= '\r' }

  function TrimStart(s: string): (r: string)
    ensures r == "" || !IsBlank(r[0])
  {
    if s != "" && IsBlank(s[0]) then TrimStart(s[1..]) else s
  }

  function TrimEnd(s: string): string
  {
    if s != "" && IsBlank(s[|s| - 1]) then TrimEnd(s[..|s| - 1]) else s
  }

  function Trim(s: string): string { TrimEnd(TrimStart(s)) }

  function LowerChar(c: char): char
  {
    if 'A' <= c <= 'Z' then (c as int + 32) as char else c
  }

  function Lower(s: string): string { seq(|s|, i requires 0 <= i < |s| => LowerChar(s[i])) }

  /** Node's `ascii` decoding drops the high bit. */
  function Ascii(s: string): string { seq(|s|, i requires 0 <= i < |s| => (s[i] as int % 128) as char) }

  // ----- Headers -----

  const MAX_HEADER := 16 * 1024
  const MAX_SAFE_INTEGER := 9007199254740991

  datatype LspError =
    | HeaderTooLong | MalformedLine | DuplicateHeader | NoContentLength | LengthTooLarge | MessageTooLarge | InvalidBody

  datatype Head = Head(contentLength: nat, end: nat)

  /** The header fields of the lines, added to those already read. */
  function Fields(lines: seq<string>, fields: map<string, string>): Result<map<string, string>, LspError>
  {
    if lines == [] then Ok(fields)
    else
      var separator := IndexOf(lines[0], ":");
      if separator.None? || separator.value == 0 then Err(MalformedLine)
      else
        var key := Lower(Trim(lines[0][..separator.value]));
        if key in fields then Err(DuplicateHeader)
        else Fields(lines[1..], fields[key := Trim(lines[0][separator.value + 1..])])
  }

  function ContentLength(fields: map<string, string>): Result<nat, LspError>
  {
    if "content-length" !in fields then Err(NoContentLength)
    else
      var value := fields["content-length"];
      if value == "" || !AllDigits(value) then Err(NoContentLength)
      else if Digits(value) > MAX_SAFE_INTEGER then Err(LengthTooLarge)
      else Ok(Digits(value))
  }

  /** Where the header ends and how long that end mark is: whichever of the two marks comes first. */
  function EndMark(buffer: string): (r: Option<(nat, string)>)
    ensures r.Some? ==> r.value.0 + |r.value.1| <= |buffer| && |r.value.1| >= 2
  {
    var crlf, lf := IndexOf(buffer, "\r\n\r\n"), IndexOf(buffer, "\n\n");
    if crlf.None? && lf.None? then None
    else if crlf.Some? && (lf.None? || crlf.value <= lf.value) then Some((crlf.value, "\r\n\r\n"))
    else Some((lf.value, "\n\n"))
  }

  function LineBreak(mark: string): string { if mark == "\r\n\r\n" then "\r\n" else "\n" }

  /** `readHeader`; nothing while the header is incomplete. */
  function ReadHeader(buffer: string): (r: Result<Option<Head>, LspError>)
    ensures r.Ok? && r.value.Some? ==> 0 < r.value.value.end <= |buffer|
  {
    match EndMark(buffer)
    case None => if |buffer| > MAX_HEADER then Err(HeaderTooLong) else Ok(None)
    case Some((at, mark)) =>
      match Fields(SplitOn(Ascii(buffer[..at]), LineBreak(mark)), map[])
      case Err(e) => Err(e)
      case Ok(fields) =>
        match ContentLength(fields)
        case Err(e) => Err(e)
        case Ok(length) => Ok(Some(Head(length, at + |mark|)))
  }

  // ----- The parser -----

  /** What a drained buffer comes to: the messages before its first incomplete or wrong frame, what is left of it,
      and the error that stopped it, if one did. */
  datatype Drained = Drained(messages: seq<string>, rest: string, error: Option<LspError>)

  function Drain(buffer: string, limit: nat, accepts: string -> bool): Drained
    decreases |buffer|
  {
    match ReadHeader(buffer)
    case Err(e) => Drained([], if e == HeaderTooLong then "" else buffer, Some(e))
    case Ok(None) => Drained([], buffer, None)
    case Ok(Some(head)) =>
      if head.contentLength > limit then Drained([], "", Some(MessageTooLarge))
      else
        var end := head.end + head.contentLength;
        if |buffer| < end then Drained([], buffer, None)
        else
          var body := buffer[head.end..end];
          if !accepts(body) then Drained([], buffer[end..], Some(InvalidBody))
          else
            WithEarlier([body], Drain(buffer[end..], limit, accepts))
  }

  function WithEarlier(messages: seq<string>, d: Drained): Drained
  {
    d.(messages := messages + d.messages)
  }

  lemma EarlierTwice(first: seq<string>, second: seq<string>, d: Drained)
    ensures WithEarlier(first, WithEarlier(second, d)) == WithEarlier(first + second, d)
  {
    assert first + (second + d.messages) == (first + second) + d.messages;
  }

  class LspMessageParser {
    var buffer: string
    const maxContentLength: nat
    /** A body that parses as a JSON-RPC message. */
    const accepts: string -> bool

    constructor (maxContentLength: nat, accepts: string -> bool)
      requires maxContentLength > 0
      ensures buffer == "" && this.maxContentLength == maxContentLength && this.accepts == accepts
    {
      buffer := "";
      this.maxContentLength := maxContentLength;
      this.accepts := accepts;
    }

    /** `push`: the messages that the chunk completes, in order. */
    method Push(chunk: string) returns (result: Result<seq<string>, LspError>)
      modifies this`buffer
      ensures var d := Drain(old(buffer) + chunk, maxContentLength, accepts);
              && buffer == d.rest
              && result == (if d.error.Some? then Err(d.error.value) else Ok(d.messages))
    {
      hide ReadHeader;
      buffer := buffer + chunk;
      ghost var all := buffer;
      var messages: seq<string> := [];
      assert WithEarlier([], Drain(all, maxContentLength, accepts)) == Drain(all, maxContentLength, accepts);
      while true
        invariant Drain(all, maxContentLength, accepts)
            == WithEarlier(messages, Drain(buffer, maxContentLength, accepts))
        decreases |buffer|
      {
        assert messages + [] == messages;
        var header := ReadHeaderLoop(buffer);
        if header.Err? {
          if header.error == HeaderTooLong {
            buffer := "";
          }
          return Err(header.error);
        }
        if header.value.None? {
          return Ok(messages);
        }
        var head := header.value.value;
        if head.contentLength > maxContentLength {
          buffer := "";
          return Err(MessageTooLarge);
        }
        var bodyEnd := head.end + head.contentLength;
        if |buffer| < bodyEnd {
          return Ok(messages);
        }
        var body := buffer[head.end..bodyEnd];
        ghost var before := buffer;
        buffer := buffer[bodyEnd..];
        if !accepts(body) {
          return Err(InvalidBody);
        }
        assert Drain(before, maxContentLength, accepts)
            == WithEarlier([body], Drain(buffer, maxContentLength, accepts));
        EarlierTwice(messages, [body], Drain(buffer, maxContentLength, accepts));
        messages := messages + [body];
      }
    }

    /** `readHeader`, line by line into a map of fields. */
    static method ReadHeaderLoop(buffer: string) returns (r: Result<Option<Head>, LspError>)
      ensures r == ReadHeader(buffer)
    {
      hide IndexOf, SplitOn, Trim, Lower, Ascii, Digits, AllDigits;
      var crlf, lf := IndexOf(buffer, "\r\n\r\n"), IndexOf(buffer, "\n\n");
      if crlf.None? && lf.None? {
        if |buffer| > MAX_HEADER {
          return Err(HeaderTooLong);
        }
        return Ok(None);
      }
      var useCrlf := crlf.Some? && (lf.None? || crlf.value <= lf.value);
      var end := if useCrlf then crlf.value + 4 else lf.value + 2;
      var raw := Ascii(buffer[..end - (if useCrlf then 4 else 2)]);
      var lines := SplitOn(raw, if useCrlf then "\r\n" else "\n");
      var values: map<string, string> := map[];
      for i := 0 to |lines|
        invariant Fields(lines, map[]) == Fields(lines[i..], values)
      {
        var line := lines[i];
        assert lines[i..][0] == line && lines[i..][1..] == lines[i + 1..];
        var separator := IndexOf(line, ":");
        if separator.None? || separator.value == 0 {
          return Err(MalformedLine);
        }
        var key := Lower(Trim(line[..separator.value]));
        var value := Trim(line[separator.value + 1..]);
        if key in values {
          return Err(DuplicateHeader);
        }
        values := values[key := value];
      }
      if "content-length" !in values || values["content-length"] == "" || !AllDigits(values["content-length"]) {
        return Err(NoContentLength);
      }
      var parsedLength := Digits(values["content-length"]);
      if parsedLength > MAX_SAFE_INTEGER {
        return Err(LengthTooLarge);
      }
      return Ok(Some(Head(parsedLength, end)));
    }
  }

  // ----- Frames -----

  const CONTENT_LENGTH := "Content-Length: "

  function HeaderOf(length: nat): string { CONTENT_LENGTH + Decimal(length) }

  /** `serializeLspMessage`, given the bytes of the message. */
  function Frame(body: string): string { HeaderOf(|body|) + "\r\n\r\n" + body }

  function Frames(bodies: seq<string>): string
  {
    if bodies == [] then "" else Frame(bodies[0]) + Frames(bodies[1..])
  }

  /** A body that the parser is meant to take: within its limit, and a message. */
  predicate Acceptable(body: string, limit: nat, accepts: string -> bool)
  {
    |body| <= limit && |body| <= MAX_SAFE_INTEGER && accepts(body)
  }

  predicate AllAcceptable(bodies: seq<string>, limit: nat, accepts: string -> bool)
  {
    forall b :: b in bodies ==> Acceptable(b, limit, accepts)
  }

  // ----- Reading back a header -----

  lemma HeaderChars(length: nat)
    ensures forall i :: 0 <= i < |HeaderOf(length)| ==>
              HeaderOf(length)[i] != '\r' && HeaderOf(length)[i] != '\n' && HeaderOf(length)[i] as int < 128
  {
  }

  /** A mark occurs first where its first character does. */
  lemma FirstOccurrence(s: string, p: string, at: nat)
    requires p != "" && at <= |s| && forall i :: 0 <= i < at ==> s[i] != p[0]
    ensures IndexOf(s, p).Some? ==> IndexOf(s, p).value >= at
    ensures OccursAt(s, p, at) ==> IndexOf(s, p) == Some(at)
  {
    assert forall j: nat :: j < at && OccursAt(s, p, j) ==> s[j..][0] == p[0];
  }

  lemma SplitUnbroken(s: string, separator: string)
    requires separator != "" && forall i :: 0 <= i < |s| ==> s[i] != separator[0]
    ensures SplitOn(s, separator) == [s]
  {
    FirstOccurrence(s, separator, |s|);
    assert !OccursAt(s, separator, |s|);
  }

  lemma TrimNumber(digits: string)
    requires digits != "" && AllDigits(digits)
    ensures Trim(" " + digits) == digits
  {
    assert (" " + digits)[1..] == digits;
    assert TrimStart(digits) == digits;
    assert TrimStart(" " + digits) == digits;
  }

  lemma TrimName()
    ensures Lower(Trim("Content-Length")) == "content-length"
  {
    assert Trim("Content-Length") == "Content-Length";
  }

  lemma HeaderParts(length: nat)
    ensures var header := HeaderOf(length);
            && |header| > 15 && header[..14] == "Content-Length" && header[15..] == " " + Decimal(length)
            && IndexOf(header, ":") == Some(14)
  {
    hide Decimal;
    var name, header := "Content-Length", HeaderOf(length);
    assert header[..14] == name && header[14] == ':' && header[15..] == " " + Decimal(length);
    assert forall i :: 0 <= i < 14 ==> name[i] != ':';
    assert forall i :: 0 <= i < 14 ==> header[i] == name[i];
    assert header[14..][0] == ':';
    FirstOccurrence(header, ":", 14);
  }

  lemma HeaderFields(length: nat)
    ensures Fields([HeaderOf(length)], map[]) == Ok(map["content-length" := Decimal(length)])
  {
    hide Trim, Lower, IndexOf, Decimal, HeaderOf;
    HeaderParts(length);
    TrimName();
    TrimNumber(Decimal(length));
    var lines, fields: map<string, string> := [HeaderOf(length)], map[];
    assert fields["content-length" := Decimal(length)] == map["content-length" := Decimal(length)];
    assert Fields(lines[1..], map["content-length" := Decimal(length)]) == Ok(map["content-length" := Decimal(length)]);
  }

  lemma HeaderEnd(length: nat, more: string)
    ensures EndMark(HeaderOf(length) + "\r\n\r\n" + more) == Some((|HeaderOf(length)|, "\r\n\r\n"))
  {
    var header, buffer := HeaderOf(length), HeaderOf(length) + "\r\n\r\n" + more;
    HeaderChars(length);
    hide IndexOf, HeaderOf;
    assert forall i :: 0 <= i < |header| ==> buffer[i] == header[i];
    assert buffer[|header|..] == "\r\n\r\n" + more;
    FirstOccurrence(buffer, "\r\n\r\n", |header|);
    FirstOccurrence(buffer, "\n\n", |header|);
  }

  /** A buffer that begins with a whole header is read as that header, whatever follows. */
  lemma HeaderReadBack(length: nat, more: string)
    requires length <= MAX_SAFE_INTEGER
    ensures ReadHeader(HeaderOf(length) + "\r\n\r\n" + more) == Ok(Some(Head(length, |HeaderOf(length)| + 4)))
  {
    var header, buffer := HeaderOf(length), HeaderOf(length) + "\r\n\r\n" + more;
    HeaderEnd(length, more);
    HeaderChars(length);
    assert buffer[..|header|] == header;
    assert Ascii(header) == header;
    SplitUnbroken(header, "\r\n");
    HeaderFields(length);
    DecimalDenotes(length);
    hide EndMark, SplitOn, Fields, HeaderOf, Decimal, Ascii;
  }

  lemma {:induction false} DecimalLength(n: nat, digits: nat, bound: nat)
    requires n < bound && bound == Power10(digits) && digits > 0
    ensures |Decimal(n)| <= digits
  {
    if n >= 10 {
      assert digits > 1;
      DecimalLength(n / 10, digits - 1, Power10(digits - 1));
    }
  }

  function Power10(n: nat): nat { if n == 0 then 1 else 10 * Power10(n - 1) }

  lemma HeaderIsShort(length: nat)
    requires length <= MAX_SAFE_INTEGER
    ensures |HeaderOf(length)| <= 32
  {
    assert Power10(4) == 10000 by { assert Power10(2) == 100; }
    assert Power10(8) == 100000000 by { assert Power10(6) == 1000000; }
    assert Power10(12) == 1000000000000 by { assert Power10(10) == 10000000000; }
    assert Power10(16) == 10000000000000000 by { assert Power10(14) == 100000000000000; }
    DecimalLength(length, 16, 10000000000000000);
  }

  // ----- Frames in the buffer -----

  lemma FrameSplit(body: string, more: string)
    ensures var end := |HeaderOf(|body|)| + 4;
            var buffer := Frame(body) + more;
            && buffer == HeaderOf(|body|) + "\r\n\r\n" + (body + more)
            && |Frame(body)| == end + |body| && buffer[end..end + |body|] == body && buffer[end + |body|..] == more
  {
  }

  /** Part of a frame, up to any point before its end, is kept and waited on. */
  lemma PartialWaits(body: string, partial: string, limit: nat, accepts: string -> bool)
    requires Acceptable(body, limit, accepts) && partial < Frame(body)
    ensures Drain(partial, limit, accepts) == Drained([], partial, None)
  {
    var header := HeaderOf(|body|);
    hide HeaderOf;
    if |partial| < |header| + 4 {
      HeaderIsShort(|body|);
      HeaderWaits(|body|, partial);
      assert partial <= header + "\r\n\r\n";
    } else {
      var begun := partial[|header| + 4..];
      assert partial == header + "\r\n\r\n" + begun by {
        assert partial == Frame(body)[..|partial|];
      }
      HeaderReadBack(|body|, begun);
      hide ReadHeader;
    }
  }

  lemma HeaderWaits(length: nat, partial: string)
    requires partial < HeaderOf(length) + "\r\n\r\n"
    ensures EndMark(partial) == None
  {
    var header := HeaderOf(length);
    HeaderChars(length);
    hide IndexOf, HeaderOf;
    var whole := header + "\r\n\r\n";
    assert forall i :: 0 <= i < |partial| ==> partial[i] == whole[i];
    var at := if |partial| < |header| then |partial| else |header|;
    FirstOccurrence(partial, "\r\n\r\n", at);
    FirstOccurrence(partial, "\n\n", at);
    assert forall i :: |header| <= i < |partial| - 1 ==> whole[i] != '\n' || whole[i + 1] != '\n';
    var lf := IndexOf(partial, "\n\n");
    if lf.Some? {
      TwoBreaks(partial, lf.value);
    }
  }

  lemma TwoBreaks(s: string, i: nat)
    requires OccursAt(s, "\n\n", i)
    ensures i + 1 < |s| && s[i] == '\n' && s[i + 1] == '\n'
  {
    assert s[i..][0] == '\n' && s[i..][1] == '\n';
  }

  /** Whole frames come out as their bodies, in order, and what follows them stays. */
  lemma {:induction false} FramesDrain(bodies: seq<string>, partial: string, limit: nat, accepts: string -> bool)
    requires AllAcceptable(bodies, limit, accepts)
    requires Drain(partial, limit, accepts) == Drained([], partial, None)
    ensures Drain(Frames(bodies) + partial, limit, accepts) == Drained(bodies, partial, None)
  {
    if bodies == [] {
      assert Frames(bodies) + partial == partial;
    } else {
      var body, rest := bodies[0], Frames(bodies[1..]) + partial;
      FramesDrain(bodies[1..], partial, limit, accepts);
      assert Acceptable(body, limit, accepts);
      assert Frames(bodies) + partial == Frame(body) + rest;
      FrameSplit(body, rest);
      HeaderReadBack(|body|, body + rest);
      hide ReadHeader, Frame, HeaderOf, Frames;
      assert Drain(Frame(body) + rest, limit, accepts) == WithEarlier([body], Drain(rest, limit, accepts));
      assert [body] + bodies[1..] == bodies;
    }
  }

  lemma FramesCons(body: string, rest: seq<string>)
    ensures Frames([]) == "" && Frames([body] + rest) == Frame(body) + Frames(rest)
  {
    assert ([body] + rest)[1..] == rest;
  }

  lemma {:induction false} FramesAppend(first: seq<string>, second: seq<string>)
    ensures Frames(first + second) == Frames(first) + Frames(second)
  {
    hide Frame, Frames;
    if first == [] {
      FramesCons("", []);
      assert first + second == second;
    } else {
      var body, rest := first[0], first[1..];
      FramesAppend(rest, second);
      FramesCons(body, rest);
      FramesCons(body, rest + second);
      assert [body] + rest == first && [body] + (rest + second) == first + second;
    }
  }

  // ----- Chunks -----

  function Concat(chunks: seq<string>): string
  {
    if chunks == [] then "" else Concat(chunks[..|chunks| - 1]) + chunks[|chunks| - 1]
  }

  /** A new parser given the chunks one after the other, up to its first error. */
  function PushAll(chunks: seq<string>, limit: nat, accepts: string -> bool): Drained
  {
    if chunks == [] then Drained([], "", None)
    else
      var prior := PushAll(chunks[..|chunks| - 1], limit, accepts);
      if prior.error.Some? then prior
      else WithEarlier(prior.messages, Drain(prior.rest + chunks[|chunks| - 1], limit, accepts))
  }

  /** The partial frame is what has arrived of the frame after the first `k`, and not the whole of it. */
  predicate AwaitsRest(bodies: seq<string>, k: nat, partial: string)
  {
    k <= |bodies| && if k == |bodies| then partial == "" else partial < Frame(bodies[k])
  }

  lemma {:induction false} CutAt(bodies: seq<string>, received: string) returns (k: nat, partial: string)
    requires received <= Frames(bodies)
    ensures AwaitsRest(bodies, k, partial) && received == Frames(bodies[..k]) + partial
  {
    hide Frame;
    if bodies == [] || received < Frame(bodies[0]) {
      k, partial := 0, received;
    } else {
      var frame := Frame(bodies[0]);
      assert received == frame + received[|frame|..];
      k, partial := CutAt(bodies[1..], received[|frame|..]);
      k := k + 1;
      assert bodies[..k][0] == bodies[0] && bodies[..k][1..] == bodies[1..][..k - 1];
      assert Frames(bodies[..k]) == frame + Frames(bodies[1..][..k - 1]);
    }
  }

  /** One more chunk of a stream of frames. */
  lemma ChunkDrains(bodies: seq<string>, partial: string, chunk: string, limit: nat, accepts: string -> bool)
    requires AllAcceptable(bodies, limit, accepts) && partial + chunk <= Frames(bodies)
    ensures var d := Drain(partial + chunk, limit, accepts);
            && d.error.None? && d.messages <= bodies && partial + chunk == Frames(d.messages) + d.rest
            && AwaitsRest(bodies, |d.messages|, d.rest)
  {
    hide Frames;
    var k, left := CutAt(bodies, partial + chunk);
    if k < |bodies| {
      assert Acceptable(bodies[k], limit, accepts);
      PartialWaits(bodies[k], left, limit, accepts);
    } else {
      NothingWaits(limit, accepts);
    }
    FramesDrain(bodies[..k], left, limit, accepts);
  }

  lemma NothingWaits(limit: nat, accepts: string -> bool)
    ensures Drain("", limit, accepts) == Drained([], "", None)
  {
  }

  /** However a stream of frames is cut into chunks, and however much of it has arrived, the parser has returned exactly
      the messages whose frames are complete, in order, and holds exactly what has arrived of the next one. */
  lemma {:induction false} ChunkIndependence(bodies: seq<string>, chunks: seq<string>, limit: nat,
      accepts: string -> bool)
    requires AllAcceptable(bodies, limit, accepts) && Concat(chunks) <= Frames(bodies)
    ensures var d := PushAll(chunks, limit, accepts);
            && d.error.None? && d.messages <= bodies && Concat(chunks) == Frames(d.messages) + d.rest
            && AwaitsRest(bodies, |d.messages|, d.rest)
    decreases |chunks|
  {
    hide Drain, Frame;
    if chunks == [] {
      NothingArrived(bodies);
    } else {
      var n := |chunks| - 1;
      ChunkIndependence(bodies, chunks[..n], limit, accepts);
      var prior := PushAll(chunks[..n], limit, accepts);
      var k := |prior.messages|;
      assert bodies == prior.messages + bodies[k..];
      FramesAppend(prior.messages, bodies[k..]);
      hide Frames;
      assert prior.rest + chunks[n] <= Frames(bodies[k..]) by {
        assert Concat(chunks) == Frames(prior.messages) + (prior.rest + chunks[n]);
        PrefixTail(Frames(prior.messages), prior.rest + chunks[n], Frames(bodies[k..]));
      }
      ChunkDrains(bodies[k..], prior.rest, chunks[n], limit, accepts);
      var d := Drain(prior.rest + chunks[n], limit, accepts);
      FramesAppend(prior.messages, d.messages);
      assert prior.messages + d.messages <= bodies;
      assert Concat(chunks) == Frames(prior.messages) + (Frames(d.messages) + d.rest);
    }
  }

  lemma NothingArrived(bodies: seq<string>)
    ensures AwaitsRest(bodies, 0, "")
  {
  }

  lemma PrefixTail(a: string, b: string, c: string)
    requires a + b <= a + c
    ensures b <= c
  {
    assert (a + b)[|a|..] == b && (a + c)[|a|..] == c;
  }

  lemma RestHasFrame(messages: seq<string>, bodies: seq<string>, rest: string)
    requires messages < bodies && Frames(bodies) == Frames(messages) + rest
    ensures |rest| >= |Frame(bodies[|messages|])|
  {
    hide Frame;
    var k := |messages|;
    assert messages + bodies[k..] == bodies;
    FramesAppend(messages, bodies[k..]);
    assert |Frames(bodies[k..])| == |rest|;
  }

  /** When the whole stream has arrived, all its messages have been returned and nothing is held. */
  lemma StreamReturnsAll(bodies: seq<string>, chunks: seq<string>, limit: nat, accepts: string -> bool)
    requires AllAcceptable(bodies, limit, accepts) && Concat(chunks) == Frames(bodies)
    ensures PushAll(chunks, limit, accepts) == Drained(bodies, "", None)
  {
    hide PushAll, Frame, Frames;
    ChunkIndependence(bodies, chunks, limit, accepts);
    var d := PushAll(chunks, limit, accepts);
    if |d.messages| < |bodies| {
      RestHasFrame(d.messages, bodies, d.rest);
    }
  }
}
