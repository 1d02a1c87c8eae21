/**
 The Redis serialization protocol as the relay benchmark speaks it: commands are written as arrays of
 bulk strings, and replies are read off a byte stream.
 */
module Resp {
  import opened Events

  type Byte = n: nat | n < 256
  type Bytes = seq<Byte>

  const CR: Byte := 13
  const LF: Byte := 10
  const STAR: Byte := 42
  const DOLLAR: Byte := 36
  const PLUS: Byte := 43
  const MINUS: Byte := 45
  const COLON: Byte := 58
  const UNDERSCORE: Byte := 95
  const CRLF: Bytes := [CR, LF]

  // ---- decimal numbers ----

  function Digits(n: nat): Bytes {
    if n < 10 then [48 + n] else Digits(n / 10) + [48 + n % 10]
  }

  predicate IsDigit(b: Byte) {
    48 <= b <= 57
  }

  /** Digits, with single underscores allowed between them. */
  function DigitsValue(s: Bytes): Option<nat> {
    if s == [] || !IsDigit(s[|s| - 1]) then None
    else if |s| == 1 then Some(s[0] - 48)
    else
      var front := DigitsValue(if s[|s| - 2] == UNDERSCORE then s[..|s| - 2] else s[..|s| - 1]);
      if front.None? then None else Some(10 * front.value + (s[|s| - 1] - 48))
  }

  predicate IsSpace(b: Byte) {
    9 <= b <= 13 || b == 32
  }

  function Stripped(s: Bytes): Bytes {
    if s != [] && IsSpace(s[0]) then Stripped(s[1..])
    else if s != [] && IsSpace(s[|s| - 1]) then Stripped(s[..|s| - 1])
    else s
  }

  /** Python's `int` on bytes. */
  function ParseInt(s: Bytes): Option<int> {
    var t := Stripped(s);
    if t != [] && t[0] == MINUS then
      var v := DigitsValue(t[1..]);
      if v.None? then None else Some(-(v.value as int))
    else
      var v := DigitsValue(if t != [] && t[0] == PLUS then t[1..] else t);
      if v.None? then None else Some(v.value)
  }

  lemma {:induction false} DigitsReadBack(n: nat)
    ensures Digits(n) != [] && DigitsValue(Digits(n)) == Some(n)
    ensures forall i :: 0 <= i < |Digits(n)| ==> IsDigit(Digits(n)[i])
  {
    if n >= 10 {
      DigitsReadBack(n / 10);
      var s := Digits(n);
      assert s[..|s| - 1] == Digits(n / 10);
      assert IsDigit(Digits(n / 10)[|s| - 2]) && s[|s| - 2] == Digits(n / 10)[|s| - 2];
    }
  }

  lemma IntReadsBack(n: nat)
    ensures ParseInt(Digits(n)) == Some(n)
    ensures LF !in Digits(n)
  {
    DigitsReadBack(n);
    assert IsDigit(Digits(n)[0]) && IsDigit(Digits(n)[|Digits(n)| - 1]);
  }

  // ---- writing commands ----

  function EncodePart(part: Bytes): Bytes {
    [DOLLAR] + Digits(|part|) + CRLF + part + CRLF
  }

  function EncodeParts(parts: seq<Bytes>): Bytes {
    if parts == [] then [] else EncodePart(parts[0]) + EncodeParts(parts[1..])
  }

  function Encode(parts: seq<Bytes>): Bytes {
    [STAR] + Digits(|parts|) + CRLF + EncodeParts(parts)
  }

  function Joined(frames: seq<Bytes>): Bytes {
    if frames == [] then [] else Joined(frames[..|frames| - 1]) + frames[|frames| - 1]
  }

  /** Collects the frames of a command and joins them. */
  method EncodeCommand(parts: seq<Bytes>) returns (command: Bytes)
    ensures command == Encode(parts)
  {
    var head := [STAR] + Digits(|parts|) + CRLF;
    var frames: seq<Bytes> := [head];
    assert frames[..0] == [];
    assert parts[0..] == parts;
    for i := 0 to |parts|
      invariant Joined(frames) + EncodeParts(parts[i..]) == Encode(parts)
    {
      var a, b := [DOLLAR] + Digits(|parts[i]|) + CRLF, parts[i];
      JoinThree(frames, a, b, CRLF);
      assert EncodeParts(parts[i..]) == a + b + CRLF + EncodeParts(parts[i + 1..]) by {
        assert parts[i..][0] == parts[i] && parts[i..][1..] == parts[i + 1..];
      }
      assert Joined(frames) + (a + b + CRLF + EncodeParts(parts[i + 1..]))
          == Joined(frames) + (a + b + CRLF) + EncodeParts(parts[i + 1..]);
      frames := frames + [a, b, CRLF];
    }
    command := Joined(frames);
    assert command + [] == command;
  }

  lemma JoinThree(frames: seq<Bytes>, a: Bytes, b: Bytes, c: Bytes)
    ensures Joined(frames + [a, b, c]) == Joined(frames) + (a + b + c)
  {
    JoinOne(frames, a);
    JoinOne(frames + [a], b);
    JoinOne(frames + [a] + [b], c);
    assert frames + [a] + [b] + [c] == frames + [a, b, c];
  }

  lemma JoinOne(frames: seq<Bytes>, a: Bytes)
    ensures Joined(frames + [a]) == Joined(frames) + a
  {
    assert (frames + [a])[..|frames|] == frames;
  }

  // ---- reading replies ----

  /** Text is its UTF-8 bytes. */
  datatype Value = Text(bytes: Bytes) | Integer(n: int) | Nil | Array(items: seq<Value>)

  datatype Error = Closed | Malformed | ServerError(message: Bytes) | BadInteger | BadText | UnknownPrefix

  datatype Parsed<T> = Ok(value: T, rest: Bytes) | Err(error: Error)

  /** Whether bytes decode as UTF-8 text. */
  type Decodes = Bytes -> bool

  /** Length of the first line with its line feed, or all that is left. */
  function LineLength(s: Bytes): (n: nat)
    ensures n <= |s|
  {
    if s == [] then 0 else if s[0] == LF then 1 else 1 + LineLength(s[1..])
  }

  function ReadLine(s: Bytes): (r: Parsed<Bytes>)
    ensures r.Ok? ==> |r.rest| < |s|
  {
    var n := LineLength(s);
    if n == 0 then Err(Closed)
    else if n < 2 || s[n - 2..n] != CRLF then Err(Malformed)
    else Ok(s[..n - 2], s[n..])
  }

  function ReadLength(s: Bytes): (r: Parsed<int>)
    ensures r.Ok? ==> |r.rest| < |s|
  {
    match ReadLine(s)
    case Err(e) => Err(e)
    case Ok(line, rest) => if ParseInt(line).None? then Err(BadInteger) else Ok(ParseInt(line).value, rest)
  }

  function ReadText(d: Decodes, s: Bytes): (r: Parsed<Value>)
    ensures r.Ok? ==> |r.rest| < |s|
  {
    match ReadLine(s)
    case Err(e) => Err(e)
    case Ok(line, rest) => if d(line) then Ok(Text(line), rest) else Err(BadText)
  }

  function ReadBulk(d: Decodes, s: Bytes): (r: Parsed<Value>)
    ensures r.Ok? ==> |r.rest| < |s|
  {
    match ReadLength(s)
    case Err(e) => Err(e)
    case Ok(n, rest) =>
      if n == -1 then Ok(Nil, rest)
      else if n < 0 || |rest| < n + 2 || rest[n..n + 2] != CRLF then Err(Malformed)
      else if d(rest[..n]) then Ok(Text(rest[..n]), rest[n + 2..])
      else Err(BadText)
  }

  function ReadResp(d: Decodes, s: Bytes): (r: Parsed<Value>)
    ensures r.Ok? ==> |r.rest| < |s|
    decreases |s|, 0
  {
    if s == [] then Err(Closed)
    else if s[0] == PLUS then ReadText(d, s[1..])
    else if s[0] == MINUS then
      match ReadLine(s[1..])
      case Err(e) => Err(e)
      case Ok(line, _) => if d(line) then Err(ServerError(line)) else Err(BadText)
    else if s[0] == COLON then
      match ReadLength(s[1..])
      case Err(e) => Err(e)
      case Ok(n, rest) => Ok(Integer(n), rest)
    else if s[0] == DOLLAR then ReadBulk(d, s[1..])
    else if s[0] == STAR then
      match ReadLength(s[1..])
      case Err(e) => Err(e)
      case Ok(n, rest) =>
        if n == -1 then Ok(Nil, rest)
        else
          match ReadItems(d, rest, if n < 0 then 0 else n)
          case Err(e) => Err(e)
          case Ok(items, tail) => Ok(Array(items), tail)
    else Err(UnknownPrefix)
  }

  /** `n` replies in a row. */
  function ReadItems(d: Decodes, s: Bytes, n: nat): (r: Parsed<seq<Value>>)
    ensures r.Ok? ==> |r.rest| <= |s| && |r.value| == n
    decreases |s|, 1
  {
    if n == 0 then Ok([], s)
    else
      match ReadResp(d, s)
      case Err(e) => Err(e)
      case Ok(v, rest) =>
        match ReadItems(d, rest, n - 1)
        case Err(e) => Err(e)
        case Ok(vs, tail) => Ok([v] + vs, tail)
  }

  // ---- the stream the reader consumes ----

  class Stream {
    const data: Bytes
    var pos: nat

    ghost predicate Valid()
      reads this
    {
      pos <= |data|
    }

    ghost function Rest(): Bytes
      requires Valid()
      reads this
    {
      data[pos..]
    }

    constructor (data: Bytes)
      ensures Valid() && this.data == data && pos == 0
    {
      this.data := data;
      pos := 0;
    }

    /** Up to `n` bytes; fewer only at the end of the stream. */
    method Read(n: nat) returns (bytes: Bytes)
      requires Valid()
      modifies this
      ensures Valid() && old(pos) <= pos
      ensures |bytes| == if n <= |old(Rest())| then n else |old(Rest())|
      ensures bytes == old(Rest())[..|bytes|] && Rest() == old(Rest())[|bytes|..]
    {
      var end := if pos + n <= |data| then pos + n else |data|;
      bytes := data[pos..end];
      pos := end;
    }

    method NextLine() returns (r: Parsed<Bytes>)
      requires Valid()
      modifies this
      ensures Valid() && old(pos) <= pos
      ensures var spec := ReadLine(old(Rest()));
              if spec.Ok? then r == Ok(spec.value, Rest()) && Rest() == spec.rest && old(pos) < pos else r == spec
    {
      var end := pos;
      ghost var s := Rest();
      while end < |data| && data[end] != LF
        invariant pos <= end <= |data|
        invariant LineLength(s) == (end - pos) + LineLength(data[end..])
      {
        end := end + 1;
      }
      if end < |data| {
        end := end + 1;
      }
      var line := data[pos..end];
      assert LineLength(s) == |line| && line == s[..|line|] && data[end..] == s[|line|..];
      assert |line| >= 2 ==> line[|line| - 2..] == s[|line| - 2..|line|];
      pos := end;
      if line == [] {
        return Err(Closed);
      }
      if |line| < 2 || line[|line| - 2..] != CRLF {
        return Err(Malformed);
      }
      assert line[..|line| - 2] == s[..|line| - 2];
      return Ok(line[..|line| - 2], data[pos..]);
    }

    /** An integer on a line of its own. */
    method NextLength() returns (r: Parsed<int>)
      requires Valid()
      modifies this
      ensures Valid() && old(pos) <= pos
      ensures var spec := ReadLength(old(Rest()));
              if spec.Ok? then r == spec && Rest() == spec.rest && old(pos) < pos else r == spec
    {
      var line := NextLine();
      if line.Err? {
        return Err(line.error);
      }
      if ParseInt(line.value).None? {
        return Err(BadInteger);
      }
      return Ok(ParseInt(line.value).value, data[pos..]);
    }

    method NextBulk(d: Decodes) returns (r: Parsed<Value>)
      requires Valid()
      modifies this
      ensures Valid() && old(pos) <= pos
      ensures var spec := ReadBulk(d, old(Rest()));
              if spec.Ok? then r == spec && Rest() == spec.rest else r == spec
    {
      var length := NextLength();
      if length.Err? {
        return Err(length.error);
      }
      if length.value == -1 {
        return Ok(Nil, data[pos..]);
      }
      if length.value < 0 {
        return Err(Malformed);
      }
      ghost var rest, n: nat := Rest(), length.value;
      var bytes := Read(length.value);
      var terminator := Read(2);
      assert |rest| >= n + 2 ==> rest[n..n + 2] == terminator;
      if |bytes| != length.value || terminator != CRLF {
        return Err(Malformed);
      }
      if !d(bytes) {
        return Err(BadText);
      }
      return Ok(Text(bytes), data[pos..]);
    }

    /** Reads one reply, recursing into arrays. */
    method Next(d: Decodes) returns (r: Parsed<Value>)
      requires Valid()
      modifies this
      ensures Valid() && old(pos) <= pos
      ensures r.Ok? ==> Rest() == r.rest
      ensures r == ReadResp(d, old(Rest()))
      ensures old(Rest()) == [] ==> r == Err(Closed)
      ensures old(Rest()) != [] ==>
              var kind := old(Rest())[0];
              && (r.Ok? && r.value.Text? ==> kind in {43, 36}) && (r.Ok? && r.value.Integer? ==> kind == 58)
              && (r.Ok? && r.value.Array? ==> kind == 42) && (r.Ok? && r.value.Nil? ==> kind in {36, 42})
              && (kind == 45 ==> r.Err?) && (kind !in {43, 45, 58, 36, 42} ==> r == Err(UnknownPrefix))
      decreases |data| - pos, 0
    {
      ghost var s := Rest();
      var prefix := Read(1);
      if prefix == [] {
        return Err(Closed);
      }
      assert prefix[0] == s[0] && Rest() == s[1..];
      if prefix[0] == PLUS {
        var line := NextLine();
        if line.Err? {
          return Err(line.error);
        }
        return if d(line.value) then Ok(Text(line.value), data[pos..]) else Err(BadText);
      } else if prefix[0] == MINUS {
        var line := NextLine();
        if line.Err? {
          return Err(line.error);
        }
        return Err(if d(line.value) then ServerError(line.value) else BadText);
      } else if prefix[0] == COLON {
        var n := NextLength();
        return if n.Err? then Err(n.error) else Ok(Integer(n.value), data[pos..]);
      } else if prefix[0] == DOLLAR {
        r := NextBulk(d);
      } else if prefix[0] == STAR {
        var n := NextLength();
        if n.Err? {
          return Err(n.error);
        }
        if n.value == -1 {
          return Ok(Nil, data[pos..]);
        }
        var items := NextItems(d, if n.value < 0 then 0 else n.value);
        return if items.Err? then Err(items.error) else Ok(Array(items.value), items.rest);
      } else {
        return Err(UnknownPrefix);
      }
    }

    method NextItems(d: Decodes, n: nat) returns (r: Parsed<seq<Value>>)
      requires Valid()
      modifies this
      ensures Valid() && old(pos) <= pos
      ensures r.Ok? ==> Rest() == r.rest
      ensures r == ReadItems(d, old(Rest()), n)
      decreases |data| - pos, 1
    {
      if n == 0 {
        return Ok([], data[pos..]);
      }
      var v := Next(d);
      if v.Err? {
        return Err(v.error);
      }
      var others := NextItems(d, n - 1);
      return if others.Err? then Err(others.error) else Ok([v.value] + others.value, others.rest);
    }
  }

  // ---- round trip ----

  lemma {:induction false} LineAt(line: Bytes, rest: Bytes)
    requires LF !in line
    ensures LineLength(line + CRLF + rest) == |line| + 2
  {
    var s := line + CRLF + rest;
    if line == [] {
      assert s[0] == CR && s[1..][0] == LF;
    } else {
      LineAt(line[1..], rest);
      assert s[1..] == line[1..] + CRLF + rest;
    }
  }

  lemma LineReadsBack(line: Bytes, rest: Bytes)
    requires LF !in line
    ensures ReadLine(line + CRLF + rest) == Ok(line, rest)
  {
    LineAt(line, rest);
    var s := line + CRLF + rest;
    assert s[|line|..|line| + 2] == CRLF && s[..|line|] == line && s[|line| + 2..] == rest;
  }

  lemma LengthReadsBack(n: nat, rest: Bytes)
    ensures ReadLength(Digits(n) + CRLF + rest) == Ok(n, rest)
  {
    IntReadsBack(n);
    LineReadsBack(Digits(n), rest);
  }

  lemma PartReadsBack(d: Decodes, part: Bytes, rest: Bytes)
    requires d(part)
    ensures ReadResp(d, EncodePart(part) + rest) == Ok(Text(part), rest)
  {
    var s := EncodePart(part) + rest;
    var body := part + CRLF + rest;
    assert s[1..] == Digits(|part|) + CRLF + body;
    LengthReadsBack(|part|, body);
    assert body[..|part|] == part && body[|part|..|part| + 2] == CRLF && body[|part| + 2..] == rest;
  }

  function Texts(parts: seq<Bytes>): seq<Value> {
    if parts == [] then [] else [Text(parts[0])] + Texts(parts[1..])
  }

  lemma {:induction false} PartsReadBack(d: Decodes, parts: seq<Bytes>, rest: Bytes)
    requires forall i :: 0 <= i < |parts| ==> d(parts[i])
    ensures ReadItems(d, EncodeParts(parts) + rest, |parts|) == Ok(Texts(parts), rest)
    decreases |parts|
  {
    if parts == [] {
      assert EncodeParts(parts) + rest == rest;
    } else {
      var tail := EncodeParts(parts[1..]) + rest;
      assert EncodeParts(parts) + rest == EncodePart(parts[0]) + tail;
      PartReadsBack(d, parts[0], tail);
      PartsReadBack(d, parts[1..], rest);
    }
  }

  /** An array header hands the rest of the stream to its items. */
  lemma HeaderReads(d: Decodes, n: nat, body: Bytes)
    requires ReadItems(d, body, n).Ok?
    ensures ReadResp(d, [STAR] + Digits(n) + CRLF + body)
        == Ok(Array(ReadItems(d, body, n).value), ReadItems(d, body, n).rest)
  {
    var s := [STAR] + Digits(n) + CRLF + body;
    assert s[0] == STAR && s[1..] == Digits(n) + CRLF + body;
    LengthReadsBack(n, body);
  }

  /** A command reads back as its parts, whatever bytes they hold, and exactly the rest is left. */
  lemma CommandReadsBack(d: Decodes, parts: seq<Bytes>, rest: Bytes)
    requires forall i :: 0 <= i < |parts| ==> d(parts[i])
    ensures ReadResp(d, Encode(parts) + rest) == Ok(Array(Texts(parts)), rest)
  {
    PartsReadBack(d, parts, rest);
    HeaderReads(d, |parts|, EncodeParts(parts) + rest);
    var head := [STAR] + Digits(|parts|) + CRLF;
    assert head + EncodeParts(parts) + rest == head + (EncodeParts(parts) + rest);
  }

  function EncodeAll(commands: seq<seq<Bytes>>): Bytes {
    if commands == [] then [] else Encode(commands[0]) + EncodeAll(commands[1..])
  }

  function Replies(commands: seq<seq<Bytes>>): seq<Value> {
    if commands == [] then [] else [Array(Texts(commands[0]))] + Replies(commands[1..])
  }

  /** Any concatenation of commands reads back as the same sequence of commands. */
  lemma {:induction false} CommandsReadBack(d: Decodes, commands: seq<seq<Bytes>>, rest: Bytes)
    requires forall i, j :: 0 <= i < |commands| && 0 <= j < |commands[i]| ==> d(commands[i][j])
    ensures ReadItems(d, EncodeAll(commands) + rest, |commands|) == Ok(Replies(commands), rest)
    decreases |commands|
  {
    if commands == [] {
      assert EncodeAll(commands) + rest == rest;
    } else {
      var tail := EncodeAll(commands[1..]) + rest;
      assert EncodeAll(commands) + rest == Encode(commands[0]) + tail;
      CommandReadsBack(d, commands[0], tail);
      CommandsReadBack(d, commands[1..], rest);
    }
  }

  // ---- what more bytes can change ----

  lemma {:induction false} LineLengthExtends(s: Bytes, more: Bytes)
    requires LineLength(s) > 0 && s[LineLength(s) - 1] == LF
    ensures LineLength(s + more) == LineLength(s)
  {
    if s[0] != LF {
      assert (s + more)[1..] == s[1..] + more;
      LineLengthExtends(s[1..], more);
    }
  }

  lemma LineExtends(s: Bytes, more: Bytes)
    requires ReadLine(s).Ok?
    ensures ReadLine(s + more) == Ok(ReadLine(s).value, ReadLine(s).rest + more)
  {
    var n := LineLength(s);
    assert s[n - 2..n][1] == LF;
    LineLengthExtends(s, more);
    assert (s + more)[n - 2..n] == s[n - 2..n] && (s + more)[..n - 2] == s[..n - 2] && (s + more)[n..] == s[n..] + more;
  }

  lemma BulkExtends(d: Decodes, s: Bytes, more: Bytes)
    requires ReadBulk(d, s).Ok?
    ensures ReadBulk(d, s + more) == Ok(ReadBulk(d, s).value, ReadBulk(d, s).rest + more)
  {
    LineExtends(s, more);
    var rest, n := ReadLength(s).rest, ReadLength(s).value;
    if n != -1 {
      assert (rest + more)[n..n + 2] == rest[n..n + 2] && (rest + more)[..n] == rest[..n];
      assert (rest + more)[n + 2..] == rest[n + 2..] + more;
    }
  }

  /** A reply that has been read stays read: later bytes only extend what is left. */
  lemma {:induction false} ReplyExtends(d: Decodes, s: Bytes, more: Bytes)
    requires ReadResp(d, s).Ok?
    ensures ReadResp(d, s + more) == Ok(ReadResp(d, s).value, ReadResp(d, s).rest + more)
    decreases |s|, 0
  {
    assert (s + more)[0] == s[0] && (s + more)[1..] == s[1..] + more;
    if s[0] == DOLLAR {
      BulkExtends(d, s[1..], more);
    } else {
      LineExtends(s[1..], more);
      if s[0] == STAR && ReadLength(s[1..]).value != -1 {
        var n := ReadLength(s[1..]).value;
        ItemsExtend(d, ReadLength(s[1..]).rest, if n < 0 then 0 else n, more);
      }
    }
  }

  lemma {:induction false} ItemsExtend(d: Decodes, s: Bytes, n: nat, more: Bytes)
    requires ReadItems(d, s, n).Ok?
    ensures ReadItems(d, s + more, n) == Ok(ReadItems(d, s, n).value, ReadItems(d, s, n).rest + more)
    decreases |s|, 1
  {
    if n > 0 {
      ReplyExtends(d, s, more);
      ItemsExtend(d, ReadResp(d, s).rest, n - 1, more);
    }
  }

  /** A command cut short never reads as a reply. */
  lemma TruncatedCommandFails(d: Decodes, parts: seq<Bytes>, k: nat)
    requires k < |Encode(parts)| && forall i :: 0 <= i < |parts| ==> d(parts[i])
    ensures ReadResp(d, Encode(parts)[..k]).Err?
  {
    var s, more := Encode(parts)[..k], Encode(parts)[k..];
    assert s + more == Encode(parts) + [];
    CommandReadsBack(d, parts, []);
    if ReadResp(d, s).Ok? { ReplyExtends(d, s, more); }
  }
}
