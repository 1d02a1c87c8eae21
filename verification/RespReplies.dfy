/**
 The replies of the Redis serialization protocol, byte by byte: what each kind reads as, and how each can be
 malformed.
 */
module RespReplies {
  import opened Events
  import opened Resp

  const END: Bytes := [13, 10]

  /** One byte in front of a line and what follows it. */
  lemma Behind(kind: Byte, line: Bytes, rest: Bytes)
    requires 10 !in line
    ensures var s := [kind] + line + END + rest;
            && s[0] == kind && s[1..] == line + CRLF + rest
            && ReadLine(s[1..]) == Ok(line, rest)
  {
    var s := [kind] + line + END + rest;
    assert s[1..] == line + CRLF + rest;
    LineReadsBack(line, rest);
  }

  /** `+` is a text, and `-` a server error, each of its whole line; undecodable bytes are an error of their own. */
  lemma LineReplies(d: Decodes, line: Bytes, rest: Bytes)
    requires 10 !in line
    ensures ReadResp(d, [43] + line + END + rest) == if d(line) then Ok(Text(line), rest) else Err(BadText)
    ensures ReadResp(d, [45] + line + END + rest) == Err(if d(line) then ServerError(line) else BadText)
  {
    Behind(43, line, rest);
    Behind(45, line, rest);
  }

  // ---- numbers ----

  /** Decimal digits, with a minus sign when negative. */
  function Decimal(n: int): Bytes {
    if n < 0 then [45] + Digits(-n) else Digits(n)
  }

  /** Digits are decimal: their value is the number, and there is no leading zero but for zero itself. */
  lemma {:induction false} DigitsAreDecimal(n: nat)
    ensures n < 10 ==> Digits(n) == [48 + n]
    ensures n >= 10 ==> Digits(n) == Digits(n / 10) + [48 + n % 10]
    ensures Digits(n) != [] && (n > 0 ==> Digits(n)[0] != 48)
    ensures forall i :: 0 <= i < |Digits(n)| ==> 48 <= Digits(n)[i] <= 57
  {
    if n >= 10 { DigitsAreDecimal(n / 10); }
  }

  lemma SignStays(sign: Byte, n: nat)
    requires sign == 43 || sign == 45
    ensures var s := [sign] + Digits(n);
            Stripped(s) == s && s[0] == sign && s[1..] == Digits(n) && 10 !in s
  {
    var s := [sign] + Digits(n);
    DigitsReadBack(n);
    assert s[1..] == Digits(n) && s[|s| - 1] == Digits(n)[|s| - 2];
  }

  lemma DecimalReadsBack(n: int)
    ensures ParseInt(Decimal(n)) == Some(n) && 10 !in Decimal(n)
  {
    if n < 0 {
      SignStays(45, -n);
      DigitsReadBack(-n);
    } else {
      IntReadsBack(n);
    }
  }

  /** A plus sign is accepted too. */
  lemma PlusReadsBack(n: nat)
    ensures ParseInt([43] + Digits(n)) == Some(n)
  {
    SignStays(43, n);
    DigitsReadBack(n);
  }

  predicate Blanks(s: Bytes) {
    forall i :: 0 <= i < |s| ==> 9 <= s[i] <= 13 || s[i] == 32
  }

  /** Blanks around a number do not matter. */
  lemma {:induction false} BlanksStripped(a: Bytes, s: Bytes, b: Bytes)
    requires Blanks(a) && Blanks(b) && s != [] && !IsSpace(s[0]) && !IsSpace(s[|s| - 1])
    ensures Stripped(a + s + b) == s
    decreases |a| + |b|
  {
    var t := a + s + b;
    if a != [] {
      assert t[0] == a[0] && t[1..] == a[1..] + s + b;
      BlanksStripped(a[1..], s, b);
    } else if b != [] {
      assert t[0] == s[0] && t[|t| - 1] == b[|b| - 1] && t[..|t| - 1] == a + s + b[..|b| - 1];
      BlanksStripped(a, s, b[..|b| - 1]);
    } else {
      assert t == s;
    }
  }

  lemma PaddedReadsBack(a: Bytes, n: int, b: Bytes)
    requires Blanks(a) && Blanks(b)
    ensures ParseInt(a + Decimal(n) + b) == Some(n)
  {
    var s := Decimal(n);
    DigitsReadBack(if n < 0 then -n else n);
    assert !IsSpace(s[0]) && !IsSpace(s[|s| - 1]);
    BlanksStripped(a, s, b);
    BlanksStripped([], s, []);
    assert [] + s + [] == s;
    DecimalReadsBack(n);
  }

  /** Single underscores may stand between digits. */
  lemma {:induction false} UnderscoreIsSkipped(s: Bytes, digit: Byte, n: nat)
    requires DigitsValue(s) == Some(n) && 48 <= digit <= 57
    ensures DigitsValue(s + [digit]) == Some(10 * n + (digit - 48))
    ensures DigitsValue(s + [95, digit]) == Some(10 * n + (digit - 48))
    ensures DigitsValue(s + [95]).None? && DigitsValue([95] + s).None?
  {
    var t, u := s + [digit], s + [95, digit];
    assert t[..|t| - 1] == s && t[|t| - 2] == s[|s| - 1] && IsDigit(s[|s| - 1]);
    assert u[..|u| - 2] == s && u[|u| - 2] == 95;
    NoLeadingUnderscore(s);
  }

  lemma {:induction false} NoLeadingUnderscore(s: Bytes)
    ensures DigitsValue([95] + s).None?
    decreases |s|
  {
    var t := [95] + s;
    if |s| >= 1 && IsDigit(s[|s| - 1]) {
      if t[|t| - 2] == 95 {
        if |s| == 1 {
          assert t[..|t| - 2] == [];
        } else {
          assert t[..|t| - 2] == [95] + s[..|s| - 2];
          NoLeadingUnderscore(s[..|s| - 2]);
        }
      } else {
        assert t[..|t| - 1] == [95] + s[..|s| - 1];
        NoLeadingUnderscore(s[..|s| - 1]);
      }
    }
  }

  /** Nothing but digits and underscores is a number, and there is at least one digit. */
  lemma {:induction false} OnlyDigitsRead(s: Bytes)
    requires DigitsValue(s).Some?
    ensures s != [] && 48 <= s[|s| - 1] <= 57
    ensures forall i :: 0 <= i < |s| ==> 48 <= s[i] <= 57 || s[i] == 95
    decreases |s|
  {
    if |s| > 1 {
      var front := if s[|s| - 2] == UNDERSCORE then s[..|s| - 2] else s[..|s| - 1];
      OnlyDigitsRead(front);
      forall i | 0 <= i < |s| ensures 48 <= s[i] <= 57 || s[i] == 95 {
        if i < |front| { assert front[i] == s[i]; }
      }
    }
  }

  /** A number behind a kind byte. */
  lemma NumberBehind(kind: Byte, n: int, rest: Bytes)
    ensures var s := [kind] + Decimal(n) + END + rest;
            s[0] == kind && ReadLength(s[1..]) == Ok(n, rest)
  {
    DecimalReadsBack(n);
    Behind(kind, Decimal(n), rest);
  }

  /** `:` is an integer of either sign; a length of -1 is nil, for a bulk string and for an array. */
  lemma NumberReplies(d: Decodes, n: int, rest: Bytes)
    ensures ReadResp(d, [58] + Decimal(n) + END + rest) == Ok(Integer(n), rest)
    ensures ReadResp(d, [36] + Decimal(-1) + END + rest) == Ok(Nil, rest)
    ensures ReadResp(d, [42] + Decimal(-1) + END + rest) == Ok(Nil, rest)
  {
    NumberBehind(58, n, rest);
    NumberBehind(36, -1, rest);
    NumberBehind(42, -1, rest);
  }

  /** Lengths below -1: malformed for a bulk string, no items for an array. */
  lemma NegativeLengths(d: Decodes, n: int, rest: Bytes)
    requires n < -1
    ensures ReadResp(d, [36] + Decimal(n) + END + rest) == Err(Malformed)
    ensures ReadResp(d, [42] + Decimal(n) + END + rest) == Ok(Array([]), rest)
  {
    NumberBehind(36, n, rest);
    NumberBehind(42, n, rest);
  }

  /** A bulk string takes as many bytes as its length says, and then must end its line. */
  lemma BulkReplies(d: Decodes, part: Bytes, after: Bytes)
    ensures var r := ReadResp(d, [36] + Decimal(|part|) + END + (part + after));
            if |after| < 2 || after[..2] != END then r == Err(Malformed)
            else r == if d(part) then Ok(Text(part), after[2..]) else Err(BadText)
  {
    var body := part + after;
    NumberBehind(36, |part|, body);
    assert body[..|part|] == part;
    if |after| >= 2 {
      assert body[|part|..|part| + 2] == after[..2] && body[|part| + 2..] == after[2..];
    }
  }

  /** The end of the stream, a byte that starts no reply, and a line that does not end as it should. */
  lemma MalformedReplies(d: Decodes, kind: Byte, line: Bytes, rest: Bytes)
    requires 10 !in line
    ensures ReadResp(d, []) == Err(Closed)
    ensures kind !in {43, 45, 58, 36, 42} ==> ReadResp(d, [kind] + rest) == Err(UnknownPrefix)
    ensures kind in {43, 45, 58, 36, 42} ==> ReadResp(d, [kind]) == Err(Closed)
    ensures kind in {43, 45, 58, 36, 42} && line != [] ==> ReadResp(d, [kind] + line) == Err(Malformed)
    ensures kind in {43, 45, 58, 36, 42} && (line == [] || line[|line| - 1] != 13) ==>
              ReadResp(d, [kind] + line + [10] + rest) == Err(Malformed)
  {
    assert [kind][1..] == [];
    assert ([kind] + line)[1..] == line;
    NoLineFeed(line);
    assert ([kind] + line + [10] + rest)[1..] == line + [10] + rest;
    BareLineFeed(line, rest);
  }

  lemma {:induction false} NoLineFeed(line: Bytes)
    requires 10 !in line
    ensures LineLength(line) == |line| && (line != [] ==> ReadLine(line) == Err(Malformed))
  {
    if line != [] {
      NoLineFeed(line[1..]);
      assert line[|line| - 1] != 10;
    }
  }

  lemma {:induction false} FirstLineFeed(line: Bytes, rest: Bytes)
    requires 10 !in line
    ensures LineLength(line + [10] + rest) == |line| + 1
  {
    var s := line + [10] + rest;
    if line != [] {
      FirstLineFeed(line[1..], rest);
      assert s[1..] == line[1..] + [10] + rest;
    }
  }

  lemma BareLineFeed(line: Bytes, rest: Bytes)
    requires 10 !in line
    ensures line == [] || line[|line| - 1] != 13 ==> ReadLine(line + [10] + rest) == Err(Malformed)
  {
    var s := line + [10] + rest;
    FirstLineFeed(line, rest);
    if line != [] { assert s[|line| - 1..|line| + 1][0] == line[|line| - 1]; }
  }

  /** An integer or a length that is no number is refused, whatever kind of reply it belongs to. */
  lemma BadNumbers(d: Decodes, kind: Byte, line: Bytes, rest: Bytes)
    requires 10 !in line && kind in {58, 36, 42} && ParseInt(line).None?
    ensures ReadResp(d, [kind] + line + END + rest) == Err(BadInteger)
  {
    Behind(kind, line, rest);
  }

  /** An array reads its items in order, and fails with the first of them that fails. */
  lemma ArrayReplies(d: Decodes, n: nat, body: Bytes)
    ensures var r, first := ReadResp(d, [42] + Decimal(n + 1) + END + body), ReadResp(d, body);
            && (first.Err? ==> r == Err(first.error))
            && (first.Ok? ==>
                  var others := ReadItems(d, first.rest, n);
                  && (others.Err? ==> r == Err(others.error))
                  && (others.Ok? ==> r == Ok(Array([first.value] + others.value), others.rest)))
  {
    NumberBehind(42, n + 1, body);
  }

  // ---- what is written ----

  /** The bytes of a command: `*` and the number of parts, and for each part `$`, its length and its bytes. */
  lemma CommandBytes(parts: seq<Bytes>)
    ensures Encode(parts) == [42] + Decimal(|parts|) + [13, 10] + EncodeParts(parts)
    ensures parts != [] ==>
              EncodeParts(parts)
              == [36] + Decimal(|parts[0]|) + [13, 10] + parts[0] + [13, 10] + EncodeParts(parts[1..])
    ensures EncodeParts([]) == []
  {
    if parts != [] {
      var a, b, c := [36] + Decimal(|parts[0]|) + [13, 10], parts[0], [13, 10];
      assert EncodeParts(parts) == a + b + c + EncodeParts(parts[1..]);
    }
  }
}
