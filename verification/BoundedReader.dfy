/** Reading several line ranges of one file in a single pass (repos/tools.py).  Texts are their UTF-8
    bytes; strict decoding of one captured line is an arbitrary function of its bytes. */
module BoundedReader {
  import opened Wrappers

  type Byte = i: int | 0 <= i < 256

  type Bytes = seq<Byte>

  const NEWLINE: Byte := 10
  const RETURN: Byte := 13
  const EMPTY: Bytes := [60, 101, 109, 112, 116, 121, 62]
  const ELLIPSIS: Bytes := [226, 128, 166]
  const SEPARATOR: Bytes := [58, 32]

  /** A newline and the notice that the tool output was cut by its byte limit. */
  const MARKER: Bytes := [
    10, 60, 116, 111, 111, 108, 32, 111, 117, 116, 112, 117, 116, 32, 116, 114, 117, 110, 99, 97, 116,
    101, 100, 32, 98, 121, 32, 98, 121, 116, 101, 32, 108, 105, 109, 105, 116, 62]

  function Min(a: nat, b: nat): (m: nat)
    ensures m <= a && m <= b
  {
    if a < b then a else b
  }

  // ---- Physical lines ---------------------------------------------------------------------

  /** The end of the first physical line, its newline included. */
  function LineEnd(rest: Bytes): (end: nat)
    ensures end <= |rest| && (rest != [] ==> end > 0)
    ensures end > 0 ==> rest[end - 1] == NEWLINE || end == |rest|
    ensures forall i :: 0 <= i < end - 1 ==> rest[i] != NEWLINE
  {
    if rest == [] then 0
    else if rest[0] == NEWLINE then 1
    else 1 + LineEnd(rest[1..])
  }

  /** `rstrip(b"\\r\\n")` */
  function Strip(line: Bytes): Bytes {
    if line != [] && (line[|line| - 1] == NEWLINE || line[|line| - 1] == RETURN) then Strip(line[..|line| - 1]) else line
  }

  datatype Line = Line(number: nat, kept: Bytes, truncated: bool)

  function Captured(line: Bytes, number: nat, captureFrom: nat, cap: nat): Line {
    if number < captureFrom then Line(number, [], false)
    else Line(number, Strip(line[..Min(cap, |line|)]), |line| > cap)
  }

  /** The numbered lines of the rest of a file, up to line `stopAfter`: what is kept of a line and whether
      it was cut depends on the line alone. */
  function Numbered(rest: Bytes, number: nat, captureFrom: nat, stopAfter: nat, cap: nat): seq<Line>
    decreases |rest|
  {
    if number > stopAfter || rest == [] then []
    else [Captured(rest[..LineEnd(rest)], number, captureFrom, cap)]
         + Numbered(rest[LineEnd(rest)..], number + 1, captureFrom, stopAfter, cap)
  }

  /** All physical lines of a file, each with its newline. */
  function RawLines(file: Bytes): (lines: seq<Bytes>)
    ensures forall i :: 0 <= i < |lines| ==> lines[i] != []
    decreases |file|
  {
    if file == [] then [] else [file[..LineEnd(file)]] + RawLines(file[LineEnd(file)..])
  }

  function Glue(lines: seq<Bytes>): Bytes {
    if lines == [] then [] else lines[0] + Glue(lines[1..])
  }

  /** A line ends with its first newline, or with the file. */
  predicate IsLine(line: Bytes, last: bool) {
    && line != [] && (line[|line| - 1] == NEWLINE || last)
    && forall i :: 0 <= i < |line| - 1 ==> line[i] != NEWLINE
  }

  predicate AreLines(lines: seq<Bytes>) {
    forall i :: 0 <= i < |lines| ==> IsLine(lines[i], i == |lines| - 1)
  }

  lemma {:induction false} RawLinesAre(file: Bytes)
    ensures Glue(RawLines(file)) == file && AreLines(RawLines(file))
    decreases |file|
  {
    if file == [] { return; }
    var end := LineEnd(file);
    hide LineEnd, IsLine, AreLines, RawLines, Glue;
    FirstLineIs(file);
    RawLinesAre(file[end..]);
    LinesAdd(file[..end], RawLines(file[end..]));
  }

  lemma LinesAdd(first: Bytes, rest: seq<Bytes>)
    requires IsLine(first, rest == []) && AreLines(rest)
    ensures AreLines([first] + rest) && Glue([first] + rest) == first + Glue(rest)
  {
    hide IsLine;
    forall i | 0 < i < |[first] + rest| ensures IsLine(([first] + rest)[i], i == |rest|) {
      assert ([first] + rest)[i] == rest[i - 1];
    }
  }

  lemma FirstLineIs(file: Bytes)
    requires file != []
    ensures var end := LineEnd(file);
            && end > 0 && file == file[..end] + file[end..] && IsLine(file[..end], RawLines(file[end..]) == [])
            && RawLines(file) == [file[..end]] + RawLines(file[end..])
  {
    hide RawLines, IsLine;
    var end := LineEnd(file);
    Unrolled(file);
    CutLine(file, end);
    NoLines(file[end..]);
  }

  lemma Unrolled(file: Bytes)
    requires file != []
    ensures RawLines(file) == [file[..LineEnd(file)]] + RawLines(file[LineEnd(file)..])
  {
    hide LineEnd;
  }

  lemma NoLines(file: Bytes)
    ensures RawLines(file) == [] <==> file == []
  {
    hide LineEnd;
  }

  lemma CutLine(file: Bytes, end: nat)
    requires 0 < end <= |file| && (file[end - 1] == NEWLINE || end == |file|)
    requires forall i :: 0 <= i < end - 1 ==> file[i] != NEWLINE
    ensures IsLine(file[..end], end == |file|)
  {
    assert file[..end][end - 1] == file[end - 1];
  }

  /** What `rstrip` takes away is carriage returns and newlines, and it takes all of them. */
  lemma {:induction false} StripIs(line: Bytes)
    ensures var kept := Strip(line);
            && kept <= line && (forall i :: |kept| <= i < |line| ==> line[i] == NEWLINE || line[i] == RETURN)
            && (kept != [] ==> kept[|kept| - 1] != NEWLINE && kept[|kept| - 1] != RETURN)
            && Strip(kept) == kept
    decreases |line|
  {
    if line != [] && (line[|line| - 1] == NEWLINE || line[|line| - 1] == RETURN) { StripIs(line[..|line| - 1]); }
  }

  /** The lines that are read are the first physical ones, captured one by one. */
  lemma {:induction false} NumberedAre(rest: Bytes, number: nat, captureFrom: nat, stopAfter: nat, cap: nat)
    ensures var raw, lines := RawLines(rest), Numbered(rest, number, captureFrom, stopAfter, cap);
            && |lines| == Min(|raw|, if number > stopAfter then 0 else stopAfter + 1 - number)
            && forall i :: 0 <= i < |lines| ==> lines[i] == Captured(raw[i], number + i, captureFrom, cap)
    decreases |rest|
  {
    hide RawLines, Numbered, LineEnd, Captured;
    NoLines(rest);
    NumberedFirst(rest, number, captureFrom, stopAfter, cap);
    if number <= stopAfter && rest != [] {
      var end := LineEnd(rest);
      Unrolled(rest);
      NumberedAre(rest[end..], number + 1, captureFrom, stopAfter, cap);
    }
  }

  lemma NumberedFirst(rest: Bytes, number: nat, captureFrom: nat, stopAfter: nat, cap: nat)
    ensures Numbered(rest, number, captureFrom, stopAfter, cap)
         == if number > stopAfter || rest == [] then []
            else [Captured(rest[..LineEnd(rest)], number, captureFrom, cap)]
                 + Numbered(rest[LineEnd(rest)..], number + 1, captureFrom, stopAfter, cap)
  {
    hide LineEnd, Captured;
  }

  lemma {:induction false} LineEndAfter(rest: Bytes, n: nat)
    requires n <= |rest| && forall i :: 0 <= i < n ==> rest[i] != NEWLINE
    ensures LineEnd(rest) == n + LineEnd(rest[n..])
  {
    if n > 0 {
      LineEndAfter(rest[1..], n - 1);
      assert rest[1..][n - 1..] == rest[n..];
    } else {
      assert rest[0..] == rest;
    }
  }

  /** `handle.readline(chunk)` at a position. */
  function ReadSegment(rest: Bytes, chunk: nat): Bytes {
    rest[..Min(chunk, LineEnd(rest))]
  }

  predicate NoNewline(rest: Bytes, n: nat) {
    n <= |rest| && forall i :: 0 <= i < n ==> rest[i] != NEWLINE
  }

  /** What is kept of the first `n` bytes of a line. */
  predicate Kept(rest: Bytes, n: nat, kept: Bytes, truncated: bool, capturing: bool, cap: nat) {
    && n <= |rest| && kept == (if capturing then rest[..Min(cap, n)] else [])
    && truncated == (capturing && n > cap)
  }

  lemma SegmentIs(rest: Bytes, n: nat, chunk: nat)
    requires NoNewline(rest, n) && chunk >= 1
    ensures n <= LineEnd(rest)
    ensures var m := n + Min(chunk, LineEnd(rest) - n);
            ReadSegment(rest[n..], chunk) == rest[n..m] && rest[n..][m - n..] == rest[m..]
  {
    hide LineEnd;
    LineEndAfter(rest, n);
  }

  lemma SegmentEnd(rest: Bytes, n: nat, m: nat, chunk: nat)
    requires NoNewline(rest, n) && n <= LineEnd(rest) && chunk >= 1 && m == n + Min(chunk, LineEnd(rest) - n)
    ensures n == m <==> n == |rest|
    ensures n == m && n > 0 ==> LineEnd(rest) == n
    ensures n < m && rest[m - 1] == NEWLINE ==> m == LineEnd(rest)
    ensures n < m && rest[m - 1] != NEWLINE ==> NoNewline(rest, m)
  {
    hide LineEnd;
  }

  lemma SegmentFacts(rest: Bytes, n: nat, chunk: nat)
    requires NoNewline(rest, n) && chunk >= 1 && n <= |rest|
    ensures var segment := ReadSegment(rest[n..], chunk);
            var m := n + |segment|;
            && m <= |rest| && segment == rest[n..m] && rest[n..][|segment|..] == rest[m..]
            && (segment == [] <==> n == |rest|)
            && (segment == [] && n > 0 ==> LineEnd(rest) == n)
            && (segment != [] && segment[|segment| - 1] == NEWLINE ==> m == LineEnd(rest))
            && (segment != [] && segment[|segment| - 1] != NEWLINE ==> NoNewline(rest, m))
  {
    hide *;
    SegmentIs(rest, n, chunk);
    SegmentEnd(rest, n, n + Min(chunk, LineEnd(rest) - n), chunk);
  }

  lemma KeptGrows(rest: Bytes, n: nat, m: nat, kept: Bytes, truncated: bool, cap: nat)
    requires Kept(rest, n, kept, truncated, true, cap) && n <= m <= |rest|
    ensures |kept| <= cap
    ensures Kept(rest, m, kept + rest[n..m][..Min(cap - |kept|, m - n)], truncated || m - n > cap - |kept|, true, cap)
  {
  }

  /** A physical line is complete. */
  lemma LineDone(rest: Bytes, m: nat, kept: Bytes, truncated: bool, number: nat, captureFrom: nat, stopAfter: nat, cap: nat)
    requires rest != [] && m == LineEnd(rest) && Kept(rest, m, kept, truncated, number >= captureFrom, cap)
    requires number <= stopAfter
    ensures Numbered(rest, number, captureFrom, stopAfter, cap)
         == [Line(number, Strip(kept), truncated)] + Numbered(rest[m..], number + 1, captureFrom, stopAfter, cap)
  {
    assert rest[..m][..Min(cap, m)] == rest[..Min(cap, m)];
  }

  lemma ReadStart(rest: Bytes, capturing: bool, cap: nat)
    ensures NoNewline(rest, 0) && Kept(rest, 0, [], false, capturing, cap) && rest[0..] == rest
  {
  }

  lemma NothingNumbered(number: nat, captureFrom: nat, stopAfter: nat, cap: nat)
    ensures Numbered([], number, captureFrom, stopAfter, cap) == []
  {
  }

  lemma PastStop(rest: Bytes, number: nat, captureFrom: nat, stopAfter: nat, cap: nat)
    requires number > stopAfter
    ensures Numbered(rest, number, captureFrom, stopAfter, cap) == []
  {
  }

  /** `_iter_bounded_binary_lines`: the lines do not depend on the size of the segments read. */
  method IterateLines(file: Bytes, captureFrom: nat, stopAfter: nat, cap: nat, chunk: nat) returns (lines: seq<Line>)
    requires chunk >= 1
    ensures lines == Numbered(file, 1, captureFrom, stopAfter, cap)
  {
    hide *;
    lines := [];
    var number, unread := 1, file;
    var kept: Bytes, truncated, sawSegment := [], false, false;
    ghost var rest: Bytes, n: nat := file, 0;
    ReadStart(rest, number >= captureFrom, cap);
    while number <= stopAfter
      invariant n <= |rest| && unread == rest[n..] && (sawSegment <==> n > 0)
      invariant NoNewline(rest, n) && Kept(rest, n, kept, truncated, number >= captureFrom, cap)
      invariant lines + Numbered(rest, number, captureFrom, stopAfter, cap)
             == Numbered(file, 1, captureFrom, stopAfter, cap)
      decreases |unread|
    {
      var segment := ReadSegment(unread, chunk);
      SegmentFacts(rest, n, chunk);
      NothingNumbered(number, captureFrom, stopAfter, cap);
      NothingNumbered(number + 1, captureFrom, stopAfter, cap);
      if segment == [] {
        if sawSegment {
          LineDone(rest, n, kept, truncated, number, captureFrom, stopAfter, cap);
          assert rest[n..] == [];
          lines := lines + [Line(number, Strip(kept), truncated)];
        }
        return;
      }
      unread := unread[|segment|..];
      sawSegment := true;
      if number >= captureFrom {
        KeptGrows(rest, n, n + |segment|, kept, truncated, cap);
        var remaining := cap - |kept|;
        kept := kept + segment[..Min(remaining, |segment|)];
        if |segment| > remaining { truncated := true; }
      } else {
        NotKept(rest, n, n + |segment|, kept, truncated, cap);
      }
      n := n + |segment|;
      if segment[|segment| - 1] == NEWLINE {
        LineDone(rest, n, kept, truncated, number, captureFrom, stopAfter, cap);
        lines := lines + [Line(number, Strip(kept), truncated)];
        number := number + 1;
        kept, truncated, sawSegment := [], false, false;
        rest, n := rest[n..], 0;
        ReadStart(rest, number >= captureFrom, cap);
      }
    }
    PastStop(rest, number, captureFrom, stopAfter, cap);
  }

  lemma NotKept(rest: Bytes, n: nat, m: nat, kept: Bytes, truncated: bool, cap: nat)
    requires Kept(rest, n, kept, truncated, false, cap) && n <= m <= |rest|
    ensures Kept(rest, m, kept, truncated, false, cap)
  {
  }

  // ---- Rendering a line -------------------------------------------------------------------

  /** The bytes of a UTF-8 character with the given first byte. */
  function CharBytes(lead: Byte): nat {
    if lead < 192 then 1 else if lead < 224 then 2 else if lead < 240 then 3 else 4
  }

  /** Decoding a cut prefix of UTF-8 text with errors ignored: an incomplete last character is dropped. */
  function WholeChars(text: Bytes): (whole: Bytes)
    ensures whole <= text && |text| <= |whole| + 3
  {
    if text == [] || CharBytes(text[0]) > |text| then []
    else
      var n := CharBytes(text[0]);
      assert text == text[..n] + text[n..];
      text[..n] + WholeChars(text[n..])
  }

  /** The UTF-8 encoding of a code point (section 3 of RFC 3629). */
  function Encode(code: nat): Bytes
    requires code < 0x110000
  {
    if code < 0x80 then [code]
    else if code < 0x800 then [0xC0 + code / 0x40, 0x80 + code % 0x40]
    else if code < 0x10000 then [0xE0 + code / 0x1000, 0x80 + code / 0x40 % 0x40, 0x80 + code % 0x40]
    else [0xF0 + code / 0x40000, 0x80 + code / 0x1000 % 0x40, 0x80 + code / 0x40 % 0x40, 0x80 + code % 0x40]
  }

  function EncodeAll(codes: seq<nat>): Bytes
    requires forall i :: 0 <= i < |codes| ==> codes[i] < 0x110000
  {
    if codes == [] then [] else Encode(codes[0]) + EncodeAll(codes[1..])
  }

  lemma LeadTellsLength(code: nat)
    requires code < 0x110000
    ensures Encode(code) != [] && |Encode(code)| == CharBytes(Encode(code)[0])
  {
  }

  /** Of a cut text as many characters are left as fit, and nothing of the next one. */
  lemma {:induction false} WholeCharsFit(codes: seq<nat>, limit: nat) returns (n: nat)
    requires forall i :: 0 <= i < |codes| ==> codes[i] < 0x110000
    requires limit <= |EncodeAll(codes)|
    ensures n <= |codes| && WholeChars(EncodeAll(codes)[..limit]) == EncodeAll(codes[..n])
    ensures |EncodeAll(codes[..n])| <= limit && (n < |codes| ==> |EncodeAll(codes[..n + 1])| > limit)
    decreases |codes|
  {
    if codes == [] {
      NoCodes();
      return 0;
    }
    hide Encode, WholeChars, EncodeAll;
    var first, rest := Encode(codes[0]), codes[1..];
    NoCodes();
    EncodeFirst(codes, 1);
    FirstChar(codes[0], EncodeAll(rest), limit);
    EncodeFirst(codes, |codes|);
    assert codes[..|codes|] == codes && rest[..|rest|] == rest && rest[..0] == [] && codes[..0] == [];
    if limit < |first| { return 0; }
    var m := WholeCharsFit(rest, limit - |first|);
    EncodeFirst(codes, m + 1);
    if m < |rest| { EncodeFirst(codes, m + 2); }
    n := m + 1;
  }

  lemma NoCodes()
    ensures EncodeAll([]) == [] && WholeChars([]) == []
  {
  }

  lemma EncodeFirst(codes: seq<nat>, n: nat)
    requires 1 <= n <= |codes| && forall i :: 0 <= i < |codes| ==> codes[i] < 0x110000
    ensures EncodeAll(codes[..n]) == Encode(codes[0]) + EncodeAll(codes[1..][..n - 1])
  {
    hide Encode;
    assert codes[..n] == [codes[0]] + codes[1..][..n - 1];
  }

  lemma FirstChar(code: nat, rest: Bytes, limit: nat)
    requires code < 0x110000 && limit <= |Encode(code) + rest|
    ensures Encode(code) != []
    ensures limit < |Encode(code)| ==> WholeChars((Encode(code) + rest)[..limit]) == []
    ensures limit >= |Encode(code)| ==>
      WholeChars((Encode(code) + rest)[..limit]) == Encode(code) + WholeChars(rest[..limit - |Encode(code)|])
  {
    LeadTellsLength(code);
    hide Encode, CharBytes;
    var first, cut := Encode(code), (Encode(code) + rest)[..limit];
    if limit >= |first| {
      assert cut[0] == first[0];
      assert cut[..|first|] == first && cut[|first|..] == rest[..limit - |first|];
    } else if limit > 0 {
      assert cut[0] == first[0];
    }
  }

  /** `_truncate_text_bytes` and `_truncate_inline_utf8`, which differ in the marker. */
  function Truncate(value: Bytes, limit: nat, marker: Bytes): (cut: Bytes)
    ensures |cut| <= limit || |cut| <= |marker|
    ensures |value| <= limit ==> cut == value
    ensures |value| > limit >= |marker| ==>
      && limit - 3 <= |cut| && |cut| >= |marker| && cut[|cut| - |marker|..] == marker
      && cut[..|cut| - |marker|] <= value
  {
    if |value| <= limit then value
    else WholeChars(value[..if limit < |marker| then 0 else limit - |marker|]) + marker
  }

  function Decimal(n: nat): Bytes {
    if n < 10 then [48 + n] else Decimal(n / 10) + [48 + n % 10]
  }

  function Value(digits: Bytes): int {
    if digits == [] then 0 else 10 * Value(digits[..|digits| - 1]) + digits[|digits| - 1] - 48
  }

  lemma {:induction false} DecimalIs(n: nat)
    ensures Value(Decimal(n)) == n && Decimal(n) != [] && (n > 0 ==> Decimal(n)[0] != 48)
    ensures forall i :: 0 <= i < |Decimal(n)| ==> 48 <= Decimal(n)[i] <= 57
    decreases n
  {
    if n >= 10 {
      DecimalIs(n / 10);
      assert Decimal(n)[..|Decimal(n)| - 1] == Decimal(n / 10);
    } else {
      assert Decimal(n)[..0] == [];
    }
  }

  /** The options of one read: cap per range, cap per line, and strict decoding, which gets the bytes and
      whether the line is complete, and fails on bytes that are not UTF-8. */
  datatype Options = Options(maxOutput: nat, maxLine: Option<nat>, decode: (Bytes, bool) -> Option<Bytes>, error: Bytes)

  function CaptureCap(options: Options): nat {
    if options.maxLine.Some? && options.maxLine.value > 0 then options.maxLine.value else options.maxOutput
  }

  function Shown(decoded: Bytes, truncated: bool, maxLine: Option<nat>): Bytes {
    var text := if truncated then decoded + ELLIPSIS else decoded;
    if maxLine.Some? then Truncate(text, maxLine.value, ELLIPSIS) else text
  }

  function Decoded(line: Line, options: Options): Option<Bytes> {
    if 0 in Strip(line.kept) then None else options.decode(Strip(line.kept), !line.truncated)
  }

  /** The output line; None for a line that is binary or not UTF-8. */
  function Render(line: Line, options: Options): Option<Bytes> {
    match Decoded(line, options)
    case None => None
    case Some(decoded) =>
      Some(Decimal(line.number) + SEPARATOR + Shown(decoded, line.truncated, options.maxLine))
  }

  // ---- One range --------------------------------------------------------------------------

  datatype Range = Range(key: nat, start: nat, end: nat)

  datatype State = State(parts: seq<Bytes>, used: nat, result: Option<Bytes>, done: bool)

  const FRESH := State([], 0, None, false)

  function Join(parts: seq<Bytes>): Bytes {
    if parts == [] then []
    else if |parts| == 1 then parts[0]
    else Join(parts[..|parts| - 1]) + [NEWLINE] + parts[|parts| - 1]
  }

  /** One line of the file, as one range sees it. */
  function Advance(state: State, range: Range, line: Line, options: Options): State {
    if state.done || !(range.start <= line.number <= range.end) then state
    else
      match Render(line, options)
      case None => state.(result := Some(options.error), done := true)
      case Some(rendered) =>
        var separator := if state.parts == [] then 0 else 1;
        if state.used + separator + |rendered| > options.maxOutput then
          state.(result := Some(Truncate(Join(state.parts + [rendered]), options.maxOutput, MARKER)), done := true)
        else State(state.parts + [rendered], state.used + separator + |rendered|, state.result, state.done)
  }

  function Fold(state: State, range: Range, lines: seq<Line>, options: Options): State
    decreases |lines|
  {
    if lines == [] then state else Fold(Advance(state, range, lines[0], options), range, lines[1..], options)
  }

  function Conclude(state: State): Bytes {
    if state.result.Some? then state.result.value
    else if state.parts == [] then EMPTY
    else Join(state.parts)
  }

  /** The simple reader: this range alone, over the lines it asks for. */
  function ReadAlone(file: Bytes, range: Range, options: Options): Bytes {
    if range.end < range.start then EMPTY
    else Conclude(Fold(FRESH, range, Numbered(file, 1, range.start, range.end, CaptureCap(options)), options))
  }

  predicate Tidy(state: State, options: Options) {
    && state.used == |Join(state.parts)| && state.used <= options.maxOutput
    && (state.result.Some? ==>
          state.result.value == options.error || |state.result.value| <= Max(options.maxOutput, |MARKER|))
  }

  function Max(a: nat, b: nat): nat {
    if a < b then b else a
  }

  lemma JoinAppend(parts: seq<Bytes>, last: Bytes)
    ensures |Join(parts + [last])| == |Join(parts)| + |last| + if parts == [] then 0 else 1
  {
    assert (parts + [last])[..|parts|] == parts;
  }

  lemma {:induction false} FoldTidy(state: State, range: Range, lines: seq<Line>, options: Options)
    requires Tidy(state, options)
    ensures Tidy(Fold(state, range, lines, options), options)
    decreases |lines|
  {
    if lines != [] {
      AdvanceTidy(state, range, lines[0], options);
      FoldTidy(Advance(state, range, lines[0], options), range, lines[1..], options);
    }
  }

  lemma AdvanceTidy(state: State, range: Range, line: Line, options: Options)
    requires Tidy(state, options)
    ensures Tidy(Advance(state, range, line, options), options)
  {
    hide Join, Render, Truncate;
    if Render(line, options).Some? { JoinAppend(state.parts, Render(line, options).value); }
  }

  /** Every result that is not an error stays within the cap, when the cap has room for the marker. */
  lemma ReadIsBounded(file: Bytes, range: Range, options: Options)
    requires options.maxOutput >= |MARKER|
    ensures var text := ReadAlone(file, range, options); text == options.error || |text| <= options.maxOutput
  {
    hide Numbered, Fold, Advance, Join;
    TidyStart(options);
    FoldTidy(FRESH, range, Numbered(file, 1, range.start, range.end, CaptureCap(options)), options);
  }

  lemma TidyStart(options: Options)
    ensures Tidy(FRESH, options)
  {
  }

  // ---- What a range reads -----------------------------------------------------------------

  /** How a physical line is shown: its number and its text without the line end.  A line longer than the cap is
      cut there and marked; a binary or undecodable one is not shown. */
  function ShownLine(raw: Bytes, number: nat, options: Options): Option<Bytes> {
    Render(Captured(raw, number, number, CaptureCap(options)), options)
  }

  lemma ShownLineIs(raw: Bytes, number: nat, options: Options, cap: nat, content: Bytes, end: Bytes)
    requires cap == if options.maxLine.None? || options.maxLine == Some(0) then options.maxOutput else options.maxLine.value
    requires content + end == if |raw| > cap then raw[..cap] else raw
    requires forall i :: 0 <= i < |end| ==> end[i] == NEWLINE || end[i] == RETURN
    requires content != [] ==> content[|content| - 1] != NEWLINE && content[|content| - 1] != RETURN
    ensures var whole := |raw| <= cap;
            var decoded := if 0 in content then None else options.decode(content, whole);
            && (decoded.None? ==> ShownLine(raw, number, options).None?)
            && (decoded.Some? ==>
                  var text := decoded.value + if whole then [] else ELLIPSIS;
                  var cut := if options.maxLine.Some? then Truncate(text, options.maxLine.value, ELLIPSIS) else text;
                  ShownLine(raw, number, options) == Some(Decimal(number) + SEPARATOR + cut))
  {
    var kept := raw[..Min(cap, |raw|)];
    assert kept == content + end;
    StripEnd(content, end);
    StripIs(kept);
    hide Truncate, Decimal;
    var decoded := options.decode(content, |raw| <= cap);
    if decoded.Some? { assert decoded.value + [] == decoded.value; }
  }

  lemma {:induction false} StripEnd(content: Bytes, end: Bytes)
    requires forall i :: 0 <= i < |end| ==> end[i] == NEWLINE || end[i] == RETURN
    requires content != [] ==> content[|content| - 1] != NEWLINE && content[|content| - 1] != RETURN
    ensures Strip(content + end) == content
    decreases |end|
  {
    if end == [] {
      assert content + end == content;
    } else {
      assert (content + end)[..|content + end| - 1] == content + end[..|end| - 1];
      StripEnd(content, end[..|end| - 1]);
    }
  }

  function FirstLine(range: Range): nat {
    Max(range.start, 1)
  }

  /** How many of the lines that a range asks for exist. */
  function Wanted(file: Bytes, range: Range): nat {
    var last := Min(range.end, |RawLines(file)|);
    if last < FirstLine(range) then 0 else last - FirstLine(range) + 1
  }

  /** The `i`-th wanted line as it is shown. */
  function Wish(file: Bytes, range: Range, options: Options, i: nat): Option<Bytes>
    requires i < Wanted(file, range)
  {
    ShownLine(RawLines(file)[FirstLine(range) + i - 1], FirstLine(range) + i, options)
  }

  predicate AllShown(file: Bytes, range: Range, options: Options, n: nat)
    requires n <= Wanted(file, range)
  {
    forall i :: 0 <= i < n ==> Wish(file, range, options, i).Some?
  }

  /** The first `n` wanted lines. */
  function Wishes(file: Bytes, range: Range, options: Options, n: nat): (parts: seq<Bytes>)
    requires n <= Wanted(file, range) && AllShown(file, range, options, n)
  {
    seq(n, i requires 0 <= i < n => Wish(file, range, options, i).value)
  }

  /** The text of a range when exactly its first `n` wanted lines are shown and fit. */
  predicate ReadsUpTo(file: Bytes, range: Range, options: Options, n: nat, text: Bytes) {
    && n <= Wanted(file, range) && AllShown(file, range, options, n)
    && var parts := Wishes(file, range, options, n);
    && |Join(parts)| <= options.maxOutput
    && if n == Wanted(file, range) then text == (if n == 0 then EMPTY else Join(parts))
       else match Wish(file, range, options, n)
            case None => text == options.error
            case Some(next) =>
              |Join(parts + [next])| > options.maxOutput
              && text == Truncate(Join(parts + [next]), options.maxOutput, MARKER)
  }

  /** The wanted lines are shown in order, up to the first that is unreadable, which makes the text the error, or that
      does not fit, where the text is cut. */
  ghost predicate Reads(file: Bytes, range: Range, options: Options, text: Bytes) {
    exists n: nat :: ReadsUpTo(file, range, options, n, text)
  }

  /** There is only one such text. */
  lemma ReadsOnce(file: Bytes, range: Range, options: Options, n: nat, text: Bytes, n': nat, text': Bytes)
    requires ReadsUpTo(file, range, options, n, text) && ReadsUpTo(file, range, options, n', text')
    ensures n == n' && text == text'
  {
    hide Wish, Truncate, Join, Wanted;
    if n < n' { StopsOnce(file, range, options, n, n'); }
    if n' < n { StopsOnce(file, range, options, n', n); }
  }

  lemma StopsOnce(file: Bytes, range: Range, options: Options, n: nat, n': nat)
    requires n < n' <= Wanted(file, range) && AllShown(file, range, options, n')
    ensures |Join(Wishes(file, range, options, n'))|
         >= |Join(Wishes(file, range, options, n) + [Wish(file, range, options, n).value])|
  {
    hide Wish, Wanted, Join;
    var all := Wishes(file, range, options, n');
    assert all[..n + 1] == Wishes(file, range, options, n) + [Wish(file, range, options, n).value];
    JoinGrows(all, n + 1);
  }

  lemma {:induction false} JoinGrows(parts: seq<Bytes>, n: nat)
    requires n <= |parts|
    ensures |Join(parts[..n])| <= |Join(parts)|
    decreases |parts|
  {
    if n < |parts| {
      assert parts == parts[..|parts| - 1] + [parts[|parts| - 1]];
      JoinAppend(parts[..|parts| - 1], parts[|parts| - 1]);
      assert parts[..|parts| - 1][..n] == parts[..n];
      JoinGrows(parts[..|parts| - 1], n);
    } else {
      assert parts[..n] == parts;
    }
  }

  /** A join is its parts, each with a newline, without the last newline. */
  lemma {:induction false} JoinIs(parts: seq<Bytes>)
    requires parts != []
    ensures Join(parts) + [NEWLINE] == Glue(seq(|parts|, i requires 0 <= i < |parts| => parts[i] + [NEWLINE]))
    decreases |parts|
  {
    var ended := seq(|parts|, i requires 0 <= i < |parts| => parts[i] + [NEWLINE]);
    if |parts| == 1 {
      assert ended == [parts[0] + [NEWLINE]] && ended[1..] == [];
      assert parts[0] + [NEWLINE] + [] == parts[0] + [NEWLINE];
    } else {
      var front, last := parts[..|parts| - 1], parts[|parts| - 1];
      JoinIs(front);
      var before := seq(|front|, i requires 0 <= i < |front| => front[i] + [NEWLINE]);
      assert ended == before + [last + [NEWLINE]];
      GlueLast(before, last + [NEWLINE]);
    }
  }

  lemma {:induction false} GlueLast(lines: seq<Bytes>, last: Bytes)
    ensures Glue(lines + [last]) == Glue(lines) + last
  {
    if lines == [] {
      assert [] + [last] == [last] && [last][1..] == [];
      assert last + [] == last;
    } else {
      assert (lines + [last])[1..] == lines[1..] + [last];
      GlueLast(lines[1..], last);
      assert lines[0] + (Glue(lines[1..]) + last) == lines[0] + Glue(lines[1..]) + last;
    }
  }

  /** When all wanted lines are shown and fit, the text is their join; "<empty>" is the text of a range without any. */
  lemma WholeRange(file: Bytes, range: Range, options: Options, text: Bytes)
    requires Reads(file, range, options, text)
    requires var n := Wanted(file, range);
             AllShown(file, range, options, n) && |Join(Wishes(file, range, options, n))| <= options.maxOutput
    ensures var n := Wanted(file, range); text == if n == 0 then EMPTY else Join(Wishes(file, range, options, n))
  {
    var n: nat :| ReadsUpTo(file, range, options, n, text);
    var all := Wanted(file, range);
    ReadsOnce(file, range, options, n, text, all, if all == 0 then EMPTY else Join(Wishes(file, range, options, all)));
  }

  /** "<empty>" is the text exactly when no wanted line exists, unless the error text is the same. */
  lemma EmptyMeansNoLine(file: Bytes, range: Range, options: Options, text: Bytes)
    requires Reads(file, range, options, text) && options.error != EMPTY
    ensures text == EMPTY <==> Wanted(file, range) == 0
  {
    var n: nat :| ReadsUpTo(file, range, options, n, text);
    hide Wish, Truncate, Join, Wanted;
    if n < Wanted(file, range) {
      var next := Wish(file, range, options, n);
      if next.Some? { CutIsMarked(Join(Wishes(file, range, options, n) + [next.value]), options.maxOutput); }
    } else if n > 0 {
      JoinStarts(Wishes(file, range, options, n));
      WishStarts(file, range, options, 0);
    }
  }

  lemma CutIsMarked(value: Bytes, limit: nat)
    requires |value| > limit
    ensures Truncate(value, limit, MARKER) != EMPTY
  {
    var cut := Truncate(value, limit, MARKER);
    assert |cut| >= |MARKER| > |EMPTY|;
  }

  lemma {:induction false} JoinStarts(parts: seq<Bytes>)
    requires parts != [] && parts[0] != []
    ensures Join(parts) != [] && Join(parts)[0] == parts[0][0]
    decreases |parts|
  {
    if |parts| > 1 { JoinStarts(parts[..|parts| - 1]); }
  }

  lemma WishStarts(file: Bytes, range: Range, options: Options, i: nat)
    requires i < Wanted(file, range) && Wish(file, range, options, i).Some?
    ensures Wish(file, range, options, i).value != [] && Wish(file, range, options, i).value[0] != EMPTY[0]
  {
    hide Decoded, Shown, Wanted, Decimal;
    var digits := Decimal(FirstLine(range) + i);
    DecimalIs(FirstLine(range) + i);
    assert Wish(file, range, options, i).value[..|digits|] == digits;
  }

  // ---- All ranges in one pass -------------------------------------------------------------

  /** Lines past the range change nothing. */
  lemma {:induction false} FoldPast(state: State, range: Range, lines: seq<Line>, options: Options)
    requires state.done || forall i :: 0 <= i < |lines| ==> lines[i].number > range.end
    ensures Fold(state, range, lines, options) == state
    decreases |lines|
  {
    if lines != [] { FoldPast(state, range, lines[1..], options); }
  }

  predicate Consecutive(lines: seq<Line>, number: nat) {
    forall i :: 0 <= i < |lines| ==> lines[i].number == number + i
  }

  lemma {:induction false} NumberedFrom(rest: Bytes, number: nat, captureFrom: nat, stopAfter: nat, cap: nat)
    ensures Consecutive(Numbered(rest, number, captureFrom, stopAfter, cap), number)
    decreases |rest|
  {
    if number <= stopAfter && rest != [] {
      hide LineEnd;
      NumberedFrom(rest[LineEnd(rest)..], number + 1, captureFrom, stopAfter, cap);
    }
  }

  /** Reading more of the file than a range asks for changes nothing for that range. */
  lemma {:induction false} FoldWider(state: State, range: Range, rest: Bytes, number: nat, captureFrom: nat,
                                     stopAfter: nat, cap: nat, options: Options)
    requires captureFrom <= range.start && range.end <= stopAfter
    ensures Fold(state, range, Numbered(rest, number, captureFrom, stopAfter, cap), options)
         == Fold(state, range, Numbered(rest, number, range.start, range.end, cap), options)
    decreases |rest|
  {
    if number > range.end {
      NumberedFrom(rest, number, captureFrom, stopAfter, cap);
      FoldPast(state, range, Numbered(rest, number, captureFrom, stopAfter, cap), options);
      PastStop(rest, number, range.start, range.end, cap);
    } else if rest != [] {
      hide LineEnd, Render, Join, Truncate;
      var line := rest[..LineEnd(rest)];
      var wide, narrow := Captured(line, number, captureFrom, cap), Captured(line, number, range.start, cap);
      assert Advance(state, range, wide, options) == Advance(state, range, narrow, options);
      FoldWider(Advance(state, range, wide, options), range, rest[LineEnd(rest)..], number + 1, captureFrom,
                stopAfter, cap, options);
    }
  }

  // ---- The simple reader reads what it should -----------------------------------------------

  /** Lines before the range change nothing. */
  lemma {:induction false} FoldBefore(state: State, range: Range, lines: seq<Line>, options: Options)
    requires forall i :: 0 <= i < |lines| ==> lines[i].number < range.start
    ensures Fold(state, range, lines, options) == state
    decreases |lines|
  {
    if lines != [] { FoldBefore(state, range, lines[1..], options); }
  }

  function Rendered(lines: seq<Line>, options: Options, n: nat): seq<Bytes>
    requires n <= |lines| && forall i :: 0 <= i < n ==> Render(lines[i], options).Some?
  {
    seq(n, i requires 0 <= i < n => Render(lines[i], options).value)
  }

  /** Folding lines of the range shows them up to the first that is unreadable or does not fit. */
  lemma {:induction false} FoldShows(state: State, range: Range, lines: seq<Line>, options: Options) returns (n: nat)
    requires !state.done && state.result.None? && Tidy(state, options)
    requires forall i :: 0 <= i < |lines| ==> range.start <= lines[i].number <= range.end
    ensures n <= |lines| && forall i :: 0 <= i < n ==> Render(lines[i], options).Some?
    ensures var parts, text := state.parts + Rendered(lines, options, n), Conclude(Fold(state, range, lines, options));
            && |Join(parts)| <= options.maxOutput
            && if n == |lines| then text == (if parts == [] then EMPTY else Join(parts))
               else match Render(lines[n], options)
                    case None => text == options.error
                    case Some(next) =>
                      |Join(parts + [next])| > options.maxOutput
                      && text == Truncate(Join(parts + [next]), options.maxOutput, MARKER)
    decreases |lines|
  {
    hide Render, Truncate, Join;
    n := 0;
    assert state.parts + Rendered(lines, options, 0) == state.parts;
    if lines != [] {
      var next := Advance(state, range, lines[0], options);
      var rendered := Render(lines[0], options);
      if rendered.Some? { JoinAppend(state.parts, rendered.value); }
      AdvanceTidy(state, range, lines[0], options);
      if next.done {
        FoldPast(next, range, lines[1..], options);
      } else {
        var m := FoldShows(next, range, lines[1..], options);
        n := m + 1;
        assert state.parts + Rendered(lines, options, n) == next.parts + Rendered(lines[1..], options, m);
      }
    }
  }

  /** The lines of the file that the range asks for. */
  lemma WantedLines(file: Bytes, range: Range, options: Options) returns (lines: seq<Line>)
    requires range.start <= range.end
    ensures |lines| == Wanted(file, range)
    ensures forall i :: 0 <= i < |lines| ==>
      && range.start <= lines[i].number <= range.end
      && lines[i] == Captured(RawLines(file)[FirstLine(range) + i - 1], FirstLine(range) + i, FirstLine(range) + i,
                              CaptureCap(options))
    ensures ReadAlone(file, range, options) == Conclude(Fold(FRESH, range, lines, options))
  {
    hide Render, Captured, Fold, Conclude, Numbered, RawLines;
    var cap, raw := CaptureCap(options), RawLines(file);
    var all := Numbered(file, 1, range.start, range.end, cap);
    NumberedAre(file, 1, range.start, range.end, cap);
    CapturedNumbers(raw, all, range.start, cap);
    var skipped := Min(FirstLine(range) - 1, |all|);
    lines := all[skipped..];
    FoldSkips(range, all, skipped, options);
  }

  lemma FoldSkips(range: Range, lines: seq<Line>, n: nat, options: Options)
    requires n <= |lines| && forall i :: 0 <= i < n ==> lines[i].number < range.start
    ensures Fold(FRESH, range, lines, options) == Fold(FRESH, range, lines[n..], options)
  {
    hide Fold;
    assert lines == lines[..n] + lines[n..];
    FoldAppend(FRESH, range, lines[..n], lines[n..], options);
    FoldBefore(FRESH, range, lines[..n], options);
  }

  /** The simple reader reads the wanted lines. */
  lemma ReadAloneReads(file: Bytes, range: Range, options: Options)
    ensures Reads(file, range, options, ReadAlone(file, range, options))
  {
    hide Render, Captured, Truncate, Join, Fold, Conclude, ReadAlone, Wanted, Tidy, Rendered, Wish;
    if range.end >= range.start {
      var lines := WantedLines(file, range, options);
      TidyStart(options);
      var n := FoldShows(FRESH, range, lines, options);
      WishesAre(file, range, options, lines, n);
      assert FRESH.parts + Rendered(lines, options, n) == Rendered(lines, options, n);
      assert ReadsUpTo(file, range, options, n, ReadAlone(file, range, options));
    } else {
      NothingWanted(file, range, options);
      EmptyRange(file, range, options);
    }
  }

  lemma CapturedNumbers(raw: seq<Bytes>, lines: seq<Line>, captureFrom: nat, cap: nat)
    requires |lines| <= |raw| && forall i :: 0 <= i < |lines| ==> lines[i] == Captured(raw[i], 1 + i, captureFrom, cap)
    ensures forall i :: 0 <= i < |lines| ==>
      lines[i].number == 1 + i && (1 + i >= captureFrom ==> lines[i] == Captured(raw[i], 1 + i, 1 + i, cap))
  {
    hide Strip;
  }

  lemma WishesAre(file: Bytes, range: Range, options: Options, lines: seq<Line>, n: nat)
    requires |lines| == Wanted(file, range) && n <= |lines|
    requires forall i :: 0 <= i < |lines| ==>
      lines[i] == Captured(RawLines(file)[FirstLine(range) + i - 1], FirstLine(range) + i, FirstLine(range) + i,
                           CaptureCap(options))
    requires forall i :: 0 <= i < n ==> Render(lines[i], options).Some?
    ensures AllShown(file, range, options, n) && Wishes(file, range, options, n) == Rendered(lines, options, n)
    ensures n < |lines| ==> Wish(file, range, options, n) == Render(lines[n], options)
  {
    hide Render, Captured;
    assert forall i :: 0 <= i < |lines| ==> Wish(file, range, options, i) == Render(lines[i], options);
  }

  lemma NothingWanted(file: Bytes, range: Range, options: Options)
    requires range.end < range.start
    ensures Reads(file, range, options, EMPTY)
  {
    assert ReadsUpTo(file, range, options, 0, EMPTY);
  }

  // ---- The one-pass reader ----------------------------------------------------------------

  predicate DistinctKeys(ranges: seq<Range>) {
    forall i, j :: 0 <= i < j < |ranges| ==> ranges[i].key != ranges[j].key
  }

  /** The states of all valid ranges after the given lines. */
  predicate Synced(states: map<nat, State>, ranges: seq<Range>, lines: seq<Line>, options: Options) {
    forall i :: 0 <= i < |ranges| && ranges[i].start <= ranges[i].end ==>
      ranges[i].key in states && states[ranges[i].key] == Fold(FRESH, ranges[i], lines, options)
  }

  lemma {:induction false} FoldLast(state: State, range: Range, lines: seq<Line>, last: Line, options: Options)
    ensures Fold(state, range, lines + [last], options) == Advance(Fold(state, range, lines, options), range, last, options)
    decreases |lines|
  {
    hide Advance;
    if lines == [] {
      assert ([last])[1..] == [] && lines + [last] == [last];
    } else {
      assert (lines + [last])[0] == lines[0] && (lines + [last])[1..] == lines[1..] + [last];
      FoldLast(Advance(state, range, lines[0], options), range, lines[1..], last, options);
    }
  }

  lemma {:induction false} FoldAppend(state: State, range: Range, a: seq<Line>, b: seq<Line>, options: Options)
    ensures Fold(state, range, a + b, options) == Fold(Fold(state, range, a, options), range, b, options)
    decreases |a|
  {
    hide Advance;
    if a == [] {
      assert a + b == b;
    } else {
      assert (a + b)[0] == a[0] && (a + b)[1..] == a[1..] + b;
      FoldAppend(Advance(state, range, a[0], options), range, a[1..], b, options);
    }
  }

  /** The inner loop over the active keys of one line. */
  method AdvanceAll(states: map<nat, State>, ranges: seq<Range>, line: Line, options: Options,
                    ghost before: seq<Line>)
    returns (next: map<nat, State>)
    requires DistinctKeys(ranges) && Synced(states, ranges, before, options)
    ensures Synced(next, ranges, before + [line], options)
  {
    hide Advance, Fold;
    next := states;
    for i := 0 to |ranges|
      invariant forall j :: 0 <= j < |ranges| && ranges[j].start <= ranges[j].end ==>
        ranges[j].key in next
        && next[ranges[j].key] == Fold(FRESH, ranges[j], if j < i then before + [line] else before, options)
    {
      var range := ranges[i];
      if range.start <= range.end {
        FoldLast(FRESH, range, before, line, options);
        next := next[range.key := Advance(next[range.key], range, line, options)];
      }
    }
  }

  predicate IsActive(states: map<nat, State>, range: Range, number: nat) {
    range.start <= number <= range.end && range.key in states && !states[range.key].done
  }

  predicate Settled(states: map<nat, State>, ranges: seq<Range>, number: nat) {
    forall i :: 0 <= i < |ranges| && ranges[i].start <= ranges[i].end ==>
      ranges[i].key in states && (states[ranges[i].key].done || number >= ranges[i].end)
  }

  /** Once every range is done or behind, the remaining lines change nothing. */
  lemma SettledIsFinal(states: map<nat, State>, ranges: seq<Range>, lines: seq<Line>, n: nat, options: Options)
    requires n < |lines| && Synced(states, ranges, lines[..n + 1], options)
    requires Settled(states, ranges, lines[n].number)
    requires Consecutive(lines, 1)
    ensures Synced(states, ranges, lines, options)
  {
    hide Fold;
    forall i | 0 <= i < |ranges| && ranges[i].start <= ranges[i].end
      ensures states[ranges[i].key] == Fold(FRESH, ranges[i], lines, options)
    {
      FoldAppend(FRESH, ranges[i], lines[..n + 1], lines[n + 1..], options);
      assert lines[..n + 1] + lines[n + 1..] == lines;
      FoldPast(states[ranges[i].key], ranges[i], lines[n + 1..], options);
    }
  }

  function ValidRanges(ranges: seq<Range>): (valid: seq<Range>)
    ensures forall range :: range in valid <==> range in ranges && range.start <= range.end
  {
    if ranges == [] then []
    else (if ranges[0].start <= ranges[0].end then [ranges[0]] else []) + ValidRanges(ranges[1..])
  }

  function MinStart(valid: seq<Range>): (min: nat)
    requires valid != []
    ensures forall range :: range in valid ==> min <= range.start
  {
    if |valid| == 1 then valid[0].start else Min(valid[0].start, MinStart(valid[1..]))
  }

  function MaxEnd(valid: seq<Range>): (max: nat)
    requires valid != []
    ensures forall range :: range in valid ==> range.end <= max
  {
    if |valid| == 1 then valid[0].end else Max(valid[0].end, MaxEnd(valid[1..]))
  }

  /** `_read_text_ranges_bounded`: one pass over the file gives every range exactly what the simple reader
      gives it alone, whatever the other ranges and the segment size are. */
  method ReadRanges(file: Bytes, ranges: seq<Range>, options: Options, chunk: nat) returns (results: map<nat, Bytes>)
    requires chunk >= 1 && DistinctKeys(ranges)
    ensures forall i :: 0 <= i < |ranges| ==>
      ranges[i].key in results && results[ranges[i].key] == ReadAlone(file, ranges[i], options)
    ensures forall i :: 0 <= i < |ranges| ==> Reads(file, ranges[i], options, results[ranges[i].key])
  {
    hide *;
    forall i | 0 <= i < |ranges| ensures Reads(file, ranges[i], options, ReadAlone(file, ranges[i], options)) {
      ReadAloneReads(file, ranges[i], options);
    }
    var valid := ValidRanges(ranges);
    if valid == [] {
      results := map range | range in ranges :: range.key := EMPTY;
      AllEmpty(file, ranges, options);
      return;
    }
    var lines := IterateLines(file, MinStart(valid), MaxEnd(valid), CaptureCap(options), chunk);
    NumberedFrom(file, 1, MinStart(valid), MaxEnd(valid), CaptureCap(options));
    var states: map<nat, State> := Opening(ranges);
    OpeningSynced(ranges, options);
    var n := 0;
    assert lines[..0] == [];
    while n < |lines|
      invariant n <= |lines| && Synced(states, ranges, lines[..n], options)
    {
      assert lines[..n + 1] == lines[..n] + [lines[n]];
      var active := exists i :: 0 <= i < |ranges| && IsActive(states, ranges[i], lines[n].number);
      states := AdvanceAll(states, ranges, lines[n], options, lines[..n]);
      if active && Settled(states, ranges, lines[n].number) {
        SettledIsFinal(states, ranges, lines, n, options);
        break;
      }
      n := n + 1;
    }
    if n == |lines| { assert lines[..n] == lines; }
    results := Gather(file, ranges, states, lines, options);
  }

  function Opening(ranges: seq<Range>): map<nat, State> {
    map range | range in ranges && range.start <= range.end :: range.key := FRESH
  }

  lemma OpeningSynced(ranges: seq<Range>, options: Options)
    ensures Synced(Opening(ranges), ranges, [], options)
  {
  }

  lemma EmptyRange(file: Bytes, range: Range, options: Options)
    requires range.end < range.start
    ensures ReadAlone(file, range, options) == EMPTY
  {
  }

  lemma AllEmpty(file: Bytes, ranges: seq<Range>, options: Options)
    requires ValidRanges(ranges) == []
    ensures forall i :: 0 <= i < |ranges| ==> ReadAlone(file, ranges[i], options) == EMPTY
  {
    hide *;
    forall i | 0 <= i < |ranges| ensures ReadAlone(file, ranges[i], options) == EMPTY {
      assert ranges[i] in ranges && ranges[i] !in ValidRanges(ranges);
      EmptyRange(file, ranges[i], options);
    }
  }

  method Gather(file: Bytes, ranges: seq<Range>, states: map<nat, State>, ghost lines: seq<Line>, options: Options)
    returns (results: map<nat, Bytes>)
    requires DistinctKeys(ranges) && Synced(states, ranges, lines, options) && ValidRanges(ranges) != []
    requires lines == Numbered(file, 1, MinStart(ValidRanges(ranges)), MaxEnd(ValidRanges(ranges)), CaptureCap(options))
    ensures forall i :: 0 <= i < |ranges| ==>
      ranges[i].key in results && results[ranges[i].key] == ReadAlone(file, ranges[i], options)
  {
    hide Fold, Numbered, Conclude, MinStart, MaxEnd, ValidRanges;
    ghost var valid := ValidRanges(ranges);
    results := map[];
    for i := 0 to |ranges|
      invariant forall k :: 0 <= k < i ==>
        ranges[k].key in results && results[ranges[k].key] == ReadAlone(file, ranges[k], options)
    {
      var range := ranges[i];
      if range.end < range.start {
        results := results[range.key := EMPTY];
      } else {
        assert range in valid;
        FoldWider(FRESH, range, file, 1, MinStart(valid), MaxEnd(valid), CaptureCap(options), options);
        results := results[range.key := Conclude(states[range.key])];
      }
    }
  }
}
