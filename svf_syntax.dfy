/**
 * The grammar of one SVF command body as svfParser::nextCommand reads it,
 * written as functions of the command text and a cursor into it: each
 * reader returns what it read and where it left the cursor, or the error
 * the C++ code throws there.
 */
module SvfSyntax {
  import opened SvfTables
  import opened SvfHex
  import opened SvfCommands

  /**
   * The errors reading a command can end in: a parse error reporting the
   * line being read, or the read before the start of an empty hex word.
   */
  predicate RaisedAt(e: Error, line: int) {
    e.UndefinedBehaviour? || (e.ParseError? && e.line == line)
  }

  /** isspace in the C locale. */
  predicate IsSpace(c: char) {
    c == ' ' || c == '\t' || c == '\n' || c == '\U{B}' || c == '\U{C}' || c == '\r'
  }

  /** _skipSpaces: the first position at or after i that is not white space. */
  function SkipSpaces(buf: string, i: nat): (j: nat)
    requires i <= |buf|
    ensures i <= j <= |buf|
    ensures j == |buf| || !IsSpace(buf[j])
    decreases |buf| - i
  {
    if i < |buf| && IsSpace(buf[i]) then SkipSpaces(buf, i + 1) else i
  }

  /** Only white space is skipped. */
  lemma {:induction false} SkipSpacesSkipsSpaces(buf: string, i: nat, k: nat)
    requires i <= |buf| && i <= k < SkipSpaces(buf, i)
    ensures IsSpace(buf[k])
    decreases |buf| - i
  {
    if k > i {
      SkipSpacesSkipsSpaces(buf, i + 1, k);
    }
  }

  /** The first position at or after i that is white space or the end. */
  function WordEnd(buf: string, i: nat): (j: nat)
    requires i <= |buf|
    ensures i <= j <= |buf|
    ensures j == |buf| || IsSpace(buf[j])
    decreases |buf| - i
  {
    if i < |buf| && !IsSpace(buf[i]) then WordEnd(buf, i + 1) else i
  }

  /** A word holds no white space. */
  lemma {:induction false} WordEndSkipsWord(buf: string, i: nat, k: nat)
    requires i <= |buf| && i <= k < WordEnd(buf, i)
    ensures !IsSpace(buf[k])
    decreases |buf| - i
  {
    if k > i {
      WordEndSkipsWord(buf, i + 1, k);
    }
  }

  /**
   * _readWord: skip white space, then take the longest run of other
   * characters. The word is empty exactly when only white space is left,
   * and a non-empty word moves the cursor forward.
   */
  function ReadWord(buf: string, i: nat): (r: (string, nat))
    requires i <= |buf|
    ensures i <= r.1 <= |buf|
    ensures |r.0| == 0 ==> r.1 == |buf|
    ensures |r.0| > 0 ==> i < r.1
  {
    var a := SkipSpaces(buf, i);
    var b := WordEnd(buf, a);
    (buf[a..b], b)
  }

  /**
   * The word read is the text between the white space at the cursor and the
   * next white space, and it is empty only at the end of the text.
   */
  lemma ReadWordShape(buf: string, i: nat)
    requires i <= |buf|
    ensures var r := ReadWord(buf, i); var a := SkipSpaces(buf, i);
      && r.0 == buf[a..r.1]
      && (forall k :: a <= k < r.1 ==> !IsSpace(buf[k]))
      && (r.1 == |buf| || IsSpace(buf[r.1]))
      && (|r.0| == 0 <==> a == |buf|)
  {
    var a := SkipSpaces(buf, i);
    forall k | a <= k < ReadWord(buf, i).1
      ensures !IsSpace(buf[k])
    {
      WordEndSkipsWord(buf, a, k);
    }
  }

  /** What strcmp sees of a std::string through c_str(): the characters before the first NUL. */
  function CStr(w: string): (c: string)
    ensures |c| <= |w| && c == w[..|c|]
    ensures '\0' !in c
    ensures |c| < |w| ==> w[|c|] == '\0'
  {
    if |w| == 0 || w[0] == '\0' then [] else [w[0]] + CStr(w[1..])
  }

  predicate IsDecimalDigit(c: char) {
    '0' <= c <= '9'
  }

  /** The number of decimal digits at the start of s. */
  function DigitRun(s: string): (n: nat)
    ensures n <= |s|
    ensures forall k :: 0 <= k < n ==> IsDecimalDigit(s[k])
    ensures n == |s| || !IsDecimalDigit(s[n])
  {
    if |s| > 0 && IsDecimalDigit(s[0]) then 1 + DigitRun(s[1..]) else 0
  }

  function DigitValue(c: char): nat
    requires IsDecimalDigit(c)
  {
    c as int - '0' as int
  }

  /** The number a string of decimal digits denotes, most significant first. */
  function DecimalValue(ds: string): nat
    requires forall k :: 0 <= k < |ds| ==> IsDecimalDigit(ds[k])
  {
    if ds == [] then 0 else DecimalValue(ds[..|ds| - 1]) * 10 + DigitValue(ds[|ds| - 1])
  }

  /** The length of an optional leading sign. */
  function SignLength(w: string): nat {
    if |w| > 0 && (w[0] == '+' || w[0] == '-') then 1 else 0
  }

  /**
   * strtol(w, &end, 10) as _readInt uses it: an optional sign and a run of
   * decimal digits, the rest of the word ignored; None when no digit follows
   * the sign (end == w). Values are those of a 64-bit long clamped to its
   * range: outside the range of int they are all rejected alike by the
   * caller, so the clamping is not spelled out.
   */
  function StrToL(w: string): (r: Option<int>)
    ensures r.Some? <==> SignLength(w) < |w| && IsDecimalDigit(w[SignLength(w)])
    ensures r.Some? && r.value < 0 ==> w[0] == '-'
  {
    var k := SignLength(w);
    var n := DigitRun(w[k..]);
    if n == 0 then None
    else
      var v: int := DecimalValue(w[k..][..n]);
      Some(if k == 1 && w[0] == '-' then -v else v)
  }

  function AsciiLower(c: char): char {
    if 'A' <= c <= 'Z' then (c as int - 'A' as int + 'a' as int) as char else c
  }

  /** Whether s begins with the lower-case word p, ignoring the case of ASCII letters. */
  predicate StartsWithFolded(s: string, p: string) {
    |p| <= |s| && forall k :: 0 <= k < |p| ==> AsciiLower(s[k]) == p[k]
  }

  /**
   * Whether strtod(w, &end) reads anything at all (end != w): an optional
   * sign followed by a decimal digit, a point and a digit, or one of the
   * words INF and NAN in any case. Hexadecimal numbers begin with the digit
   * 0 and are covered by the first case.
   */
  predicate StrToDAccepts(w: string)
    ensures StrToL(w).Some? ==> StrToDAccepts(w)
  {
    var r := w[SignLength(w)..];
    || (|r| > 0 && IsDecimalDigit(r[0]))
    || (|r| > 1 && r[0] == '.' && IsDecimalDigit(r[1]))
    || StartsWithFolded(r, "inf")
    || StartsWithFolded(r, "nan")
  }

  /** _expect: the next word must be exactly x. */
  function Expect(buf: string, i: nat, x: string, line: int): (r: Result<nat>)
    requires i <= |buf|
    ensures r.Ok? <==> ReadWord(buf, i).0 == x
    ensures r.Ok? ==> r.value == ReadWord(buf, i).1
    ensures r.Err? ==> r.error == ParseError(line, "expecting: " + x)
  {
    var (w, j) := ReadWord(buf, i);
    if w == x then Ok(j) else Err(ParseError(line, "expecting: " + x))
  }

  /** _expect_either: the next word must be exactly x1 or x2. */
  function ExpectEither(buf: string, i: nat, x1: string, x2: string, line: int): (r: Result<nat>)
    requires i <= |buf|
    ensures r.Ok? <==> ReadWord(buf, i).0 in {x1, x2}
    ensures r.Ok? ==> r.value == ReadWord(buf, i).1
    ensures r.Err? ==> r.error == ParseError(line, "expecting: " + x1 + " or " + x2)
  {
    var (w, j) := ReadWord(buf, i);
    if w != x1 && w != x2 then Err(ParseError(line, "expecting: " + x1 + " or " + x2)) else Ok(j)
  }

  /** _expectChar: after white space, the next character must be c; the cursor moves past it. */
  function ExpectChar(buf: string, i: nat, c: char, line: int): (r: Result<nat>)
    requires i <= |buf|
    ensures r.Ok? <==> SkipSpaces(buf, i) < |buf| && buf[SkipSpaces(buf, i)] == c
    ensures r.Ok? ==> r.value == SkipSpaces(buf, i) + 1
    ensures r.Err? ==> r.error == ParseError(line, "expecting: " + [c])
  {
    var j := SkipSpaces(buf, i);
    if j >= |buf| || buf[j] != c then Err(ParseError(line, "expecting: " + [c])) else Ok(j + 1)
  }

  /** _readInt: a word that strtol reads as a number in the range of int. */
  function ReadInt(buf: string, i: nat, line: int): (r: Result<(int, nat)>)
    requires i <= |buf|
    ensures r.Ok? ==> InIntRange(r.value.0) && i < r.value.1 <= |buf|
    ensures r.Ok? ==> StrToL(ReadWord(buf, i).0) == Some(r.value.0) && r.value.1 == ReadWord(buf, i).1
    ensures r.Err? ==> r.error.ParseError? && r.error.line == line
    ensures r.Err? <==> match StrToL(ReadWord(buf, i).0) case None => true case Some(n) => !InIntRange(n)
  {
    var (w, j) := ReadWord(buf, i);
    if |w| == 0 then Err(ParseError(line, "expected integer"))
    else match StrToL(w)
      case None => Err(ParseError(line, "expected integer"))
      case Some(n) => if n > IntMax || n < IntMin then Err(ParseError(line, "integer overflow")) else Ok((n, j))
  }

  /** _readDouble: a word that strtod reads a number from; its value is not kept. */
  function ReadDouble(buf: string, i: nat, line: int): (r: Result<nat>)
    requires i <= |buf|
    ensures r.Ok? <==> StrToDAccepts(ReadWord(buf, i).0)
    ensures r.Ok? ==> r.value == ReadWord(buf, i).1
    ensures r.Err? ==> r.error == ParseError(line, "expected number")
  {
    var (w, j) := ReadWord(buf, i);
    if |w| == 0 then Err(ParseError(line, "expected number"))
    else if !StrToDAccepts(w) then Err(ParseError(line, "expected number"))
    else Ok(j)
  }

  /**
   * The loop of _readHexValue: while the text gathered so far is non-empty
   * and does not end in ')', append the next word; stop early when no word
   * is left.
   */
  function GatherHex(buf: string, i: nat, s: string): (r: (string, nat))
    requires i <= |buf|
    ensures i <= r.1 <= |buf| && |s| <= |r.0| && r.0[..|s|] == s
    ensures |r.0| > 0 && r.0[|r.0| - 1] != ')' ==> r.1 == |buf| && SkipSpaces(buf, r.1) == |buf|
    ensures |s| == 0 ==> r == (s, i)
    decreases |buf| - i
  {
    if |s| > 0 && s[|s| - 1] != ')' then
      var (tmp, j) := ReadWord(buf, i);
      if |tmp| == 0 then (s, j) else GatherHex(buf, j, s + tmp)
    else (s, i)
  }

  /**
   * _readHexValue: '(' then words up to one that ends in ')', decoded by
   * svfParseHex without the ')'. An empty word after '(' makes the C++ code
   * read s[-1]; without a closing ')' it insists on one, which can then never
   * be there.
   */
  function ReadHexValue(buf: string, i: nat, line: int): (r: Result<(seq<Byte>, nat)>)
    requires i <= |buf|
    ensures r.Ok? ==> i < r.value.1 <= |buf|
    ensures r.Err? ==> RaisedAt(r.error, line)
    ensures var a := SkipSpaces(buf, i);
      !(a < |buf| && buf[a] == '(') ==> r == Err(ParseError(line, "expecting: ("))
    ensures var a := SkipSpaces(buf, i);
      a < |buf| && buf[a] == '(' ==> r == HexBody(buf, a + 1, line)
  {
    var j :- ExpectChar(buf, i, '(', line);
    HexBody(buf, j, line)
  }

  /** The text _readHexValue gathers after the '(': words joined up to one that ends in ')'. */
  function HexText(buf: string, j: nat): (g: string)
    requires j <= |buf|
    ensures ReadWord(buf, j).0 <= g
    ensures |g| == 0 <==> |ReadWord(buf, j).0| == 0
  {
    var (s, k) := ReadWord(buf, j);
    GatherHex(buf, k, s).0
  }

  /**
   * _readHexValue after the '(': the gathered text must end in ')', and the
   * text before it is the value; an empty first word is the read of s[-1].
   */
  function HexBody(buf: string, j: nat, line: int): (r: Result<(seq<Byte>, nat)>)
    requires j <= |buf|
    ensures r.Ok? ==> j <= r.value.1 <= |buf|
    ensures r.Err? ==> RaisedAt(r.error, line)
    ensures var g := HexText(buf, j);
      |g| == 0 ==> r == Err(UndefinedBehaviour("last character of an empty hex value"))
    ensures var g := HexText(buf, j);
      |g| > 0 && g[|g| - 1] == ')' ==> r.Ok? && r.value.0 == DecodeHex(g[..|g| - 1])
    ensures var g := HexText(buf, j);
      |g| > 0 && g[|g| - 1] != ')' ==> r == Err(ParseError(line, "expecting: )"))
  {
    var (s, k) := ReadWord(buf, j);
    var (g, m) := GatherHex(buf, k, s);
    if |g| == 0 then Err(UndefinedBehaviour("last character of an empty hex value"))
    else if g[|g| - 1] != ')' then
      // GatherHex stops here only at the end of the text, where no ')' can follow.
      match ExpectChar(buf, m, ')', line)
      case Err(e) => Err(e)
      case Ok(n) => Ok((DecodeHex(g), n))
    else Ok((DecodeHex(g[..|g| - 1]), m))
  }

  /** The words of buf from i to its end, in order. */
  function Words(buf: string, i: nat): (ws: seq<string>)
    requires i <= |buf|
    ensures forall k :: 0 <= k < |ws| ==> |ws[k]| > 0
    decreases |buf| - i
  {
    var (w, j) := ReadWord(buf, i);
    if |w| == 0 then [] else [w] + Words(buf, j)
  }

  /** The STATE loop: state names up to the end of the text, each of them known. */
  function ParseStates(buf: string, i: nat, line: int): (r: Result<(seq<State>, nat)>)
    requires i <= |buf|
    ensures r.Ok? ==> r.value.1 == |buf|
    ensures r.Ok? ==> forall k :: 0 <= k < |r.value.0| ==> r.value.0[k] != Undefined
    ensures r.Err? ==> r.error.ParseError? && r.error.line == line
    decreases |buf| - i
  {
    var (w, j) := ReadWord(buf, i);
    if |w| == 0 then Ok(([], j))
    else
      var st := LookupState(CStr(w));
      if st == Undefined then Err(ParseError(line, "unknown state: " + w))
      else
        var rest :- ParseStates(buf, j, line);
        Ok(([st] + rest.0, rest.1))
  }

  /** The states svfLookupState gives for a list of words, in order. */
  function StatesOf(ws: seq<string>): (r: seq<State>)
    ensures |r| == |ws|
    ensures forall k :: 0 <= k < |ws| ==> r[k] == LookupState(CStr(ws[k]))
  {
    if |ws| == 0 then [] else [LookupState(CStr(ws[0]))] + StatesOf(ws[1..])
  }

  /** k is the first of the words that names no state. */
  predicate FirstUnknownAt(ws: seq<string>, k: int) {
    0 <= k < |ws| && StatesOf(ws)[k] == Undefined && Undefined !in StatesOf(ws)[..k]
  }

  /** Behind a word that names a state, the first unknown word moves one place on. */
  lemma FirstUnknownShifts(ws: seq<string>, k: int)
    requires |ws| > 0 && LookupState(CStr(ws[0])) != Undefined && FirstUnknownAt(ws[1..], k)
    ensures FirstUnknownAt(ws, k + 1) && ws[k + 1] == ws[1..][k]
  {
    assert StatesOf(ws) == [LookupState(CStr(ws[0]))] + StatesOf(ws[1..]);
    assert StatesOf(ws)[..k + 1] == [LookupState(CStr(ws[0]))] + StatesOf(ws[1..])[..k];
  }

  /** The STATE loop accepts exactly the texts whose every word names a state. */
  lemma {:induction false} ParseStatesAccepts(buf: string, i: nat, line: int)
    requires i <= |buf|
    ensures ParseStates(buf, i, line).Ok? <==> Undefined !in StatesOf(Words(buf, i))
    decreases |buf| - i
  {
    var (w, j) := ReadWord(buf, i);
    if |w| > 0 {
      var ws := Words(buf, i);
      assert ws[0] == w && ws[1..] == Words(buf, j);
      ParseStatesAccepts(buf, j, line);
      assert StatesOf(ws) == [LookupState(CStr(w))] + StatesOf(Words(buf, j));
    }
  }

  /** An accepted STATE list holds the state of each word, in order. */
  lemma {:induction false} ParseStatesInOrder(buf: string, i: nat, line: int)
    requires i <= |buf| && ParseStates(buf, i, line).Ok?
    ensures ParseStates(buf, i, line).value.0 == StatesOf(Words(buf, i))
    decreases |buf| - i
  {
    var (w, j) := ReadWord(buf, i);
    if |w| > 0 {
      var ws := Words(buf, i);
      assert ws[0] == w && ws[1..] == Words(buf, j);
      ParseStatesInOrder(buf, j, line);
    }
  }

  /** A rejected STATE list names the first word that is no state. */
  lemma {:induction false} ParseStatesReports(buf: string, i: nat, line: int)
    requires i <= |buf| && ParseStates(buf, i, line).Err?
    ensures exists k :: (FirstUnknownAt(Words(buf, i), k)
                         && ParseStates(buf, i, line).error == ParseError(line, "unknown state: " + Words(buf, i)[k]))
    decreases |buf| - i
  {
    var (w, j) := ReadWord(buf, i);
    var ws := Words(buf, i);
    assert ws[0] == w && ws[1..] == Words(buf, j);
    var x := LookupState(CStr(w));
    if x == Undefined {
      assert FirstUnknownAt(ws, 0);
    } else {
      var tail := Words(buf, j);
      ParseStatesReports(buf, j, line);
      var k :| FirstUnknownAt(tail, k)
        && ParseStates(buf, j, line).error == ParseError(line, "unknown state: " + tail[k]);
      FirstUnknownShifts(ws, k);
      assert ParseStates(buf, i, line).error == ParseStates(buf, j, line).error;
    }
  }

  /** The four attribute keywords of a shift or template command. */
  predicate IsAttribute(w: string) {
    w == "TDI" || w == "TDO" || w == "MASK" || w == "SMASK"
  }

  /**
   * The value the attribute loop leaves for keyword key: the hex value of
   * the last attribute named key in the text from i, or v when there is none.
   */
  function FieldValue(buf: string, i: nat, key: string, v: seq<Byte>, line: int): seq<Byte>
    requires i <= |buf|
    decreases |buf| - i
  {
    var (w, j) := ReadWord(buf, i);
    if |w| == 0 || !IsAttribute(w) then v
    else match ReadHexValue(buf, j, line)
      case Err(_) => v
      case Ok(h) => FieldValue(buf, h.1, key, if w == key then h.0 else v, line)
  }

  /**
   * The attribute loop of SDR, SIR, HDR, HIR, TDR and TIR: keyword and hex
   * value pairs up to the end of the text. A later value for the same
   * keyword replaces the earlier one; the length is left alone.
   */
  function ParseAttributes(buf: string, i: nat, d: Data, line: int): (r: Result<(Data, nat)>)
    requires i <= |buf|
    ensures r.Ok? ==> r.value.0.dataLen == d.dataLen && r.value.1 == |buf|
    ensures r.Err? ==> RaisedAt(r.error, line)
    ensures var w := ReadWord(buf, i).0;
      |w| > 0 && !IsAttribute(w) ==> r == Err(ParseError(line, "unknown attribute: " + w))
    ensures var (w, j) := ReadWord(buf, i);
      IsAttribute(w) && ReadHexValue(buf, j, line).Err? ==> r == Err(ReadHexValue(buf, j, line).error)
    decreases |buf| - i
  {
    var (w, j) := ReadWord(buf, i);
    if |w| == 0 then Ok((d, j))
    else if w == "TDI" then
      var v :- ReadHexValue(buf, j, line);
      ParseAttributes(buf, v.1, d.(tdiData := v.0), line)
    else if w == "TDO" then
      var v :- ReadHexValue(buf, j, line);
      ParseAttributes(buf, v.1, d.(tdoData := v.0), line)
    else if w == "MASK" then
      var v :- ReadHexValue(buf, j, line);
      ParseAttributes(buf, v.1, d.(tdoMask := v.0), line)
    else if w == "SMASK" then
      var v :- ReadHexValue(buf, j, line);
      ParseAttributes(buf, v.1, d.(tdiMask := v.0), line)
    else Err(ParseError(line, "unknown attribute: " + w))
  }

  /**
   * TDI fills tdiData, TDO tdoData, SMASK tdiMask and MASK tdoMask; each field
   * ends with the last value given for its own keyword, whatever the others.
   */
  lemma {:induction false} ParseAttributesFields(buf: string, i: nat, d: Data, line: int)
    requires i <= |buf| && ParseAttributes(buf, i, d, line).Ok?
    ensures ParseAttributes(buf, i, d, line).value.0 == d.(
      tdiData := FieldValue(buf, i, "TDI", d.tdiData, line),
      tdoData := FieldValue(buf, i, "TDO", d.tdoData, line),
      tdiMask := FieldValue(buf, i, "SMASK", d.tdiMask, line),
      tdoMask := FieldValue(buf, i, "MASK", d.tdoMask, line))
    decreases |buf| - i
  {
    var (w, j) := ReadWord(buf, i);
    if |w| > 0 {
      var h := ReadHexValue(buf, j, line).value;
      var e := if w == "TDI" then d.(tdiData := h.0)
        else if w == "TDO" then d.(tdoData := h.0)
        else if w == "MASK" then d.(tdoMask := h.0)
        else d.(tdiMask := h.0);
      assert ParseAttributes(buf, i, d, line) == ParseAttributes(buf, h.1, e, line);
      ParseAttributesFields(buf, h.1, e, line);
    }
  }

  /** The text after the verb, by verb: the switch of nextCommand. */
  function ParseOperands(op: Op, verb: string, buf: string, i: nat, line: int): (r: Result<(Command, nat)>)
    requires i <= |buf|
    ensures r.Ok? ==> r.value.0.op == op && r.value.1 <= |buf|
    ensures r.Err? ==> RaisedAt(r.error, line)
  {
    match op
    case UnknownOp => Err(ParseError(line, "unknown svf command: " + verb))
    case EndDr | EndIr => ParseEndState(op, buf, i, line)
    case Frequency => ParseFrequency(buf, i, line)
    case RunTest => ParseRunTest(buf, i, line)
    case StateCmd => ParseStateCommand(buf, i, line)
    case Trst => ParseTrst(buf, i, line)
    case Sdr | Sir | Hdr | Hir | Tdr | Tir => ParseShift(op, buf, i, line)
  }

  /** Every command the switch of nextCommand produces has the shape its verb calls for. */
  lemma ParseOperandsWellFormed(op: Op, verb: string, buf: string, i: nat, line: int)
    requires i <= |buf|
    ensures var r := ParseOperands(op, verb, buf, i, line); r.Ok? ==> WellFormed(r.value.0)
  {
  }

  /** STATE: the states to visit, up to the end of the command. */
  function ParseStateCommand(buf: string, i: nat, line: int): (r: Result<(Command, nat)>)
    requires i <= |buf|
    ensures r.Ok? ==> r.value.0.op == StateCmd && r.value.0.data == EmptyData && r.value.1 == |buf|
    ensures r.Ok? ==> forall k :: 0 <= k < |r.value.0.states| ==> r.value.0.states[k] != Undefined
    ensures r.Err? ==> r.error.ParseError? && r.error.line == line
    ensures r.Ok? <==> Undefined !in StatesOf(Words(buf, i))
    ensures r.Ok? ==> r.value.0.states == StatesOf(Words(buf, i))
    ensures r.Err? ==> exists k :: FirstUnknownAt(Words(buf, i), k) && r.error == ParseError(line, "unknown state: " + Words(buf, i)[k])
  {
    ParseStatesAccepts(buf, i, line);
    if ParseStates(buf, i, line).Err? then ParseStatesReports(buf, i, line); Err(ParseStates(buf, i, line).error)
    else
      ParseStatesInOrder(buf, i, line);
      var sts := ParseStates(buf, i, line).value;
    Ok((Command(StateCmd, EmptyData, sts.0), sts.1))
  }

  /** TRST: OFF or ABSENT, and nothing else. */
  function ParseTrst(buf: string, i: nat, line: int): (r: Result<(Command, nat)>)
    requires i <= |buf|
    ensures r.Ok? <==> ReadWord(buf, i).0 in {"OFF", "ABSENT"}
    ensures r.Ok? ==> r.value == (Command(Trst, EmptyData, []), ReadWord(buf, i).1)
    ensures r.Err? ==> r.error == ParseError(line, "expecting: OFF or ABSENT")
  {
    var j :- ExpectEither(buf, i, "OFF", "ABSENT", line);
    Ok((Command(Trst, EmptyData, []), j))
  }

  /** FREQUENCY: a number and HZ. */
  function ParseFrequency(buf: string, i: nat, line: int): (r: Result<(Command, nat)>)
    requires i <= |buf|
    ensures r.Ok? ==> r.value.0 == Command(Frequency, EmptyData, []) && r.value.1 <= |buf|
    ensures r.Err? ==> r.error.ParseError? && r.error.line == line
    ensures var (w, j) := ReadWord(buf, i);
      r.Ok? <==> StrToDAccepts(w) && ReadWord(buf, j).0 == "HZ"
    ensures !StrToDAccepts(ReadWord(buf, i).0) ==> r == Err(ParseError(line, "expected number"))
    ensures var (w, j) := ReadWord(buf, i);
      StrToDAccepts(w) && ReadWord(buf, j).0 != "HZ" ==> r == Err(ParseError(line, "expecting: HZ"))
    ensures r.Ok? ==> r.value.1 == ReadWord(buf, ReadWord(buf, i).1).1
  {
    var j :- ReadDouble(buf, i, line);
    var k :- Expect(buf, j, "HZ", line);
    Ok((Command(Frequency, EmptyData, []), k))
  }

  /**
   * RUNTEST: a peeked word that is taken as the run state only when it names
   * one (UNDEFINED in the command otherwise), the clock count, and TCK.
   */
  function ParseRunTest(buf: string, i: nat, line: int): (r: Result<(Command, nat)>)
    requires i <= |buf|
    ensures r.Ok? ==> r.value.0.op == RunTest && |r.value.0.states| == 1 && r.value.1 <= |buf|
    ensures r.Ok? ==> r.value.0.data == EmptyData.(dataLen := r.value.0.data.dataLen) && InIntRange(r.value.0.data.dataLen)
    ensures r.Ok? ==> r.value.0.states[0] == LookupState(CStr(ReadWord(buf, i).0))
    ensures r.Err? ==> r.error.ParseError? && r.error.line == line
  {
    var a := SkipSpaces(buf, i);
    var (st, b) := ReadWord(buf, a);
    var s := LookupState(CStr(st));
    var j := if s != Undefined then b else a;
    var n :- ReadInt(buf, j, line);
    var k :- Expect(buf, n.1, "TCK", line);
    SkipSpacesIdempotent(buf, i);
    Ok((Command(RunTest, EmptyData.(dataLen := n.0), [s]), k))
  }

  /** Skipping white space twice is skipping it once. */
  lemma SkipSpacesIdempotent(buf: string, i: nat)
    requires i <= |buf|
    ensures SkipSpaces(buf, SkipSpaces(buf, i)) == SkipSpaces(buf, i)
    ensures ReadWord(buf, SkipSpaces(buf, i)) == ReadWord(buf, i)
  {
  }

  /** SDR, SIR, HDR, HIR, TDR and TIR: the length, then the attributes. */
  function ParseShift(op: Op, buf: string, i: nat, line: int): (r: Result<(Command, nat)>)
    requires i <= |buf|
    ensures r.Ok? ==> r.value.0.op == op && r.value.0.states == [] && r.value.1 <= |buf|
    ensures r.Ok? ==> InIntRange(r.value.0.data.dataLen)
    ensures r.Err? ==> RaisedAt(r.error, line)
    ensures ReadInt(buf, i, line).Err? ==> r == Err(ReadInt(buf, i, line).error)
    ensures var n := ReadInt(buf, i, line);
      n.Ok? ==> var a := ParseAttributes(buf, n.value.1, EmptyData.(dataLen := n.value.0), line);
        && (a.Err? ==> r == Err(a.error))
        && (a.Ok? ==> r == Ok((Command(op, a.value.0, []), a.value.1)))
    ensures r.Ok? ==> r.value.0.data.dataLen == ReadInt(buf, i, line).value.0
  {
    var n :- ReadInt(buf, i, line);
    var d :- ParseAttributes(buf, n.1, EmptyData.(dataLen := n.0), line);
    Ok((Command(op, d.0, []), d.1))
  }

  /** ENDDR and ENDIR: one known state name. */
  function ParseEndState(op: Op, buf: string, i: nat, line: int): (r: Result<(Command, nat)>)
    requires i <= |buf|
    ensures r.Ok? ==> r.value.0 == Command(op, EmptyData, [LookupState(CStr(ReadWord(buf, i).0))])
    ensures r.Ok? ==> r.value.0.states[0] != Undefined && r.value.1 == ReadWord(buf, i).1
    ensures r.Err? <==> LookupState(CStr(ReadWord(buf, i).0)) == Undefined
    ensures r.Err? ==> r.error == ParseError(line, "unknown state: " + ReadWord(buf, i).0)
  {
    var (st, j) := ReadWord(buf, i);
    var s := LookupState(CStr(st));
    if s == Undefined then Err(ParseError(line, "unknown state: " + st)) else Ok((Command(op, EmptyData, [s]), j))
  }

  /**
   * nextCommand once the command text is in buf: the verb, its operands,
   * and nothing but white space after them.
   */
  function ParseBody(buf: string, line: int): (r: Result<Command>)
    ensures r.Ok? ==> WellFormed(r.value)
    ensures r.Err? ==> RaisedAt(r.error, line)
  {
    var (verb, i) := ReadWord(buf, 0);
    var op := LookupOp(CStr(verb));
    var c :- ParseOperands(op, verb, buf, i, line);
    ParseOperandsWellFormed(op, verb, buf, i, line);
    var k := SkipSpaces(buf, c.1);
    if k < |buf| then Err(ParseError(line, "garbage after command: " + buf[k..])) else Ok(c.0)
  }

  /** A verb that names no command is a parse error on the line being read. */
  lemma UnknownVerbRejected(buf: string, line: int)
    requires LookupOp(CStr(ReadWord(buf, 0).0)) == UnknownOp
    ensures ParseBody(buf, line) == Err(ParseError(line, "unknown svf command: " + ReadWord(buf, 0).0))
  {
  }

  /** An empty or all-blank command has no verb, and no verb is unknown. */
  lemma EmptyCommandRejected(buf: string, line: int)
    requires forall k :: 0 <= k < |buf| ==> IsSpace(buf[k])
    ensures ParseBody(buf, line) == Err(ParseError(line, "unknown svf command: "))
  {
    var (verb, i) := ReadWord(buf, 0);
    ReadWordShape(buf, 0);
    assert SkipSpaces(buf, 0) == |buf|;
    assert CStr(verb) == [];
    forall op: Op | op != UnknownOp ensures OpName(op) != [] {
      OpTablesAgree();
      assert OpNames[OpOrdinal(op)] != [];
    }
  }

  /**
   * The verdict of nextCommand on a command body: the operands' error, the
   * garbage error naming the rest of the text after the spaces, or the
   * operands' command when only white space follows them.
   */
  lemma ParseBodyAccepts(buf: string, line: int)
    ensures var (verb, i) := ReadWord(buf, 0);
      var p := ParseOperands(LookupOp(CStr(verb)), verb, buf, i, line);
      && (p.Err? ==> ParseBody(buf, line) == Err(p.error))
      && (p.Ok? && (forall k :: p.value.1 <= k < |buf| ==> IsSpace(buf[k])) ==> ParseBody(buf, line) == Ok(p.value.0))
      && (p.Ok? && SkipSpaces(buf, p.value.1) < |buf| ==>
            ParseBody(buf, line) == Err(ParseError(line, "garbage after command: " + buf[SkipSpaces(buf, p.value.1)..])))
  {
  }

  /** A command that parses leaves nothing but white space after its operands. */
  lemma ParseBodyConsumesAll(buf: string, line: int)
    requires ParseBody(buf, line).Ok?
    ensures var (verb, i) := ReadWord(buf, 0);
      var p := ParseOperands(LookupOp(CStr(verb)), verb, buf, i, line);
      && p.Ok? && p.value.0 == ParseBody(buf, line).value
      && forall k :: p.value.1 <= k < |buf| ==> IsSpace(buf[k])
  {
    var (verb, i) := ReadWord(buf, 0);
    var p := ParseOperands(LookupOp(CStr(verb)), verb, buf, i, line);
    assert SkipSpaces(buf, p.value.1) == |buf|;
    forall k | p.value.1 <= k < |buf| ensures IsSpace(buf[k]) {
      SkipSpacesSkipsSpaces(buf, p.value.1, k);
    }
  }

  /**
   * RUNTEST reads its count after the state name when the first word names
   * a state, and in place of it otherwise.
   */
  lemma ParseRunTestCount(buf: string, i: nat, line: int)
    requires i <= |buf|
    ensures var w := ReadWord(buf, i);
      var j := if LookupState(CStr(w.0)) != Undefined then w.1 else SkipSpaces(buf, i);
      var n := ReadInt(buf, j, line);
      var r := ParseRunTest(buf, i, line);
      && (n.Err? ==> r == Err(n.error))
      && (n.Ok? ==> (r.Ok? <==> ReadWord(buf, n.value.1).0 == "TCK"))
      && (n.Ok? && ReadWord(buf, n.value.1).0 != "TCK" ==> r == Err(ParseError(line, "expecting: TCK")))
      && (r.Ok? ==> n.Ok? && r.value.0.data.dataLen == n.value.0 && r.value.1 == ReadWord(buf, n.value.1).1)
  {
    SkipSpacesIdempotent(buf, i);
  }
}
