/**
 * svfParser: lines go in through ProcessLine, commands come out of
 * NextCommand. The text of a command may span lines and one line may hold
 * several commands; a command ends at ';'.
 */
module SvfParser {
  import opened SvfTables
  import opened SvfHex
  import opened SvfCommands
  import Syn = SvfSyntax

  /** processLine drops a line that begins with two slashes. */
  predicate IsCommentLine(line: string)
    ensures IsCommentLine(line) <==> |line| >= 2 && line[..2] == "//"
  {
    |line| >= 2 && line[0] == '/' && line[1] == '/'
  }

  /** _findChr (memchr): the first index of c in s, or -1. */
  function FindChar(s: string, c: char): (k: int)
    ensures -1 <= k < |s|
    ensures k >= 0 ==> s[k] == c && c !in s[..k]
    ensures k == -1 <==> c !in s
  {
    if |s| == 0 then -1
    else if s[0] == c then 0
    else
      var k := FindChar(s[1..], c);
      assert s[1..][..k + 1] == s[1..k + 2] by {
        if k >= 0 {
          assert s[1..][..k] == s[1..k + 1];
        }
      }
      if k < 0 then -1 else k + 1
  }

  /**
   * _readCommand on the unread rest of the current line and the text
   * gathered so far: with no ';' in the rest, all of it is gathered and no
   * command is complete; otherwise the text before the first ';' completes
   * the command and reading resumes after the ';'. Nothing is lost or
   * duplicated on the way.
   */
  function SplitCommand(pending: string, buf: string): (r: (bool, string, string))
    ensures !r.0 ==> r.1 == [] && r.2 == buf + pending && ';' !in pending
    ensures r.0 ==> r.2 + [';'] + r.1 == buf + pending
    ensures r.0 ==> |r.2| >= |buf| && r.2[..|buf|] == buf && ';' !in r.2[|buf|..]
    ensures r.0 ==> |r.1| < |pending|
    ensures r.0 <==> ';' in pending
  {
    if |pending| == 0 then (false, pending, buf)
    else
      var k := FindChar(pending, ';');
      if k < 0 then (false, [], buf + pending)
      else
        var b := buf + pending[..k];
        assert b + [';'] + pending[k + 1..] == buf + pending by {
          assert pending == pending[..k] + [';'] + pending[k + 1..];
        }
        assert b[|buf|..] == pending[..k];
        (true, pending[k + 1..], b)
  }

  /**
   * nextCommand as a function of lineNum, the unread rest of the line and
   * buf: the result and the new rest and buf. A complete command is parsed
   * and buf cleared; a failing parse leaves the command text in buf.
   */
  function NextCommandSpec(line: int, pending: string, buf: string): (r: (Result<Option<Command>>, string, string))
    ensures r.0.Ok? && r.0.value.Some? ==> r.2 == []
    ensures r.0.Err? ==> Syn.RaisedAt(r.0.error, line)
    ensures ';' !in pending ==> r == (Ok(None), [], buf + pending)
    ensures ';' in pending ==> var (_, rest, text) := SplitCommand(pending, buf);
      var parsed := Syn.ParseBody(text, line);
      && r.1 == rest
      && (r.0.Ok? <==> parsed.Ok?)
      && (parsed.Ok? ==> r.0 == Ok(Some(parsed.value)) && r.2 == [])
      && (parsed.Err? ==> r.0 == Err(parsed.error) && r.2 == text)
  {
    var (found, p, b) := SplitCommand(pending, buf);
    if !found then (Ok(None), p, b)
    else match Syn.ParseBody(b, line)
      case Err(e) => (Err(e), p, b)
      case Ok(c) => (Ok(Some(c)), p, [])
  }

  class Parser {
    var lineNum: int
    /** curLine and curLineLen: what is left of the current line. */
    var pending: string
    var buf: string
    var bufI: int

    /** The member initialisers of svfParser; bufI, which it leaves uninitialised, starts at 0. */
    constructor ()
      ensures lineNum == 0 && pending == [] && buf == [] && bufI == 0
    {
      lineNum := 0;
      pending := [];
      buf := [];
      bufI := 0;
    }

    method Reset()
      modifies this`lineNum, this`pending, this`buf
      ensures lineNum == 0 && pending == [] && buf == []
    {
      lineNum := 0;
      pending := [];
      buf := [];
    }

    /** A comment line only counts; any other line becomes the rest to read, replacing what was left. */
    method ProcessLine(line: string)
      modifies this`lineNum, this`pending
      ensures lineNum == old(lineNum) + 1
      ensures pending == if IsCommentLine(line) then old(pending) else line
    {
      lineNum := lineNum + 1;
      if |line| >= 2 && line[0] == '/' && line[1] == '/' {
        return;
      }
      pending := line;
    }

    method ReadCommand() returns (found: bool)
      modifies this`pending, this`buf
      ensures (found, pending, buf) == SplitCommand(old(pending), old(buf))
    {
      if |pending| == 0 {
        return false;
      }
      var semiColon := FindChar(pending, ';');
      if semiColon < 0 {
        buf := buf + pending;
        pending := [];
        return false;
      }
      buf := buf + pending[..semiColon];
      pending := pending[semiColon + 1..];
      return true;
    }

    method BeginRead()
      modifies this`bufI
      ensures bufI == 0
    {
      bufI := 0;
    }

    method SkipSpaces()
      requires 0 <= bufI <= |buf|
      modifies this`bufI
      ensures bufI == Syn.SkipSpaces(buf, old(bufI))
    {
      while bufI < |buf| && Syn.IsSpace(buf[bufI])
        invariant old(bufI) <= bufI <= |buf|
        invariant Syn.SkipSpaces(buf, bufI) == Syn.SkipSpaces(buf, old(bufI))
        decreases |buf| - bufI
      {
        bufI := bufI + 1;
      }
    }

    /** _readWord; a peek leaves the cursor after the white space, before the word. */
    method ReadWord(peek: bool) returns (s: string)
      requires 0 <= bufI <= |buf|
      modifies this`bufI
      ensures s == Syn.ReadWord(buf, old(bufI)).0
      ensures bufI == if peek then Syn.SkipSpaces(buf, old(bufI)) else Syn.ReadWord(buf, old(bufI)).1
    {
      SkipSpaces();
      var i := bufI;
      while i < |buf| && !Syn.IsSpace(buf[i])
        invariant bufI <= i <= |buf|
        invariant Syn.WordEnd(buf, i) == Syn.WordEnd(buf, bufI)
        decreases |buf| - i
      {
        i := i + 1;
      }
      s := buf[bufI..i];
      if !peek {
        bufI := i;
      }
    }

    method ExpectChar(c: char) returns (r: Result<()>)
      requires 0 <= bufI <= |buf|
      modifies this`bufI
      ensures 0 <= bufI <= |buf|
      ensures r.Ok? <==> Syn.ExpectChar(buf, old(bufI), c, lineNum).Ok?
      ensures r.Ok? ==> bufI == Syn.ExpectChar(buf, old(bufI), c, lineNum).value
      ensures r.Err? ==> r.error == Syn.ExpectChar(buf, old(bufI), c, lineNum).error
    {
      SkipSpaces();
      if bufI >= |buf| || buf[bufI] != c {
        return Err(ParseError(lineNum, "expecting: " + [c]));
      }
      bufI := bufI + 1;
      return Ok(());
    }

    method Expect(x: string) returns (r: Result<()>)
      requires 0 <= bufI <= |buf|
      modifies this`bufI
      ensures bufI == Syn.ReadWord(buf, old(bufI)).1
      ensures r.Ok? <==> Syn.Expect(buf, old(bufI), x, lineNum).Ok?
      ensures r.Err? ==> r.error == Syn.Expect(buf, old(bufI), x, lineNum).error
    {
      var s := ReadWord(false);
      if s != x {
        return Err(ParseError(lineNum, "expecting: " + x));
      }
      return Ok(());
    }

    method ExpectEither(x1: string, x2: string) returns (r: Result<()>)
      requires 0 <= bufI <= |buf|
      modifies this`bufI
      ensures bufI == Syn.ReadWord(buf, old(bufI)).1
      ensures r.Ok? <==> Syn.ExpectEither(buf, old(bufI), x1, x2, lineNum).Ok?
      ensures r.Err? ==> r.error == Syn.ExpectEither(buf, old(bufI), x1, x2, lineNum).error
    {
      var s := ReadWord(false);
      if s != x1 && s != x2 {
        return Err(ParseError(lineNum, "expecting: " + x1 + " or " + x2));
      }
      return Ok(());
    }

    method ReadInt() returns (r: Result<int>)
      requires 0 <= bufI <= |buf|
      modifies this`bufI
      ensures bufI == Syn.ReadWord(buf, old(bufI)).1
      ensures r.Ok? <==> Syn.ReadInt(buf, old(bufI), lineNum).Ok?
      ensures r.Ok? ==> r.value == Syn.ReadInt(buf, old(bufI), lineNum).value.0
      ensures r.Err? ==> r.error == Syn.ReadInt(buf, old(bufI), lineNum).error
    {
      var s := ReadWord(false);
      if |s| == 0 {
        return Err(ParseError(lineNum, "expected integer"));
      }
      var tmp := Syn.StrToL(s);
      if tmp.None? {
        return Err(ParseError(lineNum, "expected integer"));
      }
      if tmp.value > IntMax || tmp.value < IntMin {
        return Err(ParseError(lineNum, "integer overflow"));
      }
      return Ok(tmp.value);
    }

    method ReadDouble() returns (r: Result<()>)
      requires 0 <= bufI <= |buf|
      modifies this`bufI
      ensures bufI == Syn.ReadWord(buf, old(bufI)).1
      ensures r.Ok? <==> Syn.ReadDouble(buf, old(bufI), lineNum).Ok?
      ensures r.Err? ==> r.error == Syn.ReadDouble(buf, old(bufI), lineNum).error
    {
      var s := ReadWord(false);
      if |s| == 0 {
        return Err(ParseError(lineNum, "expected number"));
      }
      if !Syn.StrToDAccepts(s) {
        return Err(ParseError(lineNum, "expected number"));
      }
      return Ok(());
    }

    method ReadHexValue() returns (r: Result<seq<Byte>>)
      requires 0 <= bufI <= |buf|
      modifies this`bufI
      ensures 0 <= bufI <= |buf|
      ensures Mirrors(r, Syn.ReadHexValue(buf, old(bufI), lineNum), bufI)
    {
      var open :- ExpectChar('(');
      r := ReadHexBody();
    }

    /** _readHexValue after the '('. */
    method ReadHexBody() returns (r: Result<seq<Byte>>)
      requires 0 <= bufI <= |buf|
      modifies this`bufI
      ensures 0 <= bufI <= |buf|
      ensures Mirrors(r, Syn.HexBody(buf, old(bufI), lineNum), bufI)
    {
      var s := ReadWord(false);
      s := GatherHex(s);
      if |s| == 0 {
        return Err(UndefinedBehaviour("last character of an empty hex value"));
      }
      if s[|s| - 1] != ')' {
        // The words reached the end of the line, so the ')' insisted on here
        // can never be found.
        var close := ExpectChar(')');
        assert close.Err?;
        return Err(close.error);
      }
      var v := ParseHex(s[..|s| - 1]);
      return Ok(v);
    }

    /** The loop of _readHexValue that joins the words of a hex value. */
    method GatherHex(s0: string) returns (s: string)
      requires 0 <= bufI <= |buf|
      modifies this`bufI
      ensures (s, bufI) == Syn.GatherHex(buf, old(bufI), s0)
    {
      s := s0;
      while |s| > 0 && s[|s| - 1] != ')'
        invariant old(bufI) <= bufI <= |buf|
        invariant Syn.GatherHex(buf, bufI, s) == Syn.GatherHex(buf, old(bufI), s0)
        decreases |buf| - bufI
      {
        var tmp := ReadWord(false);
        if |tmp| == 0 {
          break;
        }
        s := s + tmp;
      }
    }

    /** The STATE loop. */
    method ReadStates() returns (r: Result<seq<State>>)
      requires 0 <= bufI <= |buf|
      modifies this`bufI
      ensures 0 <= bufI <= |buf|
      ensures Mirrors(r, Syn.ParseStates(buf, old(bufI), lineNum), bufI)
    {
      var states: seq<State> := [];
      ghost var rest := Syn.ParseStates(buf, bufI, lineNum);
      assert Prefixed([], rest) == rest by {
        if rest.Ok? {
          assert [] + rest.value.0 == rest.value.0;
        }
      }
      while true
        invariant old(bufI) <= bufI <= |buf|
        invariant Syn.ParseStates(buf, old(bufI), lineNum) == Prefixed(states, Syn.ParseStates(buf, bufI, lineNum))
        decreases |buf| - bufI
      {
        var tmp := ReadWord(false);
        if |tmp| == 0 {
          assert states + [] == states;
          return Ok(states);
        }
        var st := LookupState(Syn.CStr(tmp));
        if st == Undefined {
          return Err(ParseError(lineNum, "unknown state: " + tmp));
        }
        PrefixedAppend(states, st, Syn.ParseStates(buf, bufI, lineNum));
        states := states + [st];
      }
    }

    /** The attribute loop of SDR, SIR, HDR, HIR, TDR and TIR. */
    method ReadAttributes(d0: Data) returns (r: Result<Data>)
      requires 0 <= bufI <= |buf|
      modifies this`bufI
      ensures 0 <= bufI <= |buf|
      ensures Mirrors(r, Syn.ParseAttributes(buf, old(bufI), d0, lineNum), bufI)
    {
      var d := d0;
      while true
        invariant old(bufI) <= bufI <= |buf|
        invariant Syn.ParseAttributes(buf, old(bufI), d0, lineNum) == Syn.ParseAttributes(buf, bufI, d, lineNum)
        decreases |buf| - bufI
      {
        var tmp := ReadWord(false);
        if |tmp| == 0 {
          return Ok(d);
        }
        if tmp == "TDI" {
          var v :- ReadHexValue();
          d := d.(tdiData := v);
        } else if tmp == "TDO" {
          var v :- ReadHexValue();
          d := d.(tdoData := v);
        } else if tmp == "MASK" {
          var v :- ReadHexValue();
          d := d.(tdoMask := v);
        } else if tmp == "SMASK" {
          var v :- ReadHexValue();
          d := d.(tdiMask := v);
        } else {
          return Err(ParseError(lineNum, "unknown attribute: " + tmp));
        }
      }
    }

    /** The switch of nextCommand: the operands of the verb just read. */
    method ReadOperands(op: Op, cmd: string) returns (r: Result<Command>)
      requires 0 <= bufI <= |buf|
      modifies this`bufI
      ensures 0 <= bufI <= |buf|
      ensures Mirrors(r, Syn.ParseOperands(op, cmd, buf, old(bufI), lineNum), bufI)
    {
      ghost var spec := Syn.ParseOperands(op, cmd, buf, bufI, lineNum);
      if op == UnknownOp {
        return Err(ParseError(lineNum, "unknown svf command: " + cmd));
      } else if op == EndDr || op == EndIr {
        assert spec == Syn.ParseEndState(op, buf, bufI, lineNum);
        r := ReadEndState(op);
      } else if op == Frequency {
        assert spec == Syn.ParseFrequency(buf, bufI, lineNum);
        r := ReadFrequency();
      } else if op == RunTest {
        assert spec == Syn.ParseRunTest(buf, bufI, lineNum);
        r := ReadRunTest();
      } else {
        r := ReadListOrScan(op, cmd);
      }
    }

    /** The rest of the switch of nextCommand: STATE, TRST and the six scan and template verbs. */
    method ReadListOrScan(op: Op, cmd: string) returns (r: Result<Command>)
      requires 0 <= bufI <= |buf|
      requires op !in {UnknownOp, EndDr, EndIr, Frequency, RunTest}
      modifies this`bufI
      ensures 0 <= bufI <= |buf|
      ensures Mirrors(r, Syn.ParseOperands(op, cmd, buf, old(bufI), lineNum), bufI)
    {
      ghost var spec := Syn.ParseOperands(op, cmd, buf, bufI, lineNum);
      if op == StateCmd {
        assert spec == Syn.ParseStateCommand(buf, bufI, lineNum);
        r := ReadStateCommand();
      } else if op == Trst {
        assert spec == Syn.ParseTrst(buf, bufI, lineNum);
        r := ReadTrst();
      } else {
        assert spec == Syn.ParseShift(op, buf, bufI, lineNum);
        r := ReadShift(op);
      }
    }

    method ReadStateCommand() returns (r: Result<Command>)
      requires 0 <= bufI <= |buf|
      modifies this`bufI
      ensures 0 <= bufI <= |buf|
      ensures Mirrors(r, Syn.ParseStateCommand(buf, old(bufI), lineNum), bufI)
    {
      var states :- ReadStates();
      return Ok(Command(StateCmd, EmptyData, states));
    }

    method ReadTrst() returns (r: Result<Command>)
      requires 0 <= bufI <= |buf|
      modifies this`bufI
      ensures 0 <= bufI <= |buf|
      ensures Mirrors(r, Syn.ParseTrst(buf, old(bufI), lineNum), bufI)
    {
      var trst :- ExpectEither("OFF", "ABSENT");
      return Ok(Command(Trst, EmptyData, []));
    }

    method ReadEndState(op: Op) returns (r: Result<Command>)
      requires 0 <= bufI <= |buf|
      modifies this`bufI
      ensures 0 <= bufI <= |buf|
      ensures Mirrors(r, Syn.ParseEndState(op, buf, old(bufI), lineNum), bufI)
    {
      var st := ReadWord(false);
      var s := LookupState(Syn.CStr(st));
      if s == Undefined {
        return Err(ParseError(lineNum, "unknown state: " + st));
      }
      return Ok(Command(op, EmptyData, [s]));
    }

    method ReadFrequency() returns (r: Result<Command>)
      requires 0 <= bufI <= |buf|
      modifies this`bufI
      ensures 0 <= bufI <= |buf|
      ensures Mirrors(r, Syn.ParseFrequency(buf, old(bufI), lineNum), bufI)
    {
      var frequency :- ReadDouble();
      var hz :- Expect("HZ");
      return Ok(Command(Frequency, EmptyData, []));
    }

    method ReadRunTest() returns (r: Result<Command>)
      requires 0 <= bufI <= |buf|
      modifies this`bufI
      ensures 0 <= bufI <= |buf|
      ensures Mirrors(r, Syn.ParseRunTest(buf, old(bufI), lineNum), bufI)
    {
      var st := ReadWord(true);
      var s := LookupState(Syn.CStr(st));
      if s != Undefined {
        st := ReadWord(false);
      }
      var n :- ReadInt();
      var tck :- Expect("TCK");
      return Ok(Command(RunTest, EmptyData.(dataLen := n), [s]));
    }

    method ReadShift(op: Op) returns (r: Result<Command>)
      requires 0 <= bufI <= |buf|
      modifies this`bufI
      ensures 0 <= bufI <= |buf|
      ensures Mirrors(r, Syn.ParseShift(op, buf, old(bufI), lineNum), bufI)
    {
      var n :- ReadInt();
      var d :- ReadAttributes(EmptyData.(dataLen := n));
      return Ok(Command(op, d, []));
    }

    /**
     * nextCommand: Ok(None) when no command is complete yet, the next
     * command otherwise, or the error it throws.
     */
    method NextCommand() returns (r: Result<Option<Command>>)
      modifies this`pending, this`buf, this`bufI
      ensures (r, pending, buf) == NextCommandSpec(lineNum, old(pending), old(buf))
    {
      var found := ReadCommand();
      if !found {
        return Ok(None);
      }
      BeginRead();
      var cmd := ReadWord(false);
      var op := LookupOp(Syn.CStr(cmd));
      var c :- ReadOperands(op, cmd);
      SkipSpaces();
      if bufI < |buf| {
        return Err(ParseError(lineNum, "garbage after command: " + buf[bufI..]));
      }
      buf := [];
      return Ok(Some(c));
    }
  }

  /** A method's result and final cursor are those of the function it mirrors. */
  predicate Mirrors<T(==)>(r: Result<T>, spec: Result<(T, nat)>, cursor: int) {
    && (r.Ok? <==> spec.Ok?)
    && (r.Ok? ==> (r.value, cursor) == spec.value)
    && (r.Err? ==> r.error == spec.error)
  }

  /** The STATE loop's result once the states before the cursor are put in front. */
  function Prefixed(pre: seq<State>, r: Result<(seq<State>, nat)>): Result<(seq<State>, nat)> {
    if r.Ok? then Ok((pre + r.value.0, r.value.1)) else r
  }

  lemma PrefixedAppend(pre: seq<State>, st: State, r: Result<(seq<State>, nat)>)
    ensures Prefixed(pre, Prefixed([st], r)) == Prefixed(pre + [st], r)
  {
    if r.Ok? {
      assert pre + ([st] + r.value.0) == (pre + [st]) + r.value.0;
    }
  }
}
