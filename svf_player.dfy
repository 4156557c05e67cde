/**
 * svfPlayer as the object it is: its fields are updated in place by
 * processCommand and the helpers it calls, and outBuffer grows one record per
 * TCK. Each method is proved to leave the player in the state the matching
 * function of SvfMachine computes.
 */
module SvfPlayer {
  import opened SvfTables
  import opened SvfHex
  import opened SvfCommands
  import opened SvfRouting
  import opened SvfMachine

  class Player {
    var endDr: State
    var endIr: State
    var runTestState: State
    var deviceState: State
    var headerIr: Data
    var headerDr: Data
    var trailerIr: Data
    var trailerDr: Data
    var defaultIr: Data
    var defaultDr: Data
    var outBuffer: seq<Byte>

    /** The player's fields as a value. */
    function Snapshot(): Machine
      reads this
    {
      Machine(endDr, endIr, runTestState, deviceState,
              headerIr, headerDr, trailerIr, trailerDr, defaultIr, defaultDr, outBuffer)
    }

    /**
     * A call that returned r did what the function gave as spec: it succeeded
     * exactly when spec did, with the same error, and on success the player
     * holds the state spec computed.
     */
    predicate Reflects(r: Result<()>, spec: Result<Machine>)
      reads this
    {
      && (r.Ok? <==> spec.Ok?)
      && (r.Ok? ==> Snapshot() == spec.value)
      && (r.Err? ==> r.error == spec.error)
    }

    /** Default construction (empty templates and buffer) followed by reset(). */
    constructor ()
      ensures Snapshot() == Fresh
    {
      headerIr, headerDr, trailerIr, trailerDr := EmptyData, EmptyData, EmptyData, EmptyData;
      defaultIr, defaultDr := EmptyData, EmptyData;
      outBuffer := [];
      endDr, endIr, runTestState := Idle, Idle, Idle;
      deviceState := Unknown;
    }

    /** reset. */
    method Reset()
      modifies this
      ensures Snapshot() == ResetMachine(old(Snapshot()))
    {
      endDr, endIr, runTestState := Idle, Idle, Idle;
      deviceState := Unknown;
    }

    /** doTransition: one record with the given TMS and every other field zero. */
    method DoTransition(tms: Bit)
      modifies this`outBuffer
      ensures outBuffer == old(outBuffer) + TmsRecords([tms])
    {
      outBuffer := outBuffer + [tms as Byte];
    }

    /** calculateTransition: the device state after one TCK, read from the transition table. */
    method CalculateTransition(tms: Bit)
      modifies this`deviceState
      ensures deviceState == Next(old(deviceState), tms)
    {
      TransitionTableIsTapDiagram(deviceState, tms);
      deviceState := TransitionTable[Ordinal(deviceState) * 2 + tms];
    }

    /**
     * The scan of goToState's inner loop over a row of the path table: TMS 0
     * when the row holds UNDEFINED (every target) or the target t, TMS 1
     * otherwise.
     */
    static method PathBit(table: seq<State>, t: State) returns (b: Bit)
      ensures b == 0 <==> Undefined in table || t in table
    {
      var i := 0;
      while i < |table|
        invariant 0 <= i <= |table|
        invariant forall k :: 0 <= k < i ==> table[k] != Undefined && table[k] != t
      {
        if table[i] == Undefined || table[i] == t {
          return 0;
        }
        i := i + 1;
      }
      return 1;
    }

    /**
     * goToState. When the target cannot be reached from the device state the
     * C++ loop never ends; the method reports that instead of looping.
     */
    method GoToState(st: State) returns (r: Result<()>)
      modifies this
      ensures Reflects(r, GoTo(old(Snapshot()), st))
      ensures r.Err? ==> Snapshot() == old(Snapshot())
    {
      if !Routable(deviceState, st) {
        NeverArrives(deviceState, st, RouteFuel);
        return Err(NonTerminating);
      }
      RouteArrives(deviceState, st);
      ghost var m0 := Snapshot();
      ghost var target := outBuffer + TmsRecords(Route(deviceState, st));
      while deviceState != st
        invariant Routable(deviceState, st)
        invariant outBuffer + TmsRecords(Route(deviceState, st)) == target
        invariant Snapshot() == m0.(device := deviceState, out := outBuffer)
        decreases Remaining(deviceState, st)
      {
        ghost var before := outBuffer;
        ghost var step := GoToPass(st);
        EmitStep(before, step, Route(deviceState, st));
      }
      RouteToSelf(st);
      assert outBuffer + TmsRecords([]) == outBuffer;
      return Ok(());
    }

    /**
     * One pass of goToState's loop, from a device state other than the
     * target: six TMS=1 edges and RESET from UNKNOWN, otherwise the edge the
     * path table chooses. The TMS values it clocks are step, which is the
     * front of the route.
     */
    method GoToPass(st: State) returns (ghost step: seq<Bit>)
      requires deviceState != st && Routable(deviceState, st)
      modifies this`outBuffer, this`deviceState
      ensures old(deviceState) == Unknown ==> step == Escape && deviceState == State.Reset
      ensures old(deviceState) != Unknown ==>
        var b := RouteBit(old(deviceState), st); step == [b] && deviceState == Next(old(deviceState), b)
      ensures outBuffer == old(outBuffer) + TmsRecords(step)
      ensures Route(old(deviceState), st) == step + Route(deviceState, st)
      ensures Routable(deviceState, st) && Remaining(deviceState, st) < Remaining(old(deviceState), st)
    {
      RoutePeel(deviceState, st);
      if deviceState == Unknown {
        EscapeUnknown();
        step := Escape;
      } else {
        var b := TakeEdge(st);
        step := [b];
      }
    }

    /** One pass of goToState's outer loop from a real state: the TMS bit the path table gives, clocked once. */
    method TakeEdge(st: State) returns (b: Bit)
      modifies this`outBuffer, this`deviceState
      ensures b == RouteBit(old(deviceState), st) && deviceState == Next(old(deviceState), b)
      ensures outBuffer == old(outBuffer) + TmsRecords([b])
    {
      b := PathBit(PathRow(deviceState), st);
      DoTransition(b);
      CalculateTransition(b);
    }

    /** goToState from UNKNOWN: six TCKs with TMS high, after which the device is in RESET. */
    method EscapeUnknown()
      requires deviceState == Unknown
      modifies this`outBuffer, this`deviceState
      ensures outBuffer == old(outBuffer) + TmsRecords(Escape) && deviceState == State.Reset
    {
      DoTransition(1); DoTransition(1); DoTransition(1);
      DoTransition(1); DoTransition(1); DoTransition(1);
      deviceState := State.Reset;
      EscapeRecords(old(outBuffer));
    }

    /** doShift with exit false: one record per bit, as ShiftRecords lists them. */
    method DoShift(d: Data) returns (r: Result<()>)
      modifies this`outBuffer
      ensures r.Ok? <==> Shift(d).Ok?
      ensures r.Ok? ==> outBuffer == old(outBuffer) + Shift(d).value
      ensures r.Err? ==> r.error == Shift(d).error && outBuffer == old(outBuffer)
    {
      if !Covers(d) {
        return Err(UndefinedBehaviour("doShift reads past the end of a data string"));
      }
      var i := 0;
      while i < d.dataLen
        invariant 0 <= i <= Times(d.dataLen)
        invariant outBuffer == old(outBuffer) + ShiftRecords(d)[..i]
      {
        // Each field bit is `byte[i / 8] & (1 << (i % 8))`; TMS stays low.
        var tdi := BitAt(d.tdiData, i);
        var tdo := BitAt(d.tdoData, i);
        var tdiEnable := BitAt(d.tdiMask, i);
        var tdoEnable := BitAt(d.tdoMask, i);
        ShiftRecordsPrefix(d, i);
        outBuffer := outBuffer + [Record(0, tdi, tdo, tdiEnable, tdoEnable)];
        i := i + 1;
      }
      assert ShiftRecords(d)[..i] == ShiftRecords(d);
      return Ok(());
    }

    /** doRunTest: go to st, then clock count TCKs in it. */
    method DoRunTest(st: State, count: int) returns (r: Result<()>)
      modifies this
      ensures Reflects(r, RunTestFrom(old(Snapshot()), st, count))
    {
      r := GoToState(st);
      if r.Ok? {
        HoldTms(st, count);
      }
    }

    /** The loop of doRunTest: count records with TMS 1 in RESET and 0 elsewhere. */
    method HoldTms(st: State, count: int)
      modifies this`outBuffer
      ensures outBuffer == old(outBuffer) + TmsRecords(HoldRun(st, Times(count)))
    {
      var tms := if st == State.Reset then 1 else 0;
      var i := 0;
      while i < count
        invariant 0 <= i <= Times(count)
        invariant outBuffer == old(outBuffer) + TmsRecords(HoldRun(st, i))
      {
        DoTransition(tms);
        HoldRunStep(old(outBuffer), st, i);
        i := i + 1;
      }
    }

    /**
     * The merge of processCommand's HDR, HIR, TDR and TIR case: a template of
     * another length is replaced by the padded command; otherwise each string
     * the command gives replaces the template's.
     */
    static method MergeIntoTemplate(dst: Data, data: Data) returns (r: Result<Data>)
      ensures r == MergeTemplate(dst, data)
    {
      if data.dataLen != dst.dataLen {
        return Pad(data);
      }
      var merged := dst;
      if |data.tdiData| != 0 {
        merged := merged.(tdiData := data.tdiData);
      }
      if |data.tdoData| != 0 {
        merged := merged.(tdoData := data.tdoData);
      }
      if |data.tdiMask| != 0 {
        merged := merged.(tdiMask := data.tdiMask);
      }
      if |data.tdoMask| != 0 {
        merged := merged.(tdoMask := data.tdoMask);
      }
      return Ok(merged);
    }

    /** HDR, HIR, TDR and TIR: merge the command into its template. */
    method ProcessTemplate(op: Op, data: Data) returns (r: Result<()>)
      requires op in {Hdr, Hir, Tdr, Tir}
      modifies this
      ensures Reflects(r, SetTemplate(old(Snapshot()), op, data))
    {
      var dst := if op == Hdr then headerDr else if op == Hir then headerIr else if op == Tdr then trailerDr else trailerIr;
      var merged := MergeIntoTemplate(dst, data);
      if merged.Err? {
        return Err(merged.error);
      }
      if op == Hdr {
        headerDr := merged.value;
      } else if op == Hir {
        headerIr := merged.value;
      } else if op == Tdr {
        trailerDr := merged.value;
      } else {
        trailerIr := merged.value;
      }
      return Ok(());
    }

    /** RUNTEST: the named state becomes the run-test state, or the run-test state stands in for a missing one. */
    method ProcessRunTest(cmd: Command) returns (r: Result<()>)
      modifies this
      ensures Reflects(r, SvfMachine.ProcessRunTest(old(Snapshot()), cmd))
    {
      if |cmd.states| == 0 {
        return Err(UndefinedBehaviour("states[0] of an empty list"));
      }
      var st := cmd.states[0];
      if st == Undefined {
        st := runTestState;
      } else {
        runTestState := st;
      }
      r := DoRunTest(st, cmd.data.dataLen);
    }

    /**
     * The merge of processCommand's SDR and SIR case: a default of another
     * length is replaced by the command; otherwise TDI and the masks are
     * replaced when the command gives them and TDO always is. Either way the
     * result is padded.
     */
    static method MergeIntoDefault(prev: Data, data: Data) returns (r: Result<Data>)
      ensures r == MergeDefault(prev, data)
    {
      if prev.dataLen != data.dataLen {
        return Pad(data);
      }
      var kept := prev;
      if |data.tdiData| != 0 {
        kept := kept.(tdiData := data.tdiData);
      }
      kept := kept.(tdoData := data.tdoData);
      if |data.tdiMask| != 0 {
        kept := kept.(tdiMask := data.tdiMask);
      }
      if |data.tdoMask| != 0 {
        kept := kept.(tdoMask := data.tdoMask);
      }
      return Pad(kept);
    }

    /**
     * SDR and SIR: merge the command into the default, go to the shift state,
     * shift header, default and trailer, and go to the end state.
     */
    method ProcessScan(data: Data, ir: bool) returns (r: Result<()>)
      modifies this
      ensures Reflects(r, Scan(old(Snapshot()), data, ir))
    {
      if data.dataLen <= 0 {
        return Err(PlayError("length must be greater than zero"));
      }
      ghost var m := Snapshot();
      var header := if ir then headerIr else headerDr;
      var trailer := if ir then trailerIr else trailerDr;
      var endState := if ir then endIr else endDr;
      var merged := MergeIntoDefault(if ir then defaultIr else defaultDr, data);
      if merged.Err? {
        return Err(merged.error);
      }
      if ir {
        defaultIr := merged.value;
      } else {
        defaultDr := merged.value;
      }
      ghost var m1 := Snapshot();
      assert m1 == if ir then m.(defaultIr := merged.value) else m.(defaultDr := merged.value);
      r := GoToState(if ir then IrShift else DrShift);
      ghost var g2 := GoTo(m1, if ir then IrShift else DrShift);
      if r.Err? {
        assert Scan(m, data, ir) == Err(g2.error);
        return;
      }
      ghost var m2 := Snapshot();
      r := ShiftThroughRegister(header, merged.value, trailer);
      ghost var g3 := ShiftThrough(m2, header, merged.value, trailer);
      if r.Err? {
        assert Scan(m, data, ir) == Err(g3.error);
        return;
      }
      ghost var m3 := Snapshot();
      assert Scan(m, data, ir) == GoTo(m3, endState);
      r := GoToState(endState);
    }

    /**
     * The middle of SDR and SIR: doShift of header, body and trailer, TMS
     * raised on the last record (`outBuffer[length - 1] |= 1`), and
     * calculateTransition(1), which takes the device to the exit state.
     */
    method ShiftThroughRegister(header: Data, body: Data, trailer: Data) returns (r: Result<()>)
      requires body.dataLen > 0
      modifies this`outBuffer, this`deviceState
      ensures Reflects(r, ShiftThrough(old(Snapshot()), header, body, trailer))
    {
      ghost var m0 := Snapshot();
      r := ShiftRegisters(header, body, trailer);
      if r.Err? {
        ShiftThroughOutcome(m0, header, body, trailer);
        return;
      }
      ghost var joined := outBuffer;
      outBuffer := SetLastTms(outBuffer);
      CalculateTransition(1);
      ShiftThroughOutcome(m0, header, body, trailer);
      assert Snapshot() == m0.(out := SetLastTms(joined), device := Next(m0.device, 1));
    }

    /** The three doShift calls of SDR and SIR, stopping at the first that would read past the end of a string. */
    method ShiftRegisters(header: Data, body: Data, trailer: Data) returns (r: Result<()>)
      modifies this`outBuffer
      ensures r.Ok? <==> Covers(header) && Covers(body) && Covers(trailer)
      ensures r.Ok? ==> outBuffer == old(outBuffer) + ShiftRecords(header) + ShiftRecords(body) + ShiftRecords(trailer)
      ensures r.Err? ==> r == Err(UndefinedBehaviour("doShift reads past the end of a data string"))
    {
      r := DoShift(header);
      if r.Err? {
        return;
      }
      r := DoShift(body);
      if r.Err? {
        return;
      }
      r := DoShift(trailer);
    }

    /** STATE: goToState for each listed state in turn. */
    method ProcessStates(states: seq<State>) returns (r: Result<()>)
      modifies this
      ensures Reflects(r, GoToAll(old(Snapshot()), states))
    {
      ghost var m0 := Snapshot();
      var i := 0;
      while i < |states|
        invariant 0 <= i <= |states|
        invariant GoToAll(Snapshot(), states[i..]) == GoToAll(m0, states)
      {
        ghost var m := Snapshot();
        assert states[i..][1..] == states[i + 1..];
        r := GoToState(states[i]);
        if r.Err? {
          return;
        }
        i := i + 1;
      }
      assert states[i..] == [];
      return Ok(());
    }

    /** processCommand. */
    method ProcessCommand(cmd: Command) returns (r: Result<()>)
      modifies this
      ensures Reflects(r, Process(old(Snapshot()), cmd))
    {
      match cmd.op
      case EndDr =>
        if |cmd.states| == 0 {
          return Err(UndefinedBehaviour("states[0] of an empty list"));
        }
        endDr := cmd.states[0];
        return Ok(());
      case EndIr =>
        if |cmd.states| == 0 {
          return Err(UndefinedBehaviour("states[0] of an empty list"));
        }
        endIr := cmd.states[0];
        return Ok(());
      case Hdr | Hir | Tdr | Tir =>
        r := ProcessTemplate(cmd.op, cmd.data);
      case RunTest =>
        r := ProcessRunTest(cmd);
      case Sdr =>
        r := ProcessScan(cmd.data, false);
      case Sir =>
        r := ProcessScan(cmd.data, true);
      case StateCmd =>
        r := ProcessStates(cmd.states);
      case Frequency | Trst | UnknownOp =>
        // FREQUENCY and any other command only print a warning.
        return Ok(());
    }
  }

  /** The two outcomes of the middle of SDR and SIR, written out. */
  lemma ShiftThroughOutcome(m: Machine, header: Data, body: Data, trailer: Data)
    requires body.dataLen > 0
    ensures var r := ShiftThrough(m, header, body, trailer);
      if Covers(header) && Covers(body) && Covers(trailer)
      then r == Ok(m.(out := SetLastTms(m.out + ShiftRecords(header) + ShiftRecords(body) + ShiftRecords(trailer)),
                      device := Next(m.device, 1)))
      else r == Err(UndefinedBehaviour("doShift reads past the end of a data string"))
  {
  }

  /** Appending the records of one pass and then those of the rest of the walk is appending those of the whole walk. */
  lemma EmitStep(out: seq<Byte>, step: seq<Bit>, rest: seq<Bit>)
    ensures (out + TmsRecords(step)) + TmsRecords(rest) == out + TmsRecords(step + rest)
  {
    assert TmsRecords(step + rest) == TmsRecords(step) + TmsRecords(rest);
  }

  /** The first i + 1 shift records are the first i and record i. */
  lemma ShiftRecordsPrefix(d: Data, i: nat)
    requires i < Times(d.dataLen)
    ensures ShiftRecords(d)[..i + 1] ==
      ShiftRecords(d)[..i] + [Record(0, BitAt(d.tdiData, i), BitAt(d.tdoData, i), BitAt(d.tdiMask, i), BitAt(d.tdoMask, i))]
  {
    assert ShiftRecords(d)[..i + 1] == ShiftRecords(d)[..i] + [ShiftRecords(d)[i]];
  }

  /** Six doTransition(1) calls append the records of Escape. */
  lemma EscapeRecords(out: seq<Byte>)
    ensures out + TmsRecords([1]) + TmsRecords([1]) + TmsRecords([1]) + TmsRecords([1]) + TmsRecords([1]) + TmsRecords([1]) ==
      out + TmsRecords(Escape)
  {
    var one := TmsRecords([1]);
    assert one == [1];
    assert TmsRecords(Escape) == [1, 1, 1, 1, 1, 1];
  }


  /** One more TCK of a run test appends one more hold record. */
  lemma HoldRunStep(out: seq<Byte>, st: State, i: nat)
    ensures out + TmsRecords(HoldRun(st, i)) + TmsRecords([HoldBit(st)]) == out + TmsRecords(HoldRun(st, i + 1))
  {
    assert HoldRun(st, i + 1) == HoldRun(st, i) + [HoldBit(st)];
    EmitStep(out, HoldRun(st, i), [HoldBit(st)]);
  }
}
