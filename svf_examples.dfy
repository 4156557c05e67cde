/**
 * Worked examples: what processCommand appends for a few short SVF
 * programs, record by record.
 */
module SvfExamples {
  import opened SvfTables
  import opened SvfHex
  import opened SvfCommands
  import opened SvfRouting
  import opened SvfMachine

  /**
   * STATE RESET; SDR 8 TDI (A5) TDO (5A) MASK (FF); STATE IDLE; right after
   * reset: six TMS=1 edges to leave the unknown state, the route to DRSHIFT,
   * eight records carrying the bits of A5 on TDI and of 5A on TDO,
   * least significant first, all driven and all compared, with TMS raised on
   * the last one, and the route from DREXIT1 to IDLE (the default end state).
   */
  lemma ScanScenario()
    ensures var cmds := [
        Command(StateCmd, EmptyData, [Reset]),
        Command(Sdr, Data([0xA5], [0x5A], [], [0xFF], 8), []),
        Command(StateCmd, EmptyData, [Idle])];
      var def := Data([0xA5], [0x5A], [0xFF], [0xFF], 8);
      ProcessAll(Fresh, cmds) ==
        Ok(Fresh.(defaultDr := def, device := Idle,
                  out := [1, 1, 1, 1, 1, 1, 0, 1, 0, 0, 26, 28, 26, 28, 28, 26, 28, 27, 1, 0]))
  {
    var c0 := Command(StateCmd, EmptyData, [Reset]);
    var c1 := Command(Sdr, Data([0xA5], [0x5A], [], [0xFF], 8), []);
    var c2 := Command(StateCmd, EmptyData, [Idle]);
    var cmds := [c0, c1, c2];
    var def := Data([0xA5], [0x5A], [0xFF], [0xFF], 8);
    var m1 := Fresh.(device := Reset, out := [1, 1, 1, 1, 1, 1]);
    var m2 := m1.(defaultDr := def, device := Idle,
                  out := m1.out + [0, 1, 0, 0] + [26, 28, 26, 28, 28, 26, 28, 27] + [1, 0]);
    StateResetFromFresh();
    ScanExample(m1);
    StateIdleInIdle(m2);
    ProcessThree(Fresh, c0, c1, c2, m1, m2, m2);
    ScenarioRecords();
  }

  /** Three commands in a row, each from the state the previous one left. */
  lemma ProcessThree(m0: Machine, a: Command, b: Command, c: Command, m1: Machine, m2: Machine, m3: Machine)
    requires Process(m0, a) == Ok(m1) && Process(m1, b) == Ok(m2) && Process(m2, c) == Ok(m3)
    ensures ProcessAll(m0, [a, b, c]) == Ok(m3)
  {
    assert ProcessAll(m2, [c]) == Ok(m3) by {
      assert [c][1..] == [];
    }
    assert ProcessAll(m1, [b, c]) == ProcessAll(m2, [c]) by {
      assert [b, c][1..] == [c];
    }
    assert ProcessAll(m0, [a, b, c]) == ProcessAll(m1, [b, c]) by {
      assert [a, b, c][1..] == [b, c];
    }
  }

  /** STATE RESET right after reset: the six-edge escape. */
  lemma StateResetFromFresh()
    ensures Process(Fresh, Command(StateCmd, EmptyData, [Reset])) == Ok(Fresh.(device := Reset, out := [1, 1, 1, 1, 1, 1]))
  {
    EscapeToReset(Fresh);
    assert Fresh.out + [1, 1, 1, 1, 1, 1] == [1, 1, 1, 1, 1, 1];
    ProcessState(Fresh, Command(StateCmd, EmptyData, [Reset]));
  }

  /** STATE IDLE in IDLE appends nothing. */
  lemma StateIdleInIdle(m: Machine)
    requires m.device == Idle
    ensures Process(m, Command(StateCmd, EmptyData, [Idle])) == Ok(m)
  {
    GoToHalts(m, Idle);
    assert m.out + TmsRecords([]) == m.out;
    ProcessState(m, Command(StateCmd, EmptyData, [Idle]));
  }

  /** The records of the scenario, joined. */
  lemma ScenarioRecords()
    ensures [1, 1, 1, 1, 1, 1] + [0, 1, 0, 0] + [26, 28, 26, 28, 28, 26, 28, 27] + [1, 0] ==
      [1, 1, 1, 1, 1, 1, 0, 1, 0, 0, 26, 28, 26, 28, 28, 26, 28, 27, 1, 0]
  {
  }

  lemma EscapeToReset(m: Machine)
    requires m.device == Unknown
    ensures GoTo(m, Reset) == Ok(m.(device := Reset, out := m.out + [1, 1, 1, 1, 1, 1]))
  {
    GoToHalts(m, Reset);
    RouteFromUnknown(Reset);
    assert Route(Reset, Reset) == [];
    assert Escape + [] == Escape;
    assert TmsRecords(Escape) == [1, 1, 1, 1, 1, 1];
  }

  lemma RouteResetToDrShift()
    ensures Route(Reset, DrShift) == [0, 1, 0, 0]
  {
    assert RouteBit(Reset, DrShift) == 0 && Next(Reset, 0) == Idle;
    assert RouteBit(Idle, DrShift) == 1 && Next(Idle, 1) == DrSelect;
    assert RouteBit(DrSelect, DrShift) == 0 && Next(DrSelect, 0) == DrCapture;
    assert RouteBit(DrCapture, DrShift) == 0 && Next(DrCapture, 0) == DrShift;
    var w4 := Walk(DrShift, DrShift, 4);
    var w5 := Walk(DrCapture, DrShift, 5);
    var w6 := Walk(DrSelect, DrShift, 6);
    var w7 := Walk(Idle, DrShift, 7);
    var w8 := Walk(Reset, DrShift, 8);
    assert w4.0 == [];
    assert w5.0 == [0] + w4.0;
    assert w6.0 == [0] + w5.0;
    assert w7.0 == [1] + w6.0;
    assert w8.0 == [0] + w7.0;
  }

  /** The shift records of TDI A5, TDO 5A, every bit driven and compared. */
  lemma ScanExampleRecords()
    ensures ShiftRecords(Data([0xA5], [0x5A], [0xFF], [0xFF], 8)) == [26, 28, 26, 28, 28, 26, 28, 26]
  {
    var d := Data([0xA5], [0x5A], [0xFF], [0xFF], 8);
    var r := ShiftRecords(d);
    BitsA5();
    Bits5A();
    BitsFF();
    assert r[0] == Record(0, 1, 0, 1, 1) by {
      assert r[0] == Record(0, BitAt(d.tdiData, 0), BitAt(d.tdoData, 0), BitAt(d.tdiMask, 0), BitAt(d.tdoMask, 0));
    }
    assert r[1] == Record(0, 0, 1, 1, 1) by {
      assert r[1] == Record(0, BitAt(d.tdiData, 1), BitAt(d.tdoData, 1), BitAt(d.tdiMask, 1), BitAt(d.tdoMask, 1));
    }
    assert r[2] == Record(0, 1, 0, 1, 1) by {
      assert r[2] == Record(0, BitAt(d.tdiData, 2), BitAt(d.tdoData, 2), BitAt(d.tdiMask, 2), BitAt(d.tdoMask, 2));
    }
    assert r[3] == Record(0, 0, 1, 1, 1) by {
      assert r[3] == Record(0, BitAt(d.tdiData, 3), BitAt(d.tdoData, 3), BitAt(d.tdiMask, 3), BitAt(d.tdoMask, 3));
    }
    assert r[4] == Record(0, 0, 1, 1, 1) by {
      assert r[4] == Record(0, BitAt(d.tdiData, 4), BitAt(d.tdoData, 4), BitAt(d.tdiMask, 4), BitAt(d.tdoMask, 4));
    }
    assert r[5] == Record(0, 1, 0, 1, 1) by {
      assert r[5] == Record(0, BitAt(d.tdiData, 5), BitAt(d.tdoData, 5), BitAt(d.tdiMask, 5), BitAt(d.tdoMask, 5));
    }
    assert r[6] == Record(0, 0, 1, 1, 1) by {
      assert r[6] == Record(0, BitAt(d.tdiData, 6), BitAt(d.tdoData, 6), BitAt(d.tdiMask, 6), BitAt(d.tdoMask, 6));
    }
    assert r[7] == Record(0, 1, 0, 1, 1) by {
      assert r[7] == Record(0, BitAt(d.tdiData, 7), BitAt(d.tdoData, 7), BitAt(d.tdiMask, 7), BitAt(d.tdoMask, 7));
    }
  }

  lemma BitsA5()
    ensures BitAt([0xA5], 0) == 1 && BitAt([0xA5], 1) == 0 && BitAt([0xA5], 2) == 1 && BitAt([0xA5], 3) == 0
    ensures BitAt([0xA5], 4) == 0 && BitAt([0xA5], 5) == 1 && BitAt([0xA5], 6) == 0 && BitAt([0xA5], 7) == 1
  {
  }

  lemma Bits5A()
    ensures BitAt([0x5A], 0) == 0 && BitAt([0x5A], 1) == 1 && BitAt([0x5A], 2) == 0 && BitAt([0x5A], 3) == 1
    ensures BitAt([0x5A], 4) == 1 && BitAt([0x5A], 5) == 0 && BitAt([0x5A], 6) == 1 && BitAt([0x5A], 7) == 0
  {
  }

  lemma BitsFF()
    ensures BitAt([0xFF], 0) == 1 && BitAt([0xFF], 1) == 1 && BitAt([0xFF], 2) == 1 && BitAt([0xFF], 3) == 1
    ensures BitAt([0xFF], 4) == 1 && BitAt([0xFF], 5) == 1 && BitAt([0xFF], 6) == 1 && BitAt([0xFF], 7) == 1
  {
  }

  /** SDR 8 TDI (A5) TDO (5A) MASK (FF) from RESET, with no header or trailer and IDLE as the end state. */
  lemma ScanExample(m: Machine)
    requires m.device == Reset && m.endDr == Idle && m.defaultDr.dataLen != 8
    requires m.headerDr == EmptyData && m.trailerDr == EmptyData
    ensures Process(m, Command(Sdr, Data([0xA5], [0x5A], [], [0xFF], 8), [])) ==
      Ok(m.(defaultDr := Data([0xA5], [0x5A], [0xFF], [0xFF], 8), device := Idle,
            out := m.out + [0, 1, 0, 0] + [26, 28, 26, 28, 28, 26, 28, 27] + [1, 0]))
  {
    var data := Data([0xA5], [0x5A], [], [0xFF], 8);
    var def := Data([0xA5], [0x5A], [0xFF], [0xFF], 8);
    var m1 := m.(defaultDr := def);
    var m2 := m1.(device := DrShift, out := m.out + [0, 1, 0, 0]);
    var m3 := m2.(device := DrExit1, out := m2.out + [26, 28, 26, 28, 28, 26, 28, 27]);
    var m4 := m3.(device := Idle, out := m3.out + [1, 0]);
    assert MergeDefault(m.defaultDr, data) == Ok(def) by {
      assert Fill(1, 255) == [0xFF];
    }
    assert GoTo(m1, DrShift) == Ok(m2) by {
      EnterDrShift(m1);
    }
    assert ShiftThrough(m2, EmptyData, def, EmptyData) == Ok(m3) by {
      ShiftExample(m2);
    }
    assert GoTo(m3, Idle) == Ok(m4) by {
      ExitToIdle(m3);
    }
    assert Scan(m, data, false) == Ok(m4);
    ProcessSdr(m, Command(Sdr, data, []));
  }

  /** processCommand hands STATE with one state to goToState. */
  lemma ProcessState(m: Machine, cmd: Command)
    requires cmd.op == StateCmd && |cmd.states| == 1
    ensures Process(m, cmd) == GoTo(m, cmd.states[0])
  {
    assert cmd.states[1..] == [];
  }

  /** processCommand hands SDR to the scan. */
  lemma ProcessSdr(m: Machine, cmd: Command)
    requires cmd.op == Sdr
    ensures Process(m, cmd) == Scan(m, cmd.data, false)
  {
  }

  /** From RESET, DRSHIFT is four TCKs away: TMS 0, 1, 0, 0. */
  lemma EnterDrShift(m: Machine)
    requires m.device == Reset
    ensures GoTo(m, DrShift) == Ok(m.(device := DrShift, out := m.out + [0, 1, 0, 0]))
  {
    GoToHalts(m, DrShift);
    RouteResetToDrShift();
    assert TmsRecords([0, 1, 0, 0]) == [0, 1, 0, 0];
  }

  /** The eight records of A5 against 5A, TMS raised on the last: the device leaves DRSHIFT for DREXIT1. */
  lemma ShiftExample(m: Machine)
    requires m.device == DrShift
    ensures ShiftThrough(m, EmptyData, Data([0xA5], [0x5A], [0xFF], [0xFF], 8), EmptyData) ==
      Ok(m.(device := DrExit1, out := m.out + [26, 28, 26, 28, 28, 26, 28, 27]))
  {
    var x: seq<Byte> := [26, 28, 26, 28, 28, 26, 28, 26];
    ExampleShifts();
    RaiseExampleLast(m.out);
    assert m.out + [] + x + [] == m.out + x;
  }

  /** The records of the example register, and none for the empty header and trailer. */
  lemma ExampleShifts()
    ensures Shift(Data([0xA5], [0x5A], [0xFF], [0xFF], 8)) == Ok([26, 28, 26, 28, 28, 26, 28, 26])
    ensures Shift(EmptyData) == Ok([])
  {
    ScanExampleRecords();
    assert ShiftRecords(EmptyData) == [];
  }

  /** Raising TMS on the last record of the example, after whatever came before it. */
  lemma RaiseExampleLast(prefix: seq<Byte>)
    ensures SetLastTms(prefix + [26, 28, 26, 28, 28, 26, 28, 26]) == prefix + [26, 28, 26, 28, 28, 26, 28, 27]
  {
    var x: seq<Byte> := [26, 28, 26, 28, 28, 26, 28, 26];
    SetLastTmsAfter(prefix, x);
    assert SetLastTms(x) == [26, 28, 26, 28, 28, 26, 28, 27];
  }

  lemma ExitToIdle(m: Machine)
    requires m.device == DrExit1
    ensures GoTo(m, Idle) == Ok(m.(device := Idle, out := m.out + [1, 0]))
  {
    GoToHalts(m, Idle);
    assert Pass(DrUpdate, Idle) == Idle && PassTms(DrUpdate, Idle) == [0];
    assert Walk(DrUpdate, Idle, 7).0 == [0];
    assert Pass(DrExit1, Idle) == DrUpdate && PassTms(DrExit1, Idle) == [1];
    assert Route(DrExit1, Idle) == [1, 0];
    assert TmsRecords([1, 0]) == [1, 0];
  }

  /** RUNTEST IDLE 5 TCK in IDLE: five records with TMS low and nothing else. */
  lemma RunTestInIdle(m: Machine)
    requires m.device == Idle
    ensures Process(m, Command(RunTest, EmptyData.(dataLen := 5), [Idle])) ==
      Ok(m.(runTestState := Idle, out := m.out + [0, 0, 0, 0, 0]))
  {
    var m1 := m.(runTestState := Idle);
    assert GoTo(m1, Idle) == Ok(m1) by {
      GoToHalts(m1, Idle);
      assert m1.out + TmsRecords([]) == m1.out;
    }
    assert TmsRecords(HoldRun(Idle, 5)) == [0, 0, 0, 0, 0];
  }
}
