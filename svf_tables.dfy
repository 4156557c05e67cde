/**
 * Static tables of the SVF player: TAP state and SVF verb names with their
 * lookups, the TAP transition table and the routing ("path") table.
 */
module SvfTables {

  /** The TAP controller states, in the order of the source's enum. */
  datatype State =
    | Undefined | Unknown | Reset | Idle
    | DrSelect | DrCapture | DrShift | DrExit1 | DrPause | DrExit2 | DrUpdate
    | IrSelect | IrCapture | IrShift | IrExit1 | IrPause | IrExit2 | IrUpdate

  /** A value driven on TMS. */
  type Bit = b: int | 0 <= b <= 1

  /** The states a TAP controller can actually be in (RESET..IRUPDATE). */
  predicate IsReal(s: State) {
    s != Undefined && s != Unknown
  }

  /** Every state, indexed by its ordinal. */
  const States: seq<State> :=
    [Undefined, Unknown, Reset, Idle,
     DrSelect, DrCapture, DrShift, DrExit1, DrPause, DrExit2, DrUpdate,
     IrSelect, IrCapture, IrShift, IrExit1, IrPause, IrExit2, IrUpdate]

  const StateNames: seq<string> :=
    ["UNDEFINED", "UNKNOWN", "RESET", "IDLE",
     "DRSELECT", "DRCAPTURE", "DRSHIFT", "DREXIT1", "DRPAUSE", "DREXIT2", "DRUPDATE",
     "IRSELECT", "IRCAPTURE", "IRSHIFT", "IREXIT1", "IRPAUSE", "IREXIT2", "IRUPDATE"]

  /** The enum value of a state, which indexes every per-state table. */
  function Ordinal(s: State): (i: nat)
    ensures i < |States| && States[i] == s
  {
    match s
    case Undefined => 0
    case Unknown => 1
    case Reset => 2
    case Idle => 3
    case DrSelect => 4
    case DrCapture => 5
    case DrShift => 6
    case DrExit1 => 7
    case DrPause => 8
    case DrExit2 => 9
    case DrUpdate => 10
    case IrSelect => 11
    case IrCapture => 12
    case IrShift => 13
    case IrExit1 => 14
    case IrPause => 15
    case IrExit2 => 16
    case IrUpdate => 17
  }

  function StateName(s: State): string {
    StateNames[Ordinal(s)]
  }

  /** The state and name tables line up, and only entry 0 is UNDEFINED. */
  lemma StateTablesAgree()
    ensures |StateNames| == |States|
    ensures forall k :: 0 <= k < |States| ==> Ordinal(States[k]) == k
    ensures forall k :: 1 <= k < |States| ==> States[k] != Undefined && StateNames[k] != "UNDEFINED"
  {
    forall k | 1 <= k < |StateNames| ensures StateNames[k] != "UNDEFINED" {
      assert StateNames[k][0] != 'U' || StateNames[k][2] != 'D';
    }
  }

  /**
   * The index of the first entry of names, at or after i, that equals s
   * exactly (case-sensitive); |names| when there is none.
   */
  function FindName(names: seq<string>, s: string, i: nat): (k: nat)
    requires i <= |names|
    ensures i <= k <= |names|
    ensures k < |names| ==> names[k] == s
    ensures forall j :: i <= j < k ==> names[j] != s
    decreases |names| - i
  {
    if i == |names| then i
    else if names[i] == s then i
    else FindName(names, s, i + 1)
  }

  /**
   * The state whose name is s; Undefined when no state has that name. The
   * name "UNDEFINED" itself also yields Undefined, so Undefined never reads
   * as a successful lookup.
   */
  function LookupState(s: string): (r: State)
    ensures r != Undefined ==> StateName(r) == s
    ensures r == Undefined <==> forall t: State :: t != Undefined ==> StateName(t) != s
  {
    StateTablesAgree();
    var k := FindName(StateNames, s, 0);
    if k < |StateNames| then States[k] else Undefined
  }

  /** The SVF verbs, in the order of the source's enum. */
  datatype Op =
    | UnknownOp | EndDr | EndIr | Frequency | Hdr | Hir | RunTest
    | Sdr | Sir | StateCmd | Tdr | Tir | Trst

  const Ops: seq<Op> :=
    [UnknownOp, EndDr, EndIr, Frequency, Hdr, Hir, RunTest, Sdr, Sir, StateCmd, Tdr, Tir, Trst]

  const OpNames: seq<string> :=
    ["UNDEFINED", "ENDDR", "ENDIR", "FREQUENCY",
     "HDR", "HIR", "RUNTEST", "SDR", "SIR", "STATE", "TDR", "TIR", "TRST"]

  function OpOrdinal(op: Op): (i: nat)
    ensures i < |Ops| && Ops[i] == op
  {
    match op
    case UnknownOp => 0
    case EndDr => 1
    case EndIr => 2
    case Frequency => 3
    case Hdr => 4
    case Hir => 5
    case RunTest => 6
    case Sdr => 7
    case Sir => 8
    case StateCmd => 9
    case Tdr => 10
    case Tir => 11
    case Trst => 12
  }

  function OpName(op: Op): string {
    OpNames[OpOrdinal(op)]
  }

  /** The verb and name tables line up, and only entry 0 is UNDEFINED. */
  lemma OpTablesAgree()
    ensures |OpNames| == |Ops|
    ensures forall k :: 0 <= k < |Ops| ==> OpOrdinal(Ops[k]) == k
    ensures forall k :: 1 <= k < |Ops| ==> Ops[k] != UnknownOp && OpNames[k] != "UNDEFINED"
  {
    forall k | 1 <= k < |OpNames| ensures OpNames[k] != "UNDEFINED" {
      assert OpNames[k][0] != 'U' || OpNames[k][2] != 'D';
    }
  }

  /** The verb named s (exact, case-sensitive); UnknownOp when there is none. */
  function LookupOp(s: string): (r: Op)
    ensures r != UnknownOp ==> OpName(r) == s
    ensures r == UnknownOp <==> forall op: Op :: op != UnknownOp ==> OpName(op) != s
  {
    OpTablesAgree();
    var k := FindName(OpNames, s, 0);
    if k < |OpNames| then Ops[k] else UnknownOp
  }

  /**
   * The transition table, two entries per state: the next state on TMS=0,
   * then on TMS=1. UNDEFINED and UNKNOWN map to themselves.
   */
  const TransitionTable: seq<State> :=
    [Undefined, Undefined,
     Unknown, Unknown,
     Idle, Reset,
     Idle, DrSelect,
     DrCapture, IrSelect,
     DrShift, DrExit1,
     DrShift, DrExit1,
     DrPause, DrUpdate,
     DrPause, DrExit2,
     DrShift, DrUpdate,
     Idle, DrSelect,
     IrCapture, Reset,
     IrShift, IrExit1,
     IrShift, IrExit1,
     IrPause, IrUpdate,
     IrPause, IrExit2,
     IrShift, IrUpdate,
     Idle, DrSelect]

  /**
   * The state after one TCK with the given TMS: on a real state, the
   * standard's state diagram; the sentinels UNDEFINED and UNKNOWN never
   * change.
   */
  function Next(s: State, tms: Bit): (r: State)
    ensures IsReal(s) ==> IsReal(r)
    ensures !IsReal(s) ==> r == s
  {
    if IsReal(s) then TapDiagram(s, tms) else s
  }

  /** The transition table, looked up as state*2+tms, is exactly Next. */
  lemma TransitionTableIsTapDiagram(s: State, tms: Bit)
    ensures TransitionTable[Ordinal(s) * 2 + tms] == Next(s, tms)
  {
    if tms == 0 {
      TableOnLow(s);
    } else {
      TableOnHigh(s);
    }
  }

  /** The TMS=0 column of the transition table. */
  lemma TableOnLow(s: State)
    ensures TransitionTable[Ordinal(s) * 2] == Next(s, 0)
  {
    LowColumnHead(s);
    LowColumnTail(s);
  }

  /** The TMS=1 column of the transition table. */
  lemma TableOnHigh(s: State)
    ensures TransitionTable[Ordinal(s) * 2 + 1] == Next(s, 1)
  {
    HighColumnHead(s);
    HighColumnTail(s);
  }

  /** The TMS=0 entries of the states up to DRPAUSE. */
  lemma LowColumnHead(s: State)
    ensures Ordinal(s) <= 8 ==> TransitionTable[Ordinal(s) * 2] == Next(s, 0)
  {
    match s
    case Undefined =>
    case Unknown =>
    case Reset =>
    case Idle =>
    case DrSelect =>
    case DrCapture =>
    case DrShift =>
    case DrExit1 =>
    case DrPause =>
    case DrExit2 =>
    case DrUpdate =>
    case IrSelect =>
    case IrCapture =>
    case IrShift =>
    case IrExit1 =>
    case IrPause =>
    case IrExit2 =>
    case IrUpdate =>
  }

  /** The TMS=0 entries of the states from DREXIT2 on. */
  lemma LowColumnTail(s: State)
    ensures Ordinal(s) > 8 ==> TransitionTable[Ordinal(s) * 2] == Next(s, 0)
  {
    match s
    case Undefined =>
    case Unknown =>
    case Reset =>
    case Idle =>
    case DrSelect =>
    case DrCapture =>
    case DrShift =>
    case DrExit1 =>
    case DrPause =>
    case DrExit2 =>
    case DrUpdate =>
    case IrSelect =>
    case IrCapture =>
    case IrShift =>
    case IrExit1 =>
    case IrPause =>
    case IrExit2 =>
    case IrUpdate =>
  }

  /** The TMS=1 entries of the states up to DRPAUSE. */
  lemma HighColumnHead(s: State)
    ensures Ordinal(s) <= 8 ==> TransitionTable[Ordinal(s) * 2 + 1] == Next(s, 1)
  {
    match s
    case Undefined =>
    case Unknown =>
    case Reset =>
    case Idle =>
    case DrSelect =>
    case DrCapture =>
    case DrShift =>
    case DrExit1 =>
    case DrPause =>
    case DrExit2 =>
    case DrUpdate =>
    case IrSelect =>
    case IrCapture =>
    case IrShift =>
    case IrExit1 =>
    case IrPause =>
    case IrExit2 =>
    case IrUpdate =>
  }

  /** The TMS=1 entries of the states from DREXIT2 on. */
  lemma HighColumnTail(s: State)
    ensures Ordinal(s) > 8 ==> TransitionTable[Ordinal(s) * 2 + 1] == Next(s, 1)
  {
    match s
    case Undefined =>
    case Unknown =>
    case Reset =>
    case Idle =>
    case DrSelect =>
    case DrCapture =>
    case DrShift =>
    case DrExit1 =>
    case DrPause =>
    case DrExit2 =>
    case DrUpdate =>
    case IrSelect =>
    case IrCapture =>
    case IrShift =>
    case IrExit1 =>
    case IrPause =>
    case IrExit2 =>
    case IrUpdate =>
  }

  /**
   * The TAP controller state diagram as drawn in clause 6 of IEEE Std
   * 1149.1, written case by case; it is the reference the table is checked
   * against.
   */
  function TapDiagram(s: State, tms: Bit): (r: State)
    requires IsReal(s)
    ensures IsReal(r)
  {
    match s
    case Reset => if tms == 1 then Reset else Idle
    case Idle => if tms == 1 then DrSelect else Idle
    case DrSelect => if tms == 1 then IrSelect else DrCapture
    case DrCapture => if tms == 1 then DrExit1 else DrShift
    case DrShift => if tms == 1 then DrExit1 else DrShift
    case DrExit1 => if tms == 1 then DrUpdate else DrPause
    case DrPause => if tms == 1 then DrExit2 else DrPause
    case DrExit2 => if tms == 1 then DrUpdate else DrShift
    case DrUpdate => if tms == 1 then DrSelect else Idle
    case IrSelect => if tms == 1 then Reset else IrCapture
    case IrCapture => if tms == 1 then IrExit1 else IrShift
    case IrShift => if tms == 1 then IrExit1 else IrShift
    case IrExit1 => if tms == 1 then IrUpdate else IrPause
    case IrPause => if tms == 1 then IrExit2 else IrPause
    case IrExit2 => if tms == 1 then IrUpdate else IrShift
    case IrUpdate => if tms == 1 then DrSelect else Idle
  }

  /** The state reached from s by clocking the given TMS values in order. */
  function Replay(s: State, tms: seq<Bit>): State
    decreases |tms|
  {
    if tms == [] then s else Replay(Next(s, tms[0]), tms[1..])
  }

  /** Clocking one more TMS value first moves the start one edge on. */
  lemma ReplayStep(s: State, b: Bit, rest: seq<Bit>)
    ensures Replay(s, [b] + rest) == Replay(Next(s, b), rest)
  {
    assert ([b] + rest)[1..] == rest;
  }

  lemma {:induction false} ReplayConcat(s: State, a: seq<Bit>, b: seq<Bit>)
    ensures Replay(s, a + b) == Replay(Replay(s, a), b)
    decreases |a|
  {
    if a == [] {
      assert a + b == b;
    } else {
      assert (a + b)[1..] == a[1..] + b;
      ReplayConcat(Next(s, a[0]), a[1..], b);
    }
  }

  /**
   * Five TCKs with TMS=1 bring every TAP controller to Test-Logic-Reset,
   * whatever state it was in (clause 6 of IEEE Std 1149.1); this is why six
   * TMS=1 edges are a safe escape from an unknown state.
   */
  lemma FiveOnesReset(s: State)
    requires IsReal(s)
    ensures Replay(s, [1, 1, 1, 1, 1]) == Reset
    ensures Replay(s, [1, 1, 1, 1, 1, 1]) == Reset
  {
    var s1 := Next(s, 1);
    var s2 := Next(s1, 1);
    var s3 := Next(s2, 1);
    var s4 := Next(s3, 1);
    var s5 := Next(s4, 1);
    FiveEdgesReset(s);
    assert Replay(s, [1, 1, 1, 1, 1]) == Replay(s1, [1, 1, 1, 1]);
    assert Replay(s1, [1, 1, 1, 1]) == Replay(s2, [1, 1, 1]);
    assert Replay(s2, [1, 1, 1]) == Replay(s3, [1, 1]);
    assert Replay(s3, [1, 1]) == Replay(s4, [1]);
    assert Replay(s4, [1]) == Replay(s5, []);
    ReplayConcat(s, [1, 1, 1, 1, 1], [1]);
    assert [1, 1, 1, 1, 1] + [1] == [1, 1, 1, 1, 1, 1];
  }

  /** The five TMS=1 edges of FiveOnesReset, state by state. */
  lemma FiveEdgesReset(s: State)
    requires IsReal(s)
    ensures Next(Next(Next(Next(Next(s, 1), 1), 1), 1), 1) == Reset
  {
    FiveEdgesFromDr(s);
    FiveEdgesFromIr(s);
  }

  /** FiveEdgesReset for RESET, IDLE and the DR column. */
  lemma FiveEdgesFromDr(s: State)
    requires IsReal(s)
    ensures Ordinal(s) <= 10 ==> Next(Next(Next(Next(Next(s, 1), 1), 1), 1), 1) == Reset
  {
    match s
    case Reset =>
    case Idle =>
    case DrSelect =>
    case DrCapture =>
    case DrShift =>
    case DrExit1 =>
    case DrPause =>
    case DrExit2 =>
    case DrUpdate =>
    case IrSelect =>
    case IrCapture =>
    case IrShift =>
    case IrExit1 =>
    case IrPause =>
    case IrExit2 =>
    case IrUpdate =>
  }

  /** FiveEdgesReset for the IR column. */
  lemma FiveEdgesFromIr(s: State)
    requires IsReal(s)
    ensures Ordinal(s) > 10 ==> Next(Next(Next(Next(Next(s, 1), 1), 1), 1), 1) == Reset
  {
    match s
    case Reset =>
    case Idle =>
    case DrSelect =>
    case DrCapture =>
    case DrShift =>
    case DrExit1 =>
    case DrPause =>
    case DrExit2 =>
    case DrUpdate =>
    case IrSelect =>
    case IrCapture =>
    case IrShift =>
    case IrExit1 =>
    case IrPause =>
    case IrExit2 =>
    case IrUpdate =>
  }

  const DrStates: seq<State> := [DrSelect, DrCapture, DrShift, DrExit1, DrPause, DrExit2, DrUpdate]
  const IrStates: seq<State> := [IrSelect, IrCapture, IrShift, IrExit1, IrPause, IrExit2, IrUpdate]

  /**
   * The path table: for each source state, the destinations towards which
   * routing drives TMS=0. The RESET row holds only UNDEFINED, which matches
   * every destination.
   */
  function PathRow(s: State): (r: seq<State>)
    ensures Undefined in r <==> s == Reset
    ensures !IsReal(s) ==> r == []
  {
    match s
    case Undefined => []
    case Unknown => []
    case Reset => [Undefined]
    case Idle => []
    case DrSelect => DrStates
    case DrCapture => [DrShift]
    case DrShift => []
    case DrExit1 => [DrShift, DrPause, DrExit2]
    case DrPause => []
    case DrExit2 => [DrShift, DrPause, DrExit1]
    case DrUpdate => [Idle]
    case IrSelect => IrStates
    case IrCapture => [IrShift]
    case IrShift => []
    case IrExit1 => [IrShift, IrPause, IrExit2]
    case IrPause => []
    case IrExit2 => [IrShift, IrPause, IrExit1]
    case IrUpdate => [Idle]
  }

  /**
   * The TMS value routing drives from s towards t: 0 exactly when t, or the
   * wildcard UNDEFINED, is in the path-table row of s.
   */
  function RouteBit(s: State, t: State): (b: Bit)
    ensures s == Reset ==> b == 0
    ensures !IsReal(s) ==> b == 1
  {
    if Undefined in PathRow(s) || t in PathRow(s) then 0 else 1
  }
}
