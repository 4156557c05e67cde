/**
 * What svfPlayer does to its state, as functions on a value: the data
 * templates and padData, the records of doShift and doRunTest, goToState, and
 * processCommand as a whole. The Player class in SvfPlayer carries out the
 * same steps in place and is proved to agree with these functions.
 *
 * Each record is one TCK: bit 0 is TMS, bit 1 TDI, bit 2 the expected TDO,
 * bit 3 says TDI matters and bit 4 says TDO is to be compared.
 */
module SvfMachine {
  import opened SvfTables
  import opened SvfHex
  import opened SvfCommands
  import opened SvfRouting

  // ---------------------------------------------------------------- padData

  /** C's int division by a positive divisor, which truncates toward zero. */
  function CDiv(a: int, b: int): int
    requires b > 0
  {
    if a >= 0 then a / b else -((-a) / b)
  }

  /** The number of bytes padData gives a register of dataLen bits: (dataLen + 7) / 8 in C. */
  function ByteCount(dataLen: int): int {
    CDiv(dataLen + 7, 8)
  }

  /** n copies of the byte v. */
  function Fill(n: nat, v: Byte): (s: seq<Byte>)
    ensures |s| == n && forall k :: 0 <= k < n ==> s[k] == v
  {
    seq(n, _ => v)
  }

  /**
   * std::string::assign(count, v) with an int count: a negative count turns
   * into a huge size_t, and the string throws length_error.
   */
  function Assign(count: int, v: Byte): (r: Result<seq<Byte>>)
    ensures r.Err? <==> count < 0
    ensures r.Ok? ==> r.value == Fill(count, v)
  {
    if count < 0 then Err(LengthError) else Ok(Fill(count, v))
  }

  /** A template whose four byte strings all hold something. */
  predicate Complete(d: Data) {
    |d.tdiData| > 0 && |d.tdoData| > 0 && |d.tdiMask| > 0 && |d.tdoMask| > 0
  }

  /**
   * padData: nothing for a zero length; otherwise TDI is required, a missing
   * TDI mask means every bit matters, a missing TDO means nothing is compared
   * (TDO and its mask become zero bytes), and otherwise a missing TDO mask
   * means every bit is compared.
   */
  function Pad(d: Data): (r: Result<Data>)
    ensures r.Err? <==>
      d.dataLen != 0 &&
      (IntMax - 7 < d.dataLen || |d.tdiData| == 0 ||
       (d.dataLen <= -15 && (|d.tdiMask| == 0 || |d.tdoData| == 0 || |d.tdoMask| == 0)))
    ensures r.Ok? ==> r.value.dataLen == d.dataLen && r.value.tdiData == d.tdiData
    ensures r.Ok? && d.dataLen > 0 ==> Complete(r.value)
    ensures Complete(d) && r.Ok? ==> r.value == d
  {
    if d.dataLen == 0 then Ok(d)
    else if IntMax - 7 < d.dataLen then Err(UndefinedBehaviour("signed overflow of dataLen + 7"))
    else
      var bytes := ByteCount(d.dataLen);
      if |d.tdiData| == 0 then Err(PlayError("TDI data required"))
      else
        var tdiMask :- if |d.tdiMask| == 0 then Assign(bytes, 255) else Ok(d.tdiMask);
        if |d.tdoData| == 0 then
          // TDO and its mask are assigned the same zero bytes.
          var zeros :- Assign(bytes, 0);
          Ok(d.(tdiMask := tdiMask, tdoData := zeros, tdoMask := zeros))
        else
          var tdoMask :- if |d.tdoMask| == 0 then Assign(bytes, 255) else Ok(d.tdoMask);
          Ok(d.(tdiMask := tdiMask, tdoMask := tdoMask))
  }

  /** Padding an already padded template changes nothing. */
  lemma PadIdempotent(d: Data)
    requires Pad(d).Ok?
    ensures Pad(Pad(d).value) == Pad(d)
  {
  }

  /**
   * What padData fills in for a register of positive length: a mask it was
   * not given is all ones (over (dataLen + 7) / 8 bytes), and without TDO
   * both TDO and its mask are all zeros, so that nothing is compared.
   */
  lemma PadFillsMissing(d: Data)
    requires Pad(d).Ok? && d.dataLen > 0
    ensures var p := Pad(d).value; var n := (d.dataLen + 7) / 8;
      && (|d.tdiMask| == 0 ==> p.tdiMask == Fill(n, 255))
      && (|d.tdiMask| > 0 ==> p.tdiMask == d.tdiMask)
      && (|d.tdoData| == 0 ==> p.tdoData == Fill(n, 0) && p.tdoMask == Fill(n, 0))
      && (|d.tdoData| > 0 ==> p.tdoData == d.tdoData)
      && (|d.tdoData| > 0 && |d.tdoMask| == 0 ==> p.tdoMask == Fill(n, 255))
      && (|d.tdoData| > 0 && |d.tdoMask| > 0 ==> p.tdoMask == d.tdoMask)
  {
  }

  /** Which of padData's errors comes first. */
  lemma PadErrors(d: Data)
    requires d.dataLen != 0
    ensures IntMax - 7 < d.dataLen ==> Pad(d) == Err(UndefinedBehaviour("signed overflow of dataLen + 7"))
    ensures d.dataLen <= IntMax - 7 && |d.tdiData| == 0 ==> Pad(d) == Err(PlayError("TDI data required"))
    ensures Pad(d).Err? && d.dataLen <= IntMax - 7 && |d.tdiData| > 0 ==> Pad(d) == Err(LengthError)
  {
  }

  // ------------------------------------------------------ merging templates

  /** A field of a command where it was given, the template's own otherwise. */
  function Prefer(given: seq<Byte>, kept: seq<Byte>): seq<Byte> {
    if |given| != 0 then given else kept
  }

  /**
   * HDR, HIR, TDR and TIR: a new length replaces the template by the
   * command's data, padded; the same length overwrites only the fields the
   * command gives, without padding.
   */
  function MergeTemplate(dst: Data, src: Data): (r: Result<Data>)
    ensures r.Ok? ==> r.value.dataLen == src.dataLen
    ensures src.dataLen != dst.dataLen ==> r == Pad(src)
    ensures src.dataLen == dst.dataLen ==> r.Ok?
  {
    if src.dataLen != dst.dataLen then Pad(src)
    else Ok(Data(Prefer(src.tdiData, dst.tdiData), Prefer(src.tdoData, dst.tdoData),
                 Prefer(src.tdiMask, dst.tdiMask), Prefer(src.tdoMask, dst.tdoMask), dst.dataLen))
  }

  /**
   * SDR and SIR: the same as MergeTemplate except that TDO is always taken
   * from the command (it is not sticky) and the result is padded in both
   * cases.
   */
  function MergeDefault(prev: Data, src: Data): (r: Result<Data>)
    ensures r.Ok? ==> r.value.dataLen == src.dataLen
    ensures prev.dataLen != src.dataLen ==> r == Pad(src)
    ensures r.Ok? && src.dataLen > 0 ==> Complete(r.value)
  {
    if prev.dataLen != src.dataLen then Pad(src)
    else Pad(Data(Prefer(src.tdiData, prev.tdiData), src.tdoData,
                  Prefer(src.tdiMask, prev.tdiMask), Prefer(src.tdoMask, prev.tdoMask), prev.dataLen))
  }

  /** A repeated header or trailer of the same length keeps every field the new command leaves out. */
  lemma MergeTemplateKeeps(dst: Data, src: Data)
    requires src.dataLen == dst.dataLen
    ensures var r := MergeTemplate(dst, src).value;
      && (|src.tdiData| == 0 ==> r.tdiData == dst.tdiData)
      && (|src.tdoData| == 0 ==> r.tdoData == dst.tdoData)
      && (|src.tdiMask| == 0 ==> r.tdiMask == dst.tdiMask)
      && (|src.tdoMask| == 0 ==> r.tdoMask == dst.tdoMask)
      && (|src.tdiData| > 0 ==> r.tdiData == src.tdiData)
      && (|src.tdoData| > 0 ==> r.tdoData == src.tdoData)
      && (|src.tdiMask| > 0 ==> r.tdiMask == src.tdiMask)
      && (|src.tdoMask| > 0 ==> r.tdoMask == src.tdoMask)
  {
  }

  /**
   * A repeated scan of the same length keeps the TDI value and the masks the
   * new command leaves out, but never the old TDO: TDO is the command's own.
   */
  lemma MergeDefaultKeeps(prev: Data, src: Data)
    requires src.dataLen == prev.dataLen && MergeDefault(prev, src).Ok?
    ensures var r := MergeDefault(prev, src).value;
      && (|src.tdiData| > 0 ==> r.tdiData == src.tdiData)
      && (|src.tdiData| == 0 ==> r.tdiData == prev.tdiData)
      && (|src.tdoData| > 0 ==> r.tdoData == src.tdoData)
      && (|src.tdiMask| > 0 ==> r.tdiMask == src.tdiMask)
      && (|src.tdiMask| == 0 && |prev.tdiMask| > 0 ==> r.tdiMask == prev.tdiMask)
      && (|src.tdoData| > 0 && |src.tdoMask| > 0 ==> r.tdoMask == src.tdoMask)
      && (|src.tdoData| > 0 && |src.tdoMask| == 0 && |prev.tdoMask| > 0 ==> r.tdoMask == prev.tdoMask)
  {
    var merged := Data(Prefer(src.tdiData, prev.tdiData), src.tdoData,
                       Prefer(src.tdiMask, prev.tdiMask), Prefer(src.tdoMask, prev.tdoMask), prev.dataLen);
    if src.dataLen > 0 {
      PadFillsMissing(merged);
    }
  }

  /**
   * A scan without TDO compares nothing, even when the previous scan of the
   * same length gave TDO and a mask: the TDO mask becomes all zeros.
   */
  lemma ScanWithoutTdoComparesNothing(prev: Data, src: Data)
    requires |src.tdoData| == 0 && src.dataLen > 0 && MergeDefault(prev, src).Ok?
    ensures var r := MergeDefault(prev, src).value;
      r.tdoMask == Fill((src.dataLen + 7) / 8, 0) && r.tdoData == r.tdoMask
  {
  }

  // ------------------------------------------------------------- records

  /** The record of one TCK. */
  function Record(tms: Bit, tdi: Bit, tdo: Bit, tdiEnable: Bit, tdoEnable: Bit): Byte {
    tms + 2 * tdi + 4 * tdo + 8 * tdiEnable + 16 * tdoEnable
  }

  /** The fields of a record, bit by bit. */
  function TmsOf(r: Byte): Bit { r % 2 }
  function TdiOf(r: Byte): Bit { (r / 2) % 2 }
  function TdoOf(r: Byte): Bit { (r / 4) % 2 }
  function TdiEnableOf(r: Byte): Bit { (r / 8) % 2 }
  function TdoEnableOf(r: Byte): Bit { (r / 16) % 2 }

  /** The five fields of a record are read back from it, and a record fits in five bits. */
  lemma RecordFields(tms: Bit, tdi: Bit, tdo: Bit, tdiEnable: Bit, tdoEnable: Bit)
    ensures var r := Record(tms, tdi, tdo, tdiEnable, tdoEnable);
      && r < 32
      && TmsOf(r) == tms && TdiOf(r) == tdi && TdoOf(r) == tdo
      && TdiEnableOf(r) == tdiEnable && TdoEnableOf(r) == tdoEnable
  {
    // Peel one field off the bottom at a time.
    var q3 := tdiEnable + 2 * tdoEnable;
    var q2 := tdo + 2 * q3;
    var q1 := tdi + 2 * q2;
    var r := tms + 2 * q1;
    assert r == Record(tms, tdi, tdo, tdiEnable, tdoEnable);
    assert r / 2 == q1 && TmsOf(r) == tms by {
      Halve(tms, q1);
    }
    assert r / 4 == q2 && TdiOf(r) == tdi by {
      HalveAgain(r);
      Halve(tdi, q2);
    }
    assert r / 8 == q3 && TdoOf(r) == tdo by {
      HalveAgain(r);
      Halve(tdo, q3);
    }
    assert r / 16 == tdoEnable && TdiEnableOf(r) == tdiEnable by {
      HalveAgain(r);
      Halve(tdiEnable, tdoEnable);
    }
  }

  lemma Halve(b: Bit, q: nat)
    ensures (b + 2 * q) % 2 == b && (b + 2 * q) / 2 == q
  {
  }

  lemma HalveAgain(r: nat)
    ensures r / 4 == (r / 2) / 2 && r / 8 == (r / 4) / 2 && r / 16 == (r / 8) / 2
  {
  }

  /** 2 to the power k, the mask 1 << k for a bit within a byte. */
  function BitWeight(k: nat): (w: nat)
    requires k < 8
    ensures w > 0
  {
    [1, 2, 4, 8, 16, 32, 64, 128][k]
  }

  /**
   * Byte k of a data string as doShift reads it with std::string::operator[]:
   * the position just past the end holds the terminating zero.
   */
  function CharAt(field: seq<Byte>, k: nat): Byte {
    if k < |field| then field[k] else 0
  }

  /** Bit i of a packed register: bit i % 8 of byte i / 8. */
  function BitAt(field: seq<Byte>, i: nat): Bit {
    (CharAt(field, i / 8) / BitWeight(i % 8)) % 2
  }

  /**
   * doShift only reads positions up to and including the end of each of the
   * four strings; a position beyond the end is undefined behaviour.
   */
  predicate Covers(d: Data)
    ensures d.dataLen <= 0 ==> Covers(d)
    ensures d.dataLen > 0 && |d.tdiData| < (d.dataLen - 1) / 8 ==> !Covers(d)
  {
    d.dataLen <= 0 ||
    var last := (d.dataLen - 1) / 8;
    last <= |d.tdiData| && last <= |d.tdoData| && last <= |d.tdiMask| && last <= |d.tdoMask|
  }

  /** The number of times a loop `for (i = 0; i < n; i++)` runs. */
  function Times(n: int): nat {
    if n < 0 then 0 else n
  }

  /** The records of doShift with exit false: bit i of each of the four strings, TMS low. */
  function ShiftRecords(d: Data): (r: seq<Byte>)
    ensures |r| == Times(d.dataLen)
  {
    seq(Times(d.dataLen), i requires 0 <= i < Times(d.dataLen) =>
      Record(0, BitAt(d.tdiData, i), BitAt(d.tdoData, i), BitAt(d.tdiMask, i), BitAt(d.tdoMask, i)))
  }

  /** Each shift record carries bit i of TDI, TDO and the two masks, and keeps TMS low. */
  lemma ShiftRecordFields(d: Data, i: nat)
    requires i < Times(d.dataLen)
    ensures var r := ShiftRecords(d)[i];
      && TmsOf(r) == 0
      && TdiOf(r) == BitAt(d.tdiData, i) && TdoOf(r) == BitAt(d.tdoData, i)
      && TdiEnableOf(r) == BitAt(d.tdiMask, i) && TdoEnableOf(r) == BitAt(d.tdoMask, i)
  {
    RecordFields(0, BitAt(d.tdiData, i), BitAt(d.tdoData, i), BitAt(d.tdiMask, i), BitAt(d.tdoMask, i));
  }

  /** doShift, or undefined behaviour when it would read past the end of a string. */
  function Shift(d: Data): (r: Result<seq<Byte>>)
    ensures r.Ok? <==> Covers(d)
    ensures r.Ok? ==> r.value == ShiftRecords(d)
  {
    if Covers(d) then Ok(ShiftRecords(d))
    else Err(UndefinedBehaviour("doShift reads past the end of a data string"))
  }

  /** A padded template of positive length is read within bounds exactly when its strings reach its length. */
  lemma PaddedCovers(d: Data)
    requires Pad(d).Ok? && d.dataLen > 0
    ensures var p := Pad(d).value;
      Covers(p) <==> var last := (d.dataLen - 1) / 8;
        last <= |d.tdiData| && last <= |p.tdoData| && last <= |p.tdiMask| && last <= |p.tdoMask|
  {
  }

  /** Setting TMS on the last record, as `outBuffer[length - 1] |= 1` does. */
  function SetLastTms(out: seq<Byte>): (r: seq<Byte>)
    requires |out| > 0
    ensures |r| == |out| && r[..|r| - 1] == out[..|out| - 1]
    ensures TmsOf(r[|r| - 1]) == 1
  {
    var b := out[|out| - 1];
    out[|out| - 1 := if b % 2 == 0 then b + 1 else b]
  }

  /** Raising TMS leaves the other four fields of the last record as they were. */
  lemma SetLastTmsKeepsFields(out: seq<Byte>)
    requires |out| > 0
    ensures var r := SetLastTms(out); var a, b := r[|r| - 1], out[|out| - 1];
      && TdiOf(a) == TdiOf(b) && TdoOf(a) == TdoOf(b)
      && TdiEnableOf(a) == TdiEnableOf(b) && TdoEnableOf(a) == TdoEnableOf(b)
  {
    var b := out[|out| - 1];
    if b % 2 == 0 {
      var q := b / 2;
      assert b == 2 * q;
      assert (b + 1) / 2 == q;
    }
  }

  /** TMS records, all other fields zero: what doTransition appends. */
  function TmsRecords(tms: seq<Bit>): (r: seq<Byte>)
    ensures |r| == |tms|
  {
    seq(|tms|, k requires 0 <= k < |tms| => tms[k] as Byte)
  }

  /** The TMS values of a run of records. */
  function TmsBits(out: seq<Byte>): (r: seq<Bit>)
    ensures |r| == |out|
  {
    seq(|out|, k requires 0 <= k < |out| => TmsOf(out[k]))
  }

  // -------------------------------------------------------------- the player

  /** The fields of svfPlayer. */
  datatype Machine = Machine(
    endDr: State, endIr: State, runTestState: State, device: State,
    headerIr: Data, headerDr: Data, trailerIr: Data, trailerDr: Data,
    defaultIr: Data, defaultDr: Data,
    out: seq<Byte>)

  /** A player as default construction leaves it, followed by reset(). */
  const Fresh: Machine :=
    Machine(Idle, Idle, Idle, Unknown, EmptyData, EmptyData, EmptyData, EmptyData, EmptyData, EmptyData, [])

  /** reset: the end and run-test states become IDLE and the device state UNKNOWN; nothing else changes. */
  function ResetMachine(m: Machine): (r: Machine)
    ensures r.device == Unknown && r.endDr == Idle && r.endIr == Idle && r.runTestState == Idle
    ensures r.headerIr == m.headerIr && r.headerDr == m.headerDr && r.trailerIr == m.trailerIr
      && r.trailerDr == m.trailerDr && r.defaultIr == m.defaultIr && r.defaultDr == m.defaultDr
    ensures r.out == m.out
  {
    m.(endDr := Idle, endIr := Idle, runTestState := Idle, device := Unknown)
  }

  /**
   * goToState: the walk of SvfRouting from the device state; it returns only
   * when the walk ends in the target, appending the TMS records of the walk.
   */
  function GoTo(m: Machine, t: State): (r: Result<Machine>)
    ensures r.Ok? ==> r.value == m.(device := t, out := r.value.out)
    ensures r.Err? ==> r.error == NonTerminating
  {
    var w := Walk(m.device, t, RouteFuel);
    if w.1 != t then Err(NonTerminating) else Ok(m.(device := w.1, out := m.out + TmsRecords(w.0)))
  }

  /** goToState returns exactly for the pairs Routable lists, and then appends the route. */
  lemma GoToHalts(m: Machine, t: State)
    ensures GoTo(m, t).Ok? <==> Routable(m.device, t)
    ensures GoTo(m, t).Ok? ==> GoTo(m, t).value == m.(device := t, out := m.out + TmsRecords(Route(m.device, t)))
  {
    if Routable(m.device, t) {
      RouteArrives(m.device, t);
    } else {
      NeverArrives(m.device, t, RouteFuel);
    }
  }

  /** The STATE loop: goToState for each state in turn. */
  function GoToAll(m: Machine, sts: seq<State>): (r: Result<Machine>)
    ensures r.Ok? && sts != [] ==> r.value.device == sts[|sts| - 1]
    ensures sts == [] ==> r == Ok(m)
    decreases |sts|
  {
    if sts == [] then Ok(m)
    else
      var m1 :- GoTo(m, sts[0]);
      GoToAll(m1, sts[1..])
  }

  /** The TMS value doRunTest holds while clocking: 1 in RESET, 0 everywhere else. */
  function HoldBit(st: State): Bit {
    if st == Reset then 1 else 0
  }

  /** n TCKs of doRunTest's TMS value for st. */
  function HoldRun(st: State, n: nat): (r: seq<Bit>)
    ensures |r| == n
  {
    seq(n, _ => HoldBit(st))
  }

  /** A run state the TMS value of doRunTest keeps the device in. */
  predicate Holds(st: State) {
    Next(st, HoldBit(st)) == st
  }

  /** The stable states of the TAP diagram are exactly the real states that doRunTest's TMS value keeps. */
  lemma HoldingStates(st: State)
    requires IsReal(st)
    ensures Holds(st) <==> st in {Reset, Idle, DrShift, DrPause, IrShift, IrPause}
  {
  }

  /** doRunTest: goToState, then count TCKs holding TMS. */
  function RunTestFrom(m: Machine, st: State, count: int): (r: Result<Machine>)
    ensures r.Ok? ==> r.value == m.(device := st, out := r.value.out)
  {
    var m1 :- GoTo(m, st);
    Ok(m1.(out := m1.out + TmsRecords(HoldRun(st, Times(count)))))
  }

  /**
   * doRunTest returns exactly when goToState does, and appends the route to
   * the run state and then count records that hold TMS at the run state's value.
   */
  lemma RunTestRecords(m: Machine, st: State, count: int)
    ensures RunTestFrom(m, st, count).Ok? <==> Routable(m.device, st)
    ensures RunTestFrom(m, st, count).Ok? ==>
      RunTestFrom(m, st, count).value.out == m.out + TmsRecords(Route(m.device, st)) + TmsRecords(HoldRun(st, Times(count)))
  {
    GoToHalts(m, st);
  }

  /** RUNTEST: the named state becomes the run-test state, or the run-test state stands in for a missing one. */
  function ProcessRunTest(m: Machine, cmd: Command): (r: Result<Machine>)
    ensures |cmd.states| == 0 ==> r.Err? && r.error.UndefinedBehaviour?
    ensures r.Ok? && cmd.states[0] != Undefined ==> r.value.runTestState == cmd.states[0] && r.value.device == cmd.states[0]
    ensures r.Ok? && cmd.states[0] == Undefined ==> r.value.runTestState == m.runTestState && r.value.device == m.runTestState
  {
    if |cmd.states| == 0 then Err(UndefinedBehaviour("states[0] of an empty list"))
    else
      var st := if cmd.states[0] == Undefined then m.runTestState else cmd.states[0];
      RunTestFrom(m.(runTestState := st), st, cmd.data.dataLen)
  }

  /** The template a header or trailer command sets. */
  function Template(m: Machine, op: Op): Data
    requires op in {Hdr, Hir, Tdr, Tir}
  {
    match op
    case Hdr => m.headerDr
    case Hir => m.headerIr
    case Tdr => m.trailerDr
    case Tir => m.trailerIr
  }

  /** Writing one template leaves the other three and every other field as they were. */
  function WithTemplate(m: Machine, op: Op, d: Data): (r: Machine)
    requires op in {Hdr, Hir, Tdr, Tir}
    ensures Template(r, op) == d
    ensures forall o: Op :: o in {Hdr, Hir, Tdr, Tir} && o != op ==> Template(r, o) == Template(m, o)
    ensures r.(headerDr := m.headerDr, headerIr := m.headerIr, trailerDr := m.trailerDr, trailerIr := m.trailerIr) == m
  {
    match op
    case Hdr => m.(headerDr := d)
    case Hir => m.(headerIr := d)
    case Tdr => m.(trailerDr := d)
    case Tir => m.(trailerIr := d)
  }

  /** HDR, HIR, TDR and TIR: merge the command into its template. */
  function SetTemplate(m: Machine, op: Op, data: Data): (r: Result<Machine>)
    requires op in {Hdr, Hir, Tdr, Tir}
    ensures r.Ok? <==> MergeTemplate(Template(m, op), data).Ok?
    ensures r.Ok? ==> r.value == WithTemplate(m, op, MergeTemplate(Template(m, op), data).value)
  {
    var d :- MergeTemplate(Template(m, op), data);
    Ok(WithTemplate(m, op, d))
  }

  /**
   * SDR and SIR: merge the command into the default, go to the shift state,
   * shift header, default and trailer, raise TMS on the last bit (which takes
   * the device to the exit state) and go to the end state.
   */
  function Scan(m: Machine, data: Data, ir: bool): (r: Result<Machine>)
    ensures data.dataLen <= 0 ==> r == Err(PlayError("length must be greater than zero"))
    ensures r.Ok? ==> r.value.device == (if ir then m.endIr else m.endDr)
    ensures r.Ok? ==> r.value.endDr == m.endDr && r.value.endIr == m.endIr && r.value.runTestState == m.runTestState
    ensures r.Ok? ==> (r.value.headerDr == m.headerDr && r.value.headerIr == m.headerIr
                       && r.value.trailerDr == m.trailerDr && r.value.trailerIr == m.trailerIr)
    ensures r.Ok? ==> if ir then r.value.defaultDr == m.defaultDr else r.value.defaultIr == m.defaultIr
    ensures r.Ok? ==> var prev := if ir then m.defaultIr else m.defaultDr;
      MergeDefault(prev, data).Ok? && (if ir then r.value.defaultIr else r.value.defaultDr) == MergeDefault(prev, data).value
  {
    if data.dataLen <= 0 then Err(PlayError("length must be greater than zero"))
    else
      var def :- MergeDefault(if ir then m.defaultIr else m.defaultDr, data);
      var m1 := if ir then m.(defaultIr := def) else m.(defaultDr := def);
      var m2 :- GoTo(m1, if ir then IrShift else DrShift);
      var m3 :- ShiftThrough(m2, if ir then m.headerIr else m.headerDr, def, if ir then m.trailerIr else m.trailerDr);
      GoTo(m3, if ir then m.endIr else m.endDr)
  }

  /**
   * The middle of a scan: doShift of header, body and trailer, TMS raised on
   * the last record, and calculateTransition(1).
   */
  function ShiftThrough(m: Machine, header: Data, body: Data, trailer: Data): (r: Result<Machine>)
    requires body.dataLen > 0
    ensures r.Ok? <==> Covers(header) && Covers(body) && Covers(trailer)
    ensures r.Ok? ==> r.value == m.(device := Next(m.device, 1), out := r.value.out)
  {
    var h :- Shift(header);
    var b :- Shift(body);
    var t :- Shift(trailer);
    Ok(m.(out := SetLastTms(m.out + h + b + t), device := Next(m.device, 1)))
  }

  /**
   * The records of an SDR or SIR: the route to the shift state, the header,
   * the merged default and the trailer with TMS raised on the last of them,
   * then the route from the exit state to the end state.
   */
  lemma ScanRecords(m: Machine, data: Data, ir: bool)
    requires Scan(m, data, ir).Ok?
    ensures var shift := if ir then IrShift else DrShift;
      var def := MergeDefault(if ir then m.defaultIr else m.defaultDr, data).value;
      var hd := if ir then m.headerIr else m.headerDr;
      var tl := if ir then m.trailerIr else m.trailerDr;
      var end := if ir then m.endIr else m.endDr;
      Scan(m, data, ir).value.out
        == m.out + TmsRecords(Route(m.device, shift))
           + SetLastTms(ShiftRecords(hd) + ShiftRecords(def) + ShiftRecords(tl))
           + TmsRecords(Route(Next(shift, 1), end))
  {
    var shift := if ir then IrShift else DrShift;
    var def := MergeDefault(if ir then m.defaultIr else m.defaultDr, data).value;
    var m1 := if ir then m.(defaultIr := def) else m.(defaultDr := def);
    GoToHalts(m1, shift);
    var m2 := GoTo(m1, shift).value;
    var hd := if ir then m.headerIr else m.headerDr;
    var tl := if ir then m.trailerIr else m.trailerDr;
    var h, b, t := ShiftRecords(hd), ShiftRecords(def), ShiftRecords(tl);
    var m3 := ShiftThrough(m2, hd, def, tl).value;
    assert m3.out == m2.out + SetLastTms(h + b + t) by {
      assert m3.out == SetLastTms(m2.out + h + b + t);
      Associative(m2.out, h, b);
      Associative(m2.out, h + b, t);
      SetLastTmsAfter(m2.out, h + b + t);
    }
    var end := if ir then m.endIr else m.endDr;
    assert Scan(m, data, ir) == GoTo(m3, end);
    GoToHalts(m3, end);
  }

  /**
   * processCommand: FREQUENCY, TRST and unknown commands change nothing,
   * ENDDR and ENDIR only their end state, headers and trailers only their
   * template, and the remaining commands play as Scan, RunTestFrom and
   * GoToAll say.
   */
  function Process(m: Machine, cmd: Command): (r: Result<Machine>)
    ensures cmd.op in {Frequency, Trst, UnknownOp} ==> r == Ok(m)
    ensures cmd.op in {EndDr, EndIr, RunTest} && |cmd.states| == 0 ==> r.Err? && r.error.UndefinedBehaviour?
    ensures cmd.op == EndDr && |cmd.states| > 0 ==> r == Ok(m.(endDr := cmd.states[0]))
    ensures cmd.op == EndIr && |cmd.states| > 0 ==> r == Ok(m.(endIr := cmd.states[0]))
    ensures cmd.op in {Hdr, Hir, Tdr, Tir} && r.Ok? ==>
      && r.value.out == m.out && r.value.device == m.device
      && MergeTemplate(Template(m, cmd.op), cmd.data).Ok?
      && Template(r.value, cmd.op) == MergeTemplate(Template(m, cmd.op), cmd.data).value
    ensures cmd.op in {Sdr, Sir} ==> r == Scan(m, cmd.data, cmd.op == Sir)
    ensures cmd.op == RunTest && r.Ok? ==> r.value.device == r.value.runTestState
    ensures cmd.op == StateCmd && r.Ok? && cmd.states != [] ==> r.value.device == cmd.states[|cmd.states| - 1]
  {
    match cmd.op
    case EndDr => if |cmd.states| == 0 then Err(UndefinedBehaviour("states[0] of an empty list")) else Ok(m.(endDr := cmd.states[0]))
    case EndIr => if |cmd.states| == 0 then Err(UndefinedBehaviour("states[0] of an empty list")) else Ok(m.(endIr := cmd.states[0]))
    case Hdr | Hir | Tdr | Tir => SetTemplate(m, cmd.op, cmd.data)
    case RunTest => ProcessRunTest(m, cmd)
    case Sdr => Scan(m, cmd.data, false)
    case Sir => Scan(m, cmd.data, true)
    case StateCmd => GoToAll(m, cmd.states)
    case Frequency | Trst | UnknownOp => Ok(m)
  }

  // ------------------------------------------------- tracking the device

  /**
   * What the player believes about a device that is really in state d:
   * either that its state is unknown, or that it is d.
   */
  predicate Agrees(d: State, believed: State) {
    believed == Unknown || d == believed
  }

  /** The run state RUNTEST goes to. */
  function RunState(m: Machine, cmd: Command): State
    requires |cmd.states| > 0
  {
    if cmd.states[0] == Undefined then m.runTestState else cmd.states[0]
  }

  /**
   * The records a command appends drive a device whose state the player
   * knew (or knew to be unknown) into the state the player then believes it
   * to be in. The one condition is that a RUNTEST clocks in a state its TMS
   * value holds; see RunTestInUnstableState for what happens otherwise.
   * Earlier records are never changed.
   */
  lemma ProcessTracksDevice(m: Machine, cmd: Command, d: State)
    requires IsReal(d) && Agrees(d, m.device)
    requires Process(m, cmd).Ok?
    requires cmd.op == RunTest ==> Holds(RunState(m, cmd))
    ensures var m' := Process(m, cmd).value;
      && |m.out| <= |m'.out| && m'.out[..|m.out|] == m.out
      && Agrees(Replay(d, TmsBits(m'.out[|m.out|..])), m'.device)
  {
    var m' := Process(m, cmd).value;
    var added: seq<Byte>;
    match cmd.op {
      case RunTest =>
        added := RunTestTracks(m.(runTestState := RunState(m, cmd)), RunState(m, cmd), cmd.data.dataLen, d);
      case Sdr =>
        added := ScanTracks(m, cmd.data, false, d);
      case Sir =>
        added := ScanTracks(m, cmd.data, true, d);
      case StateCmd =>
        added := GoToAllTracks(m, cmd.states, d);
      case _ =>
        added := [];
        assert m'.out == m.out && m'.device == m.device;
    }
    assert m'.out == m.out + added;
    assert m'.out[..|m.out|] == m.out && m'.out[|m.out|..] == added;
  }

  lemma Associative(x: seq<Byte>, y: seq<Byte>, z: seq<Byte>)
    ensures (x + y) + z == x + (y + z)
  {
  }

  /** A real state stays real whatever is clocked. */
  lemma {:induction false} ReplayReal(d: State, tms: seq<Bit>)
    requires IsReal(d)
    ensures IsReal(Replay(d, tms))
    decreases |tms|
  {
    if tms != [] {
      ReplayReal(Next(d, tms[0]), tms[1..]);
    }
  }

  /** TMS values of joined runs of records, and what they do to the device. */
  lemma TmsBitsConcat(d: State, a: seq<Byte>, b: seq<Byte>)
    ensures TmsBits(a + b) == TmsBits(a) + TmsBits(b)
    ensures Replay(d, TmsBits(a + b)) == Replay(Replay(d, TmsBits(a)), TmsBits(b))
  {
    assert TmsBits(a + b) == TmsBits(a) + TmsBits(b);
    ReplayConcat(d, TmsBits(a), TmsBits(b));
  }

  /** TMS records carry the TMS values they were made from. */
  lemma TmsOfRecords(tms: seq<Bit>)
    ensures TmsBits(TmsRecords(tms)) == tms
  {
  }

  /** Clocking the hold value keeps a state that holds. */
  lemma {:induction false} HoldKeeps(st: State, n: nat)
    requires Holds(st)
    ensures Replay(st, HoldRun(st, n)) == st
    decreases n
  {
    if n > 0 {
      assert HoldRun(st, n)[1..] == HoldRun(st, n - 1);
      HoldKeeps(st, n - 1);
    }
  }

  /** goToState drives a device whose state the player knows, or knows to be unknown, into the target. */
  lemma GoToTracks(m: Machine, t: State, d: State) returns (added: seq<Byte>)
    requires IsReal(d) && Agrees(d, m.device) && GoTo(m, t).Ok?
    ensures GoTo(m, t).value.out == m.out + added
    ensures Agrees(Replay(d, TmsBits(added)), t)
  {
    GoToHalts(m, t);
    added := TmsRecords(Route(m.device, t));
    TmsOfRecords(Route(m.device, t));
    if m.device == t {
    } else if m.device == Unknown {
      EscapeFromAnyState(d, t);
    } else {
      RouteDrivesDevice(m.device, t);
    }
  }

  lemma {:induction false} GoToAllTracks(m: Machine, sts: seq<State>, d: State) returns (added: seq<Byte>)
    requires IsReal(d) && Agrees(d, m.device) && GoToAll(m, sts).Ok?
    ensures GoToAll(m, sts).value.out == m.out + added
    ensures Agrees(Replay(d, TmsBits(added)), GoToAll(m, sts).value.device)
    decreases |sts|
  {
    if sts == [] {
      added := [];
    } else {
      var m1 := GoTo(m, sts[0]).value;
      var a := GoToTracks(m, sts[0], d);
      var d1 := Replay(d, TmsBits(a));
      ReplayReal(d, TmsBits(a));
      var b := GoToAllTracks(m1, sts[1..], d1);
      added := a + b;
      assert GoToAll(m, sts) == GoToAll(m1, sts[1..]);
      assert m1.out == m.out + a;
      Associative(m.out, a, b);
      TmsBitsConcat(d, a, b);
    }
  }

  lemma RunTestTracks(m: Machine, st: State, count: int, d: State) returns (added: seq<Byte>)
    requires IsReal(d) && Agrees(d, m.device) && RunTestFrom(m, st, count).Ok? && Holds(st)
    ensures RunTestFrom(m, st, count).value.out == m.out + added
    ensures Agrees(Replay(d, TmsBits(added)), st)
  {
    var a := GoToTracks(m, st, d);
    var hold := HoldRun(st, Times(count));
    var b := TmsRecords(hold);
    added := a + b;
    assert RunTestFrom(m, st, count).value.out == m.out + added by {
      Associative(m.out, a, b);
    }
    TmsBitsConcat(d, a, b);
    TmsOfRecords(hold);
    var d1 := Replay(d, TmsBits(a));
    if d1 == st {
      HoldKeeps(st, Times(count));
    }
  }

  /** Raising TMS on the last record only touches the records after a prefix. */
  lemma SetLastTmsAfter(prefix: seq<Byte>, x: seq<Byte>)
    requires |x| > 0
    ensures SetLastTms(prefix + x) == prefix + SetLastTms(x)
  {
    var l := prefix + x;
    assert l[|l| - 1] == x[|x| - 1];
  }

  /** A run of records that keep TMS low, with TMS raised on the last one, takes a shift state to its exit state. */
  lemma {:induction false} LastRaised(shift: State, x: seq<Byte>)
    requires shift == DrShift || shift == IrShift
    requires |x| > 0 && TmsBits(x) == HoldRun(shift, |x|)
    ensures Replay(shift, TmsBits(SetLastTms(x))) == Next(shift, 1)
  {
    var y := SetLastTms(x);
    var n := |x| - 1;
    assert TmsBits(y) == HoldRun(shift, n) + [1] by {
      forall k | 0 <= k < n ensures TmsBits(y)[k] == HoldBit(shift) {
        assert y[k] == x[k];
        assert TmsBits(x)[k] == HoldBit(shift);
      }
    }
    ReplayConcat(shift, HoldRun(shift, n), [1]);
    HoldKeeps(shift, n);
  }

  lemma HoldRunConcat(st: State, i: nat, j: nat)
    ensures HoldRun(st, i) + HoldRun(st, j) == HoldRun(st, i + j)
  {
  }

  /** The middle of a scan takes the shift state to its exit state, appending records after the ones there were. */
  lemma ShiftThroughTracks(m: Machine, header: Data, body: Data, trailer: Data, shift: State) returns (added: seq<Byte>)
    requires shift == DrShift || shift == IrShift
    requires body.dataLen > 0 && ShiftThrough(m, header, body, trailer).Ok?
    ensures ShiftThrough(m, header, body, trailer).value.out == m.out + added
    ensures Replay(shift, TmsBits(added)) == Next(shift, 1)
  {
    var h, b, t := ShiftRecords(header), ShiftRecords(body), ShiftRecords(trailer);
    var x := h + b + t;
    ScanKeepsTmsLow(shift, header, body, trailer);
    added := SetLastTms(x);
    assert Replay(shift, TmsBits(added)) == Next(shift, 1) by {
      LastRaised(shift, x);
    }
    assert ShiftThrough(m, header, body, trailer).value.out == m.out + added by {
      assert ShiftThrough(m, header, body, trailer).value.out == SetLastTms(m.out + h + b + t);
      Associative(m.out, h, b);
      Associative(m.out, h + b, t);
      SetLastTmsAfter(m.out, x);
    }
  }

  /** The records of header, body and trailer together keep TMS low. */
  lemma ScanKeepsTmsLow(shift: State, header: Data, body: Data, trailer: Data)
    requires shift == DrShift || shift == IrShift
    ensures var x := ShiftRecords(header) + ShiftRecords(body) + ShiftRecords(trailer);
      TmsBits(x) == HoldRun(shift, |x|)
  {
    var h, b, t := ShiftRecords(header), ShiftRecords(body), ShiftRecords(trailer);
    ShiftKeepsTmsLow(shift, header);
    ShiftKeepsTmsLow(shift, body);
    ShiftKeepsTmsLow(shift, trailer);
    TmsBitsConcat(shift, h + b, t);
    TmsBitsConcat(shift, h, b);
    HoldRunConcat(shift, |h|, |b|);
    HoldRunConcat(shift, |h| + |b|, |t|);
  }

  /** Records of doShift keep TMS low. */
  lemma ShiftKeepsTmsLow(shift: State, d: Data)
    requires shift == DrShift || shift == IrShift
    ensures TmsBits(ShiftRecords(d)) == HoldRun(shift, Times(d.dataLen))
  {
    forall i | 0 <= i < Times(d.dataLen) ensures TmsBits(ShiftRecords(d))[i] == 0 {
      ShiftRecordFields(d, i);
    }
  }

  lemma ScanTracks(m: Machine, data: Data, ir: bool, d: State) returns (added: seq<Byte>)
    requires IsReal(d) && Agrees(d, m.device) && Scan(m, data, ir).Ok?
    ensures Scan(m, data, ir).value.out == m.out + added
    ensures Agrees(Replay(d, TmsBits(added)), Scan(m, data, ir).value.device)
  {
    var shift := if ir then IrShift else DrShift;
    var def := MergeDefault(if ir then m.defaultIr else m.defaultDr, data).value;
    var m1 := if ir then m.(defaultIr := def) else m.(defaultDr := def);
    var m2 := GoTo(m1, shift).value;
    var hd := if ir then m.headerIr else m.headerDr;
    var tl := if ir then m.trailerIr else m.trailerDr;
    var m3 := ShiftThrough(m2, hd, def, tl).value;
    var end := if ir then m.endIr else m.endDr;
    assert Scan(m, data, ir) == GoTo(m3, end);
    var a := GoToTracks(m1, shift, d);
    var s := ShiftThroughTracks(m2, hd, def, tl, shift);
    assert m3.out == m.out + (a + s) by {
      Associative(m.out, a, s);
    }
    var d2 := Replay(d, TmsBits(a + s));
    assert d2 == m3.device by {
      TmsBitsConcat(d, a, s);
    }
    ReplayReal(d, TmsBits(a + s));
    var c := GoToTracks(m3, end, d2);
    added := (a + s) + c;
    Associative(m.out, a + s, c);
    TmsBitsConcat(d, a + s, c);
  }

  /**
   * doRunTest does not follow the clocks it gives: RUNTEST in DREXIT1 (which
   * the parser accepts) clocks TMS=0, which takes the device to DRPAUSE,
   * while the player goes on believing it is in DREXIT1.
   */
  lemma RunTestInUnstableState()
    ensures var m := Fresh.(device := DrExit1);
      var r := Process(m, Command(RunTest, EmptyData.(dataLen := 1), [DrExit1]));
      && r.Ok? && r.value.device == DrExit1 && r.value.out == [0]
      && Replay(DrExit1, TmsBits(r.value.out)) == DrPause
  {
    var m := Fresh.(device := DrExit1);
    GoToHalts(m, DrExit1);
    assert HoldRun(DrExit1, 1) == [0];
    assert TmsBits([0]) == [0];
  }

  // ------------------------------------------------------------ invariants

  /** What processCommand keeps: no state the player can hold is UNDEFINED. */
  predicate Valid(m: Machine)
    ensures Valid(m) <==> Undefined !in [m.device, m.endDr, m.endIr, m.runTestState]
  {
    m.device != Undefined && m.endDr != Undefined && m.endIr != Undefined && m.runTestState != Undefined
  }

  lemma FreshValid()
    ensures Valid(Fresh) && Valid(ResetMachine(Fresh))
  {
  }

  /** goToState changes nothing but the device state and the records. */
  lemma {:induction false} GoToAllFrame(m: Machine, sts: seq<State>)
    requires GoToAll(m, sts).Ok?
    ensures GoToAll(m, sts).value == m.(device := GoToAll(m, sts).value.device, out := GoToAll(m, sts).value.out)
    decreases |sts|
  {
    if sts != [] {
      GoToAllFrame(GoTo(m, sts[0]).value, sts[1..]);
    }
  }

  /** The states a command can name in a state list are never UNDEFINED, and then neither is the device state. */
  lemma GoToAllValid(m: Machine, sts: seq<State>)
    requires Valid(m) && GoToAll(m, sts).Ok?
    requires forall i :: 0 <= i < |sts| ==> sts[i] != Undefined
    ensures Valid(GoToAll(m, sts).value)
  {
    GoToAllFrame(m, sts);
  }

  /** processCommand keeps the player valid on every command the parser produces. */
  lemma ProcessPreservesValid(m: Machine, cmd: Command)
    requires Valid(m) && WellFormed(cmd) && Process(m, cmd).Ok?
    ensures Valid(Process(m, cmd).value)
  {
    match cmd.op {
      case StateCmd => GoToAllValid(m, cmd.states);
      case RunTest =>
      case Sdr =>
      case Sir =>
      case EndDr =>
      case EndIr =>
      case Hdr | Hir | Tdr | Tir =>
      case Frequency | Trst | UnknownOp =>
    }
  }

  /** After reset, the first goToState escapes the unknown state with six TMS=1 edges and then routes from RESET. */
  lemma ResetThenGoTo(m: Machine, t: State)
    requires IsReal(t)
    ensures var r := GoTo(ResetMachine(m), t);
      r.Ok? && r.value.out == m.out + TmsRecords(Escape + Route(Reset, t))
  {
    GoToHalts(ResetMachine(m), t);
    RouteFromUnknown(t);
  }

  /** processCommand on each command in turn, stopping at the first error. */
  function ProcessAll(m: Machine, cmds: seq<Command>): (r: Result<Machine>)
    ensures cmds == [] ==> r == Ok(m)
    decreases |cmds|
  {
    if cmds == [] then Ok(m)
    else
      var m1 :- Process(m, cmds[0]);
      ProcessAll(m1, cmds[1..])
  }

  /** Records of a run of commands still drive the device along, as long as each RUNTEST holds its state. */
  lemma {:induction false} ProcessAllTracksDevice(m: Machine, cmds: seq<Command>, d: State)
    requires IsReal(d) && Agrees(d, m.device) && ProcessAll(m, cmds).Ok?
    requires RunStatesHold(m, cmds)
    ensures var m' := ProcessAll(m, cmds).value;
      && |m.out| <= |m'.out| && m'.out[..|m.out|] == m.out
      && Agrees(Replay(d, TmsBits(m'.out[|m.out|..])), m'.device)
    decreases |cmds|
  {
    if cmds != [] {
      var m1 := Process(m, cmds[0]).value;
      ProcessTracksDevice(m, cmds[0], d);
      var a := m1.out[|m.out|..];
      var d1 := Replay(d, TmsBits(a));
      ReplayReal(d, TmsBits(a));
      ProcessAllTracksDevice(m1, cmds[1..], d1);
      OutputsCompose(m.out, m1.out, ProcessAll(m, cmds).value.out, d);
    }
  }

  /** Two output buffers that each extend the one before clock their new records one after the other. */
  lemma OutputsCompose(o0: seq<Byte>, o1: seq<Byte>, o2: seq<Byte>, d: State)
    requires |o0| <= |o1| && o1[..|o0|] == o0
    requires |o1| <= |o2| && o2[..|o1|] == o1
    ensures |o0| <= |o2| && o2[..|o0|] == o0
    ensures Replay(d, TmsBits(o2[|o0|..])) == Replay(Replay(d, TmsBits(o1[|o0|..])), TmsBits(o2[|o1|..]))
  {
    var a := o1[|o0|..];
    var b := o2[|o1|..];
    assert o1 == o0 + a;
    assert o2 == o1 + b;
    Associative(o0, a, b);
    assert o2[|o0|..] == a + b;
    TmsBitsConcat(d, a, b);
  }

  /** Each RUNTEST of a run of commands clocks in a state its TMS value holds. */
  predicate RunStatesHold(m: Machine, cmds: seq<Command>)
    decreases |cmds|
  {
    cmds == [] ||
    ((cmds[0].op == RunTest ==> |cmds[0].states| > 0 && Holds(RunState(m, cmds[0]))) &&
     (Process(m, cmds[0]).Ok? ==> RunStatesHold(Process(m, cmds[0]).value, cmds[1..])))
  }
}
