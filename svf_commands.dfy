/**
 * The values passed from the parser to the player: svfData, svfCommand, and
 * the ways in which parsing or playing can fail.
 */
module SvfCommands {
  import opened SvfTables
  import opened SvfHex

  /**
   * Why a step fails. ParseError and PlayError are the two runtime_error
   * messages the component throws ("line <n>: <desc>" and "error: <desc>"),
   * LengthError the std::length_error of std::string::assign with a negative
   * count. UndefinedBehaviour and NonTerminating stand for what the C++ code
   * does not define or never finishes: the model stops there instead of
   * inventing an outcome.
   */
  datatype Error =
    | ParseError(line: int, desc: string)
    | PlayError(desc: string)
    | LengthError
    | UndefinedBehaviour(what: string)
    | NonTerminating

  datatype Result<T> = Ok(value: T) | Err(error: Error) {
    predicate IsFailure() {
      Err?
    }

    function PropagateFailure<U>(): Result<U>
      requires Err?
    {
      Err(error)
    }

    function Extract(): T
      requires Ok?
    {
      value
    }
  }

  datatype Option<T> = None | Some(value: T)

  /** The range of a C int, which lengths and counts are parsed into. */
  const IntMin: int := -0x8000_0000
  const IntMax: int := 0x7FFF_FFFF

  predicate InIntRange(n: int) {
    IntMin <= n <= IntMax
  }

  /**
   * svfData: the four byte strings of a shift (bit i of a register is bit
   * i % 8 of byte i / 8) and its length in bits. For RUNTEST, dataLen is the
   * clock count.
   */
  datatype Data = Data(tdiData: seq<Byte>, tdoData: seq<Byte>, tdiMask: seq<Byte>, tdoMask: seq<Byte>, dataLen: int)

  /** A default-constructed svfData. */
  const EmptyData: Data := Data([], [], [], [], 0)

  /**
   * svfCommand. For ENDDR, ENDIR and RUNTEST, states holds one state (for
   * RUNTEST, UNDEFINED when the command names none); for STATE, the states to
   * visit in order. The frequency field is not modelled.
   */
  datatype Command = Command(op: Op, data: Data, states: seq<State>)

  /** The shapes of command the parser produces. */
  predicate WellFormed(c: Command) {
    && c.op != UnknownOp
    && (c.op in {EndDr, EndIr, RunTest} ==> |c.states| == 1)
    && (c.op in {EndDr, EndIr} ==> c.states[0] != Undefined)
    && (c.op == StateCmd ==> forall i :: 0 <= i < |c.states| ==> c.states[i] != Undefined)
    && (c.op in {RunTest, Sdr, Sir, Hdr, Hir, Tdr, Tir} ==> InIntRange(c.data.dataLen))
  }
}
