/**
 * The routing walk of goToState as a function of the start and target
 * states, and what it achieves: it stops exactly for the pairs listed by
 * Routable, drives the device along the transition table to the target, and
 * takes a shortest path there.
 */
module SvfRouting {
  import opened SvfTables

  /** The TMS values emitted to escape an unknown state. */
  const Escape: seq<Bit> := [1, 1, 1, 1, 1, 1]

  /**
   * The state one pass of goToState's loop leaves the device in, when it is
   * not yet at t: RESET after the escape from UNKNOWN, otherwise the state
   * the path table's edge leads to.
   */
  function Pass(s: State, t: State): (r: State)
    ensures s != Undefined ==> IsReal(r)
    ensures s == Undefined ==> r == Undefined
  {
    if s == Unknown then Reset else Next(s, RouteBit(s, t))
  }

  /** The TMS values one pass of goToState's loop clocks. */
  function PassTms(s: State, t: State): seq<Bit> {
    if s == Unknown then Escape else [RouteBit(s, t)]
  }

  /**
   * At most fuel passes of goToState's loop from s towards t: each pass
   * either stops (s == t) or clocks PassTms and moves to Pass. The result is
   * the emitted TMS values and the state reached.
   */
  function Walk(s: State, t: State, fuel: nat): (seq<Bit>, State)
    decreases fuel
  {
    if s == t || fuel == 0 then ([], s)
    else
      var w := Walk(Pass(s, t), t, fuel - 1);
      (PassTms(s, t) + w.0, w.1)
  }

  /** Enough passes for every pair of states for which goToState returns. */
  const RouteFuel: nat := 8

  /** goToState returns exactly when the target is the current state or a real state. */
  predicate Routable(s: State, t: State)
    ensures s == Undefined ==> (Routable(s, t) <==> t == Undefined)
    ensures t == Unknown ==> (Routable(s, t) <==> s == Unknown)
  {
    s == t || (s != Undefined && IsReal(t))
  }

  /** The TMS values goToState emits on its way from s to t. */
  function Route(s: State, t: State): seq<Bit> {
    Walk(s, t, RouteFuel).0
  }

  /**
   * Each pass of the walk clocks at least one edge, so a walk emits nothing
   * only when it starts at the target or has no fuel, and one that stops
   * short of the target has clocked an edge per unit of fuel. From
   * UNDEFINED it never moves.
   */
  lemma {:induction false} WalkShape(s: State, t: State, fuel: nat)
    ensures Walk(s, t, fuel).0 == [] <==> s == t || fuel == 0
    ensures Walk(s, t, fuel).1 != t ==> |Walk(s, t, fuel).0| >= fuel
    ensures s == Undefined ==> Walk(s, t, fuel).1 == Undefined
    decreases fuel
  {
    if s != t && fuel > 0 {
      WalkShape(Pass(s, t), t, fuel - 1);
    }
  }

  /** goToState emits nothing exactly when the device is already in the target state. */
  lemma RouteEmpty(s: State, t: State)
    ensures Route(s, t) == [] <==> s == t
  {
    WalkShape(s, t, RouteFuel);
  }

  /**
   * The number of TCKs on a shortest path from s to t in the TAP state
   * diagram. The table is a certificate: the CertifiedFrom lemmas below check, pair by
   * pair, that it satisfies the equations that characterise shortest-path
   * distances and that the path table always moves one step closer.
   */
  function Dist(s: State, t: State): (d: nat)
    requires IsReal(s) && IsReal(t)
    ensures d <= RouteFuel
    ensures s == Reset ==> d < RouteFuel
  {
    match s
    case Reset =>
      (match t
      case Reset => 0 case Idle => 1 case DrSelect => 2 case DrCapture => 3
      case DrShift => 4 case DrExit1 => 4 case DrPause => 5 case DrExit2 => 6 case DrUpdate => 5 case IrSelect => 3
      case IrCapture => 4 case IrShift => 5 case IrExit1 => 5 case IrPause => 6 case IrExit2 => 7 case IrUpdate => 6)
    case Idle =>
      (match t
      case Reset => 3 case Idle => 0 case DrSelect => 1 case DrCapture => 2
      case DrShift => 3 case DrExit1 => 3 case DrPause => 4 case DrExit2 => 5 case DrUpdate => 4 case IrSelect => 2
      case IrCapture => 3 case IrShift => 4 case IrExit1 => 4 case IrPause => 5 case IrExit2 => 6 case IrUpdate => 5)
    case DrSelect =>
      (match t
      case Reset => 2 case Idle => 3 case DrSelect => 0 case DrCapture => 1
      case DrShift => 2 case DrExit1 => 2 case DrPause => 3 case DrExit2 => 4 case DrUpdate => 3 case IrSelect => 1
      case IrCapture => 2 case IrShift => 3 case IrExit1 => 3 case IrPause => 4 case IrExit2 => 5 case IrUpdate => 4)
    case DrCapture =>
      (match t
      case Reset => 5 case Idle => 3 case DrSelect => 3 case DrCapture => 0
      case DrShift => 1 case DrExit1 => 1 case DrPause => 2 case DrExit2 => 3 case DrUpdate => 2 case IrSelect => 4
      case IrCapture => 5 case IrShift => 6 case IrExit1 => 6 case IrPause => 7 case IrExit2 => 8 case IrUpdate => 7)
    case DrShift =>
      (match t
      case Reset => 5 case Idle => 3 case DrSelect => 3 case DrCapture => 4
      case DrShift => 0 case DrExit1 => 1 case DrPause => 2 case DrExit2 => 3 case DrUpdate => 2 case IrSelect => 4
      case IrCapture => 5 case IrShift => 6 case IrExit1 => 6 case IrPause => 7 case IrExit2 => 8 case IrUpdate => 7)
    case DrExit1 =>
      (match t
      case Reset => 4 case Idle => 2 case DrSelect => 2 case DrCapture => 3
      case DrShift => 3 case DrExit1 => 0 case DrPause => 1 case DrExit2 => 2 case DrUpdate => 1 case IrSelect => 3
      case IrCapture => 4 case IrShift => 5 case IrExit1 => 5 case IrPause => 6 case IrExit2 => 7 case IrUpdate => 6)
    case DrPause =>
      (match t
      case Reset => 5 case Idle => 3 case DrSelect => 3 case DrCapture => 4
      case DrShift => 2 case DrExit1 => 3 case DrPause => 0 case DrExit2 => 1 case DrUpdate => 2 case IrSelect => 4
      case IrCapture => 5 case IrShift => 6 case IrExit1 => 6 case IrPause => 7 case IrExit2 => 8 case IrUpdate => 7)
    case DrExit2 =>
      (match t
      case Reset => 4 case Idle => 2 case DrSelect => 2 case DrCapture => 3
      case DrShift => 1 case DrExit1 => 2 case DrPause => 3 case DrExit2 => 0 case DrUpdate => 1 case IrSelect => 3
      case IrCapture => 4 case IrShift => 5 case IrExit1 => 5 case IrPause => 6 case IrExit2 => 7 case IrUpdate => 6)
    case DrUpdate =>
      (match t
      case Reset => 3 case Idle => 1 case DrSelect => 1 case DrCapture => 2
      case DrShift => 3 case DrExit1 => 3 case DrPause => 4 case DrExit2 => 5 case DrUpdate => 0 case IrSelect => 2
      case IrCapture => 3 case IrShift => 4 case IrExit1 => 4 case IrPause => 5 case IrExit2 => 6 case IrUpdate => 5)
    case IrSelect =>
      (match t
      case Reset => 1 case Idle => 2 case DrSelect => 3 case DrCapture => 4
      case DrShift => 5 case DrExit1 => 5 case DrPause => 6 case DrExit2 => 7 case DrUpdate => 6 case IrSelect => 0
      case IrCapture => 1 case IrShift => 2 case IrExit1 => 2 case IrPause => 3 case IrExit2 => 4 case IrUpdate => 3)
    case IrCapture =>
      (match t
      case Reset => 5 case Idle => 3 case DrSelect => 3 case DrCapture => 4
      case DrShift => 5 case DrExit1 => 5 case DrPause => 6 case DrExit2 => 7 case DrUpdate => 6 case IrSelect => 4
      case IrCapture => 0 case IrShift => 1 case IrExit1 => 1 case IrPause => 2 case IrExit2 => 3 case IrUpdate => 2)
    case IrShift =>
      (match t
      case Reset => 5 case Idle => 3 case DrSelect => 3 case DrCapture => 4
      case DrShift => 5 case DrExit1 => 5 case DrPause => 6 case DrExit2 => 7 case DrUpdate => 6 case IrSelect => 4
      case IrCapture => 5 case IrShift => 0 case IrExit1 => 1 case IrPause => 2 case IrExit2 => 3 case IrUpdate => 2)
    case IrExit1 =>
      (match t
      case Reset => 4 case Idle => 2 case DrSelect => 2 case DrCapture => 3
      case DrShift => 4 case DrExit1 => 4 case DrPause => 5 case DrExit2 => 6 case DrUpdate => 5 case IrSelect => 3
      case IrCapture => 4 case IrShift => 3 case IrExit1 => 0 case IrPause => 1 case IrExit2 => 2 case IrUpdate => 1)
    case IrPause =>
      (match t
      case Reset => 5 case Idle => 3 case DrSelect => 3 case DrCapture => 4
      case DrShift => 5 case DrExit1 => 5 case DrPause => 6 case DrExit2 => 7 case DrUpdate => 6 case IrSelect => 4
      case IrCapture => 5 case IrShift => 2 case IrExit1 => 3 case IrPause => 0 case IrExit2 => 1 case IrUpdate => 2)
    case IrExit2 =>
      (match t
      case Reset => 4 case Idle => 2 case DrSelect => 2 case DrCapture => 3
      case DrShift => 4 case DrExit1 => 4 case DrPause => 5 case DrExit2 => 6 case DrUpdate => 5 case IrSelect => 3
      case IrCapture => 4 case IrShift => 1 case IrExit1 => 2 case IrPause => 3 case IrExit2 => 0 case IrUpdate => 1)
    case IrUpdate =>
      (match t
      case Reset => 3 case Idle => 1 case DrSelect => 1 case DrCapture => 2
      case DrShift => 3 case DrExit1 => 3 case DrPause => 4 case DrExit2 => 5 case DrUpdate => 4 case IrSelect => 2
      case IrCapture => 3 case IrShift => 4 case IrExit1 => 4 case IrPause => 5 case IrExit2 => 6 case IrUpdate => 0)
  }

  lemma CertifiedFromReset(t: State)
    requires IsReal(t)
    ensures Dist(Reset, t) == 0 <==> Reset == t
    ensures Reset != t ==> Dist(TapDiagram(Reset, RouteBit(Reset, t)), t) + 1 == Dist(Reset, t)
    ensures Dist(Reset, t) <= Dist(TapDiagram(Reset, 0), t) + 1
    ensures Dist(Reset, t) <= Dist(TapDiagram(Reset, 1), t) + 1
  {
    match t
    case Reset => case Idle =>
    case DrSelect => case DrCapture => case DrShift => case DrExit1 => case DrPause => case DrExit2 => case DrUpdate =>
    case IrSelect => case IrCapture => case IrShift => case IrExit1 => case IrPause => case IrExit2 => case IrUpdate =>
  }

  lemma CertifiedFromIdle(t: State)
    requires IsReal(t)
    ensures Dist(Idle, t) == 0 <==> Idle == t
    ensures Idle != t ==> Dist(TapDiagram(Idle, RouteBit(Idle, t)), t) + 1 == Dist(Idle, t)
    ensures Dist(Idle, t) <= Dist(TapDiagram(Idle, 0), t) + 1
    ensures Dist(Idle, t) <= Dist(TapDiagram(Idle, 1), t) + 1
  {
    match t
    case Reset => case Idle =>
    case DrSelect => case DrCapture => case DrShift => case DrExit1 => case DrPause => case DrExit2 => case DrUpdate =>
    case IrSelect => case IrCapture => case IrShift => case IrExit1 => case IrPause => case IrExit2 => case IrUpdate =>
  }

  lemma CertifiedFromDrSelect(t: State)
    requires IsReal(t)
    ensures Dist(DrSelect, t) == 0 <==> DrSelect == t
    ensures DrSelect != t ==> Dist(TapDiagram(DrSelect, RouteBit(DrSelect, t)), t) + 1 == Dist(DrSelect, t)
    ensures Dist(DrSelect, t) <= Dist(TapDiagram(DrSelect, 0), t) + 1
    ensures Dist(DrSelect, t) <= Dist(TapDiagram(DrSelect, 1), t) + 1
  {
    match t
    case Reset => case Idle =>
    case DrSelect => case DrCapture => case DrShift => case DrExit1 => case DrPause => case DrExit2 => case DrUpdate =>
    case IrSelect => case IrCapture => case IrShift => case IrExit1 => case IrPause => case IrExit2 => case IrUpdate =>
  }

  lemma CertifiedFromDrCapture(t: State)
    requires IsReal(t)
    ensures Dist(DrCapture, t) == 0 <==> DrCapture == t
    ensures DrCapture != t ==> Dist(TapDiagram(DrCapture, RouteBit(DrCapture, t)), t) + 1 == Dist(DrCapture, t)
    ensures Dist(DrCapture, t) <= Dist(TapDiagram(DrCapture, 0), t) + 1
    ensures Dist(DrCapture, t) <= Dist(TapDiagram(DrCapture, 1), t) + 1
  {
    match t
    case Reset => case Idle =>
    case DrSelect => case DrCapture => case DrShift => case DrExit1 => case DrPause => case DrExit2 => case DrUpdate =>
    case IrSelect => case IrCapture => case IrShift => case IrExit1 => case IrPause => case IrExit2 => case IrUpdate =>
  }

  lemma CertifiedFromDrShift(t: State)
    requires IsReal(t)
    ensures Dist(DrShift, t) == 0 <==> DrShift == t
    ensures DrShift != t ==> Dist(TapDiagram(DrShift, RouteBit(DrShift, t)), t) + 1 == Dist(DrShift, t)
    ensures Dist(DrShift, t) <= Dist(TapDiagram(DrShift, 0), t) + 1
    ensures Dist(DrShift, t) <= Dist(TapDiagram(DrShift, 1), t) + 1
  {
    match t
    case Reset => case Idle =>
    case DrSelect => case DrCapture => case DrShift => case DrExit1 => case DrPause => case DrExit2 => case DrUpdate =>
    case IrSelect => case IrCapture => case IrShift => case IrExit1 => case IrPause => case IrExit2 => case IrUpdate =>
  }

  lemma CertifiedFromDrExit1(t: State)
    requires IsReal(t)
    ensures Dist(DrExit1, t) == 0 <==> DrExit1 == t
    ensures DrExit1 != t ==> Dist(TapDiagram(DrExit1, RouteBit(DrExit1, t)), t) + 1 == Dist(DrExit1, t)
    ensures Dist(DrExit1, t) <= Dist(TapDiagram(DrExit1, 0), t) + 1
    ensures Dist(DrExit1, t) <= Dist(TapDiagram(DrExit1, 1), t) + 1
  {
    match t
    case Reset => case Idle =>
    case DrSelect => case DrCapture => case DrShift => case DrExit1 => case DrPause => case DrExit2 => case DrUpdate =>
    case IrSelect => case IrCapture => case IrShift => case IrExit1 => case IrPause => case IrExit2 => case IrUpdate =>
  }

  lemma CertifiedFromDrPause(t: State)
    requires IsReal(t)
    ensures Dist(DrPause, t) == 0 <==> DrPause == t
    ensures DrPause != t ==> Dist(TapDiagram(DrPause, RouteBit(DrPause, t)), t) + 1 == Dist(DrPause, t)
    ensures Dist(DrPause, t) <= Dist(TapDiagram(DrPause, 0), t) + 1
    ensures Dist(DrPause, t) <= Dist(TapDiagram(DrPause, 1), t) + 1
  {
    match t
    case Reset => case Idle =>
    case DrSelect => case DrCapture => case DrShift => case DrExit1 => case DrPause => case DrExit2 => case DrUpdate =>
    case IrSelect => case IrCapture => case IrShift => case IrExit1 => case IrPause => case IrExit2 => case IrUpdate =>
  }

  lemma CertifiedFromDrExit2(t: State)
    requires IsReal(t)
    ensures Dist(DrExit2, t) == 0 <==> DrExit2 == t
    ensures DrExit2 != t ==> Dist(TapDiagram(DrExit2, RouteBit(DrExit2, t)), t) + 1 == Dist(DrExit2, t)
    ensures Dist(DrExit2, t) <= Dist(TapDiagram(DrExit2, 0), t) + 1
    ensures Dist(DrExit2, t) <= Dist(TapDiagram(DrExit2, 1), t) + 1
  {
    match t
    case Reset => case Idle =>
    case DrSelect => case DrCapture => case DrShift => case DrExit1 => case DrPause => case DrExit2 => case DrUpdate =>
    case IrSelect => case IrCapture => case IrShift => case IrExit1 => case IrPause => case IrExit2 => case IrUpdate =>
  }

  lemma CertifiedFromDrUpdate(t: State)
    requires IsReal(t)
    ensures Dist(DrUpdate, t) == 0 <==> DrUpdate == t
    ensures DrUpdate != t ==> Dist(TapDiagram(DrUpdate, RouteBit(DrUpdate, t)), t) + 1 == Dist(DrUpdate, t)
    ensures Dist(DrUpdate, t) <= Dist(TapDiagram(DrUpdate, 0), t) + 1
    ensures Dist(DrUpdate, t) <= Dist(TapDiagram(DrUpdate, 1), t) + 1
  {
    match t
    case Reset => case Idle =>
    case DrSelect => case DrCapture => case DrShift => case DrExit1 => case DrPause => case DrExit2 => case DrUpdate =>
    case IrSelect => case IrCapture => case IrShift => case IrExit1 => case IrPause => case IrExit2 => case IrUpdate =>
  }

  lemma CertifiedFromIrSelect(t: State)
    requires IsReal(t)
    ensures Dist(IrSelect, t) == 0 <==> IrSelect == t
    ensures IrSelect != t ==> Dist(TapDiagram(IrSelect, RouteBit(IrSelect, t)), t) + 1 == Dist(IrSelect, t)
    ensures Dist(IrSelect, t) <= Dist(TapDiagram(IrSelect, 0), t) + 1
    ensures Dist(IrSelect, t) <= Dist(TapDiagram(IrSelect, 1), t) + 1
  {
    match t
    case Reset => case Idle =>
    case DrSelect => case DrCapture => case DrShift => case DrExit1 => case DrPause => case DrExit2 => case DrUpdate =>
    case IrSelect => case IrCapture => case IrShift => case IrExit1 => case IrPause => case IrExit2 => case IrUpdate =>
  }

  lemma CertifiedFromIrCapture(t: State)
    requires IsReal(t)
    ensures Dist(IrCapture, t) == 0 <==> IrCapture == t
    ensures IrCapture != t ==> Dist(TapDiagram(IrCapture, RouteBit(IrCapture, t)), t) + 1 == Dist(IrCapture, t)
    ensures Dist(IrCapture, t) <= Dist(TapDiagram(IrCapture, 0), t) + 1
    ensures Dist(IrCapture, t) <= Dist(TapDiagram(IrCapture, 1), t) + 1
  {
    match t
    case Reset => case Idle =>
    case DrSelect => case DrCapture => case DrShift => case DrExit1 => case DrPause => case DrExit2 => case DrUpdate =>
    case IrSelect => case IrCapture => case IrShift => case IrExit1 => case IrPause => case IrExit2 => case IrUpdate =>
  }

  lemma CertifiedFromIrShift(t: State)
    requires IsReal(t)
    ensures Dist(IrShift, t) == 0 <==> IrShift == t
    ensures IrShift != t ==> Dist(TapDiagram(IrShift, RouteBit(IrShift, t)), t) + 1 == Dist(IrShift, t)
    ensures Dist(IrShift, t) <= Dist(TapDiagram(IrShift, 0), t) + 1
    ensures Dist(IrShift, t) <= Dist(TapDiagram(IrShift, 1), t) + 1
  {
    match t
    case Reset => case Idle =>
    case DrSelect => case DrCapture => case DrShift => case DrExit1 => case DrPause => case DrExit2 => case DrUpdate =>
    case IrSelect => case IrCapture => case IrShift => case IrExit1 => case IrPause => case IrExit2 => case IrUpdate =>
  }

  lemma CertifiedFromIrExit1(t: State)
    requires IsReal(t)
    ensures Dist(IrExit1, t) == 0 <==> IrExit1 == t
    ensures IrExit1 != t ==> Dist(TapDiagram(IrExit1, RouteBit(IrExit1, t)), t) + 1 == Dist(IrExit1, t)
    ensures Dist(IrExit1, t) <= Dist(TapDiagram(IrExit1, 0), t) + 1
    ensures Dist(IrExit1, t) <= Dist(TapDiagram(IrExit1, 1), t) + 1
  {
    match t
    case Reset => case Idle =>
    case DrSelect => case DrCapture => case DrShift => case DrExit1 => case DrPause => case DrExit2 => case DrUpdate =>
    case IrSelect => case IrCapture => case IrShift => case IrExit1 => case IrPause => case IrExit2 => case IrUpdate =>
  }

  lemma CertifiedFromIrPause(t: State)
    requires IsReal(t)
    ensures Dist(IrPause, t) == 0 <==> IrPause == t
    ensures IrPause != t ==> Dist(TapDiagram(IrPause, RouteBit(IrPause, t)), t) + 1 == Dist(IrPause, t)
    ensures Dist(IrPause, t) <= Dist(TapDiagram(IrPause, 0), t) + 1
    ensures Dist(IrPause, t) <= Dist(TapDiagram(IrPause, 1), t) + 1
  {
    match t
    case Reset => case Idle =>
    case DrSelect => case DrCapture => case DrShift => case DrExit1 => case DrPause => case DrExit2 => case DrUpdate =>
    case IrSelect => case IrCapture => case IrShift => case IrExit1 => case IrPause => case IrExit2 => case IrUpdate =>
  }

  lemma CertifiedFromIrExit2(t: State)
    requires IsReal(t)
    ensures Dist(IrExit2, t) == 0 <==> IrExit2 == t
    ensures IrExit2 != t ==> Dist(TapDiagram(IrExit2, RouteBit(IrExit2, t)), t) + 1 == Dist(IrExit2, t)
    ensures Dist(IrExit2, t) <= Dist(TapDiagram(IrExit2, 0), t) + 1
    ensures Dist(IrExit2, t) <= Dist(TapDiagram(IrExit2, 1), t) + 1
  {
    match t
    case Reset => case Idle =>
    case DrSelect => case DrCapture => case DrShift => case DrExit1 => case DrPause => case DrExit2 => case DrUpdate =>
    case IrSelect => case IrCapture => case IrShift => case IrExit1 => case IrPause => case IrExit2 => case IrUpdate =>
  }

  lemma CertifiedFromIrUpdate(t: State)
    requires IsReal(t)
    ensures Dist(IrUpdate, t) == 0 <==> IrUpdate == t
    ensures IrUpdate != t ==> Dist(TapDiagram(IrUpdate, RouteBit(IrUpdate, t)), t) + 1 == Dist(IrUpdate, t)
    ensures Dist(IrUpdate, t) <= Dist(TapDiagram(IrUpdate, 0), t) + 1
    ensures Dist(IrUpdate, t) <= Dist(TapDiagram(IrUpdate, 1), t) + 1
  {
    match t
    case Reset => case Idle =>
    case DrSelect => case DrCapture => case DrShift => case DrExit1 => case DrPause => case DrExit2 => case DrUpdate =>
    case IrSelect => case IrCapture => case IrShift => case IrExit1 => case IrPause => case IrExit2 => case IrUpdate =>
  }

  lemma DistCertified(s: State, t: State)
    requires IsReal(s) && IsReal(t)
    ensures Dist(s, t) == 0 <==> s == t
    ensures s != t ==> Dist(TapDiagram(s, RouteBit(s, t)), t) + 1 == Dist(s, t)
    ensures Dist(s, t) <= Dist(TapDiagram(s, 0), t) + 1
    ensures Dist(s, t) <= Dist(TapDiagram(s, 1), t) + 1
  {
    match s
    case Reset => CertifiedFromReset(t);
    case Idle => CertifiedFromIdle(t);
    case DrSelect => CertifiedFromDrSelect(t);
    case DrCapture => CertifiedFromDrCapture(t);
    case DrShift => CertifiedFromDrShift(t);
    case DrExit1 => CertifiedFromDrExit1(t);
    case DrPause => CertifiedFromDrPause(t);
    case DrExit2 => CertifiedFromDrExit2(t);
    case DrUpdate => CertifiedFromDrUpdate(t);
    case IrSelect => CertifiedFromIrSelect(t);
    case IrCapture => CertifiedFromIrCapture(t);
    case IrShift => CertifiedFromIrShift(t);
    case IrExit1 => CertifiedFromIrExit1(t);
    case IrPause => CertifiedFromIrPause(t);
    case IrExit2 => CertifiedFromIrExit2(t);
    case IrUpdate => CertifiedFromIrUpdate(t);
  }

  /** A state is at distance zero from itself. */
  lemma DistToSelf(s: State)
    requires IsReal(s)
    ensures Dist(s, s) == 0
  {
  }

  /**
   * From a real state, a walk with at least Dist(s, t) passes arrives at a
   * real target after exactly Dist(s, t) edges, and clocking those TMS values
   * into the device brings it to the target.
   */
  lemma {:induction false} WalkByDist(s: State, t: State, fuel: nat)
    requires IsReal(s) && IsReal(t) && Dist(s, t) <= fuel
    ensures Walk(s, t, fuel).1 == t
    ensures |Walk(s, t, fuel).0| == Dist(s, t)
    ensures Replay(s, Walk(s, t, fuel).0) == t
    decreases fuel
  {
    if s == t {
      DistToSelf(s);
    } else {
      var b, n := RouteStep(s, t);
      WalkByDist(n, t, fuel - 1);
      var w := Walk(n, t, fuel - 1);
      WalkUnfold(s, t, fuel);
      ReplayStep(s, b, w.0);
    }
  }

  /** One pass of the walk between distinct real states moves one edge closer to the target. */
  lemma RouteStep(s: State, t: State) returns (b: Bit, n: State)
    requires IsReal(s) && IsReal(t) && s != t
    ensures b == RouteBit(s, t) && n == Next(s, b)
    ensures n == Pass(s, t) && [b] == PassTms(s, t)
    ensures IsReal(n) && Dist(n, t) + 1 == Dist(s, t)
  {
    b := RouteBit(s, t);
    n := Next(s, b);
    DistCertified(s, t);
  }

  /** Every sequence of TMS values that takes the device from s to t has at least Dist(s, t) edges. */
  lemma {:induction false} DistLowerBound(s: State, t: State, tms: seq<Bit>)
    requires IsReal(s) && IsReal(t) && Replay(s, tms) == t
    ensures Dist(s, t) <= |tms|
    decreases |tms|
  {
    DistCertified(s, t);
    if tms != [] {
      var n := Next(s, tms[0]);
      DistLowerBound(n, t, tms[1..]);
    }
  }

  /** goToState reaches its target whenever it returns at all. */
  lemma RouteArrives(s: State, t: State)
    requires Routable(s, t)
    ensures Walk(s, t, RouteFuel).1 == t
  {
    if s == t {
    } else if s == Unknown {
      WalkByDist(Reset, t, RouteFuel - 1);
    } else {
      WalkByDist(s, t, RouteFuel);
    }
  }

  /**
   * Outside Routable, goToState loops for ever: from UNDEFINED every edge
   * leaves it UNDEFINED, and no sequence of edges leads to a sentinel target
   * from anywhere but that sentinel itself.
   */
  lemma {:induction false} NeverArrives(s: State, t: State, fuel: nat)
    requires !Routable(s, t)
    ensures Walk(s, t, fuel).1 != t
    decreases fuel
  {
    if fuel == 0 {
      assert Walk(s, t, fuel) == ([], s);
    } else {
      WalkUnfold(s, t, fuel);
      PassKeepsUnroutable(s, t);
      NeverArrives(Pass(s, t), t, fuel - 1);
    }
  }

  /** A walk of positive fuel that is not yet at its target makes one pass and walks on from there. */
  lemma WalkUnfold(s: State, t: State, fuel: nat)
    requires s != t && fuel > 0
    ensures var w := Walk(Pass(s, t), t, fuel - 1);
      Walk(s, t, fuel) == (PassTms(s, t) + w.0, w.1)
  {
  }

  /** A pass from a pair outside Routable leads to another pair outside it. */
  lemma PassKeepsUnroutable(s: State, t: State)
    requires !Routable(s, t)
    ensures !Routable(Pass(s, t), t)
  {
  }

  /** Going to the current state emits nothing. */
  lemma RouteToSelf(s: State)
    ensures Route(s, s) == []
  {
  }

  /**
   * How many more passes goToState's loop makes from s before it reaches t:
   * one for the escape from UNKNOWN, then one per edge of a shortest path.
   */
  function Remaining(s: State, t: State): nat
    requires Routable(s, t)
  {
    if s == t then 0 else if s == Unknown then Dist(Reset, t) + 1 else Dist(s, t)
  }

  /**
   * One pass of goToState's loop peels its TMS values off the front of the
   * route and leaves a routable pair that is one pass closer.
   */
  lemma RoutePeel(s: State, t: State)
    requires Routable(s, t) && s != t
    ensures s == Unknown ==>
      && Route(s, t) == Escape + Route(Reset, t)
      && Routable(Reset, t) && Remaining(Reset, t) < Remaining(s, t)
    ensures s != Unknown ==> var b := RouteBit(s, t); var n := Next(s, b);
      && Route(s, t) == [b] + Route(n, t)
      && Routable(n, t) && Remaining(n, t) < Remaining(s, t)
  {
    if s == Unknown {
      PeelEscape(t);
    } else {
      PeelEdge(s, t);
    }
  }

  /** The pass from UNKNOWN of RoutePeel. */
  lemma PeelEscape(t: State)
    requires Routable(Unknown, t) && Unknown != t
    ensures Route(Unknown, t) == Escape + Route(Reset, t)
    ensures Routable(Reset, t) && Remaining(Reset, t) < Remaining(Unknown, t)
  {
    RouteFromUnknown(t);
  }

  /** The pass from a real state of RoutePeel. */
  lemma PeelEdge(s: State, t: State)
    requires Routable(s, t) && s != t && s != Unknown
    ensures var b := RouteBit(s, t); var n := Next(s, b);
      && Route(s, t) == [b] + Route(n, t)
      && Routable(n, t) && Remaining(n, t) < Remaining(s, t)
  {
    EdgeRoute(s, t);
    EdgeCloser(s, t);
  }

  /** From a real state, the route is the path table's edge followed by the route from the next state. */
  lemma EdgeRoute(s: State, t: State)
    requires IsReal(s) && IsReal(t) && s != t
    ensures Route(s, t) == [RouteBit(s, t)] + Route(Next(s, RouteBit(s, t)), t)
  {
    var b, n := RouteStep(s, t);
    WalkUnfold(s, t, RouteFuel);
    WalkFuelIrrelevant(n, t, RouteFuel - 1);
    WalkFuelIrrelevant(n, t, RouteFuel);
  }

  /** From a real state, the path table's edge leaves one pass fewer. */
  lemma EdgeCloser(s: State, t: State)
    requires IsReal(s) && IsReal(t) && s != t
    ensures Routable(Next(s, RouteBit(s, t)), t)
    ensures Remaining(Next(s, RouteBit(s, t)), t) < Remaining(s, t)
  {
    var b, n := RouteStep(s, t);
  }

  /** A walk that enters a real target keeps to the same route whatever fuel is left over. */
  lemma WalkFuelIrrelevant(s: State, t: State, fuel: nat)
    requires IsReal(s) && IsReal(t) && Dist(s, t) <= fuel
    ensures Walk(s, t, fuel) == Walk(s, t, Dist(s, t))
  {
    WalkByDist(s, t, Dist(s, t));
    WalkSettles(s, t, Dist(s, t), fuel);
  }

  /** Once a walk has reached its target within k passes, more fuel changes nothing. */
  lemma {:induction false} WalkSettles(s: State, t: State, k: nat, fuel: nat)
    requires Walk(s, t, k).1 == t && k <= fuel
    ensures Walk(s, t, fuel) == Walk(s, t, k)
    decreases k
  {
    if s != t {
      WalkUnfold(s, t, k);
      WalkSettles(Pass(s, t), t, k - 1, fuel - 1);
      WalkAfterPass(s, t, k, fuel);
    }
  }

  /** Two walks of positive fuel from the same state agree when the walks after their first pass agree. */
  lemma WalkAfterPass(s: State, t: State, f1: nat, f2: nat)
    requires s != t && f1 > 0 && f2 > 0
    requires Walk(Pass(s, t), t, f1 - 1) == Walk(Pass(s, t), t, f2 - 1)
    ensures Walk(s, t, f1) == Walk(s, t, f2)
  {
  }

  /** One pass from UNKNOWN: six TMS=1 edges, then the walk from RESET. */
  lemma WalkFromUnknown(t: State, fuel: nat)
    requires t != Unknown && fuel > 0
    ensures Walk(Unknown, t, fuel).0 == Escape + Walk(Reset, t, fuel - 1).0
  {
  }

  /** From UNKNOWN, goToState first emits six TMS=1 edges and then routes from RESET. */
  lemma RouteFromUnknown(t: State)
    requires IsReal(t)
    ensures Route(Unknown, t) == Escape + Route(Reset, t)
  {
    WalkFromUnknown(t, RouteFuel);
    WalkFuelIrrelevant(Reset, t, RouteFuel - 1);
    WalkFuelIrrelevant(Reset, t, RouteFuel);
  }

  /** Between real states, the emitted TMS values drive the device to the target along a shortest path. */
  lemma RouteDrivesDevice(s: State, t: State)
    requires IsReal(s) && IsReal(t)
    ensures Replay(s, Route(s, t)) == t
    ensures |Route(s, t)| == Dist(s, t)
  {
    WalkByDist(s, t, RouteFuel);
  }

  /** No sequence of TMS values between two real states is shorter than the one goToState emits. */
  lemma RouteIsShortest(s: State, t: State, tms: seq<Bit>)
    requires IsReal(s) && IsReal(t) && Replay(s, tms) == t
    ensures |Route(s, t)| <= |tms|
  {
    WalkByDist(s, t, RouteFuel);
    DistLowerBound(s, t, tms);
  }

  /**
   * Leaving UNKNOWN works whatever state the device is really in: the six
   * TMS=1 edges reset it, and the rest of the route then takes it to t.
   */
  lemma EscapeFromAnyState(d: State, t: State)
    requires IsReal(d) && IsReal(t)
    ensures Replay(d, Route(Unknown, t)) == t
  {
    RouteFromUnknown(t);
    FiveOnesReset(d);
    ReplayConcat(d, Escape, Route(Reset, t));
    RouteDrivesDevice(Reset, t);
  }
}
