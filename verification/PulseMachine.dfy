/** Start, cancel and read-out run one statement at a time, with interrupts between any two
    statements. Assumed, since the driver does not enforce it: one assignment to the flags is
    indivisible, and API callers are serialised with each other. */
module PulseMachine {
  import opened PulseFilter
  import opened PulseDevice
  import opened Words

  datatype Code = Ok | EBUSY | EINVAL | EIO

  /** The statements of the API functions, in source order. */
  datatype Stmt =
    // pulsecap_start_capture
    | TestEnable | TestDone | TestCount | InitTimer | SetTarget | ClearPtr
    | SetEnable | ClearDone | ClearRead | ClearCancelled | StartTimer
    // pulsecap_cancel_capture
    | TestAnyFlag | DisableInterrupts | StopTimer | DropEnable | DropDone | SetCancelled
    // edge_data_show, once the edges have been copied
    | MarkRead

  datatype Pc = Idle | At(stmt: Stmt, n: Word)

  /** `seen`, `started`, `lost` and `late` record the run: the edges offered through the open gate
      since the pointer was last cleared, whether any start has set ENABLE, whether the latest
      capture completed before its own start cleared DONE, and if so the edges offered after. */
  datatype Machine = Machine(dev: Device, pc: Pc, ret: Code,
                             seen: seq<Edge>, started: bool, lost: bool, late: seq<Edge>)

  datatype Action = Interrupt(irq: Irq) | CallStart(n: Word) | CallCancel | CallReadOut | Next

  const NO_EDGE := Edge(High, 0)

  /** devm_kzalloc zeroes the instance. */
  function Initial(): Machine {
    Machine(Device(seq(MAX_COUNT + 1, i => NO_EDGE), 0, 0, CLEAR), Idle, Ok, [], false, false, [])
  }

  function OnInterrupt(m: Machine, irq: Irq): Machine
    requires Fits(m.dev)
  {
    if !Gate(m.dev) then m
    else
      var e := EdgeOf(irq);
      m.(dev := OnIrq(m.dev, irq), seen := m.seen + [e],
         late := if m.lost then m.late + [e] else m.late)
  }

  function Return(m: Machine, ret: Code): Machine { m.(pc := Idle, ret := ret) }

  function SetFlags(m: Machine, flags: Flags): Machine { m.(dev := m.dev.(flags := flags)) }

  function Readable(d: Device): bool { d.flags.done || d.flags.cancelled }

  /** The arrays are in bounds, and a target that passed the range test is in range. */
  predicate Sane(m: Machine) {
    && Fits(m.dev)
    && (m.pc.At? && (m.pc.stmt.InitTimer? || m.pc.stmt.SetTarget?) ==> m.pc.n <= MAX_COUNT)
  }

  predicate IsStart(stmt: Stmt) {
    || stmt.TestEnable? || stmt.TestDone? || stmt.TestCount? || stmt.InitTimer? || stmt.SetTarget?
    || stmt.ClearPtr? || stmt.SetEnable? || stmt.ClearDone? || stmt.ClearRead?
    || stmt.ClearCancelled? || stmt.StartTimer?
  }

  /** Where statement s leads, and what it returns if it ends the call. */
  function Following(s: Stmt, n: Word, f: Flags): (Pc, Code) {
    match s
    case TestEnable => (At(if f.enable then TestDone else TestCount, n), Ok)
    case TestDone => if f.done then (At(TestCount, n), Ok) else (Idle, EBUSY)
    case TestCount => if n > MAX_COUNT then (Idle, EINVAL) else (At(InitTimer, n), Ok)
    case InitTimer => (At(SetTarget, n), Ok)
    case SetTarget => (At(ClearPtr, n), Ok)
    case ClearPtr => (At(SetEnable, n), Ok)
    case SetEnable => (At(ClearDone, n), Ok)
    case ClearDone => (At(ClearRead, n), Ok)
    case ClearRead => (At(ClearCancelled, n), Ok)
    case ClearCancelled => (At(StartTimer, n), Ok)
    case TestAnyFlag => if f == CLEAR then (Idle, EIO) else (At(DisableInterrupts, n), Ok)
    case DisableInterrupts => (At(StopTimer, n), Ok)
    case StopTimer => (At(DropEnable, n), Ok)
    case DropEnable => (At(DropDone, n), Ok)
    case DropDone => (At(SetCancelled, n), Ok)
    case StartTimer | SetCancelled | MarkRead => (Idle, Ok)
  }

  /** The machine after control has left its statement. */
  function Leave(m: Machine): Machine
    requires m.pc.At?
  {
    var (pc, ret) := Following(m.pc.stmt, m.pc.n, m.dev.flags);
    if pc.Idle? then Return(m, ret) else m.(pc := pc)
  }

  /** Runs a statement of pulsecap_start_capture. */
  function ExecuteStart(m: Machine): (r: Machine)
    requires Sane(m) && m.pc.At? && IsStart(m.pc.stmt)
    ensures Sane(r)
  {
    var d, f, r := m.dev, m.dev.flags, Leave(m);
    match m.pc.stmt
    case TestEnable | TestDone | TestCount | InitTimer | StartTimer => r
    case SetTarget => r.(dev := d.(target := m.pc.n))
    case ClearPtr => r.(dev := d.(ptr := 0), seen := [], lost := false, late := [])
    case SetEnable => SetFlags(r, f.(enable := true)).(started := true)
    case ClearDone => SetFlags(r, f.(done := false)).(lost := f.done && m.seen != [])
    case ClearRead => SetFlags(r, f.(read := false))
    case ClearCancelled => SetFlags(r, f.(cancelled := false))
  }

  /** Runs a statement of pulsecap_cancel_capture or of edge_data_show. */
  function ExecuteOther(m: Machine): (r: Machine)
    requires Sane(m) && m.pc.At? && !IsStart(m.pc.stmt)
    ensures Sane(r)
  {
    var f, r := m.dev.flags, Leave(m);
    match m.pc.stmt
    case TestAnyFlag | DisableInterrupts | StopTimer => r
    case DropEnable => SetFlags(r, f.(enable := false))
    case DropDone => SetFlags(r, f.(done := false))
    case SetCancelled => SetFlags(r, f.(cancelled := true))
    case MarkRead => SetFlags(r, f.(read := true))
  }

  /** Runs the statement the program counter points at. */
  function Execute(m: Machine): (r: Machine)
    requires Sane(m) && m.pc.At?
    ensures Sane(r)
  {
    if IsStart(m.pc.stmt) then ExecuteStart(m) else ExecuteOther(m)
  }

  function Act(m: Machine, a: Action): (r: Machine)
    requires Sane(m)
    ensures Sane(r)
  {
    match a
    case Interrupt(irq) => OnInterrupt(m, irq)
    case CallStart(n) => if m.pc.Idle? then m.(pc := At(TestEnable, n)) else m
    case CallCancel => if m.pc.Idle? then m.(pc := At(TestAnyFlag, 0)) else m
    case CallReadOut =>
      if m.pc.At? then m
      else if Readable(m.dev) then m.(pc := At(MarkRead, 0)) else Return(m, EBUSY)
    case Next => if m.pc.Idle? then m else Execute(m)
  }

  // ---- The invariant ----

  /** Between calls: nothing set before the first start, then exactly one of ENABLE and
      CANCELLED, and DONE only beside ENABLE. */
  predicate Coherent(m: Machine) {
    var f := m.dev.flags;
    if m.started then
      f.enable != f.cancelled && (f.done ==> f.enable)
    else
      f == CLEAR && m.seen == []
  }

  /** While a capture is enabled, DONE says that the filter has passed the goal; if start itself
      has wiped out a first DONE, it says that an edge to follow the last one kept came since. */
  predicate Exact(m: Machine)
    requires Fits(m.dev)
  {
    var goal := Goal(m.dev.target);
    var full := |Transitions(m.seen)| > goal;
    && (m.dev.flags.done ==> full)
    && (m.dev.flags.enable ==>
          (m.dev.flags.done <==> full && (m.lost ==> Opposed(m.late, goal))))
    && (if m.lost then full else m.late == [])
  }

  predicate InStep(m: Machine) {
    Fits(m.dev) && Tracks(m.dev, m.seen) && Exact(m)
  }

  /** What holds at each statement. */
  predicate Inv(m: Machine) {
    var d, f := m.dev, m.dev.flags;
    && Sane(m)
    && match m.pc
       case Idle => Coherent(m) && InStep(m)
       case At(stmt, n) =>
         match stmt
         case TestEnable | TestAnyFlag => Coherent(m) && InStep(m)
         case TestDone => Coherent(m) && InStep(m) && f.enable
         case TestCount => Coherent(m) && InStep(m) && !Gate(d)
         case InitTimer | SetTarget => Coherent(m) && InStep(m) && !Gate(d) && n <= MAX_COUNT
         case ClearPtr => Coherent(m) && !Gate(d) && n == d.target
         case SetEnable =>
           Coherent(m) && !Gate(d) && n == d.target && d.ptr == 0 && m.seen == [] && !m.lost && m.late == []
         case ClearDone =>
           && m.started && f.enable && n == d.target && Tracks(d, m.seen)
           && !m.lost && m.late == []
           && (f.done ==> m.seen == [] || |Transitions(m.seen)| > Goal(n))
           && (!f.done ==> |Transitions(m.seen)| <= Goal(n))
         case ClearRead | ClearCancelled =>
           m.started && f.enable && n == d.target && InStep(m)
         case StartTimer =>
           m.started && f.enable && !f.cancelled && n == d.target && InStep(m)
         case DisableInterrupts | StopTimer | DropEnable => Coherent(m) && InStep(m) && m.started
         case DropDone => m.started && !f.enable && InStep(m)
         case SetCancelled => m.started && !f.enable && !f.done && InStep(m)
         case MarkRead => Coherent(m) && InStep(m) && Readable(d)
  }

  lemma InvSane(m: Machine)
    requires Inv(m)
    ensures Sane(m)
  {
  }

  lemma InitialHolds()
    ensures Inv(Initial())
  {
  }

  lemma InterruptKeepsInStep(m: Machine, irq: Irq)
    requires InStep(m) && Gate(m.dev)
    ensures var r := OnInterrupt(m, irq);
            && InStep(r)
            && r.dev.flags == m.dev.flags.(done := r.dev.flags.done)
  {
    hide Tracks, Transitions, Opposed, OnIrq, LastLevel, Goal, EdgeOf;
    if |Transitions(m.seen)| <= Goal(m.dev.target) {
      TracksStepFilling(m.dev, m.seen, irq);
    } else {
      TracksStepFull(m.dev, m.seen, irq);
      OpposedSnoc(m.late, EdgeOf(irq), Goal(m.dev.target));
    }
  }

  lemma InterruptKeeps(m: Machine, irq: Irq)
    requires Inv(m)
    ensures Inv(OnInterrupt(m, irq))
  {
    if Gate(m.dev) {
      InterruptKeepsInStep(m, irq);
    }
  }

  lemma SetupKeeps(m: Machine)
    requires Inv(m) && m.pc.At? && IsStart(m.pc.stmt)
    requires m.pc.stmt in {TestEnable, TestDone, TestCount, InitTimer, SetTarget, ClearPtr}
    ensures Inv(ExecuteStart(m))
  {
  }

  lemma FlagsKeep(m: Machine)
    requires Inv(m) && m.pc.At? && IsStart(m.pc.stmt)
    requires m.pc.stmt in {SetEnable, ClearDone, ClearRead, ClearCancelled, StartTimer}
    ensures Inv(ExecuteStart(m))
  {
  }

  lemma OtherKeeps(m: Machine)
    requires Inv(m) && m.pc.At? && !IsStart(m.pc.stmt)
    ensures Inv(ExecuteOther(m))
  {
  }

  lemma ExecuteKeeps(m: Machine)
    requires Inv(m) && m.pc.At?
    ensures Inv(Execute(m))
  {
    hide Inv, ExecuteStart, ExecuteOther;
    InvSane(m);
    match m.pc.stmt
    case TestEnable | TestDone | TestCount | InitTimer | SetTarget | ClearPtr => SetupKeeps(m);
    case SetEnable | ClearDone | ClearRead | ClearCancelled | StartTimer => FlagsKeep(m);
    case _ => OtherKeeps(m);
  }

  lemma ActKeeps(m: Machine, a: Action)
    requires Inv(m)
    ensures Inv(Act(m, a))
  {
    match a
    case Interrupt(irq) => InterruptKeeps(m, irq);
    case Next => if m.pc.At? { ExecuteKeeps(m); }
    case _ =>
  }
}
