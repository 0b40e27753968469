/**
 * The tank-control state machine (controlDeposito.c): three states
 * (1 idle, 2 filling, 3 draining), six guarded rows and the actions that
 * switch the pump and the two solenoid valves.
 *
 * The guards read seven conditions that the firmware leaves as local
 * constants 0 with a note to wire them later; here they are the explicit
 * inputs `TankInputs`, and `StubInputs` is what the firmware actually
 * evaluates.  The actuator calls only log, so the pump and valves are ghost
 * state of the controller.
 */
module ControlDeposito {
  import opened CTypes
  import opened Fsm

  datatype TankGuard = C12 | C13 | C21 | C23 | C31 | C32
  datatype TankAction = A12 | A13 | A21 | A23 | A31 | A32

  /** The conditions the guards test. */
  datatype TankInputs = TankInputs(emergencia: bool, llenado: bool, vaciado: bool,
                                   llenadoStop: bool, vaciadoStop: bool,
                                   nivelMin: bool, nivelMax: bool)

  /** What the firmware's guards actually evaluate: every condition is 0. */
  const StubInputs := TankInputs(false, false, false, false, false, false, false)

  /**
   * The guards deposito_c12 … deposito_c32 as the C integer expressions over
   * 0/1 values, converted to `bool` (nonzero) on return.  The contract gives
   * the logical reading of each formula.
   */
  function GuardHolds(g: TankGuard, x: TankInputs): (r: bool)
    ensures g == C12 ==> (r <==> !x.emergencia && (x.llenado || x.nivelMin))
    ensures g == C13 ==> (r <==> !x.emergencia && x.vaciado)
    ensures g == C21 ==> (r <==> x.emergencia || x.llenadoStop || x.nivelMax)
    ensures g == C23 ==> (r <==> x.vaciado)
    ensures g == C31 ==> (r <==> x.emergencia || x.vaciadoStop)
    ensures g == C32 ==> (r <==> x.llenado)
  {
    var em := BoolToInt(x.emergencia);
    var notEm := BoolToInt(em == 0);
    match g
    case C12 => notEm * (BoolToInt(x.llenado) + BoolToInt(x.nivelMin)) != 0
    case C13 => notEm * BoolToInt(x.vaciado) != 0
    case C21 => em + BoolToInt(x.llenadoStop) + BoolToInt(x.nivelMax) != 0
    case C23 => BoolToInt(x.vaciado) != 0
    case C31 => em + BoolToInt(x.vaciadoStop) != 0
    case C32 => BoolToInt(x.llenado) != 0
  }

  /** controlDeposito_tt: the six rows in declared order and the sentinel. */
  const Table: seq<Transition<TankGuard, TankAction>> := [
    Transition(1, Some(C12), 2, Some(A12)),
    Transition(1, Some(C13), 3, Some(A13)),
    Transition(2, Some(C21), 1, Some(A21)),
    Transition(2, Some(C23), 3, Some(A23)),
    Transition(3, Some(C31), 1, Some(A31)),
    Transition(3, Some(C32), 2, Some(A32)),
    Transition(-1, None, -1, None)
  ]

  /**
   * Reference definition of the controller, independent of the table:
   * the next state for each state and input.
   */
  function Successor(state: int, x: TankInputs): int {
    if state == 1 then
      (if !x.emergencia && (x.llenado || x.nivelMin) then 2
       else if !x.emergencia && x.vaciado then 3
       else 1)
    else if state == 2 then
      (if x.emergencia || x.llenadoStop || x.nivelMax then 1
       else if x.vaciado then 3
       else 2)
    else if state == 3 then
      (if x.emergencia || x.vaciadoStop then 1
       else if x.llenado then 2
       else 3)
    else state
  }

  /** The state after one `fsm_update` over the table. */
  function NextState(state: int, x: TankInputs): (s: int)
  {
    var fired := Scan(Table, 0, state, g => GuardHolds(g, x));
    if fired.Some? then Table[fired.value].dest else state
  }

  /** Rows 0 and 1 leave state 1; every other live row starts elsewhere. */
  lemma IdleRows(x: TankInputs)
    ensures NextState(1, x) == Successor(1, x)
  {
    var h := (g: TankGuard) => GuardHolds(g, x);
    assert Scan(Table, 6, 1, h) == None;
    ScanSkips(Table, 2, 6, 1, h);
    ScanAt(Table, 1, 1, h);
    ScanAt(Table, 0, 1, h);
  }

  /** Rows 2 and 3 leave state 2. */
  lemma FillingRows(x: TankInputs)
    ensures NextState(2, x) == Successor(2, x)
  {
    var h := (g: TankGuard) => GuardHolds(g, x);
    assert Scan(Table, 6, 2, h) == None;
    ScanSkips(Table, 4, 6, 2, h);
    ScanAt(Table, 3, 2, h);
    ScanAt(Table, 2, 2, h);
    ScanSkips(Table, 0, 2, 2, h);
  }

  /** Rows 4 and 5 leave state 3. */
  lemma DrainingRows(x: TankInputs)
    ensures NextState(3, x) == Successor(3, x)
  {
    var h := (g: TankGuard) => GuardHolds(g, x);
    assert Scan(Table, 6, 3, h) == None;
    ScanAt(Table, 5, 3, h);
    ScanAt(Table, 4, 3, h);
    ScanSkips(Table, 0, 4, 3, h);
  }

  /** The table, scanned by the engine, implements the reference controller. */
  lemma TableImplementsSuccessor(state: int, x: TankInputs)
    ensures NextState(state, x) == Successor(state, x)
  {
    if state == 1 {
      IdleRows(x);
    } else if state == 2 {
      FillingRows(x);
    } else if state == 3 {
      DrainingRows(x);
    } else {
      var h := (g: TankGuard) => GuardHolds(g, x);
      ScanSkips(Table, 0, 6, state, h);
      assert Scan(Table, 6, state, h) == None;
    }
  }

  /** In state 1 an active emergency disables both outgoing rows. */
  lemma {:induction false} EmergencyKeepsIdle(x: TankInputs)
    requires x.emergencia
    ensures NextState(1, x) == 1
  {
    TableImplementsSuccessor(1, x);
  }

  /**
   * While filling or draining, an active emergency returns to state 1:
   * the emergency rows 2→1 and 3→1 are listed before 2→3 and 3→2.
   */
  lemma {:induction false} EmergencyStops(state: int, x: TankInputs)
    requires state == 2 || state == 3
    requires x.emergencia
    ensures NextState(state, x) == 1
  {
    TableImplementsSuccessor(state, x);
  }

  /** With fill (or low level) and drain both requested, filling wins: row 1→2 precedes 1→3. */
  lemma {:induction false} FillBeatsDrain(x: TankInputs)
    requires !x.emergencia && (x.llenado || x.nivelMin) && x.vaciado
    ensures NextState(1, x) == 2
  {
    TableImplementsSuccessor(1, x);
  }

  /** With the stubbed guard inputs no row ever fires: the machine stays where it is. */
  lemma {:induction false} StubsNeverMove(state: int)
    ensures NextState(state, StubInputs) == state
  {
    TableImplementsSuccessor(state, StubInputs);
  }

  /** The pump and the two solenoid valves. */
  datatype Actuators = Actuators(pump: bool, fillValve: bool, drainValve: bool)

  /** The actuator setting each state must have. */
  function ActuatorsFor(state: int): Actuators
  {
    if state == 2 then Actuators(true, true, false)
    else if state == 3 then Actuators(false, false, true)
    else Actuators(false, false, false)
  }

  /** The actions deposito_a12 … deposito_a31 as effects on the actuators. */
  function Apply(a: TankAction, u: Actuators): Actuators
  {
    match a
    case A12 => u.(pump := true).(fillValve := true)
    case A13 => u.(drainValve := true)
    case A23 => u.(pump := false).(fillValve := false).(drainValve := true)
    case A32 => u.(drainValve := false).(fillValve := true).(pump := true)
    case A21 => u.(pump := false).(fillValve := false)
    case A31 => u.(drainValve := false)
  }

  /**
   * Every row's action takes the setting of its origin state to the setting
   * of its destination state.
   */
  lemma ActionsKeepSetting(i: nat)
    requires i < |Table| && Table[i].orig >= 0
    ensures Table[i].out.Some?
    ensures Apply(Table[i].out.value, ActuatorsFor(Table[i].orig)) == ActuatorsFor(Table[i].dest)
  {
  }

  /** In every state's setting the valves are never open together and the pump runs exactly with the fill valve. */
  lemma SettingIsSafe(state: int)
    ensures !(ActuatorsFor(state).fillValve && ActuatorsFor(state).drainValve)
    ensures ActuatorsFor(state).pump == ActuatorsFor(state).fillValve
  {
  }

  /** The control task: its state machine and the (ghost) actuators. */
  class TankController {
    const machine: Machine<TankGuard, TankAction>
    ghost var actuators: Actuators

    /** The actuators match the machine's state, which is one of 1, 2, 3. */
    ghost predicate Consistent()
      reads this, machine
    {
      machine.tt == Table &&
      1 <= machine.currentState <= 3 &&
      actuators == ActuatorsFor(machine.currentState)
    }

    /**
     * The set-up of tareaControlDeposito: builds the machine over the table
     * (state 1) and switches the pump off and both valves closed.
     */
    constructor Start()
      ensures fresh(machine)
      ensures Consistent()
      ensures machine.currentState == 1
      ensures actuators == Actuators(false, false, false)
    {
      machine := new Machine.Init(Table);
      new;
      actuators := Actuators(true, true, true);
      BombaOff();
      ValvLlenClose();
      ValvVacClose();
    }

    method BombaOn()
      modifies this`actuators
      ensures actuators == old(actuators).(pump := true)
    {
      actuators := actuators.(pump := true);
    }

    method BombaOff()
      modifies this`actuators
      ensures actuators == old(actuators).(pump := false)
    {
      actuators := actuators.(pump := false);
    }

    method ValvLlenOpen()
      modifies this`actuators
      ensures actuators == old(actuators).(fillValve := true)
    {
      actuators := actuators.(fillValve := true);
    }

    method ValvLlenClose()
      modifies this`actuators
      ensures actuators == old(actuators).(fillValve := false)
    {
      actuators := actuators.(fillValve := false);
    }

    method ValvVacOpen()
      modifies this`actuators
      ensures actuators == old(actuators).(drainValve := true)
    {
      actuators := actuators.(drainValve := true);
    }

    method ValvVacClose()
      modifies this`actuators
      ensures actuators == old(actuators).(drainValve := false)
    {
      actuators := actuators.(drainValve := false);
    }

    /** Runs one action: the actuator calls of deposito_a12 … deposito_a31 in their order. */
    method Run(a: TankAction)
      modifies this`actuators
      ensures actuators == Apply(a, old(actuators))
    {
      match a
      case A12 => BombaOn(); ValvLlenOpen();
      case A13 => ValvVacOpen();
      case A23 => BombaOff(); ValvLlenClose(); ValvVacOpen();
      case A32 => ValvVacClose(); ValvLlenOpen(); BombaOn();
      case A21 => BombaOff(); ValvLlenClose();
      case A31 => ValvVacClose();
    }

    /**
     * One activation of the control task: `fsm_update` with the guards
     * evaluated on `x`, then the fired row's action.  The new state is the
     * reference successor and the actuators stay consistent with it.
     */
    method Step(x: TankInputs)
      requires Consistent()
      modifies this`actuators, machine`currentState
      ensures Consistent()
      ensures machine.currentState == Successor(old(machine.currentState), x)
    {
      assert Table[6].orig < 0;
      var fired, output := machine.Update(g => GuardHolds(g, x));
      TableImplementsSuccessor(old(machine.currentState), x);
      if fired.Some? {
        ActionsKeepSetting(fired.value);
        Run(output.value);
      }
    }
  }
}
