/**
 * The consumption task (calculaConsumo.c): the consumption formulas, the
 * availability check on the measurement buffer, the countdown used by the
 * monitoring machine, the monitoring machine's table, and one activation of
 * tareaConsumo, which turns pairs of measurements into hourly consumption
 * values.
 */
module CalculaConsumo {
  import opened CTypes
  import opened Mutex
  import opened Fsm
  import opened Timers
  import opened BufferCircular

  /*
   * Consumption formulas.  Each divides the sum of two measurements by the
   * period scaled to the unit; in C the scaled period is a product of `int`s,
   * so it wraps around past 2^31 - 1, and is then converted to `double`.
   */

  /** consumoSegundo as written: the divisor `periodo_ms*1000` in 32-bit arithmetic. */
  function ConsumoSegundoAsWritten(medida1: real, medida2: real, periodoMs: int): real
    requires Wrap32(periodoMs * 1000) != 0
  {
    (medida1 + medida2) / (Wrap32(periodoMs * 1000) as real)
  }

  /** consumoMinuto as written: the divisor `periodo_ms*1000*60`, each product in 32 bits. */
  function ConsumoMinutoAsWritten(medida1: real, medida2: real, periodoMs: int): real
    requires Wrap32(Wrap32(periodoMs * 1000) * 60) != 0
  {
    (medida1 + medida2) / (Wrap32(Wrap32(periodoMs * 1000) * 60) as real)
  }

  /** consumoHora as written: the divisor `periodo_ms*1000*3600`, each product in 32 bits. */
  function ConsumoHoraAsWritten(medida1: real, medida2: real, periodoMs: int): real
    requires Wrap32(Wrap32(periodoMs * 1000) * 3600) != 0
  {
    (medida1 + medida2) / (Wrap32(Wrap32(periodoMs * 1000) * 3600) as real)
  }

  /** The per-second consumption with the divisor computed exactly. */
  function ConsumoSegundo(medida1: real, medida2: real, periodoMs: int): real
    requires periodoMs != 0
  {
    (medida1 + medida2) / ((periodoMs * 1000) as real)
  }

  /** The per-minute consumption with the divisor computed exactly. */
  function ConsumoMinuto(medida1: real, medida2: real, periodoMs: int): real
    requires periodoMs != 0
  {
    (medida1 + medida2) / ((periodoMs * 1000 * 60) as real)
  }

  /** The per-hour consumption with the divisor computed exactly. */
  function ConsumoHora(medida1: real, medida2: real, periodoMs: int): real
    requires periodoMs != 0
  {
    (medida1 + medida2) / ((periodoMs * 1000 * 3600) as real)
  }

  /**
   * With a positive period each rate has the sign of the sum of the two
   * measurements: no positive pair yields a negative consumption.
   */
  lemma RatesKeepSign(medida1: real, medida2: real, periodoMs: int)
    requires 0 < periodoMs
    ensures 0.0 <= ConsumoSegundo(medida1, medida2, periodoMs) <==> 0.0 <= medida1 + medida2
    ensures 0.0 <= ConsumoMinuto(medida1, medida2, periodoMs) <==> 0.0 <= medida1 + medida2
    ensures 0.0 <= ConsumoHora(medida1, medida2, periodoMs) <==> 0.0 <= medida1 + medida2
  {
  }

  /** The three rates are the same consumption in different units. */
  lemma RatesAgree(medida1: real, medida2: real, periodoMs: int)
    requires periodoMs != 0
    ensures ConsumoSegundo(medida1, medida2, periodoMs) == 60.0 * ConsumoMinuto(medida1, medida2, periodoMs)
    ensures ConsumoSegundo(medida1, medida2, periodoMs) == 3600.0 * ConsumoHora(medida1, medida2, periodoMs)
  {
    var s := medida1 + medida2;
    var d := (periodoMs * 1000) as real;
    assert (periodoMs * 1000 * 60) as real == d * 60.0;
    assert (periodoMs * 1000 * 3600) as real == d * 3600.0;
    assert s / (d * 60.0) * 60.0 == s / d;
    assert s / (d * 3600.0) * 3600.0 == s / d;
  }

  /**
   * Up to the overflow bound of each divisor the formulas as written give the
   * exact rates: 2147483 ms per second, 35791 ms per minute, 596 ms per hour.
   */
  lemma {:induction false} AsWrittenExactBelowOverflow(medida1: real, medida2: real, periodoMs: int)
    requires 0 < periodoMs
    ensures periodoMs <= 2147483 ==>
              Wrap32(periodoMs * 1000) != 0 &&
              ConsumoSegundoAsWritten(medida1, medida2, periodoMs) == ConsumoSegundo(medida1, medida2, periodoMs)
    ensures periodoMs <= 35791 ==>
              Wrap32(Wrap32(periodoMs * 1000) * 60) != 0 &&
              ConsumoMinutoAsWritten(medida1, medida2, periodoMs) == ConsumoMinuto(medida1, medida2, periodoMs)
    ensures periodoMs <= 596 ==>
              Wrap32(Wrap32(periodoMs * 1000) * 3600) != 0 &&
              ConsumoHoraAsWritten(medida1, medida2, periodoMs) == ConsumoHora(medida1, medida2, periodoMs)
  {
    if periodoMs <= 2147483 {
      assert InInt32(periodoMs * 1000);
      if periodoMs <= 35791 {
        assert InInt32(periodoMs * 1000 * 60);
        if periodoMs <= 596 {
          assert InInt32(periodoMs * 1000 * 3600);
        }
      }
    }
  }

  /**
   * From 597 ms on, `periodo_ms*1000*3600` no longer fits an `int`: at 600 ms
   * the divisor wraps to a negative number and two positive measurements
   * give a negative hourly consumption.
   */
  lemma ConsumoHoraOverflowsAt600()
    ensures Wrap32(Wrap32(600 * 1000) * 3600) == -2134967296
    ensures ConsumoHoraAsWritten(1.0, 1.0, 600) < 0.0
    ensures ConsumoHora(1.0, 1.0, 600) > 0.0
  {
  }

  /** The period the task uses (a local constant of tareaConsumo). */
  const PeriodoMedidasMs: int := 500

  /** At the task's own period the per-hour formula as written is exact. */
  lemma TaskPeriodDoesNotOverflow(medida1: real, medida2: real)
    ensures Wrap32(Wrap32(PeriodoMedidasMs * 1000) * 3600) != 0
    ensures ConsumoHoraAsWritten(medida1, medida2, PeriodoMedidasMs) == ConsumoHora(medida1, medida2, PeriodoMedidasMs)
  {
    AsWrittenExactBelowOverflow(medida1, medida2, PeriodoMedidasMs);
  }

  /*
   * The monitoring machine (monitorizacionDeposito_tt).  Its guards read
   * conditions that the firmware still stubs (local 0s, or `return 0` with a
   * note naming the intended query); here they are the inputs
   * `MonitorInputs`.  The machine is built but never updated by the task.
   */

  datatype MonitorGuard = M16 | M11 | M12 | M13 | M14 | M15 | M26 | M21 | M23 | M24 | M25 | M36 | M31 | M32 | M34 | M35 | M46 | M41 | M42 | M43 | M45 | M56 | M51 | M52 | M53 | M54 | M62 | M63 | M64 | M65 | M61

  datatype MonitorInputs = MonitorInputs(
    esperaEstabilizacion: bool, estadoLlenado: bool, estadoVaciado: bool,
    emergencia: bool, comandoPuntual: bool, comandoContinuada: bool,
    comandoRemoto: bool, comandoManual: bool, peticionMedida: bool,
    medidaPuntual: bool, timerExpired: bool)

  /**
   * The guards with every stubbed condition at 0, leaving the two tests on
   * an argument: c21 adds its `medida_puntual` pointer, and timer_expired
   * compares its `timer` pointer with 0.  Since fsm_fire passes the machine
   * itself to every guard (fsm.c:30), a non-null pointer, the firmware
   * evaluates `StubMonitorInputs(true, false)`.
   */
  function StubMonitorInputs(medidaPuntual: bool, timerExpired: bool): MonitorInputs {
    MonitorInputs(false, false, false, false, false, false, false, false, false, medidaPuntual, timerExpired)
  }

  /**
   * The guards monitorizacion_c16 … c61 (C sums of 0/1 values read as "or",
   * products as "and").
   */
  function MonitorGuardHolds(g: MonitorGuard, x: MonitorInputs): (r: bool)
    ensures (g.M62? || g.M63? || g.M64? || g.M65? || g.M61?) && r ==> x.timerExpired
  {
    var espera := x.esperaEstabilizacion || x.estadoLlenado || x.estadoVaciado;
    match g
    case M16 => espera
    case M26 => espera
    case M36 => espera
    case M46 => espera
    case M56 => espera
    case M11 => x.emergencia
    case M31 => x.emergencia
    case M21 => x.emergencia || x.medidaPuntual
    case M41 => x.emergencia || x.comandoManual
    case M51 => x.emergencia || x.comandoManual
    case M12 => x.comandoPuntual
    case M32 => x.comandoPuntual
    case M42 => x.comandoPuntual
    case M52 => x.comandoPuntual
    case M13 => x.comandoContinuada
    case M23 => x.comandoContinuada
    case M43 => x.comandoContinuada
    case M53 => x.comandoContinuada
    case M14 => x.comandoRemoto || !x.peticionMedida
    case M24 => x.comandoRemoto || !x.peticionMedida
    case M34 => x.comandoRemoto || !x.peticionMedida
    case M54 => x.comandoRemoto || !x.peticionMedida
    case M15 => x.comandoRemoto || x.peticionMedida
    case M25 => x.comandoRemoto || x.peticionMedida
    case M35 => x.comandoRemoto || x.peticionMedida
    case M45 => x.comandoRemoto || x.peticionMedida
    case M62 => !x.emergencia && x.comandoPuntual && x.timerExpired
    case M63 => !x.emergencia && x.comandoContinuada && x.timerExpired
    case M64 => !x.emergencia && x.comandoRemoto && !x.peticionMedida && x.timerExpired
    case M65 => !x.emergencia && x.comandoRemoto && x.peticionMedida && x.timerExpired
    case M61 => x.timerExpired
  }

  /** The rows of one origin state, in declared order: (guard, destination) pairs, no outputs. */
  function Rows(state: int, gd: seq<(MonitorGuard, int)>): (r: seq<Transition<MonitorGuard, bool>>)
    ensures |r| == |gd|
    ensures forall j :: 0 <= j < |r| ==> r[j] == Transition(state, Some(gd[j].0), gd[j].1, None)
  {
    seq(|gd|, j requires 0 <= j < |gd| => Transition(state, Some(gd[j].0), gd[j].1, None))
  }

  const Rows1: seq<Transition<MonitorGuard, bool>> := Rows(1, [(M16, 6), (M11, 1), (M12, 2), (M13, 3), (M14, 4), (M15, 5)])
  const Rows2: seq<Transition<MonitorGuard, bool>> := Rows(2, [(M26, 6), (M21, 1), (M23, 3), (M24, 4), (M25, 5)])
  const Rows3: seq<Transition<MonitorGuard, bool>> := Rows(3, [(M36, 6), (M31, 1), (M32, 2), (M34, 4), (M35, 5)])
  const Rows4: seq<Transition<MonitorGuard, bool>> := Rows(4, [(M46, 6), (M41, 1), (M42, 2), (M43, 3), (M45, 5)])
  const Rows5: seq<Transition<MonitorGuard, bool>> := Rows(5, [(M56, 6), (M51, 1), (M52, 2), (M53, 3), (M54, 4)])
  const Rows6: seq<Transition<MonitorGuard, bool>> := Rows(6, [(M62, 2), (M63, 3), (M64, 4), (M65, 5), (M61, 1)])

  /** monitorizacionDeposito_tt: the rows of states 1 to 6 in declared order, then the sentinel. */
  const MonitorTable: seq<Transition<MonitorGuard, bool>> :=
    Rows1 + Rows2 + Rows3 + Rows4 + Rows5 + Rows6 + [Transition(-1, None, -1, None)]

  /** The origin state of row `j` of the monitoring table. */
  function MonitorOrigin(j: int): int
  {
    if j < 6 then 1 else if j < 11 then 2 else if j < 16 then 3
    else if j < 21 then 4 else if j < 26 then 5 else 6
  }

  /** The shape of the monitoring table: 31 live rows grouped by origin, then the sentinel. */
  lemma MonitorTableShape()
    ensures |MonitorTable| == 32 && MonitorTable[31].orig < 0
    ensures forall j :: 0 <= j < 31 ==> MonitorTable[j].orig == MonitorOrigin(j)
  {
  }

  /** The state after one `fsm_update` of the monitoring machine. */
  function MonitorNext(state: int, x: MonitorInputs): int {
    var fired := Scan(MonitorTable, 0, state, g => MonitorGuardHolds(g, x));
    if fired.Some? then MonitorTable[fired.value].dest else state
  }

  /** Whether the stabilisation wait or a fill/drain is under way (the guard of every row to state 6). */
  predicate Waiting(x: MonitorInputs) {
    x.esperaEstabilizacion || x.estadoLlenado || x.estadoVaciado
  }

  /**
   * Reference reading of the machine, state by state: entering the wait
   * (state 6) has priority in states 1–5, and from state 6 the machine
   * moves only when the timer has expired, to 1 only when no mode applies.
   */
  function MonitorSuccessor(state: int, x: MonitorInputs): int {
    if 1 <= state <= 5 && Waiting(x) then 6
    else if state == 1 then
      (if x.emergencia then 1 else if x.comandoPuntual then 2 else if x.comandoContinuada then 3
       else if x.comandoRemoto || !x.peticionMedida then 4 else if x.comandoRemoto || x.peticionMedida then 5 else 1)
    else if state == 2 then
      (if x.emergencia || x.medidaPuntual then 1 else if x.comandoContinuada then 3
       else if x.comandoRemoto || !x.peticionMedida then 4 else if x.comandoRemoto || x.peticionMedida then 5 else 2)
    else if state == 3 then
      (if x.emergencia then 1 else if x.comandoPuntual then 2
       else if x.comandoRemoto || !x.peticionMedida then 4 else if x.comandoRemoto || x.peticionMedida then 5 else 3)
    else if state == 4 then
      (if x.emergencia || x.comandoManual then 1 else if x.comandoPuntual then 2 else if x.comandoContinuada then 3
       else if x.comandoRemoto || x.peticionMedida then 5 else 4)
    else if state == 5 then
      (if x.emergencia || x.comandoManual then 1 else if x.comandoPuntual then 2 else if x.comandoContinuada then 3
       else if x.comandoRemoto || !x.peticionMedida then 4 else 5)
    else if state == 6 then
      (if !x.timerExpired then 6
       else if x.emergencia then 1
       else if x.comandoPuntual then 2 else if x.comandoContinuada then 3
       else if x.comandoRemoto && !x.peticionMedida then 4 else if x.comandoRemoto && x.peticionMedida then 5
       else 1)
    else state
  }

  /** The table, scanned by the engine, behaves as the reference reading in each of the six states. */
  lemma MonitorTableImplements(state: int, x: MonitorInputs)
    requires 1 <= state <= 6
    ensures MonitorNext(state, x) == MonitorSuccessor(state, x)
  {
    if state == 1 { MonitorState1(x); }
    else if state == 2 { MonitorState2(x); }
    else if state == 3 { MonitorState3(x); }
    else if state == 4 { MonitorState4(x); }
    else if state == 5 { MonitorState5(x); }
    else { MonitorState6(x); }
  }

  /** The first row of state `state` in the monitoring table. */
  function MonitorFirst(state: int): nat
    requires 1 <= state <= 6
  {
    if state == 1 then 0 else 6 + 5 * (state - 2)
  }

  /** One past the last row of state `state` in the monitoring table. */
  function MonitorEnd(state: int): nat
    requires 1 <= state <= 6
  {
    6 + 5 * (state - 1)
  }

  /** The rows of the other states are passed over: the scan in `state` starts at its own rows and ends after them. */
  lemma MonitorSkipsOthers(state: int, x: MonitorInputs)
    requires 1 <= state <= 6
    ensures Scan(MonitorTable, 0, state, g => MonitorGuardHolds(g, x)) ==
            Scan(MonitorTable, MonitorFirst(state), state, g => MonitorGuardHolds(g, x))
    ensures Scan(MonitorTable, MonitorEnd(state), state, g => MonitorGuardHolds(g, x)) == None
  {
    var h := (g: MonitorGuard) => MonitorGuardHolds(g, x);
    MonitorTableShape();
    ScanSkips(MonitorTable, 0, MonitorFirst(state), state, h);
    ScanSkips(MonitorTable, MonitorEnd(state), 31, state, h);
    assert Scan(MonitorTable, 31, state, h) == None;
  }

  /** The rows of state 1, as laid out in the table. */
  lemma MonitorRowsOf1()
    ensures |MonitorTable| == 32
    ensures MonitorTable[0] == Transition(1, Some(M16), 6, None) &&
            MonitorTable[1] == Transition(1, Some(M11), 1, None) &&
            MonitorTable[2] == Transition(1, Some(M12), 2, None) &&
            MonitorTable[3] == Transition(1, Some(M13), 3, None) &&
            MonitorTable[4] == Transition(1, Some(M14), 4, None) &&
            MonitorTable[5] == Transition(1, Some(M15), 5, None)
  {
    assert MonitorTable[0..6] == Rows1;
  }

  /** Within its own rows, the scan in state 1 fires the first row whose guard holds. */
  lemma MonitorScan1(x: MonitorInputs)
    ensures Scan(MonitorTable, 0, 1, g => MonitorGuardHolds(g, x)) ==
            if MonitorGuardHolds(M16, x) then Some(0) else if MonitorGuardHolds(M11, x) then Some(1) else if MonitorGuardHolds(M12, x) then Some(2) else if MonitorGuardHolds(M13, x) then Some(3) else if MonitorGuardHolds(M14, x) then Some(4) else if MonitorGuardHolds(M15, x) then Some(5) else None
  {
    var h := (g: MonitorGuard) => MonitorGuardHolds(g, x);
    MonitorRowsOf1();
    MonitorSkipsOthers(1, x);
    ScanAt(MonitorTable, 5, 1, h);
    ScanAt(MonitorTable, 4, 1, h);
    ScanAt(MonitorTable, 3, 1, h);
    ScanAt(MonitorTable, 2, 1, h);
    ScanAt(MonitorTable, 1, 1, h);
    ScanAt(MonitorTable, 0, 1, h);
  }

  /** In state 1 the machine moves to the destination of the first of its rows whose guard holds. */
  lemma MonitorFires1(x: MonitorInputs)
    ensures MonitorNext(1, x) == if MonitorGuardHolds(M16, x) then 6 else if MonitorGuardHolds(M11, x) then 1 else if MonitorGuardHolds(M12, x) then 2 else if MonitorGuardHolds(M13, x) then 3 else if MonitorGuardHolds(M14, x) then 4 else if MonitorGuardHolds(M15, x) then 5 else 1
  {
    MonitorRowsOf1();
    MonitorSkipsOthers(1, x);
    MonitorScan1(x);
  }

  /** The reference reading of state 1, phrased through the guards of its rows. */
  lemma MonitorSuccessor1(x: MonitorInputs)
    ensures MonitorSuccessor(1, x) == if MonitorGuardHolds(M16, x) then 6 else if MonitorGuardHolds(M11, x) then 1 else if MonitorGuardHolds(M12, x) then 2 else if MonitorGuardHolds(M13, x) then 3 else if MonitorGuardHolds(M14, x) then 4 else if MonitorGuardHolds(M15, x) then 5 else 1
  {
  }

  lemma MonitorState1(x: MonitorInputs)
    ensures MonitorNext(1, x) == MonitorSuccessor(1, x)
  {
    MonitorFires1(x);
    MonitorSuccessor1(x);
  }


  /** The rows of state 2, as laid out in the table. */
  lemma MonitorRowsOf2()
    ensures |MonitorTable| == 32
    ensures MonitorTable[6] == Transition(2, Some(M26), 6, None) &&
            MonitorTable[7] == Transition(2, Some(M21), 1, None) &&
            MonitorTable[8] == Transition(2, Some(M23), 3, None) &&
            MonitorTable[9] == Transition(2, Some(M24), 4, None) &&
            MonitorTable[10] == Transition(2, Some(M25), 5, None)
  {
    assert MonitorTable[6..11] == Rows2;
  }

  /** Within its own rows, the scan in state 2 fires the first row whose guard holds. */
  lemma MonitorScan2(x: MonitorInputs)
    ensures Scan(MonitorTable, 6, 2, g => MonitorGuardHolds(g, x)) ==
            if MonitorGuardHolds(M26, x) then Some(6) else if MonitorGuardHolds(M21, x) then Some(7) else if MonitorGuardHolds(M23, x) then Some(8) else if MonitorGuardHolds(M24, x) then Some(9) else if MonitorGuardHolds(M25, x) then Some(10) else None
  {
    var h := (g: MonitorGuard) => MonitorGuardHolds(g, x);
    MonitorRowsOf2();
    MonitorSkipsOthers(2, x);
    ScanAt(MonitorTable, 10, 2, h);
    ScanAt(MonitorTable, 9, 2, h);
    ScanAt(MonitorTable, 8, 2, h);
    ScanAt(MonitorTable, 7, 2, h);
    ScanAt(MonitorTable, 6, 2, h);
  }

  /** In state 2 the machine moves to the destination of the first of its rows whose guard holds. */
  lemma MonitorFires2(x: MonitorInputs)
    ensures MonitorNext(2, x) == if MonitorGuardHolds(M26, x) then 6 else if MonitorGuardHolds(M21, x) then 1 else if MonitorGuardHolds(M23, x) then 3 else if MonitorGuardHolds(M24, x) then 4 else if MonitorGuardHolds(M25, x) then 5 else 2
  {
    MonitorRowsOf2();
    MonitorSkipsOthers(2, x);
    MonitorScan2(x);
  }

  /** The reference reading of state 2, phrased through the guards of its rows. */
  lemma MonitorSuccessor2(x: MonitorInputs)
    ensures MonitorSuccessor(2, x) == if MonitorGuardHolds(M26, x) then 6 else if MonitorGuardHolds(M21, x) then 1 else if MonitorGuardHolds(M23, x) then 3 else if MonitorGuardHolds(M24, x) then 4 else if MonitorGuardHolds(M25, x) then 5 else 2
  {
  }

  lemma MonitorState2(x: MonitorInputs)
    ensures MonitorNext(2, x) == MonitorSuccessor(2, x)
  {
    MonitorFires2(x);
    MonitorSuccessor2(x);
  }


  /** The rows of state 3, as laid out in the table. */
  lemma MonitorRowsOf3()
    ensures |MonitorTable| == 32
    ensures MonitorTable[11] == Transition(3, Some(M36), 6, None) &&
            MonitorTable[12] == Transition(3, Some(M31), 1, None) &&
            MonitorTable[13] == Transition(3, Some(M32), 2, None) &&
            MonitorTable[14] == Transition(3, Some(M34), 4, None) &&
            MonitorTable[15] == Transition(3, Some(M35), 5, None)
  {
    assert MonitorTable[11..16] == Rows3;
  }

  /** Within its own rows, the scan in state 3 fires the first row whose guard holds. */
  lemma MonitorScan3(x: MonitorInputs)
    ensures Scan(MonitorTable, 11, 3, g => MonitorGuardHolds(g, x)) ==
            if MonitorGuardHolds(M36, x) then Some(11) else if MonitorGuardHolds(M31, x) then Some(12) else if MonitorGuardHolds(M32, x) then Some(13) else if MonitorGuardHolds(M34, x) then Some(14) else if MonitorGuardHolds(M35, x) then Some(15) else None
  {
    var h := (g: MonitorGuard) => MonitorGuardHolds(g, x);
    MonitorRowsOf3();
    MonitorSkipsOthers(3, x);
    ScanAt(MonitorTable, 15, 3, h);
    ScanAt(MonitorTable, 14, 3, h);
    ScanAt(MonitorTable, 13, 3, h);
    ScanAt(MonitorTable, 12, 3, h);
    ScanAt(MonitorTable, 11, 3, h);
  }

  /** In state 3 the machine moves to the destination of the first of its rows whose guard holds. */
  lemma MonitorFires3(x: MonitorInputs)
    ensures MonitorNext(3, x) == if MonitorGuardHolds(M36, x) then 6 else if MonitorGuardHolds(M31, x) then 1 else if MonitorGuardHolds(M32, x) then 2 else if MonitorGuardHolds(M34, x) then 4 else if MonitorGuardHolds(M35, x) then 5 else 3
  {
    MonitorRowsOf3();
    MonitorSkipsOthers(3, x);
    MonitorScan3(x);
  }

  /** The reference reading of state 3, phrased through the guards of its rows. */
  lemma MonitorSuccessor3(x: MonitorInputs)
    ensures MonitorSuccessor(3, x) == if MonitorGuardHolds(M36, x) then 6 else if MonitorGuardHolds(M31, x) then 1 else if MonitorGuardHolds(M32, x) then 2 else if MonitorGuardHolds(M34, x) then 4 else if MonitorGuardHolds(M35, x) then 5 else 3
  {
  }

  lemma MonitorState3(x: MonitorInputs)
    ensures MonitorNext(3, x) == MonitorSuccessor(3, x)
  {
    MonitorFires3(x);
    MonitorSuccessor3(x);
  }


  /** The rows of state 4, as laid out in the table. */
  lemma MonitorRowsOf4()
    ensures |MonitorTable| == 32
    ensures MonitorTable[16] == Transition(4, Some(M46), 6, None) &&
            MonitorTable[17] == Transition(4, Some(M41), 1, None) &&
            MonitorTable[18] == Transition(4, Some(M42), 2, None) &&
            MonitorTable[19] == Transition(4, Some(M43), 3, None) &&
            MonitorTable[20] == Transition(4, Some(M45), 5, None)
  {
    assert MonitorTable[16..21] == Rows4;
  }

  /** Within its own rows, the scan in state 4 fires the first row whose guard holds. */
  lemma MonitorScan4(x: MonitorInputs)
    ensures Scan(MonitorTable, 16, 4, g => MonitorGuardHolds(g, x)) ==
            if MonitorGuardHolds(M46, x) then Some(16) else if MonitorGuardHolds(M41, x) then Some(17) else if MonitorGuardHolds(M42, x) then Some(18) else if MonitorGuardHolds(M43, x) then Some(19) else if MonitorGuardHolds(M45, x) then Some(20) else None
  {
    var h := (g: MonitorGuard) => MonitorGuardHolds(g, x);
    MonitorRowsOf4();
    MonitorSkipsOthers(4, x);
    ScanAt(MonitorTable, 20, 4, h);
    ScanAt(MonitorTable, 19, 4, h);
    ScanAt(MonitorTable, 18, 4, h);
    ScanAt(MonitorTable, 17, 4, h);
    ScanAt(MonitorTable, 16, 4, h);
  }

  /** In state 4 the machine moves to the destination of the first of its rows whose guard holds. */
  lemma MonitorFires4(x: MonitorInputs)
    ensures MonitorNext(4, x) == if MonitorGuardHolds(M46, x) then 6 else if MonitorGuardHolds(M41, x) then 1 else if MonitorGuardHolds(M42, x) then 2 else if MonitorGuardHolds(M43, x) then 3 else if MonitorGuardHolds(M45, x) then 5 else 4
  {
    MonitorRowsOf4();
    MonitorSkipsOthers(4, x);
    MonitorScan4(x);
  }

  /** The reference reading of state 4, phrased through the guards of its rows. */
  lemma MonitorSuccessor4(x: MonitorInputs)
    ensures MonitorSuccessor(4, x) == if MonitorGuardHolds(M46, x) then 6 else if MonitorGuardHolds(M41, x) then 1 else if MonitorGuardHolds(M42, x) then 2 else if MonitorGuardHolds(M43, x) then 3 else if MonitorGuardHolds(M45, x) then 5 else 4
  {
  }

  lemma MonitorState4(x: MonitorInputs)
    ensures MonitorNext(4, x) == MonitorSuccessor(4, x)
  {
    MonitorFires4(x);
    MonitorSuccessor4(x);
  }


  /** The rows of state 5, as laid out in the table. */
  lemma MonitorRowsOf5()
    ensures |MonitorTable| == 32
    ensures MonitorTable[21] == Transition(5, Some(M56), 6, None) &&
            MonitorTable[22] == Transition(5, Some(M51), 1, None) &&
            MonitorTable[23] == Transition(5, Some(M52), 2, None) &&
            MonitorTable[24] == Transition(5, Some(M53), 3, None) &&
            MonitorTable[25] == Transition(5, Some(M54), 4, None)
  {
    assert MonitorTable[21..26] == Rows5;
  }

  /** Within its own rows, the scan in state 5 fires the first row whose guard holds. */
  lemma MonitorScan5(x: MonitorInputs)
    ensures Scan(MonitorTable, 21, 5, g => MonitorGuardHolds(g, x)) ==
            if MonitorGuardHolds(M56, x) then Some(21) else if MonitorGuardHolds(M51, x) then Some(22) else if MonitorGuardHolds(M52, x) then Some(23) else if MonitorGuardHolds(M53, x) then Some(24) else if MonitorGuardHolds(M54, x) then Some(25) else None
  {
    var h := (g: MonitorGuard) => MonitorGuardHolds(g, x);
    MonitorRowsOf5();
    MonitorSkipsOthers(5, x);
    ScanAt(MonitorTable, 25, 5, h);
    ScanAt(MonitorTable, 24, 5, h);
    ScanAt(MonitorTable, 23, 5, h);
    ScanAt(MonitorTable, 22, 5, h);
    ScanAt(MonitorTable, 21, 5, h);
  }

  /** In state 5 the machine moves to the destination of the first of its rows whose guard holds. */
  lemma MonitorFires5(x: MonitorInputs)
    ensures MonitorNext(5, x) == if MonitorGuardHolds(M56, x) then 6 else if MonitorGuardHolds(M51, x) then 1 else if MonitorGuardHolds(M52, x) then 2 else if MonitorGuardHolds(M53, x) then 3 else if MonitorGuardHolds(M54, x) then 4 else 5
  {
    MonitorRowsOf5();
    MonitorSkipsOthers(5, x);
    MonitorScan5(x);
  }

  /** The reference reading of state 5, phrased through the guards of its rows. */
  lemma MonitorSuccessor5(x: MonitorInputs)
    ensures MonitorSuccessor(5, x) == if MonitorGuardHolds(M56, x) then 6 else if MonitorGuardHolds(M51, x) then 1 else if MonitorGuardHolds(M52, x) then 2 else if MonitorGuardHolds(M53, x) then 3 else if MonitorGuardHolds(M54, x) then 4 else 5
  {
  }

  lemma MonitorState5(x: MonitorInputs)
    ensures MonitorNext(5, x) == MonitorSuccessor(5, x)
  {
    MonitorFires5(x);
    MonitorSuccessor5(x);
  }


  /** The rows of state 6, as laid out in the table. */
  lemma MonitorRowsOf6()
    ensures |MonitorTable| == 32
    ensures MonitorTable[26] == Transition(6, Some(M62), 2, None) &&
            MonitorTable[27] == Transition(6, Some(M63), 3, None) &&
            MonitorTable[28] == Transition(6, Some(M64), 4, None) &&
            MonitorTable[29] == Transition(6, Some(M65), 5, None) &&
            MonitorTable[30] == Transition(6, Some(M61), 1, None)
  {
    assert MonitorTable[26..31] == Rows6;
  }

  /** Within its own rows, the scan in state 6 fires the first row whose guard holds. */
  lemma MonitorScan6(x: MonitorInputs)
    ensures Scan(MonitorTable, 26, 6, g => MonitorGuardHolds(g, x)) ==
            if MonitorGuardHolds(M62, x) then Some(26) else if MonitorGuardHolds(M63, x) then Some(27) else if MonitorGuardHolds(M64, x) then Some(28) else if MonitorGuardHolds(M65, x) then Some(29) else if MonitorGuardHolds(M61, x) then Some(30) else None
  {
    var h := (g: MonitorGuard) => MonitorGuardHolds(g, x);
    MonitorRowsOf6();
    MonitorSkipsOthers(6, x);
    ScanAt(MonitorTable, 30, 6, h);
    ScanAt(MonitorTable, 29, 6, h);
    ScanAt(MonitorTable, 28, 6, h);
    ScanAt(MonitorTable, 27, 6, h);
    ScanAt(MonitorTable, 26, 6, h);
  }

  /** In state 6 the machine moves to the destination of the first of its rows whose guard holds. */
  lemma MonitorFires6(x: MonitorInputs)
    ensures MonitorNext(6, x) == if MonitorGuardHolds(M62, x) then 2 else if MonitorGuardHolds(M63, x) then 3 else if MonitorGuardHolds(M64, x) then 4 else if MonitorGuardHolds(M65, x) then 5 else if MonitorGuardHolds(M61, x) then 1 else 6
  {
    MonitorRowsOf6();
    MonitorSkipsOthers(6, x);
    MonitorScan6(x);
  }

  /** The reference reading of state 6, phrased through the guards of its rows. */
  lemma MonitorSuccessor6(x: MonitorInputs)
    ensures MonitorSuccessor(6, x) == if MonitorGuardHolds(M62, x) then 2 else if MonitorGuardHolds(M63, x) then 3 else if MonitorGuardHolds(M64, x) then 4 else if MonitorGuardHolds(M65, x) then 5 else if MonitorGuardHolds(M61, x) then 1 else 6
  {
  }

  lemma MonitorState6(x: MonitorInputs)
    ensures MonitorNext(6, x) == MonitorSuccessor(6, x)
  {
    MonitorFires6(x);
    MonitorSuccessor6(x);
  }


  /** In each of states 1–5 the row to state 6 is listed first, so it wins whenever its guard holds. */
  lemma {:induction false} WaitHasPriority(state: int, x: MonitorInputs)
    requires 1 <= state <= 5 && Waiting(x)
    ensures MonitorNext(state, x) == 6
  {
    MonitorTableImplements(state, x);
  }

  /**
   * From state 6 the return to state 1 is listed last: it is taken only when
   * the timer has expired and none of the rows to 2–5 is enabled.
   */
  lemma {:induction false} LeaveWaitLast(x: MonitorInputs)
    ensures MonitorNext(6, x) == 6 <==> !x.timerExpired
    ensures MonitorNext(6, x) == 1 <==>
              x.timerExpired && !MonitorGuardHolds(M62, x) && !MonitorGuardHolds(M63, x) &&
              !MonitorGuardHolds(M64, x) && !MonitorGuardHolds(M65, x)
  {
    MonitorTableImplements(6, x);
  }

  /**
   * With the stubbed guards, `comando_modo_remoto + !peticion_medida` is 1:
   * the machine goes from state 1 to state 4 and stays there.
   */
  lemma {:induction false} StubsGoToRemoteIdle(medidaPuntual: bool, timerExpired: bool)
    ensures MonitorNext(1, StubMonitorInputs(medidaPuntual, timerExpired)) == 4
    ensures MonitorNext(4, StubMonitorInputs(medidaPuntual, timerExpired)) == 4
  {
    MonitorTableImplements(1, StubMonitorInputs(medidaPuntual, timerExpired));
    MonitorTableImplements(4, StubMonitorInputs(medidaPuntual, timerExpired));
  }

  /**
   * The machine as the firmware runs it: every guard receives the machine
   * pointer, so c21 holds and the timer never reads expired
   * (`StubMonitorInputs(true, false)`).  State 2 returns to 1, states 1, 3,
   * 4 and 5 go to the remote idle state 4, and the wait state 6 is never left.
   */
  lemma {:induction false} FirmwareMonitorMoves(state: int)
    requires 1 <= state <= 6
    ensures MonitorNext(state, StubMonitorInputs(true, false)) == if state == 6 then 6 else if state == 2 then 1 else 4
  {
    MonitorTableImplements(state, StubMonitorInputs(true, false));
  }

  /*
   * Pairing measurements into consumption values.
   */

  /**
   * The hourly consumption of each successive pair of measurements, oldest
   * pair first; a trailing unpaired measurement contributes nothing.
   */
  function PairRates(s: seq<real>, periodoMs: int): (r: seq<real>)
    requires periodoMs != 0
    decreases |s|
    ensures |r| == |s| / 2
    ensures forall i :: 0 <= i < |r| ==> r[i] == ConsumoHora(s[2 * i], s[2 * i + 1], periodoMs)
  {
    if |s| < 2 then [] else [ConsumoHora(s[0], s[1], periodoMs)] + PairRates(s[2..], periodoMs)
  }

  /**
   * medidasDisponibles as written: `bufferCircularNumElementos` never writes
   * the caller's `numMedidas`, so the answer depends only on what that
   * uninitialised local happened to hold (`numMedidas`), not on the buffer.
   */
  method MedidasDisponiblesAsWritten(pMedidas: Buffer, lockAcquired: bool, numMedidas: int) returns (r: bool)
    requires pMedidas.Valid()
    modifies pMedidas`err
    ensures pMedidas.Valid()
    ensures r == (numMedidas >= 2)
  {
    var ok, n := pMedidas.NumElementosAsWritten(lockAcquired, numMedidas);
    r := n >= 2;
  }

  /**
   * medidasDisponibles over the corrected count: there are at least two
   * measurements to pair (and the mutex was obtained).
   */
  method MedidasDisponibles(pMedidas: Buffer, lockAcquired: bool) returns (r: bool)
    requires pMedidas.Valid()
    modifies pMedidas`err
    ensures pMedidas.Valid()
    ensures r == (lockAcquired && |pMedidas.Contents| >= 2)
  {
    var ok, n := pMedidas.NumElementos(lockAcquired);
    r := n >= 2;
  }

  /**
   * The variables tareaConsumo keeps from one activation to the next: the
   * last two measurements taken, the last consumption computed, the
   * single-shot flag, the period-changed flag and the loop flag.  The task
   * starts them as `medida_puntual = true` and `periodo_medidas_modif =
   * false`, and no statement ever changes either.
   */
  datatype ConsumoLocals = ConsumoLocals(medida1: real, medida2: real, consumo: real,
                                         medidaPuntual: bool, periodoMedidasModif: bool, continuar: bool)

  /**
   * One pass of the inner loop of tareaConsumo: pop the two oldest
   * measurements (a failed pop leaves the previous value in place), compute
   * their hourly consumption with the formula as written at the task's
   * period, and push it; a refused push clears `continuar`.
   */
  method TakePair(l: ConsumoLocals, locks: seq<bool>, k: nat, medidas: Buffer, consumos: Buffer)
    returns (r: ConsumoLocals, k': nat)
    requires medidas.Valid() && consumos.Valid()
    requires medidas != consumos && medidas.valor != consumos.valor
    modifies medidas, consumos, consumos.valor
    ensures medidas.Valid() && consumos.Valid()
    ensures k' == k + 3
    ensures IsSuffix(medidas.Contents, old(medidas.Contents))
    ensures old(consumos.Contents) <= consumos.Contents
    ensures r.medidaPuntual == l.medidaPuntual && r.periodoMedidasModif == l.periodoMedidasModif
    ensures r.consumo == ConsumoHora(r.medida1, r.medida2, PeriodoMedidasMs)
    ensures Granted(locks, k) && Granted(locks, k + 1) && |old(medidas.Contents)| >= 2 ==>
              var m := old(medidas.Contents);
              r.medida1 == m[0] && r.medida2 == m[1] && medidas.Contents == m[2..]
    ensures Granted(locks, k) && Granted(locks, k + 1) && Granted(locks, k + 2) && |old(medidas.Contents)| >= 2 ==>
              var m := old(medidas.Contents);
              var c := old(consumos.Contents);
              r.medida1 == m[0] && r.medida2 == m[1] &&
              medidas.Contents == m[2..] &&
              consumos.Contents == (if |c| < Capacidad then c + [r.consumo] else c) &&
              (r.continuar <==> l.continuar && |c| < Capacidad)
  {
    var ok1, v1 := medidas.Saca(Granted(locks, k), l.medida1);
    var ok2, v2 := medidas.Saca(Granted(locks, k + 1), l.medida2);
    TaskPeriodDoesNotOverflow(v1, v2);
    var consumo := ConsumoHoraAsWritten(v1, v2, PeriodoMedidasMs);
    var pushed := consumos.Mete(Granted(locks, k + 2), consumo);
    k' := k + 3;
    r := l.(medida1 := v1, medida2 := v2, consumo := consumo, continuar := l.continuar && pushed);
  }

  /**
   * Taking one pair leaves the outstanding work unchanged: the pushes still
   * to come after it lead to the same consumption buffer.
   */
  lemma {:induction false} PairStepKeepsOutcome(before: seq<real>, after: seq<real>, c: seq<real>, c': seq<real>)
    requires |before| >= 2 && after == before[2..]
    requires c' == if |c| < Capacidad then c + [ConsumoHora(before[0], before[1], PeriodoMedidasMs)] else c
    ensures Pushed(c', PairRates(after, PeriodoMedidasMs)) == Pushed(c, PairRates(before, PeriodoMedidasMs))
  {
    var x := ConsumoHora(before[0], before[1], PeriodoMedidasMs);
    assert PairRates(before, PeriodoMedidasMs) == [x] + PairRates(after, PeriodoMedidasMs);
    assert ([x] + PairRates(after, PeriodoMedidasMs))[1..] == PairRates(after, PeriodoMedidasMs);
  }

  /**
   * After `pairs` pairs of `m0` have been taken with every mutex obtained:
   * `m` is what is left of the measurements, `c` the consumption buffer,
   * and pushing the rest of the pairs' rates onto `c` gives what pushing all
   * of them onto `c0` gives.
   */
  ghost predicate Drained(m0: seq<real>, c0: seq<real>, pairs: nat, m: seq<real>, c: seq<real>)
  {
    |m| + 2 * pairs == |m0| &&
    |c| == (if |c0| + pairs <= Capacidad then |c0| + pairs else Capacidad) &&
    Pushed(c, PairRates(m, PeriodoMedidasMs)) == Pushed(c0, PairRates(m0, PeriodoMedidasMs))
  }

  /**
   * The inner loop's invariant over the values it handles: `m` is what is
   * left of `m0` after `taken` values, `c` extends `c0`, a set `disp`
   * promises a pair; and with every mutex obtained (`all`), `pairs` pairs
   * are `Drained`, the loop flag records whether every push fitted and
   * `disp` is exactly "a pair is left".
   */
  ghost predicate DrainInv(all: bool, m0: seq<real>, c0: seq<real>, pairs: nat, taken: nat, m: seq<real>, c: seq<real>,
                           cont0: bool, cont: bool, disp: bool)
  {
    taken <= |m0| && m == m0[taken..] && c0 <= c && (disp ==> |m| >= 2) &&
    (all ==> Drained(m0, c0, pairs, m, c) && (cont <==> cont0 && |c0| + pairs <= Capacidad) && (disp <==> |m| >= 2))
  }

  /** Taking one more pair (and counting again) keeps `DrainInv`. */
  lemma {:induction false} DrainInvStep(all: bool, m0: seq<real>, c0: seq<real>, pairs: nat, taken: nat,
                                        m: seq<real>, c: seq<real>, cont0: bool, cont: bool,
                                        m': seq<real>, c': seq<real>, cont': bool, disp': bool)
    requires DrainInv(all, m0, c0, pairs, taken, m, c, cont0, cont, true)
    requires IsSuffix(m', m) && c <= c' && (disp' ==> |m'| >= 2)
    requires all ==>
               m' == m[2..] &&
               c' == (if |c| < Capacidad then c + [ConsumoHora(m[0], m[1], PeriodoMedidasMs)] else c) &&
               (cont' <==> cont && |c| < Capacidad) && (disp' <==> |m'| >= 2)
    ensures DrainInv(all, m0, c0, pairs + 1, taken + (|m| - |m'|), m', c', cont0, cont', disp')
  {
    assert m' == m0[taken + (|m| - |m'|)..];
    if all {
      PairStepKeepsOutcome(m, m', c, c');
    }
  }

  /** Once fewer than two measurements are left, the consumption buffer holds every pair's rate that fitted. */
  lemma {:induction false} DrainedAtEnd(m0: seq<real>, c0: seq<real>, pairs: nat, m: seq<real>, c: seq<real>)
    requires Drained(m0, c0, pairs, m, c) && |m| < 2
    ensures |m0| / 2 == pairs
    ensures c == Pushed(c0, PairRates(m0, PeriodoMedidasMs))
  {
    assert PairRates(m, PeriodoMedidasMs) == [];
  }

  /**
   * One pass of the inner loop's body followed by the count its condition
   * takes next: a pair is taken (acquisitions k to k+2), then the
   * measurements left are counted (acquisition k+3).
   */
  method PairThenCount(l: ConsumoLocals, locks: seq<bool>, k: nat, medidas: Buffer, consumos: Buffer)
    returns (r: ConsumoLocals, k': nat, disp: bool)
    requires medidas.Valid() && consumos.Valid()
    requires medidas != consumos && medidas.valor != consumos.valor
    modifies medidas, consumos, consumos.valor
    ensures medidas.Valid() && consumos.Valid()
    ensures k' == k + 4
    ensures IsSuffix(medidas.Contents, old(medidas.Contents))
    ensures old(consumos.Contents) <= consumos.Contents
    ensures r.medidaPuntual == l.medidaPuntual && r.periodoMedidasModif == l.periodoMedidasModif
    ensures disp ==> |medidas.Contents| >= 2
    ensures Granted(locks, k) && Granted(locks, k + 1) && |old(medidas.Contents)| >= 2 ==>
              |medidas.Contents| == |old(medidas.Contents)| - 2
    ensures AllGranted(locks) && |old(medidas.Contents)| >= 2 ==>
              var m := old(medidas.Contents);
              var c := old(consumos.Contents);
              medidas.Contents == m[2..] &&
              consumos.Contents == (if |c| < Capacidad then c + [ConsumoHora(m[0], m[1], PeriodoMedidasMs)] else c) &&
              (r.continuar <==> l.continuar && |c| < Capacidad) &&
              (disp <==> |medidas.Contents| >= 2)
  {
    r, k' := TakePair(l, locks, k, medidas, consumos);
    disp := MedidasDisponibles(medidas, Granted(locks, k'));
    k' := k' + 1;
  }

  /**
   * One turn of the draining loop with its bookkeeping: the pair is taken,
   * the count is taken again, `DrainInv` is kept and the loop's measure
   * goes down.
   */
  method DrainTurn(l: ConsumoLocals, locks: seq<bool>, k: nat, medidas: Buffer, consumos: Buffer,
                   ghost m0: seq<real>, ghost c0: seq<real>, ghost cont0: bool, ghost pairs: nat, ghost taken: nat)
    returns (r: ConsumoLocals, k': nat, disp: bool, ghost taken': nat)
    requires medidas.Valid() && consumos.Valid()
    requires medidas != consumos && medidas.valor != consumos.valor
    requires DrainInv(AllGranted(locks), m0, c0, pairs, taken, medidas.Contents, consumos.Contents, cont0, l.continuar, true)
    modifies medidas, consumos, consumos.valor
    ensures medidas.Valid() && consumos.Valid()
    ensures r.medidaPuntual == l.medidaPuntual && r.periodoMedidasModif == l.periodoMedidasModif
    ensures DrainInv(AllGranted(locks), m0, c0, pairs + 1, taken', medidas.Contents, consumos.Contents, cont0, r.continuar, disp)
    ensures Pending(locks, k') < Pending(locks, k) ||
            (Pending(locks, k') == Pending(locks, k) && |medidas.Contents| < |old(medidas.Contents)|)
  {
    ghost var before := medidas.Contents;
    ghost var cBefore := consumos.Contents;
    r, k', disp := PairThenCount(l, locks, k, medidas, consumos);
    DrainInvStep(AllGranted(locks), m0, c0, pairs, taken, before, cBefore, cont0, l.continuar,
                 medidas.Contents, consumos.Contents, r.continuar, disp);
    taken' := taken + (|before| - |medidas.Contents|);
  }

  /**
   * The inner loop of tareaConsumo when no single-shot request is pending:
   * pairs are taken while the count (the last one, `disp`) shows at least
   * two measurements.  `k` acquisitions of the activation precede it.
   */
  method DrainPairs(l: ConsumoLocals, locks: seq<bool>, k: nat, disp: bool, medidas: Buffer, consumos: Buffer)
    returns (r: ConsumoLocals)
    requires l.medidaPuntual && !l.periodoMedidasModif
    requires medidas.Valid() && consumos.Valid()
    requires medidas != consumos && medidas.valor != consumos.valor
    requires disp ==> |medidas.Contents| >= 2
    requires AllGranted(locks) ==> (disp <==> |medidas.Contents| >= 2)
    modifies medidas, consumos, consumos.valor
    ensures medidas.Valid() && consumos.Valid()
    ensures IsSuffix(medidas.Contents, old(medidas.Contents))
    ensures old(consumos.Contents) <= consumos.Contents
    ensures r.medidaPuntual && !r.periodoMedidasModif
    ensures AllGranted(locks) ==>
              var m0 := old(medidas.Contents);
              var c0 := old(consumos.Contents);
              medidas.Contents == m0[2 * (|m0| / 2)..] &&
              consumos.Contents == Pushed(c0, PairRates(m0, PeriodoMedidasMs)) &&
              (r.continuar <==> l.continuar && |c0| + |m0| / 2 <= Capacidad)
  {
    ghost var m0 := medidas.Contents;
    ghost var c0 := consumos.Contents;
    ghost var pairs := 0;
    ghost var taken: nat := 0;
    r := l;
    var k := k;
    var disp := disp;
    while disp && !r.periodoMedidasModif
      invariant medidas.Valid() && consumos.Valid()
      invariant r.medidaPuntual && !r.periodoMedidasModif
      invariant DrainInv(AllGranted(locks), m0, c0, pairs, taken, medidas.Contents, consumos.Contents,
                         l.continuar, r.continuar, disp)
      decreases Pending(locks, k), |medidas.Contents|
    {
      r, k, disp, taken := DrainTurn(r, locks, k, medidas, consumos, m0, c0, l.continuar, pairs, taken);
      pairs := pairs + 1;
    }
    if AllGranted(locks) {
      DrainedAtEnd(m0, c0, pairs, medidas.Contents, consumos.Contents);
    }
  }

  /**
   * One activation of tareaConsumo (the body of its loop after
   * xTaskDelayUntil): while at least two measurements are available, take
   * the two oldest, push their hourly consumption (at the task's period of
   * 500 ms) onto the consumption buffer, and stop the task if that push
   * fails.  A pending single-shot request (`medida_puntual` false) takes one
   * pair, clears the request and leaves the loop, so that case is one pass
   * of the loop body here.  A set `periodo_medidas_modif` keeps the loop
   * from running; the count is still taken, since `&` does not
   * short-circuit.
   * `locks` are the successive mutex outcomes (count, then pop, pop, push
   * per pair).
   */
  method ConsumoCycle(l: ConsumoLocals, locks: seq<bool>, medidas: Buffer, consumos: Buffer) returns (r: ConsumoLocals)
    requires l.continuar
    requires medidas.Valid() && consumos.Valid()
    requires medidas != consumos && medidas.valor != consumos.valor
    modifies medidas, consumos, consumos.valor
    ensures medidas.Valid() && consumos.Valid()
    // whatever the mutexes do: measurements are only taken from the front, consumption values only appended
    ensures IsSuffix(medidas.Contents, old(medidas.Contents))
    ensures old(consumos.Contents) <= consumos.Contents
    ensures r.periodoMedidasModif == l.periodoMedidasModif
    // whatever the mutexes do: a pending single-shot request is served, and cleared, exactly when the
    // count (acquisition 0) sees two measurements and the period is unchanged; if not, nothing changes
    ensures r.medidaPuntual <==>
              l.medidaPuntual || (!l.periodoMedidasModif && Granted(locks, 0) && |old(medidas.Contents)| >= 2)
    ensures r.medidaPuntual || r == l
    // a changed period, or a single-shot request with fewer than two measurements: nothing is taken
    ensures l.periodoMedidasModif || (!l.medidaPuntual && |old(medidas.Contents)| < 2) ==>
              medidas.Contents == old(medidas.Contents) && consumos.Contents == old(consumos.Contents) && r == l
    // every mutex obtained, no single-shot request: every pair is consumed
    ensures AllGranted(locks) && !l.periodoMedidasModif && l.medidaPuntual ==>
              var m0 := old(medidas.Contents);
              medidas.Contents == m0[2 * (|m0| / 2)..] &&
              consumos.Contents == Pushed(old(consumos.Contents), PairRates(m0, PeriodoMedidasMs)) &&
              (r.continuar <==> |old(consumos.Contents)| + |m0| / 2 <= Capacidad) &&
              r.medidaPuntual
    // every mutex obtained, a single-shot request pending: exactly one pair is consumed
    ensures AllGranted(locks) && !l.periodoMedidasModif && !l.medidaPuntual && |old(medidas.Contents)| >= 2 ==>
              var m0 := old(medidas.Contents);
              medidas.Contents == m0[2..] &&
              consumos.Contents == Pushed(old(consumos.Contents), [ConsumoHora(m0[0], m0[1], PeriodoMedidasMs)]) &&
              (r.continuar <==> |old(consumos.Contents)| < Capacidad) &&
              r.medidaPuntual
  {
    var k := 0;
    var disp := MedidasDisponibles(medidas, Granted(locks, k));
    k := k + 1;
    if !disp || l.periodoMedidasModif {
      r := l;
    } else if l.medidaPuntual {
      r := DrainPairs(l, locks, k, disp, medidas, consumos);
    } else {
      r, k := TakePair(l, locks, k, medidas, consumos);
      r := r.(medidaPuntual := true);
    }
  }
}
