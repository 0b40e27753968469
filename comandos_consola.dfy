/**
 * The console command dispatcher (comandosConsola.c): one activation of
 * tareaComandosConsola.  The task reads the emergency latch, forces manual
 * mode under an emergency, and then acts on the command last typed on the
 * console: it toggles the mode, clears the emergency latch, writes the
 * measurement command or the tank state to the system state, or writes
 * configuration parameters.
 *
 * The console read (lectura_comando) is a stub, so the command code and its
 * value are inputs.  The configuration writers it calls are not part of the
 * source; the writes are returned in order as `ConfigWrite` values and their
 * outcomes are the input `accepted` (the i-th write succeeds exactly when
 * `Granted(accepted, i)`).
 */
module ComandosConsola {
  import opened CTypes
  import opened Mutex
  import opened EstadoSistema
  import opened ParadaEmergencia

  /** comandosConsola_t, in declared order. */
  datatype ConsoleCommand =
    | ConmutarEstado | DetenerParadaEmergencia
    | IniciarMedidaContinuada | DetenerMedidaContinuada
    | IniciarLlenado | DetenerLlenado | IniciarVaciado | DetenerVaciado
    | ConfigPeriodoMedida | ConfigTiempoEstab | ConfigConsumoMaximo | ConfigNivelMinimo | ConfigNivelMaximo

  /** The integer value of each enumerator. */
  function CodeOf(c: ConsoleCommand): (n: int)
    ensures 0 <= n <= 12
  {
    match c
    case ConmutarEstado => 0
    case DetenerParadaEmergencia => 1
    case IniciarMedidaContinuada => 2
    case DetenerMedidaContinuada => 3
    case IniciarLlenado => 4
    case DetenerLlenado => 5
    case IniciarVaciado => 6
    case DetenerVaciado => 7
    case ConfigPeriodoMedida => 8
    case ConfigTiempoEstab => 9
    case ConfigConsumoMaximo => 10
    case ConfigNivelMinimo => 11
    case ConfigNivelMaximo => 12
  }

  /** The case of the `switch` a code selects; no case (the `default`) for -1 ("no command") or any other code. */
  function CommandOf(code: int): (c: Option<ConsoleCommand>)
    ensures c.Some? <==> 0 <= code <= 12
  {
    if code == 0 then Some(ConmutarEstado)
    else if code == 1 then Some(DetenerParadaEmergencia)
    else if code == 2 then Some(IniciarMedidaContinuada)
    else if code == 3 then Some(DetenerMedidaContinuada)
    else if code == 4 then Some(IniciarLlenado)
    else if code == 5 then Some(DetenerLlenado)
    else if code == 6 then Some(IniciarVaciado)
    else if code == 7 then Some(DetenerVaciado)
    else if code == 8 then Some(ConfigPeriodoMedida)
    else if code == 9 then Some(ConfigTiempoEstab)
    else if code == 10 then Some(ConfigConsumoMaximo)
    else if code == 11 then Some(ConfigNivelMinimo)
    else if code == 12 then Some(ConfigNivelMaximo)
    else None
  }

  /** A code selects a case exactly when it is that case's enumerator value. */
  lemma CommandCodeRoundTrip(code: int, c: ConsoleCommand)
    ensures CommandOf(code) == Some(c) <==> code == CodeOf(c)
  {
  }

  /** The writers the configuration cases call, with the value passed. */
  datatype ConfigWrite =
    | WritePeriodo(periodo: int)
    | WriteEspera(espera: real)
    | WriteConsumoMax(consumoMaximo: real)
    | WriteConsumoMin(consumoMinimo: real)

  /**
   * The configuration cases in source order, each with the write its body
   * makes.  CONFIG_NIVEL_MINIMO calls configSistemaEscribirConsumoMin and
   * CONFIG_NIVEL_MAXIMO calls configSistemaEscribirConsumoMax; the period is
   * converted with `(int) valor`.
   */
  function ConfigChain(valor: real): seq<ConfigWrite> {
    [WritePeriodo(TruncToInt(valor)), WriteEspera(valor), WriteConsumoMax(valor),
     WriteConsumoMin(valor), WriteConsumoMax(valor)]
  }

  /** The position of a command's case label in the chain of configuration cases (past its end for other commands). */
  function ConfigEntry(c: ConsoleCommand): (i: nat)
    ensures i <= 5
    ensures i < 5 <==> CodeOf(c) >= 8
  {
    if CodeOf(c) >= 8 then (CodeOf(c) - 8) as nat else 5
  }

  /**
   * The writes one command makes in manual mode: the configuration cases
   * have no `break`, so execution enters at the command's label and runs
   * every later configuration case.
   */
  function ConfigWritesFrom(c: ConsoleCommand, valor: real): seq<ConfigWrite> {
    ConfigChain(valor)[ConfigEntry(c)..]
  }

  /**
   * Every configuration command falls through to the end: it writes its own
   * parameter and every later one with the same value, and its last write is
   * always to the maximum consumption.
   */
  lemma ConfigFallsThrough(c: ConsoleCommand, valor: real)
    requires CodeOf(c) >= 8
    ensures |ConfigWritesFrom(c, valor)| == 13 - CodeOf(c)
    ensures ConfigWritesFrom(c, valor)[|ConfigWritesFrom(c, valor)| - 1] == WriteConsumoMax(valor)
    ensures c == ConfigPeriodoMedida ==> ConfigWritesFrom(c, valor) == ConfigChain(valor)
    ensures c == ConfigNivelMaximo ==> ConfigWritesFrom(c, valor) == [WriteConsumoMax(valor)]
    ensures c == ConfigNivelMinimo ==> ConfigWritesFrom(c, valor) == [WriteConsumoMin(valor), WriteConsumoMax(valor)]
  {
  }

  /** Commands outside the configuration cases write no parameter. */
  lemma OtherCommandsWriteNoConfig(c: ConsoleCommand, valor: real)
    requires CodeOf(c) < 8
    ensures ConfigWritesFrom(c, valor) == []
  {
  }

  /**
   * The configuration cases as the fall-through executes them: from the
   * command's label on, each case in turn writes when the mode is manual; a
   * rejected write stops the task but the later cases still run.  An
   * emergency does not block them.
   */
  method ConfigStep(c: ConsoleCommand, modoManual: bool, valor: real, accepted: seq<bool>)
    returns (writes: seq<ConfigWrite>, ok: bool)
    ensures writes == if modoManual then ConfigWritesFrom(c, valor) else []
    ensures ok <==> forall i :: 0 <= i < |writes| ==> Granted(accepted, i)
  {
    writes, ok := [], true;
    var entry := ConfigEntry(c);
    if entry <= 0 && modoManual {
      ok := ok && Granted(accepted, |writes|);
      writes := writes + [WritePeriodo(TruncToInt(valor))];
    }
    if entry <= 1 && modoManual {
      ok := ok && Granted(accepted, |writes|);
      writes := writes + [WriteEspera(valor)];
    }
    if entry <= 2 && modoManual {
      ok := ok && Granted(accepted, |writes|);
      writes := writes + [WriteConsumoMax(valor)];
    }
    if entry <= 3 && modoManual {
      ok := ok && Granted(accepted, |writes|);
      writes := writes + [WriteConsumoMin(valor)];
    }
    if entry <= 4 && modoManual {
      ok := ok && Granted(accepted, |writes|);
      writes := writes + [WriteConsumoMax(valor)];
    }
  }

  /** The mode after the emergency check and the CONMUTAR_ESTADO case. */
  function NextMode(modoManual: bool, emergencia: bool, c: Option<ConsoleCommand>): bool {
    var forced := modoManual || emergencia;
    if c == Some(ConmutarEstado) then !forced else forced
  }

  /** An emergency leaves the task in manual mode unless the console toggles it in the same activation. */
  lemma EmergencyForcesManual(modoManual: bool, c: Option<ConsoleCommand>)
    requires c != Some(ConmutarEstado)
    ensures NextMode(modoManual, true, c)
  {
  }

  /** The emergency check runs before the switch, so CONMUTAR_ESTADO in the same activation leaves manual mode even under an emergency. */
  lemma ToggleOverridesEmergency(modoManual: bool)
    ensures !NextMode(modoManual, true, Some(ConmutarEstado))
  {
  }

  /** Without an emergency, CONMUTAR_ESTADO toggles the mode and two of them restore it. */
  lemma ToggleInverts(modoManual: bool)
    ensures NextMode(modoManual, false, Some(ConmutarEstado)) == !modoManual
    ensures NextMode(NextMode(modoManual, false, Some(ConmutarEstado)), false, Some(ConmutarEstado)) == modoManual
  {
  }

  /**
   * The measurement command each case writes to the system state.
   * DETENER_MEDIDA_CONTINUADA passes the stabilisation enumerator
   * DESACTIVADA, which as a command is MEDIDA_MANUAL_PUNTUAL.
   */
  function CommandWrite(c: ConsoleCommand): (w: Option<Comando>)
    ensures w.Some? <==> c == IniciarMedidaContinuada || c == DetenerMedidaContinuada
    ensures c == DetenerMedidaContinuada ==> w == ComandoDeOrdinal(EsperaOrdinal(Desactivada))
  {
    if c == IniciarMedidaContinuada then Some(MedidaManualContinuada)
    else if c == DetenerMedidaContinuada then ComandoDeOrdinal(EsperaOrdinal(Desactivada))
    else None
  }

  /** Stopping continuous measurement selects single-shot mode, not MEDIDA_OFF. */
  lemma StopContinuousSelectsSingleShot()
    ensures CommandWrite(DetenerMedidaContinuada) == Some(MedidaManualPuntual)
  {
    EsperaAsComando(Desactivada);
  }

  /** The tank-state cases whose write depends on the tank state read first. */
  predicate ReadsDeposito(c: ConsoleCommand) {
    c == DetenerLlenado || c == DetenerVaciado
  }

  /** The tank state each case writes, given the tank state it read. */
  function DepositoWrite(c: ConsoleCommand, leido: Deposito): (w: Option<Deposito>)
    ensures c == DetenerLlenado ==> (w.Some? <==> leido == DepositoLlenado)
    ensures c == DetenerVaciado ==> (w.Some? <==> leido == DepositoVaciado)
    ensures ReadsDeposito(c) && w.Some? ==> w.value == DepositoNormal
    ensures !ReadsDeposito(c) && c != IniciarLlenado && c != IniciarVaciado ==> w.None?
  {
    if c == IniciarLlenado then Some(DepositoLlenado)
    else if c == IniciarVaciado then Some(DepositoVaciado)
    else if c == DetenerLlenado && leido == DepositoLlenado then Some(DepositoNormal)
    else if c == DetenerVaciado && leido == DepositoVaciado then Some(DepositoNormal)
    else None
  }

  /**
   * The task's variables that outlive an activation: the last emergency
   * flag and tank state read (kept when a read fails), the mode and the
   * loop flag.
   */
  datatype ConsoleLocals = ConsoleLocals(emergencia: bool, estadoDeposito: Deposito, modoManual: bool, continuar: bool)

  /** The variables before the first activation: automatic mode, tank NORMAL. */
  const InitialConsoleLocals := ConsoleLocals(false, DepositoNormal, false, true)

  /** The commands with codes 2 to 7, which read or write the system state. */
  predicate IsStateCommand(c: ConsoleCommand) {
    2 <= CodeOf(c) < 8
  }

  /**
   * Every mutex a state command takes is obtained: the read of the tank
   * state (acquisition 1) and the writes it is enabled to make (acquisition
   * 1, or 2 after a read).
   */
  predicate StateStepOk(c: ConsoleCommand, habilitado: bool, estadoDeposito': Deposito, locks: seq<bool>) {
    (ReadsDeposito(c) ==> Granted(locks, 1)) &&
    (habilitado && CommandWrite(c).Some? ==> Granted(locks, 1)) &&
    (habilitado && DepositoWrite(c, estadoDeposito').Some? ==> Granted(locks, if ReadsDeposito(c) then 2 else 1))
  }

  /**
   * The cases that act on the system state, with `habilitado` the condition
   * `modo_manual & !emergencia`.  The stop cases read the tank state first
   * (its own mutex acquisition) and write only from the matching state.
   */
  method StateStep(c: ConsoleCommand, habilitado: bool, estadoDeposito: Deposito, state: SystemState, locks: seq<bool>)
    returns (estadoDeposito': Deposito, ok: bool)
    modifies state`comando, state`estadoDeposito, state`err
    ensures estadoDeposito' == if ReadsDeposito(c) && Granted(locks, 1) then old(state.estadoDeposito) else estadoDeposito
    ensures state.comando ==
              if habilitado && CommandWrite(c).Some? && Granted(locks, 1) then CommandWrite(c).value else old(state.comando)
    ensures state.estadoDeposito ==
              if habilitado && DepositoWrite(c, estadoDeposito').Some? && Granted(locks, if ReadsDeposito(c) then 2 else 1)
              then DepositoWrite(c, estadoDeposito').value else old(state.estadoDeposito)
    ensures ok <==> StateStepOk(c, habilitado, estadoDeposito', locks)
  {
    estadoDeposito', ok := estadoDeposito, true;
    if CommandWrite(c).Some? {
      if habilitado {
        ok := state.EscribirComando(Granted(locks, 1), CommandWrite(c).value);
      }
    } else if ReadsDeposito(c) {
      ok, estadoDeposito' := state.LeerDeposito(Granted(locks, 1), estadoDeposito);
      if habilitado && DepositoWrite(c, estadoDeposito').Some? {
        var written := state.EscribirDeposito(Granted(locks, 2), DepositoNormal);
        ok := ok && written;
      }
    } else if DepositoWrite(c, estadoDeposito).Some? {
      if habilitado {
        ok := state.EscribirDeposito(Granted(locks, 1), DepositoWrite(c, estadoDeposito).value);
      }
    }
  }

  /**
   * One activation of tareaComandosConsola (the body of its loop after
   * xTaskDelayUntil).  `code` and `valor` are what the console read yields.
   */
  method ConsoleCycle(l: ConsoleLocals, code: int, valor: real, locks: seq<bool>, accepted: seq<bool>,
                      latch: EmergencyLatch, state: SystemState)
    returns (r: ConsoleLocals, writes: seq<ConfigWrite>)
    requires l.continuar
    modifies latch`paradaEmergencia, latch`err, state`comando, state`estadoDeposito, state`err
    ensures r.emergencia == if Granted(locks, 0) then old(latch.paradaEmergencia) else l.emergencia
    ensures r.modoManual == NextMode(l.modoManual, r.emergencia, CommandOf(code))
    // DETENER_PARADA_EMERGENCIA clears the latch whatever the mode and the emergency
    ensures latch.paradaEmergencia ==
              if CommandOf(code) == Some(DetenerParadaEmergencia) then !Granted(locks, 1) && old(latch.paradaEmergencia)
              else old(latch.paradaEmergencia)
    // the system-state writes need manual mode and no emergency
    ensures state.comando != old(state.comando) ==>
              r.modoManual && !r.emergencia && CommandOf(code).Some? && CommandWrite(CommandOf(code).value).Some? &&
              state.comando == CommandWrite(CommandOf(code).value).value
    ensures state.estadoDeposito != old(state.estadoDeposito) ==>
              r.modoManual && !r.emergencia && CommandOf(code).Some? &&
              DepositoWrite(CommandOf(code).value, r.estadoDeposito) == Some(state.estadoDeposito)
    ensures r.estadoDeposito ==
              if CommandOf(code).Some? && ReadsDeposito(CommandOf(code).value) && Granted(locks, 1)
              then old(state.estadoDeposito) else l.estadoDeposito
    ensures AllGranted(locks) && r.modoManual && !r.emergencia && CommandOf(code).Some? ==>
              (CommandWrite(CommandOf(code).value).Some? ==> state.comando == CommandWrite(CommandOf(code).value).value) &&
              (DepositoWrite(CommandOf(code).value, r.estadoDeposito).Some? ==>
                 state.estadoDeposito == DepositoWrite(CommandOf(code).value, r.estadoDeposito).value)
    // configuration writes need manual mode only
    ensures writes == if r.modoManual && CommandOf(code).Some? then ConfigWritesFrom(CommandOf(code).value, valor) else []
    ensures r.continuar ==> l.continuar
    ensures AllGranted(locks) && AllGranted(accepted) ==> r.continuar
    // whatever the mutexes do: the task stops exactly when a write or read it makes is refused
    ensures r.continuar <==>
              (forall i :: 0 <= i < |writes| ==> Granted(accepted, i)) &&
              (CommandOf(code).Some? && IsStateCommand(CommandOf(code).value) ==>
                 StateStepOk(CommandOf(code).value, r.modoManual && !r.emergencia, r.estadoDeposito, locks))
    // no command, or an unknown one: only the mode can change
    ensures CommandOf(code).None? ==>
              r.continuar && writes == [] && r.estadoDeposito == l.estadoDeposito &&
              state.comando == old(state.comando) && state.estadoDeposito == old(state.estadoDeposito) &&
              latch.paradaEmergencia == old(latch.paradaEmergencia)
  {
    var okE, emergencia := latch.Leer(Granted(locks, 0), l.emergencia);
    var modoManual := l.modoManual;
    if emergencia && !modoManual {
      modoManual := true;
    }
    var estadoDeposito := l.estadoDeposito;
    var continuar := l.continuar;
    writes := [];
    var cmd := CommandOf(code);
    if cmd.Some? {
      var c := cmd.value;
      if c == ConmutarEstado {
        modoManual := !modoManual;
      } else if c == DetenerParadaEmergencia {
        var cleared := latch.Desactivar(Granted(locks, 1));
      } else if CodeOf(c) < 8 {
        var ok;
        estadoDeposito, ok := StateStep(c, modoManual && !emergencia, estadoDeposito, state, locks);
        continuar := continuar && ok;
      } else {
        var ok;
        writes, ok := ConfigStep(c, modoManual, valor, accepted);
        continuar := continuar && ok;
      }
    }
    r := ConsoleLocals(emergencia, estadoDeposito, modoManual, continuar);
  }
}
