/**
 * One activation of the measurement and level task (tareaLectura in
 * medidasNivel.c): re-read the measurement period, read the scale, publish
 * the level warning, advance the stabilisation wait, then push the
 * measurement into the measurement buffer or clear that buffer.
 *
 * The task's locals survive from one activation to the next; they are the
 * datatype `LevelLocals`.  The scale reading, the level check
 * (configSistemaComprobarNivel) and the "measurements active" query
 * (estadoSistemaMedidasActivas) are not defined anywhere in the firmware,
 * so their outcomes are inputs.  The k-th mutex acquisition of the
 * activation succeeds when `Granted(locks, k)`.
 */
module MedidasNivel {
  import opened CTypes
  import opened Mutex
  import opened Timers
  import opened BufferCircular
  import opened EstadoSistema
  import opened ConfigSistema
  import opened ParadaEmergencia

  /** The stabilisation wait of the task, in seconds (a local constant). */
  const EsperaEstabilizacionS: int := 5

  /** The locals of tareaLectura that persist across activations. */
  datatype LevelLocals = LevelLocals(
    periodoMedidas: int,
    espera: Espera,
    medidasActivas: bool,
    paradaEmergencia: bool,
    nivelMaximo: bool,
    nivelMinimo: bool,
    medida: real,
    timerPeriodo: int,
    timerEspera: int,
    continuar: bool)

  /**
   * What one of the undefined query functions leaves: its return value and
   * the flag(s) it produced.  For configSistemaComprobarNivel the flags are
   * named by the caller's variables: `nivelMaximo` is the one written through
   * the third argument and `nivelMinimo` through the fourth, although the
   * declaration (configSistema.h:67) names those parameters pNivelMin and
   * pNivelMax.  With no definition of the function, which flag means which
   * limit is the caller's reading.
   */
  datatype LevelCheck = LevelCheck(ok: bool, nivelMaximo: bool, nivelMinimo: bool)
  datatype FlagRead = FlagRead(ok: bool, value: bool)

  /**
   * The level warnings the task writes, in order: MAXIMO if the maximum is
   * exceeded, MINIMO if the minimum is, and NORMAL whenever
   * `!nivelMaximo + !nivelMinimo` is nonzero.
   */
  function LevelWrites(nivelMaximo: bool, nivelMinimo: bool): seq<Nivel> {
    (if nivelMaximo then [NivelMaximo] else []) +
    (if nivelMinimo then [NivelMinimo] else []) +
    (if !nivelMaximo || !nivelMinimo then [NivelNormal] else [])
  }

  /**
   * The warning left in the store after the writes: NORMAL unless both
   * limits are reported, and never MAXIMO — a maximum warning is always
   * overwritten in the same activation.
   */
  lemma LastLevelWrite(nivelMaximo: bool, nivelMinimo: bool)
    ensures |LevelWrites(nivelMaximo, nivelMinimo)| > 0
    ensures var w := LevelWrites(nivelMaximo, nivelMinimo);
            w[|w| - 1] == if nivelMaximo && nivelMinimo then NivelMinimo else NivelNormal
    ensures nivelMaximo ==> NivelMaximo in LevelWrites(nivelMaximo, nivelMinimo)
    ensures var w := LevelWrites(nivelMaximo, nivelMinimo); w[|w| - 1] != NivelMaximo
  {
  }

  /** The stabilisation block's result: the local wait state, the timer (before `timer_next`) and the store write. */
  datatype Stabilisation = Stabilisation(espera: Espera, timer: int, written: Option<Espera>)

  /**
   * The stabilisation block given the wait state read: an EN_CURSO wait whose
   * timer has expired is switched to DESACTIVADA; an INICIADA wait starts
   * the timer for EsperaEstabilizacionS seconds and is written as EN_CURSO
   * (the local copy becomes DESACTIVADA).
   */
  function StabilisationStep(leida: Espera, timer: int, taskPeriodMs: int): Stabilisation
    requires taskPeriodMs > 0
  {
    if leida == EnCurso && Expired(timer) then
      Stabilisation(Desactivada, timer, Some(Desactivada))
    else if leida == Iniciada then
      Stabilisation(Desactivada, Start(EsperaEstabilizacionS * 1000, taskPeriodMs), Some(EnCurso))
    else
      Stabilisation(leida, timer, None)
  }

  /**
   * The stored wait state after `n` activations that start from store value
   * `store` and timer `timer`, when every access succeeds and no other task
   * writes the wait state.
   */
  function StabilisationRun(store: Espera, timer: int, taskPeriodMs: int, n: nat): Espera
    requires taskPeriodMs > 0
    decreases n
  {
    if n == 0 then store
    else
      var s := StabilisationStep(store, timer, taskPeriodMs);
      StabilisationRun(if s.written.Some? then s.written.value else store, Next(s.timer), taskPeriodMs, n - 1)
  }

  /** Once DESACTIVADA, the wait stays DESACTIVADA. */
  lemma {:induction false} RunFromDesactivada(timer: int, taskPeriodMs: int, n: nat)
    requires taskPeriodMs > 0
    ensures StabilisationRun(Desactivada, timer, taskPeriodMs, n) == Desactivada
    decreases n
  {
    if n > 0 {
      RunFromDesactivada(Next(timer), taskPeriodMs, n - 1);
    }
  }

  /** An EN_CURSO wait with `t` activations left ends after activation number t + 1. */
  lemma {:induction false} RunFromEnCurso(t: int, taskPeriodMs: int, n: nat)
    requires taskPeriodMs > 0 && t >= 0
    ensures StabilisationRun(EnCurso, t, taskPeriodMs, n) == if n > t then Desactivada else EnCurso
    decreases n
  {
    if n > 0 {
      if t == 0 {
        RunFromDesactivada(Next(t), taskPeriodMs, n - 1);
      } else {
        RunFromEnCurso(t - 1, taskPeriodMs, n - 1);
      }
    }
  }

  /**
   * A wait that the tank control starts (INICIADA) becomes EN_CURSO in the
   * next activation and DESACTIVADA once `espera·1000/periodo` activations
   * (at least one) have passed after that.
   */
  lemma {:induction false} StabilisationWaitLasts(timer: int, taskPeriodMs: int, n: nat)
    requires taskPeriodMs > 0
    ensures var s := Start(EsperaEstabilizacionS * 1000, taskPeriodMs);
            var d := if s > 1 then s else 1;
            StabilisationRun(Iniciada, timer, taskPeriodMs, n) ==
              if n == 0 then Iniciada else if n > d then Desactivada else EnCurso
  {
    var s := Start(EsperaEstabilizacionS * 1000, taskPeriodMs);
    if n > 0 {
      RunFromEnCurso(Next(s), taskPeriodMs, n - 1);
    }
  }

  function Pow2(n: nat): (r: nat)
    ensures r >= 1
  {
    if n == 0 then 1 else 2 * Pow2(n - 1)
  }

  lemma {:induction false} Pow2Add(a: nat, b: nat)
    decreases a
    ensures Pow2(a + b) == Pow2(a) * Pow2(b)
  {
    if a > 0 {
      Pow2Add(a - 1, b);
    }
  }

  lemma {:induction false} Pow2Monotone(a: nat, b: nat)
    requires a <= b
    decreases b
    ensures Pow2(a) <= Pow2(b)
  {
    if a < b {
      Pow2Monotone(a, b - 1);
    }
  }

  function Abs(p: int): nat {
    if p < 0 then -p else p
  }

  /** The powers of two the double encoding needs, by repeated squaring. */
  lemma Pow2Values()
    ensures Pow2(16) == 65536
    ensures Pow2(21) == 2097152
    ensures Pow2(32) == Modulus32
  {
    assert Pow2(1) == 2;
    Pow2Add(1, 1);
    Pow2Add(2, 2);
    Pow2Add(4, 4);
    Pow2Add(8, 8);
    Pow2Add(16, 16);
    Pow2Add(4, 1);
    Pow2Add(16, 5);
  }

  /** A multiple of 2^(32+k) has a zero low word. */
  lemma {:induction false} LowWordOfMultiple(x: nat, k: nat)
    ensures (x * Pow2(32 + k)) % Modulus32 == 0
  {
    Pow2Add(32, k);
    Pow2Values();
    var y := x * Pow2(k);
    assert x * Pow2(32 + k) == y * Modulus32;
  }

  /** The exponent of the leading bit of a positive integer. */
  function Log2Floor(m: nat): (e: nat)
    requires m >= 1
    ensures Pow2(e) <= m < Pow2(e + 1)
  {
    if m == 1 then 0 else Log2Floor(m / 2) + 1
  }

  /**
   * The low 32 bits of the IEEE-754 double that represents the integer `p`
   * exactly (|p| < 2^53): the part of the 52-bit fraction field below the
   * leading bit, shifted to the top of the field, taken modulo 2^32.  Zero
   * has an all-zero encoding.
   */
  function DoubleLowWord(p: int): (w: int)
    requires Abs(p) < Pow2(53)
    ensures 0 <= w < Modulus32
  {
    var m := Abs(p);
    if m == 0 then 0
    else
      var e := Log2Floor(m);
      assert e <= 52 by {
        if e > 52 {
          Pow2Monotone(53, e);
        }
      }
      FractionLowWord(m, e)
  }

  /** The low 32 bits of the fraction field of a double whose leading bit is bit `e` of `m`. */
  function FractionLowWord(m: nat, e: nat): (w: int)
    requires Pow2(e) <= m && e <= 52
    ensures 0 <= w < Modulus32
  {
    ((m - Pow2(e)) * Pow2(52 - e)) % Modulus32
  }

  /**
   * The measurement period as the task holds it after a successful read.
   * tareaLectura passes the address of its `int periodo_medidas` where
   * configSistemaLeerPeriodo expects a `double *`; the double is stored
   * over the int and the word after it, and on the little-endian ESP32 the
   * int receives the double's low word.
   */
  function StoredPeriodo(periodoMedida: int): (r: int)
    requires Abs(periodoMedida) < Pow2(53)
    ensures InInt32(r)
  {
    Wrap32(DoubleLowWord(periodoMedida))
  }

  /** Below 2^21 the fraction bits of a double all lie in its high word. */
  lemma SmallMagnitudeLowWord(m: nat)
    requires 1 <= m < Pow2(21)
    ensures Log2Floor(m) <= 20
    ensures FractionLowWord(m, Log2Floor(m)) == 0
  {
    var e := Log2Floor(m);
    if e > 20 {
      Pow2Monotone(21, e);
    }
    LowWordOfMultiple(m - Pow2(e), 20 - e);
    assert 32 + (20 - e) == 52 - e;
  }

  /** Truncating an integral value gives the integer back. */
  lemma TruncOfIntegral(p: int)
    ensures TruncToInt(p as real) == p
  {
    if p < 0 {
      assert (-(p as real)).Floor == -p;
    }
  }

  /**
   * As written, every period below 2^21 ms (the 500 ms default among them)
   * reaches the task as 0, so the period timer is restarted for 0 ms and a
   * measurement is stored at every activation.  The corrected read, the
   * value converted to `double` and back, gives the configured period.
   */
  lemma {:induction false} SmallPeriodReadsAsZero(periodoMedida: int)
    requires Abs(periodoMedida) < Pow2(21)
    ensures Abs(periodoMedida) < Pow2(53)
    ensures StoredPeriodo(periodoMedida) == 0
    ensures TruncToInt(periodoMedida as real) == periodoMedida
  {
    Pow2Monotone(21, 53);
    if periodoMedida != 0 {
      SmallMagnitudeLowWord(Abs(periodoMedida));
    }
    assert DoubleLowWord(periodoMedida) == 0;
    TruncOfIntegral(periodoMedida);
  }

  /** With the default period of the task configuration, the task sees a period of 0 ms. */
  lemma DefaultPeriodReadsAsZero()
    ensures Abs(DefaultPeriodoMs) < Pow2(53)
    ensures StoredPeriodo(DefaultPeriodoMs) == 0
  {
    Pow2Values();
    SmallPeriodReadsAsZero(DefaultPeriodoMs);
  }

  /** The period timer once the period has been re-read as `periodo`: restarted when the period changed. */
  function PeriodTimer(l: LevelLocals, periodo: int, taskPeriodMs: int): int
    requires taskPeriodMs > 0
  {
    if periodo != l.periodoMedidas then Start(periodo, taskPeriodMs) else l.timerPeriodo
  }

  /** The measurement buffer's contents once the period has been re-read: cleared when the period changed. */
  function PeriodBase(l: LevelLocals, periodo: int, contents: seq<real>): seq<real> {
    if periodo != l.periodoMedidas then [] else contents
  }

  /**
   * First block of the activation: re-read the measurement period; when it
   * differs from the previous activation's, restart the period timer and
   * clear the measurement buffer.  Uses acquisitions k, k+1, … .  The
   * period is read as the configured value converted to `double` and back
   * (see `StoredPeriodo` for what the task does instead).
   */
  method UpdatePeriod(l: LevelLocals, taskPeriodMs: int, config: SystemConfig, medidas: Buffer,
                      locks: seq<bool>, k: nat) returns (periodo: int, timer: int, ok: bool, k': nat)
    requires taskPeriodMs > 0
    requires medidas.Valid()
    modifies config`err, medidas
    ensures medidas.Valid() && k' >= k
    ensures periodo == if Granted(locks, k) then config.periodoMedida else l.periodoMedidas
    ensures timer == PeriodTimer(l, periodo, taskPeriodMs)
    ensures (periodo == l.periodoMedidas || Granted(locks, k + 1)) ==>
              medidas.Contents == PeriodBase(l, periodo, old(medidas.Contents))
    ensures |medidas.Contents| <= |old(medidas.Contents)|
    ensures medidas.Contents ==
              if periodo != l.periodoMedidas && Granted(locks, k + 1) then [] else old(medidas.Contents)
    ensures !Granted(locks, k) ==> !ok
    ensures AllGranted(locks) ==> ok
    // the read uses acquisition k and the clear after a change k + 1; a refusal of either stops the task
    ensures k' == k + (if periodo != l.periodoMedidas then 2 else 1)
    ensures ok <==> Granted(locks, k) && (periodo == l.periodoMedidas || Granted(locks, k + 1))
  {
    var leido: real;
    ok, leido := config.LeerPeriodo(Granted(locks, k), l.periodoMedidas as real);
    k' := k + 1;
    periodo := TruncToInt(leido);
    timer := l.timerPeriodo;
    if l.periodoMedidas != periodo {
      timer := Start(periodo, taskPeriodMs);
      var cleared := medidas.Limpia(Granted(locks, k'));
      k' := k' + 1;
      ok := ok && cleared;
    }
  }

  /** Whether the period read (acquisition 0) and the clear after a change (acquisition 1) both obtain their mutex. */
  predicate PeriodLocked(l: LevelLocals, periodo: int, locks: seq<bool>) {
    Granted(locks, 0) && (periodo == l.periodoMedidas || Granted(locks, 1))
  }

  /** The acquisition of the first level write: after the read, and after the clear when the period changed. */
  function LevelStart(l: LevelLocals, periodo: int): nat {
    if periodo != l.periodoMedidas then 2 else 1
  }

  /** The acquisitions k, k + 1, …, k + n - 1 all obtain their mutex. */
  predicate GrantedRun(locks: seq<bool>, k: nat, n: nat) {
    forall i :: k <= i < k + n ==> Granted(locks, i)
  }

  /**
   * The level warning left in the store after the writes `w`, made with
   * acquisitions k, k + 1, … on a store holding `v`: the last write that
   * obtains its mutex, or `v` when none does.
   */
  function LevelLeft(w: seq<Nivel>, locks: seq<bool>, k: nat, v: Nivel): Nivel
    decreases |w|
  {
    if w == [] then v
    else if Granted(locks, k + |w| - 1) then w[|w| - 1]
    else LevelLeft(w[..|w| - 1], locks, k, v)
  }

  /**
   * A refused write leaves an earlier warning in place: when the final
   * NORMAL write after a MAXIMO warning is refused, MAXIMO stays in the
   * store, which never happens with every mutex obtained (LastLevelWrite).
   */
  lemma RefusedNormalKeepsMaximo(locks: seq<bool>, k: nat, v: Nivel)
    requires Granted(locks, k) && !Granted(locks, k + 1)
    ensures LevelWrites(true, false) == [NivelMaximo, NivelNormal]
    ensures LevelLeft(LevelWrites(true, false), locks, k, v) == NivelMaximo
  {
  }

  /**
   * The store holds one of the warnings attempted or the one it held before,
   * and when every write is refused it keeps the one it held.
   */
  lemma {:induction false} LevelLeftAttempted(w: seq<Nivel>, locks: seq<bool>, k: nat, v: Nivel)
    ensures LevelLeft(w, locks, k, v) == v || LevelLeft(w, locks, k, v) in w
    ensures (forall i :: k <= i < k + |w| ==> !Granted(locks, i)) ==> LevelLeft(w, locks, k, v) == v
    decreases |w|
  {
    if w != [] && !Granted(locks, k + |w| - 1) {
      var front := w[..|w| - 1];
      LevelLeftAttempted(front, locks, k, v);
      assert forall x :: x in front ==> x in w;
    }
  }

  /** Second block: publish the level warnings in the order LevelWrites gives. */
  method PublishLevel(check: LevelCheck, state: SystemState, locks: seq<bool>, k: nat) returns (ok: bool, k': nat)
    modifies state`nivelDeposito, state`err
    ensures k' >= k
    ensures AllGranted(locks) ==>
              ok && var w := LevelWrites(check.nivelMaximo, check.nivelMinimo); state.nivelDeposito == w[|w| - 1]
    // whatever the mutexes do: the writes use acquisitions k, k + 1, …; a refused write stops the task
    ensures var w := LevelWrites(check.nivelMaximo, check.nivelMinimo);
            k' == k + |w| && (ok <==> GrantedRun(locks, k, |w|)) &&
            state.nivelDeposito == LevelLeft(w, locks, k, old(state.nivelDeposito))
  {
    ghost var v := state.nivelDeposito;
    ghost var done: seq<Nivel> := [];
    ok := true;
    k' := k;
    if check.nivelMaximo {
      ok, k' := WriteLevel(state, NivelMaximo, locks, k, k', done, v, ok);
      done := done + [NivelMaximo];
    }
    if check.nivelMinimo {
      ok, k' := WriteLevel(state, NivelMinimo, locks, k, k', done, v, ok);
      done := done + [NivelMinimo];
    }
    if !check.nivelMaximo || !check.nivelMinimo {
      ok, k' := WriteLevel(state, NivelNormal, locks, k, k', done, v, ok);
      done := done + [NivelNormal];
    }
    ghost var w := LevelWrites(check.nivelMaximo, check.nivelMinimo);
    assert done == w;
    if AllGranted(locks) {
      LevelLeftAllGranted(w, locks, k, v);
    }
  }

  /** One level write after the writes `done`, with acquisition k + |done|. */
  method WriteLevel(state: SystemState, x: Nivel, locks: seq<bool>, k: nat, pos: nat, ghost done: seq<Nivel>,
                    ghost v: Nivel, ok: bool) returns (ok': bool, pos': nat)
    requires pos == k + |done|
    requires state.nivelDeposito == LevelLeft(done, locks, k, v)
    requires ok <==> GrantedRun(locks, k, |done|)
    modifies state`nivelDeposito, state`err
    ensures state.nivelDeposito == LevelLeft(done + [x], locks, k, v)
    ensures ok' <==> GrantedRun(locks, k, |done| + 1)
    ensures pos' == pos + 1
  {
    var written := state.EscribirNivel(Granted(locks, pos), x);
    PublishedOne(done, x, locks, k, v);
    ok' := ok && written;
    pos' := pos + 1;
  }

  /** With every mutex obtained, the last write is the one left. */
  lemma LevelLeftAllGranted(w: seq<Nivel>, locks: seq<bool>, k: nat, v: Nivel)
    requires AllGranted(locks) && w != []
    ensures GrantedRun(locks, k, |w|)
    ensures LevelLeft(w, locks, k, v) == w[|w| - 1]
  {
  }

  /** One more write, with acquisition k + |done|: how LevelLeft and GrantedRun extend. */
  lemma PublishedOne(done: seq<Nivel>, x: Nivel, locks: seq<bool>, k: nat, v: Nivel)
    ensures LevelLeft(done + [x], locks, k, v) ==
            if Granted(locks, k + |done|) then x else LevelLeft(done, locks, k, v)
    ensures GrantedRun(locks, k, |done| + 1) <==> GrantedRun(locks, k, |done|) && Granted(locks, k + |done|)
  {
  }

  /**
   * Third block: read the wait state (keeping the local copy on failure)
   * and advance it as StabilisationStep says; failures are ignored.
   */
  method AdvanceStabilisation(espera0: Espera, timer0: int, taskPeriodMs: int, state: SystemState,
                              locks: seq<bool>, k: nat) returns (espera: Espera, timer: int, k': nat)
    requires taskPeriodMs > 0
    modifies state`esperaEstabilizacion, state`err
    ensures k' >= k
    ensures var leida := if Granted(locks, k) then old(state.esperaEstabilizacion) else espera0;
            var s := StabilisationStep(leida, timer0, taskPeriodMs);
            espera == s.espera && timer == s.timer &&
            (AllGranted(locks) ==> state.esperaEstabilizacion == if s.written.Some? then s.written.value else leida)
  {
    var ok: bool;
    ok, espera := state.LeerEspera(Granted(locks, k), espera0);
    k' := k + 1;
    timer := timer0;
    if espera == EnCurso && Expired(timer) {
      espera := Desactivada;
      ok := state.EscribirEspera(Granted(locks, k'), espera);
      k' := k' + 1;
    }
    if espera == Iniciada {
      timer := Start(EsperaEstabilizacionS * 1000, taskPeriodMs);
      espera := Desactivada;
      ok := state.EscribirEspera(Granted(locks, k'), EnCurso);
      k' := k' + 1;
    }
  }

  /**
   * Last block: push the measurement when measurements are active, there
   * is no emergency and the period timer has expired; clear the buffer
   * when measurements are inactive or there is an emergency.
   */
  method StoreMeasurement(activas: bool, parada: bool, timer: int, medida: real, medidas: Buffer,
                          locks: seq<bool>, k: nat) returns (ok: bool, k': nat)
    requires medidas.Valid()
    modifies medidas, medidas.valor
    ensures medidas.Valid() && k' >= k
    ensures !(activas && !parada && Expired(timer)) ==> |medidas.Contents| <= |old(medidas.Contents)|
    ensures AllGranted(locks) ==>
              medidas.Contents ==
                (if !activas || parada then []
                 else if Expired(timer) && |old(medidas.Contents)| < Capacidad then old(medidas.Contents) + [medida]
                 else old(medidas.Contents))
    ensures AllGranted(locks) ==> (ok <==> !(activas && !parada && Expired(timer) && |old(medidas.Contents)| == Capacidad))
  {
    ok := true;
    k' := k;
    var done: bool;
    if activas && !parada && Expired(timer) {
      done := medidas.Mete(Granted(locks, k'), medida);
      k' := k' + 1;
      ok := ok && done;
    }
    if !activas || parada {
      done := medidas.Limpia(Granted(locks, k'));
      k' := k' + 1;
      ok := ok && done;
    }
  }

  /**
   * The first three blocks of an activation: the period, the level warning
   * and the stabilisation wait.  `ok` is false when the period read or a
   * level write fails or the level query fails.
   */
  method RefreshSettings(l: LevelLocals, taskPeriodMs: int, check: LevelCheck, locks: seq<bool>,
                         config: SystemConfig, state: SystemState, medidas: Buffer)
    returns (periodo: int, timerPeriodo: int, espera: Espera, timerEspera: int, ok: bool, k: nat)
    requires taskPeriodMs > 0
    requires medidas.Valid()
    modifies config`err, state`nivelDeposito, state`esperaEstabilizacion, state`err, medidas
    ensures medidas.Valid()
    ensures periodo == if Granted(locks, 0) then old(config.periodoMedida) else l.periodoMedidas
    ensures timerPeriodo == PeriodTimer(l, periodo, taskPeriodMs)
    ensures (periodo == l.periodoMedidas || Granted(locks, 1)) ==>
              medidas.Contents == PeriodBase(l, periodo, old(medidas.Contents))
    ensures |medidas.Contents| <= |old(medidas.Contents)|
    ensures AllGranted(locks) ==>
              var w := LevelWrites(check.nivelMaximo, check.nivelMinimo); state.nivelDeposito == w[|w| - 1]
    ensures AllGranted(locks) ==>
              var leida := old(state.esperaEstabilizacion);
              var s := StabilisationStep(leida, l.timerEspera, taskPeriodMs);
              espera == s.espera && timerEspera == s.timer &&
              state.esperaEstabilizacion == (if s.written.Some? then s.written.value else leida)
    ensures !check.ok || !Granted(locks, 0) ==> !ok
    ensures AllGranted(locks) ==> (ok <==> check.ok)
    // whatever the mutexes do: the period read and clear, then the level writes
    ensures var w := LevelWrites(check.nivelMaximo, check.nivelMinimo);
            var j := LevelStart(l, periodo);
            (ok <==> check.ok && PeriodLocked(l, periodo, locks) && GrantedRun(locks, j, |w|)) &&
            state.nivelDeposito == LevelLeft(w, locks, j, old(state.nivelDeposito))
  {
    var okPeriodo;
    periodo, timerPeriodo, okPeriodo, k := PeriodAndLevel(l, taskPeriodMs, check, locks, config, state, medidas);
    espera, timerEspera, k := AdvanceStabilisation(l.espera, l.timerEspera, taskPeriodMs, state, locks, k);
    ok := okPeriodo && check.ok;
  }

  /** The first two blocks of RefreshSettings: the period update, then the level writes. */
  method PeriodAndLevel(l: LevelLocals, taskPeriodMs: int, check: LevelCheck, locks: seq<bool>,
                        config: SystemConfig, state: SystemState, medidas: Buffer)
    returns (periodo: int, timerPeriodo: int, ok: bool, k: nat)
    requires taskPeriodMs > 0
    requires medidas.Valid()
    modifies config`err, state`nivelDeposito, state`err, medidas
    ensures medidas.Valid()
    ensures periodo == if Granted(locks, 0) then old(config.periodoMedida) else l.periodoMedidas
    ensures timerPeriodo == PeriodTimer(l, periodo, taskPeriodMs)
    ensures (periodo == l.periodoMedidas || Granted(locks, 1)) ==>
              medidas.Contents == PeriodBase(l, periodo, old(medidas.Contents))
    ensures |medidas.Contents| <= |old(medidas.Contents)|
    ensures AllGranted(locks) ==>
              ok && var w := LevelWrites(check.nivelMaximo, check.nivelMinimo); state.nivelDeposito == w[|w| - 1]
    ensures var w := LevelWrites(check.nivelMaximo, check.nivelMinimo);
            var j := LevelStart(l, periodo);
            k == j + |w| &&
            (ok <==> PeriodLocked(l, periodo, locks) && GrantedRun(locks, j, |w|)) &&
            state.nivelDeposito == LevelLeft(w, locks, j, old(state.nivelDeposito))
  {
    var okPeriodo, okLevel;
    periodo, timerPeriodo, okPeriodo, k := UpdatePeriod(l, taskPeriodMs, config, medidas, locks, 0);
    okLevel, k := PublishLevel(check, state, locks, k);
    ok := okPeriodo && okLevel;
  }

  /**
   * The last block of an activation: read the emergency latch (keeping the
   * previous flag on a failed read), then store or clear as
   * `StoreMeasurement` says.  `ok` is false when the read or the store fails.
   */
  method LatchAndStore(activas: bool, parada0: bool, timer: int, medida: real, latch: EmergencyLatch,
                       medidas: Buffer, locks: seq<bool>, k: nat) returns (parada: bool, ok: bool)
    requires medidas.Valid()
    modifies latch`err, medidas, medidas.valor
    ensures medidas.Valid()
    ensures AllGranted(locks) ==> parada == old(latch.paradaEmergencia)
    ensures !(activas && !parada && Expired(timer)) ==> |medidas.Contents| <= |old(medidas.Contents)|
    ensures AllGranted(locks) ==>
              medidas.Contents ==
                (if !activas || parada then []
                 else if Expired(timer) && |old(medidas.Contents)| < Capacidad then old(medidas.Contents) + [medida]
                 else old(medidas.Contents))
    ensures AllGranted(locks) ==> (ok <==> !(activas && !parada && Expired(timer) && |old(medidas.Contents)| == Capacidad))
  {
    var okLeer;
    okLeer, parada := latch.Leer(Granted(locks, k), parada0);
    var okStore, k' := StoreMeasurement(activas, parada, timer, medida, medidas, locks, k + 1);
    ok := okLeer && okStore;
  }

  /**
   * One activation of tareaLectura (the body of its loop after
   * xTaskDelayUntil).  `taskPeriodMs` is the task's period, `medida` the
   * scale reading, `check` and `activas` the outcomes of the two undefined
   * queries.
   */
  method LevelCycle(l: LevelLocals, taskPeriodMs: int, medida: real, check: LevelCheck, activas: FlagRead,
                    locks: seq<bool>, config: SystemConfig, state: SystemState, latch: EmergencyLatch,
                    medidas: Buffer) returns (r: LevelLocals)
    requires l.continuar
    requires taskPeriodMs > 0
    requires medidas.Valid()
    modifies config`err, state`nivelDeposito, state`esperaEstabilizacion, state`err, latch`err
    modifies medidas, medidas.valor
    ensures medidas.Valid()
    // the measurement period and its timer
    ensures r.periodoMedidas == if Granted(locks, 0) then old(config.periodoMedida) else l.periodoMedidas
    ensures r.timerPeriodo == Next(PeriodTimer(l, r.periodoMedidas, taskPeriodMs))
    // level warning
    ensures r.nivelMaximo == check.nivelMaximo && r.nivelMinimo == check.nivelMinimo && r.medida == medida
    ensures AllGranted(locks) ==>
              var w := LevelWrites(check.nivelMaximo, check.nivelMinimo); state.nivelDeposito == w[|w| - 1]
    // stabilisation wait
    ensures AllGranted(locks) ==>
              var leida := old(state.esperaEstabilizacion);
              var s := StabilisationStep(leida, l.timerEspera, taskPeriodMs);
              r.espera == s.espera && r.timerEspera == Next(s.timer) &&
              state.esperaEstabilizacion == (if s.written.Some? then s.written.value else leida)
    // measurement buffer
    ensures r.medidasActivas == activas.value
    ensures AllGranted(locks) ==> r.paradaEmergencia == old(latch.paradaEmergencia)
    ensures !(r.medidasActivas && !r.paradaEmergencia && Expired(PeriodTimer(l, r.periodoMedidas, taskPeriodMs))) ==>
              |medidas.Contents| <= |old(medidas.Contents)|
    ensures AllGranted(locks) ==>
              var base := PeriodBase(l, r.periodoMedidas, old(medidas.Contents));
              medidas.Contents ==
                (if !r.medidasActivas || r.paradaEmergencia then []
                 else if Expired(PeriodTimer(l, r.periodoMedidas, taskPeriodMs)) && |base| < Capacidad then base + [medida]
                 else base)
    // termination of the task loop
    ensures !check.ok || !activas.ok || !Granted(locks, 0) ==> !r.continuar
    // whatever the mutexes do: a refused period read or clear, or a refused level write, stops the task,
    // and the level left is the last write that obtained its mutex
    ensures var w := LevelWrites(check.nivelMaximo, check.nivelMinimo);
            var j := LevelStart(l, r.periodoMedidas);
            (!PeriodLocked(l, r.periodoMedidas, locks) || !GrantedRun(locks, j, |w|) ==> !r.continuar) &&
            state.nivelDeposito == LevelLeft(w, locks, j, old(state.nivelDeposito))
    ensures AllGranted(locks) ==>
              (r.continuar <==> check.ok && activas.ok &&
                                !(r.medidasActivas && !r.paradaEmergencia &&
                                  Expired(PeriodTimer(l, r.periodoMedidas, taskPeriodMs)) &&
                                  |PeriodBase(l, r.periodoMedidas, old(medidas.Contents))| == Capacidad))
  {
    var periodo, timerPeriodo, espera, timerEspera, continuar, k :=
      RefreshSettings(l, taskPeriodMs, check, locks, config, state, medidas);

    if !activas.ok { continuar := false; }
    var parada, ok := LatchAndStore(activas.value, l.paradaEmergencia, timerPeriodo, medida, latch, medidas, locks, k);
    if !ok { continuar := false; }

    r := LevelLocals(periodo, espera, activas.value, parada, check.nivelMaximo, check.nivelMinimo,
                     medida, Next(timerPeriodo), Next(timerEspera), continuar);
  }
}
