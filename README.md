# Gravimetric fuel-consumption meter: a Dafny model of the firmware core

The ESP32/FreeRTOS firmware weighs a fuel tank. From those readings it computes the fuel consumption and sends it to two places:
- a console display;
- a remote system, as a 0–10 V analog signal.

A two-valve, one-pump controller fills and drains the tank. Periodic tasks share three protected stores and four circular buffers:
- the system state: measurement command, stabilisation wait, level warning, tank state;
- the configuration: period, wait, limits;
- the emergency latch.

This project models that core:
- the mutex-protected circular buffer;
- the table-driven state-machine engine and the tank controller built on it;
- the three stores;
- one activation of each pipeline task: level/measurement, averaging, consumption, display feed, remote link, console commands.

Each store is a Dafny `class` whose fields mirror the C struct, with methods for the C functions that update it. Each task is a `method` for one pass of its `while (continuar)` loop. The locals that persist between passes are a datatype, passed in and returned.

Modelling conventions:

- **Mutexes.** Every `xSemaphoreTake(…, 10)` either succeeds or times out.
  - Each store or buffer operation takes the outcome as `lockAcquired`.
  - A task activation takes the outcomes of its successive acquisitions as `locks: seq<bool>`. Acquisition `k` succeeds when `Mutex.Granted(locks, k)`, and acquisitions past the end succeed.
  - Every task contract states what holds whatever the outcomes are. These facts include "values leave a buffer only from the front" and "what is sent lies in range".
  - Under `AllGranted(locks)`, the contract states the exact outcome.
- **Functions left undefined in the firmware become inputs of the activation.**
  - The scale reading (`medida_bascula`).
  - The level check (`configSistemaComprobarNivel`).
  - The "measurements active" query (`estadoSistemaMedidasActivas`).
  - The remote request line (`estado_señal`).
  - The console read (`lectura_comando`).
  - The outcomes of the configuration writers (`configSistemaEscribir*`).
- **What the tasks hand to log-only stubs becomes outputs.**
  - The display notifiers.
  - `enviar_consumo`.
  - The configuration writes.
  - The actuator calls, which are ghost state of the tank controller.
- **Numbers.**
  - C `double` is `real`.
  - The remote task also needs NaN, so it uses `ComunicacionRemoto.Double`.
  - C `int` overflow is written out with `CTypes.Wrap32` where it matters.
  - `(int)` conversion is `CTypes.TruncToInt`.
- **Guards that are stubs.** Guards whose conditions the firmware leaves as constant 0 take the conditions as explicit inputs: `ControlDeposito.TankInputs` and `CalculaConsumo.MonitorInputs`. `StubInputs` is what the tank guards evaluate. `StubMonitorInputs(medidaPuntual, timerExpired)` sets every stubbed monitor condition to 0. The monitor guards receive the machine pointer (fsm.c:30), so the firmware evaluates `StubMonitorInputs(true, false)`.

Where the firmware passes a pointer of the wrong type or writes to a local pointer instead of its target, the task models use the evidently intended behaviour. The as-written behaviour is modelled next to it and recorded under "## Findings". Other oddities are modelled as written and stated as lemmas:
- the level-warning order;
- the DESACTIVADA command;
- the configuration fall-through;
- stale values after a failed pop.

Paths below are relative to the repository root.

## Model

| member | source | states |
|---|---|---|
| BufferCircular.Buffer.Crea | Gavimetric_Meter/main/bufferCircular.c:13-31 | with the mutex created the buffer is empty with both indices 0 and the error code OK; otherwise the error is BUFFER_ERR_MUTEX |
| BufferCircular.Buffer.Mete | Gavimetric_Meter/main/bufferCircular.c:45-78 | succeeds iff the lock is obtained and fewer than NUMELEMENTOS values are held; then the value is appended at the tail slot, which alone changes, and the ring invariant is kept; otherwise nothing but the error code (ERR_MUTEX / ERR_LLENO) changes |
| BufferCircular.Buffer.Saca | Gavimetric_Meter/main/bufferCircular.c:81-114 | succeeds iff the lock is obtained and the buffer is not empty; then the oldest value is returned and removed; otherwise the caller's variable keeps its value and the buffer is unchanged |
| BufferCircular.Buffer.Lleno | Gavimetric_Meter/main/bufferCircular.c:117-135 | true exactly when the lock is obtained and the buffer holds NUMELEMENTOS values |
| BufferCircular.Buffer.Vacio | Gavimetric_Meter/main/bufferCircular.c:138-156 | true exactly when the lock is obtained and the buffer is empty (a timed-out lock reads as "not empty") |
| BufferCircular.Buffer.NumElementosAsWritten | Gavimetric_Meter/main/bufferCircular.c:159-177 | as written the count never reaches the caller: the caller's variable keeps whatever it held |
| BufferCircular.Buffer.NumElementos | Gavimetric_Meter/main/bufferCircular.c:159-177 | corrected: with the lock the caller receives the number of values held |
| BufferCircular.Buffer.Limpia | Gavimetric_Meter/main/bufferCircular.c:180-204 | with the lock the buffer becomes empty (read index moved to the write index); without it nothing but the error code changes |
| BufferCircular.PushedKeepsRoom | Gavimetric_Meter/main/bufferCircular.c:45-78 | a run of pushes keeps the old contents in front and appends the new values in order while there is room; the rest are lost |
| BufferCircular.ClearWhen | Gavimetric_Meter/main/comunicacionDisplay.c:119-122 | the conditional clear of the display and remote tasks: no clear, no change; a clear empties the buffer iff its lock is obtained; values only ever leave from the front |
| Fsm.Scan | Gavimetric_Meter/main/fsm.c:29-43 | the row fsm_update fires is the first row before the sentinel whose origin is the current state and whose guard holds; none fires only when no such row exists |
| Fsm.ScanStopsAtSentinel | Gavimetric_Meter/main/fsm.c:29 | rows after the end-of-table sentinel never influence the fired row |
| Fsm.ScanSkips | Gavimetric_Meter/main/fsm.c:29-30 | a stretch of rows none of which is enabled is passed over |
| Fsm.Machine.Init | Gavimetric_Meter/main/fsm.c:16-20 | the machine takes the table and starts in the origin state of its first row |
| Fsm.Machine.Update | Gavimetric_Meter/main/fsm.c:23-44 | the state becomes the destination of the fired row and its output is handed back; with no row fired nothing changes |
| ControlDeposito.GuardHolds | Gavimetric_Meter/main/controlDeposito.c:68-113 | the 0/1 integer formulas of deposito_c12…c32 mean: c12 no emergency and (fill or low level), c13 no emergency and drain, c21 emergency or stop-fill or high level, c23 drain, c31 emergency or stop-drain, c32 fill |
| ControlDeposito.Successor | Gavimetric_Meter/main/controlDeposito.c:160-172 | definition: the reference next state of the tank controller, written state by state independently of the table; TableImplementsSuccessor proves the table equal to it |
| ControlDeposito.TableImplementsSuccessor | Gavimetric_Meter/main/controlDeposito.c:160-172 | the table scanned by the engine yields, in every state and for every input, the reference successor state |
| ControlDeposito.EmergencyKeepsIdle | Gavimetric_Meter/main/controlDeposito.c:163-164 | an emergency keeps the idle tank idle |
| ControlDeposito.EmergencyStops | Gavimetric_Meter/main/controlDeposito.c:165-167 | an emergency takes a filling or draining tank back to idle |
| ControlDeposito.FillBeatsDrain | Gavimetric_Meter/main/controlDeposito.c:163-164 | with fill and drain both requested, the idle tank starts filling (row order) |
| ControlDeposito.StubsNeverMove | Gavimetric_Meter/main/controlDeposito.c:68-113 | with the guards as stubbed (every condition 0) the machine never leaves its state |
| ControlDeposito.ActionsKeepSetting | Gavimetric_Meter/main/controlDeposito.c:119-169 | every row's action takes the actuator setting of its origin state to that of its destination state |
| ControlDeposito.Apply | Gavimetric_Meter/main/controlDeposito.c:119-154 | definition: each action deposito_a12 … a31 as its effect on pump and valves; ActionsKeepSetting and TankController.Run relate it to the states and the actuator calls |
| ControlDeposito.SettingIsSafe | Gavimetric_Meter/main/controlDeposito.c:119-154 | in every state's setting the two valves are never open together and the pump runs exactly with the fill valve |
| ControlDeposito.TankController.Start | Gavimetric_Meter/main/controlDeposito.c:199-206 | the controller starts in state 1 with pump off and both valves closed |
| ControlDeposito.TankController.BombaOn | Gavimetric_Meter/main/controlDeposito.c:28-31 | switches the pump on, nothing else |
| ControlDeposito.TankController.BombaOff | Gavimetric_Meter/main/controlDeposito.c:34-37 | switches the pump off, nothing else |
| ControlDeposito.TankController.ValvLlenOpen | Gavimetric_Meter/main/controlDeposito.c:40-43 | opens the fill valve, nothing else |
| ControlDeposito.TankController.ValvLlenClose | Gavimetric_Meter/main/controlDeposito.c:46-49 | closes the fill valve, nothing else |
| ControlDeposito.TankController.ValvVacOpen | Gavimetric_Meter/main/controlDeposito.c:52-55 | opens the drain valve, nothing else |
| ControlDeposito.TankController.ValvVacClose | Gavimetric_Meter/main/controlDeposito.c:58-61 | closes the drain valve, nothing else |
| ControlDeposito.TankController.Run | Gavimetric_Meter/main/controlDeposito.c:119-154 | the actuator calls of each action have the effect Apply gives |
| ControlDeposito.TankController.Step | Gavimetric_Meter/main/controlDeposito.c:211-220 | one activation moves the machine to the reference successor and keeps the actuators matching the state |
| ParadaEmergencia.EmergencyLatch.Crea | Gavimetric_Meter/main/paradaEmergencia.c:20-36 | the latch starts inactive; the result reports whether the mutex was created |
| ParadaEmergencia.EmergencyLatch.Activar | Gavimetric_Meter/main/paradaEmergencia.c:50-67 | with the lock the latch becomes active (idempotently); without it only the error code changes |
| ParadaEmergencia.EmergencyLatch.Desactivar | Gavimetric_Meter/main/paradaEmergencia.c:70-87 | with the lock the latch becomes inactive; without it only the error code changes |
| ParadaEmergencia.EmergencyLatch.Leer | Gavimetric_Meter/main/paradaEmergencia.c:90-108 | with the lock the caller receives the latch, otherwise keeps its previous value; the latch never changes |
| ParadaEmergencia.EmergencyLatch.ActivarDesdeInterrupcion | Gavimetric_Meter/main/interrupcionEmergencia.c:22-32 | the interrupt sets the latch whatever its take-from-ISR does |
| EstadoSistema.ComandoOrdinal | Gavimetric_Meter/main/estadoSistema.h:19-26 | the integer values of the command enumerators, MEDIDA_MANUAL_PUNTUAL being 0 |
| EstadoSistema.ComandoDeOrdinal | Gavimetric_Meter/main/estadoSistema.h:19-26 | an integer names a command exactly when it is 0..3, and then its inverse |
| EstadoSistema.EsperaOrdinal | Gavimetric_Meter/main/estadoSistema.h:29-35 | the integer values of the wait enumerators, DESACTIVADA being 0 |
| EstadoSistema.EsperaAsComando | Gavimetric_Meter/main/estadoSistema.h:19-35 | every wait value read as a command is a valid command, and DESACTIVADA reads as MEDIDA_MANUAL_PUNTUAL |
| EstadoSistema.SystemState.Crea | Gavimetric_Meter/main/estadoSistema.c:19-39 | the store starts with MEDIDA_OFF, DESACTIVADA, level normal, tank normal and no remote request |
| EstadoSistema.SystemState.LeerComando | Gavimetric_Meter/main/estadoSistema.c:53-71 | with the lock the caller receives the command, otherwise keeps its value |
| EstadoSistema.SystemState.LeerEspera | Gavimetric_Meter/main/estadoSistema.c:74-92 | with the lock the caller receives the wait state, otherwise keeps its value |
| EstadoSistema.SystemState.LeerNivel | Gavimetric_Meter/main/estadoSistema.c:95-113 | with the lock the caller receives the level warning, otherwise keeps its value |
| EstadoSistema.SystemState.LeerDeposito | Gavimetric_Meter/main/estadoSistema.c:116-134 | with the lock the caller receives the tank state, otherwise keeps its value |
| EstadoSistema.SystemState.LeerPeticion | Gavimetric_Meter/main/estadoSistema.c:137-157 | true exactly when the lock is obtained and a remote request is pending |
| EstadoSistema.SystemState.EscribirComando | Gavimetric_Meter/main/estadoSistema.c:160-178 | with the lock the command takes the new value, otherwise it is unchanged |
| EstadoSistema.SystemState.EscribirEspera | Gavimetric_Meter/main/estadoSistema.c:181-199 | with the lock the wait state takes the new value, otherwise it is unchanged |
| EstadoSistema.SystemState.EscribirNivel | Gavimetric_Meter/main/estadoSistema.c:202-220 | with the lock the level warning takes the new value, otherwise it is unchanged |
| EstadoSistema.SystemState.EscribirDeposito | Gavimetric_Meter/main/estadoSistema.c:223-241 | with the lock the tank state takes the new value, otherwise it is unchanged |
| ConfigSistema.SystemConfig.Crea | Gavimetric_Meter/main/configSistema.c:22-42 | the parameters start at 500 ms, 5 s, 10, 100 and 5 |
| ConfigSistema.SystemConfig.LeerPeriodo | Gavimetric_Meter/main/configSistema.c:56-74 | with the lock the caller's `double` receives the period, otherwise keeps its value |
| ConfigSistema.SystemConfig.LeerEspera | Gavimetric_Meter/main/configSistema.c:77-95 | with the lock the caller receives the wait, otherwise keeps its value |
| ConfigSistema.SystemConfig.LeerConsumoMax | Gavimetric_Meter/main/configSistema.c:98-116 | with the lock the caller's `int` receives the maximum consumption truncated toward zero |
| ConfigSistema.SystemConfig.LeerNivelMax | Gavimetric_Meter/main/configSistema.c:119-137 | with the lock the caller's `int` receives the maximum level truncated toward zero |
| ConfigSistema.SystemConfig.LeerNivelMin | Gavimetric_Meter/main/configSistema.c:140-158 | with the lock the caller's `int` receives the minimum level truncated toward zero |
| ConfigSistema.DefaultsReadBack | Gavimetric_Meter/main/configSistema.c:22-42 | the default limits read back through the truncating readers as 10, 100 and 5 |
| Timers.Start | Gavimetric_Meter/main/medidasNivel.c:45-48 | the countdown is the number of whole task periods in the wanted time: t·p ≤ time < (t+1)·p |
| Timers.StartSeconds | Gavimetric_Meter/main/calculaConsumo.c:66-69 | the same for a time given in seconds, converted to ms in a C int |
| Timers.Next | Gavimetric_Meter/main/medidasNivel.c:51-55 | one activation less, never going below 0 |
| Timers.CountdownExpires | Gavimetric_Meter/main/medidasNivel.c:38-55 | a countdown loaded with t reads expired after exactly t activations and stays expired |
| Timers.StartAsWrittenExpiresAtOnce | Gavimetric_Meter/main/medidasNivel.c:38-55 | as written (helpers assign their pointer parameter) a counter starting at 0 reads expired right after being started, unlike the countdown |
| Timers.Expired | Gavimetric_Meter/main/medidasNivel.c:38-41 | definition: the expiry test of the countdown, a counter at 0 (as written the C compares the pointer, which StartAsWrittenExpiresAtOnce records); CountdownExpires states when it holds |
| Timers.StartAsWritten | Gavimetric_Meter/main/medidasNivel.c:45-48 | definition: as written the quotient is stored in the pointer parameter, so the caller's counter keeps its value |
| Timers.NextAsWritten | Gavimetric_Meter/main/medidasNivel.c:51-55 | definition: as written the decrement changes the pointer parameter, so the caller's counter keeps its value |
| MedidasNivel.LastLevelWrite | Gavimetric_Meter/main/medidasNivel.c:133-144 | the warning left after the writes is NORMAL unless both limits are reported (then MINIMO); a MAXIMO warning is always overwritten |
| MedidasNivel.LevelWrites | Gavimetric_Meter/main/medidasNivel.c:133-144 | definition: the level warnings written in order, MAXIMO and MINIMO for the flags reported, then NORMAL unless both are; LastLevelWrite states which one is left |
| MedidasNivel.StabilisationStep | Gavimetric_Meter/main/medidasNivel.c:147-160 | definition: the stabilisation block on the wait state read; RunFromDesactivada, RunFromEnCurso and StabilisationWaitLasts state the runs it produces |
| MedidasNivel.DoubleLowWord | Gavimetric_Meter/main/medidasNivel.c:119 | the low 32-bit word of the IEEE-754 encoding of an integral double, an unsigned 32-bit value; SmallPeriodReadsAsZero states when it is 0 |
| MedidasNivel.RunFromDesactivada | Gavimetric_Meter/main/medidasNivel.c:148-160 | a wait that is DESACTIVADA stays so |
| MedidasNivel.RunFromEnCurso | Gavimetric_Meter/main/medidasNivel.c:148-153 | an EN_CURSO wait with t activations left becomes DESACTIVADA after t+1 activations |
| MedidasNivel.StabilisationWaitLasts | Gavimetric_Meter/main/medidasNivel.c:147-160 | a wait started by the tank control (INICIADA) is EN_CURSO from the next activation and ends once the 5 s worth of task periods (at least one) have passed |
| MedidasNivel.StoredPeriodo | Gavimetric_Meter/main/medidasNivel.c:119 | as written the task's int period receives the low word of the double written through it |
| MedidasNivel.SmallPeriodReadsAsZero | Gavimetric_Meter/main/medidasNivel.c:118-125 | every period below 2^21 ms reaches the task as 0, while the corrected read gives the period itself |
| MedidasNivel.DefaultPeriodReadsAsZero | Gavimetric_Meter/main/configSistema.c:22-42 | the default period of 500 ms reaches the level task as 0 |
| MedidasNivel.UpdatePeriod | Gavimetric_Meter/main/medidasNivel.c:117-125 | the period is re-read (kept on a failed read); a changed period restarts the period timer and clears the measurement buffer (left as it was when the clear is refused); the read takes one acquisition and the clear a second one; the step succeeds exactly when the read and, after a change, the clear obtain their mutex |
| MedidasNivel.PublishLevel | Gavimetric_Meter/main/medidasNivel.c:131-144 | the level warnings are written in the order LevelWrites gives, one acquisition each; the step succeeds exactly when every write obtains its mutex, and the store holds LevelLeft, the last write that obtained it (with every mutex, LevelWrites' last one) |
| MedidasNivel.AdvanceStabilisation | Gavimetric_Meter/main/medidasNivel.c:147-160 | the wait state read is advanced as StabilisationStep says (expired EN_CURSO → DESACTIVADA, INICIADA → timer started and EN_CURSO stored) |
| MedidasNivel.PeriodAndLevel | Gavimetric_Meter/main/medidasNivel.c:117-144 | the period update followed by the level writes: the writes start at acquisition LevelStart, the blocks succeed exactly when PeriodLocked and every write obtains its mutex, and the store holds LevelLeft |
| MedidasNivel.WriteLevel | Gavimetric_Meter/main/medidasNivel.c:133-144 | one level write at the next acquisition extends LevelLeft and the run of obtained mutexes by that write |
| MedidasNivel.LevelLeft | Gavimetric_Meter/main/medidasNivel.c:133-144 | definition: the warning left by a sequence of writes under given lock outcomes, the last write that obtained its mutex or the previous warning; LevelLeftAttempted and RefusedNormalKeepsMaximo are about it |
| MedidasNivel.LevelLeftAttempted | Gavimetric_Meter/main/medidasNivel.c:133-144 | the store holds one of the warnings attempted or the previous one, and keeps the previous one when every write is refused |
| MedidasNivel.RefusedNormalKeepsMaximo | Gavimetric_Meter/main/medidasNivel.c:133-144 | with the maximum reported, a refused final NORMAL write leaves MAXIMO in the store, which never happens when every mutex is obtained |
| MedidasNivel.StoreMeasurement | Gavimetric_Meter/main/medidasNivel.c:166-175 | the measurement is appended when measurements are active, no emergency and the period timer has expired (if there is room; a full buffer stops the task); the buffer is cleared when inactive or in emergency |
| MedidasNivel.RefreshSettings | Gavimetric_Meter/main/medidasNivel.c:117-160 | the first three blocks in order: the period read (kept on a failed read) with its timer and buffer clear, the level writes, and the wait state advanced as StabilisationStep says; whatever the mutexes do, the blocks succeed exactly when the level query succeeds, the period read and clear obtain their mutex (PeriodLocked) and so do the level writes from LevelStart on, and the store holds LevelLeft |
| MedidasNivel.LatchAndStore | Gavimetric_Meter/main/medidasNivel.c:165-175 | the emergency flag is the latch when the read succeeds, and the measurement buffer is appended to or cleared as StoreMeasurement says for that flag |
| MedidasNivel.LevelCycle | Gavimetric_Meter/main/medidasNivel.c:109-181 | one activation: the new period and timers, the level warning, the wait state, the measurement buffer and the loop flag, exactly when every lock is obtained; whatever the mutexes do, a failed query, a refused period read or clear, or a refused level write stops the task, and the level left is LevelLeft |
| CalculaConsumo.RatesAgree | Gavimetric_Meter/main/calculaConsumo.c:37-52 | the per-second rate is 60 times the per-minute and 3600 times the per-hour rate |
| CalculaConsumo.RatesKeepSign | Gavimetric_Meter/main/calculaConsumo.c:37-52 | with a positive period each exact rate is non-negative exactly when the sum of the two measurements is |
| CalculaConsumo.ConsumoSegundo | Gavimetric_Meter/main/calculaConsumo.c:37-40 | definition: the per-second consumption with the divisor computed exactly; RatesAgree and RatesKeepSign are about it |
| CalculaConsumo.ConsumoMinuto | Gavimetric_Meter/main/calculaConsumo.c:43-46 | definition: the per-minute consumption with the divisor computed exactly; RatesAgree and RatesKeepSign are about it |
| CalculaConsumo.ConsumoHora | Gavimetric_Meter/main/calculaConsumo.c:49-52 | definition: the per-hour consumption with the divisor computed exactly; RatesAgree and RatesKeepSign are about it |
| CalculaConsumo.ConsumoSegundoAsWritten | Gavimetric_Meter/main/calculaConsumo.c:37-40 | definition: the formula with `periodo_ms*1000` computed in 32-bit `int`; AsWrittenExactBelowOverflow states where it agrees with the exact formula |
| CalculaConsumo.ConsumoMinutoAsWritten | Gavimetric_Meter/main/calculaConsumo.c:43-46 | definition: the formula with each product of the divisor computed in 32-bit `int`; AsWrittenExactBelowOverflow states where it agrees with the exact formula |
| CalculaConsumo.ConsumoHoraAsWritten | Gavimetric_Meter/main/calculaConsumo.c:49-52 | definition: the formula with each product of the divisor computed in 32-bit `int`; AsWrittenExactBelowOverflow and ConsumoHoraOverflowsAt600 state where it is exact and where it turns negative |
| CalculaConsumo.AsWrittenExactBelowOverflow | Gavimetric_Meter/main/calculaConsumo.c:37-52 | the formulas with 32-bit divisors are exact up to 2147483, 35791 and 596 ms |
| CalculaConsumo.ConsumoHoraOverflowsAt600 | Gavimetric_Meter/main/calculaConsumo.c:49-52 | at 600 ms the hourly divisor wraps to -2134967296 and two positive measurements give a negative consumption |
| CalculaConsumo.TaskPeriodDoesNotOverflow | Gavimetric_Meter/main/calculaConsumo.c:345 | at the task's own 500 ms the hourly formula as written is exact |
| CalculaConsumo.MonitorGuardHolds | Gavimetric_Meter/main/calculaConsumo.c:85-269 | no guard of a row leaving the wait state 6 (c61–c65) holds before the timer has expired |
| CalculaConsumo.MonitorTableShape | Gavimetric_Meter/main/calculaConsumo.c:277-309 | the monitoring table has 31 live rows grouped by origin state 1–6, then the sentinel |
| CalculaConsumo.MonitorNext | Gavimetric_Meter/main/calculaConsumo.c:275-312 | definition: one fsm_update of the monitoring machine, the destination of the row Scan fires in its table; MonitorTableImplements relates it to the reference reading |
| CalculaConsumo.MonitorSkipsOthers | Gavimetric_Meter/main/calculaConsumo.c:277-309 | the scan in a state only ever looks at that state's own rows |
| CalculaConsumo.MonitorTableImplements | Gavimetric_Meter/main/calculaConsumo.c:275-312 | in each of states 1–6 the table behaves as the reference reading MonitorSuccessor |
| CalculaConsumo.WaitHasPriority | Gavimetric_Meter/main/calculaConsumo.c:277-303 | in states 1–5 the transition to the wait state 6 wins whenever a wait or a fill/drain is under way |
| CalculaConsumo.LeaveWaitLast | Gavimetric_Meter/main/calculaConsumo.c:304-308 | from state 6 the machine stays iff the timer has not expired, and returns to 1 iff it has and no mode row applies |
| CalculaConsumo.StubsGoToRemoteIdle | Gavimetric_Meter/main/calculaConsumo.c:104-109 | with the guards as stubbed the machine goes from state 1 to state 4 and stays there |
| CalculaConsumo.FirmwareMonitorMoves | Gavimetric_Meter/main/calculaConsumo.c:104-130 | with the guards as the firmware evaluates them (machine pointer as argument: c21 holds, the timer never expires) state 2 goes to 1, states 1, 3, 4 and 5 to 4, and the wait state 6 is never left |
| CalculaConsumo.PairRates | Gavimetric_Meter/main/calculaConsumo.c:369-390 | the hourly consumption of each successive pair of measurements, oldest first; an odd one out is left |
| CalculaConsumo.MedidasDisponiblesAsWritten | Gavimetric_Meter/main/calculaConsumo.c:27-34 | as written the answer depends only on the uninitialised local count, not on the buffer |
| CalculaConsumo.MedidasDisponibles | Gavimetric_Meter/main/calculaConsumo.c:27-34 | corrected: true exactly when the lock is obtained and at least two measurements are buffered |
| CalculaConsumo.TakePair | Gavimetric_Meter/main/calculaConsumo.c:371-381 | the two oldest measurements are popped, their hourly consumption pushed (if there is room, else the task stops) |
| CalculaConsumo.PairStepKeepsOutcome | Gavimetric_Meter/main/calculaConsumo.c:369-390 | taking one pair leaves the pushes still to come leading to the same consumption buffer |
| CalculaConsumo.DrainedAtEnd | Gavimetric_Meter/main/calculaConsumo.c:369-390 | when fewer than two measurements are left, the consumption buffer holds every pair's rate that fitted |
| CalculaConsumo.DrainPairs | Gavimetric_Meter/main/calculaConsumo.c:369-390 | the inner loop consumes every pair, pushes their rates in order, and continues iff all fitted |
| CalculaConsumo.ConsumoCycle | Gavimetric_Meter/main/calculaConsumo.c:355-393 | one activation, whatever the mutexes do: measurements leave only from the front and consumptions are only appended; `medida_puntual` is never set to false, a pending single-shot request (the flag false) is served, setting the flag, exactly when the count (acquisition 0) sees two measurements and the period is unchanged, while a request stays pending the locals are unchanged, and a changed period or a request with fewer than two measurements takes nothing; with every mutex obtained every pair is consumed normally and exactly one pair for a single-shot request |
| CalculaMedias.Sum | Gavimetric_Meter/main/calculaMedias.c:58-62 | definition: the readings accumulated from the front, as `valorMedio += medida` does; Accumulate and SumBounds are about it |
| CalculaMedias.Mean | Gavimetric_Meter/main/calculaMedias.c:63-64 | definition: the sum divided by the count; MeanBounds and MeanOfConstant are about it |
| CalculaMedias.SumBounds | Gavimetric_Meter/main/calculaMedias.c:58-62 | bounds on each reading bound the accumulated sum by the count times each bound |
| CalculaMedias.MeanBounds | Gavimetric_Meter/main/calculaMedias.c:63-64 | the average lies between any lower and upper bound of the readings |
| CalculaMedias.MeanOfConstant | Gavimetric_Meter/main/calculaMedias.c:63-64 | the average of equal readings is that reading |
| CalculaMedias.Accumulate | Gavimetric_Meter/main/calculaMedias.c:53-62 | the readings are drained from the front; with every lock obtained the count is the number of readings and the sum their sum |
| CalculaMedias.MediaCycle | Gavimetric_Meter/main/calculaMedias.c:46-74 | one activation: all readings consumed and their mean pushed if there were any; at most one value appended; a refused push stops the task |
| ComunicacionDisplay.ResetsWhenAllGranted | Gavimetric_Meter/main/comunicacionDisplay.c:124-129 | with every mutex obtained the command is reset exactly in single-shot mode without emergency when the buffer holds a value |
| ComunicacionDisplay.SingleShotUnder | Gavimetric_Meter/main/comunicacionDisplay.c:124-129 | definition: the single-shot step under any mutex outcomes from acquisition k: the emptiness test, then the pop and the write of MEDIDA_OFF; a failed pop shows the previous value again |
| ComunicacionDisplay.SingleShotUnderSpec | Gavimetric_Meter/main/comunicacionDisplay.c:124-129 | the single-shot step shows and takes at most one value and nothing outside single-shot mode without emergency; with every mutex obtained it is `SingleShot`, the first value shown and removed; it lets the task go on exactly when `SingleShotOk` (its pop and write both succeed, or it had nothing to do) |
| ComunicacionDisplay.SingleShotUnderSuffix | Gavimetric_Meter/main/comunicacionDisplay.c:124-129 | what the single-shot step leaves is a suffix of what it found |
| ComunicacionDisplay.SingleShotStep | Gavimetric_Meter/main/comunicacionDisplay.c:124-129 | the contents left, the value shown, the loop flag and the next acquisition are exactly `SingleShotUnder` of the old contents; the command becomes MEDIDA_OFF exactly when `ResetsCommand` (the emptiness test lets it through and the write obtains the mutex) |
| ComunicacionDisplay.PopAndReset | Gavimetric_Meter/main/comunicacionDisplay.c:126-128 | the pop succeeds iff its lock is obtained and the buffer is not empty, and then returns and removes the front value (else the previous value is kept); the write of MEDIDA_OFF succeeds iff its own lock is obtained |
| ComunicacionDisplay.ShowNext | Gavimetric_Meter/main/comunicacionDisplay.c:132-135 | one turn of the continuous loop: the front value is popped iff the lock is obtained and the buffer is not empty (else the previous value is shown again), then the emptiness test runs on what is left |
| ComunicacionDisplay.ContinuousStep | Gavimetric_Meter/main/comunicacionDisplay.c:131-135 | in continuous mode without emergency every buffered value is shown in order and removed when every mutex is obtained (`Continuous`); otherwise nothing is shown or removed; values leave only from the front, and a failed first pop stops the task whatever the other mutexes do |
| ComunicacionDisplay.Feed | Gavimetric_Meter/main/comunicacionDisplay.c:119-135 | definition: what the buffer part of an activation shows and leaves when every mutex is obtained; FeedKeepsOrder and FeedFromSteps are about it |
| ComunicacionDisplay.FeedKeepsOrder | Gavimetric_Meter/main/comunicacionDisplay.c:119-135 | unless the buffer is cleared, the values shown followed by those left are the buffer's contents in order |
| ComunicacionDisplay.FeedFromSteps | Gavimetric_Meter/main/comunicacionDisplay.c:119-135 | the clear, the single-shot step and the continuous step, run in the task's order, compose to `Feed` |
| ComunicacionDisplay.ClearSingleUnder | Gavimetric_Meter/main/comunicacionDisplay.c:119-129 | definition: the clear at acquisition k when the mode calls for it, then `SingleShotUnder`; a failed clear leaves the contents and stops the task |
| ComunicacionDisplay.ClearSingleFromSteps | Gavimetric_Meter/main/comunicacionDisplay.c:119-129 | the clear followed by the single-shot step is `ClearSingleUnder`, and the clear does not change whether the command is reset |
| ComunicacionDisplay.ClearAndSingleShot | Gavimetric_Meter/main/comunicacionDisplay.c:119-129 | the contents left, the value shown, the loop flag and the next acquisition are exactly `ClearSingleUnder` of the old contents; values leave only from the front; the command becomes MEDIDA_OFF exactly when `ResetsCommand` |
| ComunicacionDisplay.FeedUnderLocks | Gavimetric_Meter/main/comunicacionDisplay.c:119-135 | the clear and single-shot outcome followed by the continuous step give, whatever the mutexes do: a clearing mode shows nothing and goes on iff the clear obtains its mutex; single shot goes on iff `SingleShotOk`; continuous mode stops when its first pop fails; with every mutex obtained they give `Feed` |
| ComunicacionDisplay.FeedDisplay | Gavimetric_Meter/main/comunicacionDisplay.c:119-135 | values only leave the console buffer from the front; with every mutex obtained the values shown and left are `Feed` of the buffer; whatever the mutexes do, a clearing mode shows nothing and empties the buffer and goes on iff the clear (acquisition k) is granted, single shot goes on iff `SingleShotOk`, continuous mode stops when its first pop (k + 2) fails, and the command becomes MEDIDA_OFF exactly when `ResetsCommand` |
| ComunicacionDisplay.DisplayCycle | Gavimetric_Meter/main/comunicacionDisplay.c:93-136 | the flags read are the latch and the command (the previous ones on a failed read) and the display gets the notice and the mode; whatever the mutexes do, values leave only from the front, a failed clear (acquisition 2) keeps the buffer and stops the task, a single shot stops it iff its pop or write fails, a failed first continuous pop (4) stops it, and the command becomes MEDIDA_OFF exactly when `ResetsCommand`; with every mutex obtained the values shown and left are `Feed` and the command is reset iff a single-shot value was shown |
| ComunicacionRemoto.Clamp | Gavimetric_Meter/main/comunicacionRemoto.c:67-68 | the clamped value lies in [0, full scale] and a value already in range is unchanged |
| ComunicacionRemoto.MedidaAnalogica | Gavimetric_Meter/main/comunicacionRemoto.c:64-71 | with a non-negative full scale every number produced lies in [0, full scale]; NaN arises exactly from NaN or a zero maximum with zero consumption or zero scale |
| ComunicacionRemoto.MedidaAnalogicaProportional | Gavimetric_Meter/main/comunicacionRemoto.c:64-71 | between 0 and the maximum the signal is exactly proportional to the consumption |
| ComunicacionRemoto.MedidaAnalogicaSaturates | Gavimetric_Meter/main/comunicacionRemoto.c:67-68 | at or below 0 the signal is 0; at or above the maximum it is full scale |
| ComunicacionRemoto.MedidaAnalogicaMonotone | Gavimetric_Meter/main/comunicacionRemoto.c:64-71 | a larger consumption never gives a smaller signal |
| ComunicacionRemoto.StoredConsumoMax | Gavimetric_Meter/main/comunicacionRemoto.c:143 | as written the task's `double` maximum stays within 2^-17 above 10 whatever is configured |
| ComunicacionRemoto.StoredMaxIgnoresConfig | Gavimetric_Meter/main/comunicacionRemoto.c:143 | as written a maximum configured as 20 still scales 5 to about 5 V instead of 2.5 V |
| ComunicacionRemoto.ConfiguredMaxScales | Gavimetric_Meter/main/comunicacionRemoto.c:155 | with the maximum read as configured, the maximum is sent at full scale and half of it at half scale |
| ComunicacionRemoto.Scaled | Gavimetric_Meter/main/comunicacionRemoto.c:152-157 | the signals sent for a run of consumptions, one per value, in order |
| ComunicacionRemoto.SendNext | Gavimetric_Meter/main/comunicacionRemoto.c:152-157 | one turn of the sending loop: the front value is popped iff the lock is obtained and the buffer is not empty, and the signal is that value scaled (else the previous value rescaled); every number sent is in range; then the emptiness test on what is left |
| ComunicacionRemoto.SendStep | Gavimetric_Meter/main/comunicacionRemoto.c:152-157 | in remote mode with the request line active and no emergency, every buffered consumption is scaled and sent in order and removed when every mutex is obtained; otherwise nothing is sent or removed; every signal is in range; values leave only from the front; a failed first pop stops the task whatever the other mutexes do |
| ComunicacionRemoto.RemoteCycle | Gavimetric_Meter/main/comunicacionRemoto.c:125-163 | one activation: the flags and the maximum read (kept on a failed read; a failed maximum read stops the task); nothing is sent unless remote-with-request, every signal in range, values leave only from the front; whatever the mutexes do, a clearing activation empties the buffer iff the clear (acquisition 3) is granted and goes on iff the maximum read and the clear are, and a failed first pop (4) stops the task; with every mutex obtained the buffer is emptied, sent scaled when remote-with-request |
| ComandosConsola.CodeOf | Gavimetric_Meter/main/comandosConsola.h:10-26 | the enumerators are numbered 0..12 in declared order |
| ComandosConsola.CommandOf | Gavimetric_Meter/main/comandosConsola.c:98-186 | a code selects a case exactly when it is in 0..12, any other code (the stub's -1 among them) goes to `default` |
| ComandosConsola.CommandCodeRoundTrip | Gavimetric_Meter/main/comandosConsola.h:10-26 | a code selects a case exactly when it is that case's enumerator value |
| ComandosConsola.ConfigEntry | Gavimetric_Meter/main/comandosConsola.c:154-182 | only the five configuration commands enter the configuration cases |
| ComandosConsola.ConfigWritesFrom | Gavimetric_Meter/main/comandosConsola.c:154-182 | definition: the configuration writes one command makes, entering the chain of cases at its own label; ConfigFallsThrough and OtherCommandsWriteNoConfig are about it |
| ComandosConsola.ConfigFallsThrough | Gavimetric_Meter/main/comandosConsola.c:154-182 | without `break` a configuration command also writes every later parameter with the same value, always ending with the maximum consumption; NIVEL_MINIMO and NIVEL_MAXIMO write consumption limits |
| ComandosConsola.OtherCommandsWriteNoConfig | Gavimetric_Meter/main/comandosConsola.c:98-152 | the other commands write no parameter |
| ComandosConsola.ConfigStep | Gavimetric_Meter/main/comandosConsola.c:154-182 | in manual mode the fall-through writes are made in order; the task continues iff every write is accepted |
| ComandosConsola.EmergencyForcesManual | Gavimetric_Meter/main/comandosConsola.c:89-92 | an emergency forces manual mode unless the console toggles the mode in the same activation |
| ComandosConsola.ToggleOverridesEmergency | Gavimetric_Meter/main/comandosConsola.c:89-102 | CONMUTAR_ESTADO in the activation of an emergency leaves manual mode |
| ComandosConsola.ToggleInverts | Gavimetric_Meter/main/comandosConsola.c:100-102 | without emergency CONMUTAR_ESTADO inverts the mode, and two of them restore it |
| ComandosConsola.NextMode | Gavimetric_Meter/main/comandosConsola.c:89-102 | definition: the mode after the emergency check and the CONMUTAR_ESTADO case; EmergencyForcesManual, ToggleOverridesEmergency and ToggleInverts are about it |
| ComandosConsola.CommandWrite | Gavimetric_Meter/main/comandosConsola.c:108-120 | only the two continuous-measurement cases write a command; the stop case writes DESACTIVADA read as a command |
| ComandosConsola.StopContinuousSelectsSingleShot | Gavimetric_Meter/main/comandosConsola.c:115-120 | stopping continuous measurement selects single-shot measurement, not MEDIDA_OFF |
| ComandosConsola.DepositoWrite | Gavimetric_Meter/main/comandosConsola.c:122-152 | the stop cases write NORMAL exactly when the tank is in the matching state; the start cases write filling/draining; the others write nothing |
| ComandosConsola.StateStep | Gavimetric_Meter/main/comandosConsola.c:108-152 | the system-state cases write only when enabled and the lock is obtained; the stop cases read the tank state first; the task continues iff every access succeeds (`StateStepOk`) |
| ComandosConsola.StateStepOk | Gavimetric_Meter/main/comandosConsola.c:108-152 | definition: the system-state accesses a command makes all succeed: the command write, or the tank-state read and the write after it |
| ComandosConsola.ConsoleCycle | Gavimetric_Meter/main/comandosConsola.c:84-187 | one activation: the mode, the latch clear (whatever the mode), state writes only in manual mode without emergency, configuration writes in manual mode, and no effect for an unknown code; whatever the mutexes do, the task goes on exactly when every configuration write is accepted and every system-state access succeeds |

## Left out

- Task creation and scheduling: `xTaskDelayUntil`, `numActivaciones`, the `*Set` helpers and main.c are not modelled. Each model is one activation, and activations are not interleaved; other tasks act only through the lock outcomes and the state they leave.
- The `*Libera` functions only delete a mutex. informe.c and analogInput are not part of this model.
- Logging, the `printf` of execution times and `esp_timer_get_time` have no effect on the model.
- Hardware I/O is parameters and outputs, as described above:
  - the scale;
  - the GPIO request line;
  - the analog output;
  - the display notifiers;
  - the actuators.
- Doubles are reals, so rounding is not modelled. The IEEE zero-divisor cases in medida_analogica are the exception.
- The display task's tank-state and level notifiers receive two locals that are never assigned, so no value for them is modelled.
- lectura_comando is a stub that assigns its own parameters, so as written the console task always sees its initial -1. The model takes the command code and value as inputs, which makes the `switch` reachable.
- The monitoring machine of calculaConsumo.c is modelled as a table and proved about. The task never creates or updates it.
- The consumption task's `periodo_medidas_modif` is never set and its `medida_puntual` is never set to false, so no single-shot request is ever raised. ConsumoCycle still covers both branches.
- CalculaConsumo.MonitorGuardHolds reads the single-shot flag and the countdown. As written, fsm_update passes the machine pointer to every guard:
  - monitorizacion_c21 adds that non-null pointer, so it always holds;
  - c61–c65 compare it with 0, so they never see an expired timer.
- Fsm.Scan treats a live row without a guard as disabled. In C that would be a call through NULL, and no table has such a row.
- MedidasNivel.PublishLevel writes the level to the system state. The firmware passes the configuration object to estadoSistemaEscribirNivel, and that write into the wrong struct is not modelled.
- MedidasNivel.LevelCycle, MedidasNivel.RefreshSettings and MedidasNivel.UpdatePeriod use the corrected period read (Findings). The as-written read also overwrites the 4 bytes after the period with the double's high word, and that is not modelled.
- ComunicacionRemoto.RemoteCycle uses the corrected integer read of the maximum (Findings). The as-written value is modelled by StoredConsumoMax only.
- The undefined enumerators NORMAL, LLENADO, VACIADO, MAXIMO and MINIMO are read as DEPOSITO_NORMAL, DEPOSITO_LLENADO, DEPOSITO_VACIADO, NIVEL_MAXIMO and NIVEL_MINIMO.
- CalculaMedias.Accumulate counts with an unbounded natural. The C `int numValores` could overflow only after 2^31 readings in one activation, which a 100-slot buffer drained at one task period cannot supply.
- ComunicacionDisplay.DisplayCycle: with some mutexes refused it states which refusals stop the task only at the acquisitions whose position is fixed: the clear, the single shot's test, pop and write, and the first continuous pop. Later continuous pops sit at positions that depend on earlier outcomes, so the values they show are stated only when every mutex is obtained.
- ComunicacionRemoto.RemoteCycle: likewise for the clear and the first pop of the sending loop. The later pops are stated only when every mutex is obtained.
- ComunicacionDisplay.FeedDisplay: the stored command is stated through `ResetsCommand` for every lock outcome. The plain "reset exactly when a single-shot value was shown" reading under every mutex obtained is stated on DisplayCycle only.
- CalculaConsumo.ConsumoCycle uses the corrected count of buffered measurements (`MedidasDisponibles`; see Findings). As written the count is an uninitialised local, which the model does not follow into the activation.
- MedidasNivel.LevelCycle: with some mutexes refused it states which refusals stop the task only for the acquisitions whose position is fixed: the period read (0), the clear after a change (1) and the level writes from LevelStart on. The wait-state read and write, the latch read and the measurement store sit at positions that depend on the wait state read, so their outcomes are stated only when every mutex is obtained.
- CTypes.TruncToInt: the `(int)` conversion of a double is modelled as truncation toward zero into an unbounded integer. C leaves the conversion of a value outside `int` range undefined, so the configured period, maximum consumption and level limits are taken to lie within `int` range.
- CalculaConsumo.ConsumoSegundo, CalculaConsumo.ConsumoMinuto and CalculaConsumo.ConsumoHora divide the sum `medida1 + medida2` by the period, as calculaConsumo.c:37-52 does. A consumption between two weighings would normally be their difference. The source gives no other formula, so the model follows the code and claims no finding.

## Findings

| source | as written | input that shows it | evidently intended | confidence | as-written member | corrected member |
|---|---|---|---|---|---|---|
| Gavimetric_Meter/main/medidasNivel.c:45-55 | timer_start and timer_next assign and decrement their pointer parameter, and timer_expired compares the pointer with 0; the caller's counter never changes | the stabilisation timer, starting at 0, started for 5000 ms at 500 ms per period reads expired at once | a countdown of whole task periods that expires after that many activations | not executed | Timers.StartAsWrittenExpiresAtOnce | Timers.CountdownExpires |
| Gavimetric_Meter/main/bufferCircular.c:159-177 | bufferCircularNumElementos never stores the count in `*pValor`, so medidasDisponibles tests an uninitialised local | a buffer with 0 measurements and a stale local of 5: consumption is computed from failed pops | the caller receives the number of buffered values | not executed | CalculaConsumo.MedidasDisponiblesAsWritten | CalculaConsumo.MedidasDisponibles |
| Gavimetric_Meter/main/calculaConsumo.c:49-52 | `periodo_ms*1000*3600` is computed in 32-bit `int` and overflows from 597 ms on | periodo_ms = 600 with measurements 1 and 1: the divisor wraps to -2134967296 and the consumption is negative | the divisor computed without overflow | not executed | CalculaConsumo.ConsumoHoraOverflowsAt600 | CalculaConsumo.RatesAgree |
| Gavimetric_Meter/main/comunicacionRemoto.c:143 | the address of the `double consumoMaximo` is passed where an `int *` is expected, so only its low mantissa word changes | maximum configured as 20, consumption 5: sent as about 5 V | the configured maximum scales the signal (2.5 V) | not executed | ComunicacionRemoto.StoredMaxIgnoresConfig | ComunicacionRemoto.ConfiguredMaxScales |
| Gavimetric_Meter/main/medidasNivel.c:119 | the address of the `int periodo_medidas` is passed where a `double *` is expected, so the int receives the double's low word | the default period of 500 ms is read as 0 ms, so the measurement-period timer is restarted for 0 ms | the task holds the configured period | not executed | MedidasNivel.SmallPeriodReadsAsZero | MedidasNivel.UpdatePeriod |
