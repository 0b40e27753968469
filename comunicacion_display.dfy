/**
 * The console display feed (comunicacionDisplay.c): one activation of
 * tareaComunicacionDisplay.  It reads the emergency latch and the measurement
 * command, refreshes the display, and then empties the console consumption
 * buffer in one of three ways: cleared when measuring is off, remote or
 * stopped by an emergency; one value shown in single-shot mode, after which
 * the command is set back to MEDIDA_OFF; every value shown in continuous
 * mode.
 *
 * The display calls only log, so what the task hands to the display is
 * returned as `DisplayOutput`.
 */
module ComunicacionDisplay {
  import opened CTypes
  import opened Mutex
  import opened BufferCircular
  import opened EstadoSistema
  import opened ParadaEmergencia

  /**
   * The task's variables that outlive an activation: the last emergency
   * flag and command read (kept when a read fails), the last consumption
   * value popped, and the loop flag.
   */
  datatype DisplayLocals = DisplayLocals(emergencia: bool, comando: Comando, medidaConsumo: real, continuar: bool)

  /**
   * What one activation sends to the display: whether the emergency notice
   * was raised, the mode shown (none under emergency) and the consumption
   * values shown, in order.
   */
  datatype DisplayOutput = DisplayOutput(emergencyNotice: bool, modo: Option<Comando>, consumos: seq<real>)

  /** The command and the emergency flag call for the console buffer to be cleared. */
  predicate ClearsBuffer(emergencia: bool, comando: Comando) {
    emergencia || comando == MedidaOff || comando == MedidaRemoto
  }

  /**
   * bufferCircularVacio, called with acquisition `k` on contents `s`,
   * answers false: the buffer holds a value or the mutex timed out.
   */
  predicate SeenNonEmpty(locks: seq<bool>, k: nat, s: seq<real>) {
    !(Granted(locks, k) && s == [])
  }

  /**
   * The single-shot step, with its emptiness test at acquisition `k`, writes
   * MEDIDA_OFF: no emergency, single-shot mode, the test does not stop it
   * and the write (acquisition k + 2) obtains the mutex.
   */
  predicate ResetsCommand(emergencia: bool, comando: Comando, locks: seq<bool>, k: nat, s: seq<real>) {
    !emergencia && comando == MedidaManualPuntual && SeenNonEmpty(locks, k, s) && Granted(locks, k + 2)
  }

  /**
   * The single-shot step lets the task go on: it does nothing, or both its
   * pop (acquisition k + 1, on contents `s`) and its write succeed.
   */
  predicate SingleShotOk(emergencia: bool, comando: Comando, locks: seq<bool>, k: nat, s: seq<real>) {
    emergencia || comando != MedidaManualPuntual || !SeenNonEmpty(locks, k, s) ||
    (Granted(locks, k + 1) && s != [] && Granted(locks, k + 2))
  }

  /** With every mutex obtained, the command is reset exactly when single-shot mode finds a value. */
  lemma ResetsWhenAllGranted(emergencia: bool, comando: Comando, locks: seq<bool>, k: nat, s: seq<real>)
    requires AllGranted(locks)
    ensures ResetsCommand(emergencia, comando, locks, k, s) <==>
            !emergencia && comando == MedidaManualPuntual && s != []
  {
    assert Granted(locks, k) && Granted(locks, k + 2);
  }

  /**
   * What the single-shot step does with the buffer's contents `s` when every
   * mutex is obtained: the values shown and what is left.
   */
  function SingleShot(emergencia: bool, comando: Comando, s: seq<real>): (seq<real>, seq<real>)
  {
    if emergencia || comando != MedidaManualPuntual || s == [] then ([], s) else ([s[0]], s[1..])
  }

  /**
   * What the continuous step does with the buffer's contents `s` when every
   * mutex is obtained: the values shown and what is left.
   */
  function Continuous(emergencia: bool, comando: Comando, s: seq<real>): (seq<real>, seq<real>)
  {
    if emergencia || comando != MedidaManualContinuada then ([], s) else (s, [])
  }

  /**
   * The outcome of a step on the console buffer: the values shown, the last
   * value shown, the contents left, whether the task goes on, and the next
   * mutex acquisition.
   */
  datatype StepOutcome = StepOutcome(shown: seq<real>, medida: real, rest: seq<real>, ok: bool, next: nat)

  /**
   * The single-shot step under the mutex outcomes `locks`, from acquisition
   * `k`, on contents `s`, with `medida` the value shown last: the emptiness
   * test (k) runs whenever there is no emergency; with the command
   * MEDIDA_MANUAL_PUNTUAL and no empty answer come the pop (k + 1) and the
   * write of MEDIDA_OFF (k + 2).  A failed pop still shows the previous value.
   */
  function SingleShotUnder(emergencia: bool, comando: Comando, medida: real, locks: seq<bool>, k: nat, s: seq<real>)
    : StepOutcome
  {
    if emergencia then StepOutcome([], medida, s, true, k)
    else if !SeenNonEmpty(locks, k, s) || comando != MedidaManualPuntual then StepOutcome([], medida, s, true, k + 1)
    else if Granted(locks, k + 1) && s != [] then StepOutcome([s[0]], s[0], s[1..], Granted(locks, k + 2), k + 3)
    else StepOutcome([medida], medida, s, false, k + 3)
  }

  /**
   * The single-shot step takes at most one value, from the front; it does
   * nothing outside single-shot mode; it is `SingleShot` when every mutex is
   * obtained; and it stops the task exactly as `SingleShotOk` says.
   */
  lemma SingleShotUnderSpec(emergencia: bool, comando: Comando, medida: real, locks: seq<bool>, k: nat, s: seq<real>,
                            o: StepOutcome)
    requires o == SingleShotUnder(emergencia, comando, medida, locks, k, s)
    ensures o.next >= k
    ensures |o.shown| <= 1
    ensures emergencia ==> o.next == k
    ensures !emergencia && comando != MedidaManualPuntual ==> o.next == k + 1
    ensures emergencia || comando != MedidaManualPuntual ==> o.shown == [] && o.ok && o.medida == medida && o.rest == s
    ensures AllGranted(locks) ==>
              o.ok && (o.shown, o.rest) == SingleShot(emergencia, comando, s) && (o.shown != [] ==> o.medida == o.shown[0])
    ensures o.ok == SingleShotOk(emergencia, comando, locks, k, s)
  {
    if AllGranted(locks) {
      assert Granted(locks, k) && Granted(locks, k + 1) && Granted(locks, k + 2);
    }
  }

  /** What the single-shot step leaves is a suffix of what it found. */
  lemma SingleShotUnderSuffix(emergencia: bool, comando: Comando, medida: real, locks: seq<bool>, k: nat, s: seq<real>,
                              o: StepOutcome)
    requires o == SingleShotUnder(emergencia, comando, medida, locks, k, s)
    ensures IsSuffix(o.rest, s)
  {
    if o.rest != s {
      assert o.rest == s[1..];
    }
  }

  /**
   * The single-shot step: without an emergency, with a buffer that does not
   * report empty and the command MEDIDA_MANUAL_PUNTUAL, one value is popped
   * and shown and the command is rewritten to MEDIDA_OFF.  A failed pop still
   * shows the previous value; a failed pop or write stops the task.
   */
  method SingleShotStep(emergencia: bool, comando: Comando, medida: real, consola: Buffer, state: SystemState,
                        locks: seq<bool>, k: nat)
    returns (shown: seq<real>, medida': real, ok: bool, k': nat)
    requires consola.Valid()
    modifies consola, state`comando, state`err
    ensures consola.Valid()
    ensures StepOutcome(shown, medida', consola.Contents, ok, k') ==
            SingleShotUnder(emergencia, comando, medida, locks, k, old(consola.Contents))
    ensures state.comando ==
              if ResetsCommand(emergencia, comando, locks, k, old(consola.Contents)) then MedidaOff else old(state.comando)
  {
    shown, medida', ok, k' := [], medida, true, k;
    if !emergencia {
      var vacio := consola.Vacio(Granted(locks, k'));
      k' := k' + 1;
      if !vacio && comando == MedidaManualPuntual {
        var popped, written;
        popped, medida', written := PopAndReset(medida, consola, state, locks, k');
        k' := k' + 2;
        shown := [medida'];
        ok := popped && written;
      }
    }
  }

  /** The single-shot pop (acquisition k) and the write of MEDIDA_OFF (acquisition k + 1). */
  method PopAndReset(medida: real, consola: Buffer, state: SystemState, locks: seq<bool>, k: nat)
    returns (popped: bool, medida': real, written: bool)
    requires consola.Valid()
    modifies consola, state`comando, state`err
    ensures consola.Valid()
    ensures popped <==> Granted(locks, k) && old(consola.Contents) != []
    ensures popped ==> medida' == old(consola.Contents)[0] && consola.Contents == old(consola.Contents)[1..]
    ensures !popped ==> medida' == medida && consola.Contents == old(consola.Contents)
    ensures written == Granted(locks, k + 1)
    ensures state.comando == if written then MedidaOff else old(state.comando)
  {
    popped, medida' := consola.Saca(Granted(locks, k), medida);
    written := state.EscribirComando(Granted(locks, k + 1), MedidaOff);
  }

  /**
   * One turn of the continuous loop: pop a value (the previous one again
   * when the pop fails), then ask whether the buffer is empty.
   */
  method ShowNext(medida: real, consola: Buffer, locks: seq<bool>, k: nat)
    returns (popped: bool, medida': real, vacio: bool, k': nat)
    requires consola.Valid()
    modifies consola
    ensures consola.Valid() && k' == k + 2
    ensures popped ==> old(consola.Contents) != [] && medida' == old(consola.Contents)[0] &&
                       consola.Contents == old(consola.Contents)[1..]
    ensures !popped ==> medida' == medida && consola.Contents == old(consola.Contents)
    ensures popped <==> Granted(locks, k) && old(consola.Contents) != []
    ensures vacio == (Granted(locks, k + 1) && consola.Contents == [])
  {
    popped, medida' := consola.Saca(Granted(locks, k), medida);
    vacio := consola.Vacio(Granted(locks, k + 1));
    k' := k + 2;
  }

  /**
   * What the continuous loop keeps: the buffer holds what is left of its
   * first contents `c0` after `taken` pops and, when every mutex is
   * obtained, the values shown are exactly those popped.
   */
  ghost predicate ShowInv(all: bool, c0: seq<real>, taken: nat, c: seq<real>, shown: seq<real>, ok: bool)
  {
    taken <= |c0| && c == c0[taken..] && (all ==> ok && shown == c0[..taken])
  }

  /** One turn of the continuous loop keeps `ShowInv`. */
  lemma ShowInvStep(all: bool, c0: seq<real>, taken: nat, c: seq<real>, shown: seq<real>, ok: bool,
                    popped: bool, x: real, c': seq<real>)
    requires ShowInv(all, c0, taken, c, shown, ok)
    requires popped ==> c != [] && x == c[0] && c' == c[1..]
    requires !popped ==> c' == c
    requires all ==> popped
    ensures ShowInv(all, c0, taken + (if popped then 1 else 0), c', shown + [x], ok && popped)
  {
    if popped {
      assert c0[taken + 1..] == c[1..];
      if all {
        assert c0[..taken + 1] == c0[..taken] + [c0[taken]];
      }
    }
  }

  /**
   * The continuous step: while there is no emergency, the buffer does not
   * report empty and the command is MEDIDA_MANUAL_CONTINUADA, pop a value
   * and show it.  A failed pop shows the previous value again and stops
   * the task (but not this loop).
   */
  method ContinuousStep(emergencia: bool, comando: Comando, medida: real, consola: Buffer, locks: seq<bool>, k: nat)
    returns (shown: seq<real>, medida': real, ok: bool, k': nat)
    requires consola.Valid()
    modifies consola
    ensures consola.Valid() && k' >= k
    ensures IsSuffix(consola.Contents, old(consola.Contents))
    ensures emergencia || comando != MedidaManualContinuada ==>
              shown == [] && ok && medida' == medida && consola.Contents == old(consola.Contents)
    ensures AllGranted(locks) ==> ok && (shown, consola.Contents) == Continuous(emergencia, comando, old(consola.Contents))
    // whatever the mutexes do: a failed first pop (acquisition k + 1) stops the task
    ensures !emergencia && comando == MedidaManualContinuada && old(consola.Contents) != [] && !Granted(locks, k + 1) ==> !ok
  {
    ghost var c0 := consola.Contents;
    ghost var taken: nat := 0;
    shown, medida', ok, k' := [], medida, true, k;
    var more := false;
    if !emergencia {
      var vacio := consola.Vacio(Granted(locks, k'));
      k' := k' + 1;
      more := !vacio && comando == MedidaManualContinuada;
    }
    assert c0[..0] == [] && c0[0..] == c0;
    while more
      invariant consola.Valid() && k' >= k
      invariant ShowInv(AllGranted(locks), c0, taken, consola.Contents, shown, ok)
      invariant more ==> !emergencia && comando == MedidaManualContinuada
      invariant emergencia || comando != MedidaManualContinuada ==> shown == [] && ok && medida' == medida && taken == 0
      invariant AllGranted(locks) ==> (more <==> !emergencia && comando == MedidaManualContinuada && consola.Contents != [])
      invariant !emergencia && comando == MedidaManualContinuada && c0 != [] && !Granted(locks, k + 1) ==>
                  !ok || (more && taken == 0 && k' == k + 1)
      decreases Pending(locks, k'), |consola.Contents| + (if more then 1 else 0)
    {
      ghost var before := consola.Contents;
      var popped, vacio;
      popped, medida', vacio, k' := ShowNext(medida', consola, locks, k');
      ShowInvStep(AllGranted(locks), c0, taken, before, shown, ok, popped, medida', consola.Contents);
      if popped {
        taken := taken + 1;
      }
      shown := shown + [medida'];
      ok := ok && popped;
      more := !vacio && comando == MedidaManualContinuada;
    }
    if AllGranted(locks) && !emergencia && comando == MedidaManualContinuada {
      assert taken == |c0| && c0[..taken] == c0;
    }
  }

  /**
   * What the buffer part of an activation does with the console buffer's
   * contents `s` when every mutex is obtained: the values shown, in order,
   * and what is left in the buffer.
   */
  function Feed(emergencia: bool, comando: Comando, s: seq<real>): (seq<real>, seq<real>)
  {
    if ClearsBuffer(emergencia, comando) then ([], [])
    else if comando == MedidaManualPuntual then (if s == [] then ([], []) else ([s[0]], s[1..]))
    else (s, [])
  }

  /**
   * Unless the buffer is cleared, no value is lost: the values shown,
   * followed by those left, are the buffer's contents in order; a clear
   * shows nothing and leaves nothing.
   */
  lemma FeedKeepsOrder(emergencia: bool, comando: Comando, s: seq<real>)
    ensures var f := Feed(emergencia, comando, s);
            if ClearsBuffer(emergencia, comando) then f.0 == [] && f.1 == [] else f.0 + f.1 == s
  {
    if !ClearsBuffer(emergencia, comando) && comando == MedidaManualPuntual && s != [] {
      assert [s[0]] + s[1..] == s;
    }
  }

  /**
   * The clear, the single-shot step and the continuous step, each as it
   * behaves when every mutex is obtained, compose to `Feed`.
   */
  lemma FeedFromSteps(emergencia: bool, comando: Comando, c0: seq<real>)
    ensures var c1 := if ClearsBuffer(emergencia, comando) then [] else c0;
            var a := SingleShot(emergencia, comando, c1);
            var b := Continuous(emergencia, comando, a.1);
            (a.0 + b.0, b.1) == Feed(emergencia, comando, c0)
  {
    var c1 := if ClearsBuffer(emergencia, comando) then [] else c0;
    var a := SingleShot(emergencia, comando, c1);
    var b := Continuous(emergencia, comando, a.1);
    if ClearsBuffer(emergencia, comando) {
      assert a.0 + b.0 == [];
    } else if comando == MedidaManualPuntual {
      assert a.0 + b.0 == a.0;
    } else {
      assert a.0 + b.0 == b.0;
    }
  }

  /**
   * The clear when `ClearsBuffer` (acquisition k) followed by the
   * single-shot step: a failed clear leaves the contents and stops the task.
   */
  function ClearSingleUnder(emergencia: bool, comando: Comando, medida: real, locks: seq<bool>, k: nat, s: seq<real>)
    : StepOutcome
  {
    if ClearsBuffer(emergencia, comando) then
      var o := SingleShotUnder(emergencia, comando, medida, locks, k + 1, if Granted(locks, k) then [] else s);
      o.(ok := Granted(locks, k) && o.ok)
    else
      SingleShotUnder(emergencia, comando, medida, locks, k, s)
  }

  /**
   * The clear and the single-shot step (outcome `o`, contents c1, next
   * acquisition k1) followed by the continuous step (contents c3 at the end)
   * give what the whole buffer part promises, whatever the mutexes do; with
   * every mutex obtained they give `Feed`.
   */
  lemma FeedUnderLocks(emergencia: bool, comando: Comando, medida: real, locks: seq<bool>, k: nat, c0: seq<real>,
                       o: StepOutcome, k1: nat, c1: seq<real>, many: seq<real>, okMany: bool,
                       shown: seq<real>, ok: bool, c3: seq<real>)
    requires o == ClearSingleUnder(emergencia, comando, medida, locks, k, c0) && o.rest == c1 && o.next == k1
    requires emergencia || comando != MedidaManualContinuada ==> many == [] && okMany && c3 == c1
    requires AllGranted(locks) ==> okMany && (many, c3) == Continuous(emergencia, comando, c1)
    requires !emergencia && comando == MedidaManualContinuada && c1 != [] && !Granted(locks, k1 + 1) ==> !okMany
    requires shown == o.shown + many && ok == (o.ok && okMany)
    ensures k1 >= k
    ensures AllGranted(locks) ==> ok && (shown, c3) == Feed(emergencia, comando, c0)
    ensures ClearsBuffer(emergencia, comando) ==>
              shown == [] && (ok <==> Granted(locks, k)) && c3 == if Granted(locks, k) then [] else c0
    ensures !emergencia && comando == MedidaManualPuntual ==> (ok <==> SingleShotOk(emergencia, comando, locks, k, c0))
    ensures !emergencia && comando == MedidaManualContinuada && c0 != [] && !Granted(locks, k + 2) ==> !ok
  {
    var clear := ClearsBuffer(emergencia, comando);
    var k0 := if clear then k + 1 else k;
    var s0 := if clear && Granted(locks, k) then [] else c0;
    var inner := SingleShotUnder(emergencia, comando, medida, locks, k0, s0);
    SingleShotUnderSpec(emergencia, comando, medida, locks, k0, s0, inner);
    assert o == inner.(ok := (!clear || Granted(locks, k)) && inner.ok);
    if !emergencia && comando == MedidaManualContinuada {
      assert o.next == k + 1 && o.rest == c0;
    }
    if AllGranted(locks) {
      FeedFromSteps(emergencia, comando, c0);
    }
  }

  /**
   * The clear (acquisition k, contents c0 to c1, next acquisition k1)
   * followed by the single-shot step from k1 is `ClearSingleUnder`, and the
   * command is reset under the same condition as without the clear.
   */
  lemma ClearSingleFromSteps(emergencia: bool, comando: Comando, medida: real, locks: seq<bool>, k: nat, c0: seq<real>,
                             cleared: bool, k1: nat, c1: seq<real>, o: StepOutcome)
    requires ClearsBuffer(emergencia, comando) ==>
               k1 == k + 1 && cleared == Granted(locks, k) && c1 == if cleared then [] else c0
    requires !ClearsBuffer(emergencia, comando) ==> cleared && k1 == k && c1 == c0
    requires o == SingleShotUnder(emergencia, comando, medida, locks, k1, c1)
    ensures o.(ok := cleared && o.ok) == ClearSingleUnder(emergencia, comando, medida, locks, k, c0)
    ensures ResetsCommand(emergencia, comando, locks, k1, c1) <==> ResetsCommand(emergencia, comando, locks, k, c0)
  {
    if !ClearsBuffer(emergencia, comando) {
      assert o.(ok := cleared && o.ok) == o;
    }
  }

  /** The clear when `ClearsBuffer` (acquisition k), then the single-shot step. */
  method ClearAndSingleShot(emergencia: bool, comando: Comando, medida: real, consola: Buffer, state: SystemState,
                            locks: seq<bool>, k: nat) returns (shown: seq<real>, medida': real, ok: bool, k': nat)
    requires consola.Valid()
    modifies consola, state`comando, state`err
    ensures consola.Valid()
    ensures IsSuffix(consola.Contents, old(consola.Contents))
    ensures StepOutcome(shown, medida', consola.Contents, ok, k') ==
            ClearSingleUnder(emergencia, comando, medida, locks, k, old(consola.Contents))
    ensures state.comando == if ResetsCommand(emergencia, comando, locks, k, old(consola.Contents))
                             then MedidaOff else old(state.comando)
  {
    ghost var c0 := consola.Contents;
    var cleared, k1 := ClearWhen(ClearsBuffer(emergencia, comando), consola, locks, k);
    ghost var c1 := consola.Contents;
    var okSingle;
    shown, medida', okSingle, k' := SingleShotStep(emergencia, comando, medida, consola, state, locks, k1);
    ok := cleared && okSingle;
    ghost var o := StepOutcome(shown, medida', consola.Contents, okSingle, k');
    ClearSingleFromSteps(emergencia, comando, medida, locks, k, c0, cleared, k1, c1, o);
    SingleShotUnderSuffix(emergencia, comando, medida, locks, k1, c1, o);
    SuffixOfSuffix(consola.Contents, c1, c0);
  }

  /**
   * The buffer part of an activation: clear when `ClearsBuffer`, then the
   * single-shot step, then the continuous step.
   */
  method FeedDisplay(emergencia: bool, comando: Comando, medida: real, consola: Buffer, state: SystemState,
                     locks: seq<bool>, k: nat) returns (shown: seq<real>, medida': real, ok: bool, k': nat)
    requires consola.Valid()
    modifies consola, state`comando, state`err
    ensures consola.Valid() && k' >= k
    ensures IsSuffix(consola.Contents, old(consola.Contents))
    ensures AllGranted(locks) ==>
              ok && (shown, consola.Contents) == Feed(emergencia, comando, old(consola.Contents))
    // whatever the mutexes do: the clear uses acquisition k, a single shot the acquisitions k to k + 2,
    // and continuous mode its emptiness test at k + 1 and its first pop at k + 2
    ensures ClearsBuffer(emergencia, comando) ==>
              shown == [] && (ok <==> Granted(locks, k)) &&
              consola.Contents == if Granted(locks, k) then [] else old(consola.Contents)
    ensures !emergencia && comando == MedidaManualPuntual ==>
              (ok <==> SingleShotOk(emergencia, comando, locks, k, old(consola.Contents)))
    ensures !emergencia && comando == MedidaManualContinuada && old(consola.Contents) != [] && !Granted(locks, k + 2) ==> !ok
    ensures state.comando == if ResetsCommand(emergencia, comando, locks, k, old(consola.Contents))
                             then MedidaOff else old(state.comando)
  {
    ghost var c0 := consola.Contents;
    var single, medida1, okSingle, k1 := ClearAndSingleShot(emergencia, comando, medida, consola, state, locks, k);
    ghost var c1 := consola.Contents;
    ghost var o := StepOutcome(single, medida1, c1, okSingle, k1);
    var many, okMany;
    many, medida', okMany, k' := ContinuousStep(emergencia, comando, medida1, consola, locks, k1);
    SuffixOfSuffix(consola.Contents, c1, c0);
    shown := single + many;
    ok := okSingle && okMany;
    FeedUnderLocks(emergencia, comando, medida, locks, k, c0, o, k1, c1, many, okMany, shown, ok, consola.Contents);
  }

  /**
   * One activation of tareaComunicacionDisplay (the body of its loop after
   * xTaskDelayUntil).  The two reads ignore their outcome: a failed read
   * leaves the previous activation's value in place.
   */
  method DisplayCycle(l: DisplayLocals, locks: seq<bool>, latch: EmergencyLatch, state: SystemState, consola: Buffer)
    returns (r: DisplayLocals, out: DisplayOutput)
    requires l.continuar
    requires consola.Valid()
    modifies latch`err, state`err, state`comando, consola
    ensures consola.Valid()
    ensures IsSuffix(consola.Contents, old(consola.Contents))
    ensures r.emergencia == if Granted(locks, 0) then old(latch.paradaEmergencia) else l.emergencia
    ensures r.comando == if Granted(locks, 1) then old(state.comando) else l.comando
    ensures out.emergencyNotice == r.emergencia && out.modo == if r.emergencia then None else Some(r.comando)
    ensures AllGranted(locks) ==>
              r.continuar && (out.consumos, consola.Contents) == Feed(r.emergencia, r.comando, old(consola.Contents))
    ensures AllGranted(locks) ==>
              state.comando == if !r.emergencia && r.comando == MedidaManualPuntual && old(consola.Contents) != []
                               then MedidaOff else old(state.comando)
    // whatever the mutexes do: the clear uses acquisition 2, a single shot the acquisitions 2 to 4,
    // and continuous mode its emptiness test at 3 and its first pop at 4
    ensures ClearsBuffer(r.emergencia, r.comando) ==>
              out.consumos == [] && (r.continuar <==> Granted(locks, 2)) &&
              consola.Contents == if Granted(locks, 2) then [] else old(consola.Contents)
    ensures !r.emergencia && r.comando == MedidaManualPuntual ==>
              (r.continuar <==> SingleShotOk(r.emergencia, r.comando, locks, 2, old(consola.Contents)))
    ensures !r.emergencia && r.comando == MedidaManualContinuada && old(consola.Contents) != [] && !Granted(locks, 4) ==>
              !r.continuar
    ensures state.comando == if ResetsCommand(r.emergencia, r.comando, locks, 2, old(consola.Contents))
                             then MedidaOff else old(state.comando)
  {
    var okE, emergencia := latch.Leer(Granted(locks, 0), l.emergencia);
    var okC, comando := state.LeerComando(Granted(locks, 1), l.comando);
    assert emergencia == if Granted(locks, 0) then old(latch.paradaEmergencia) else l.emergencia;
    assert comando == if Granted(locks, 1) then old(state.comando) else l.comando;
    assert consola.Contents == old(consola.Contents) && state.comando == old(state.comando);
    var shown, medida, ok, k := FeedDisplay(emergencia, comando, l.medidaConsumo, consola, state, locks, 2);
    if AllGranted(locks) {
      ResetsWhenAllGranted(emergencia, comando, locks, 2, old(consola.Contents));
    }
    r := DisplayLocals(emergencia, comando, medida, l.continuar && ok);
    out := DisplayOutput(emergencia, if emergencia then None else Some(comando), shown);
  }
}
