/**
 * The remote-system link (comunicacionRemoto.c): one activation of
 * tareaComunicacionRemoto.  It reads the emergency latch, the measurement
 * command, the request line from the remote system and the configured
 * maximum consumption; unless the command is MEDIDA_REMOTO with the request
 * line active and no emergency, the remote consumption buffer is cleared;
 * otherwise every buffered consumption is scaled to a 0-10 V analog signal
 * and sent, oldest first.
 *
 * The request line (a GPIO read) is the parameter `senal`; sending the
 * analog signal only logs, so the sent values are returned.
 */
module ComunicacionRemoto {
  import opened CTypes
  import opened Mutex
  import opened BufferCircular
  import opened EstadoSistema
  import opened ConfigSistema
  import opened ParadaEmergencia

  /**
   * A C `double` as this task can hold it: a number or NaN.  Infinities
   * arise only inside `MedidaAnalogica` and are clamped before they are
   * stored.
   */
  datatype Double = Num(x: real) | NaN

  /** VOLTAJE_MAXIMO: the full-scale voltage of the analog output. */
  const VoltajeMaximo: real := 10.0

  /** The two clamps of medida_analogica, in their order: below 0, then above the maximum. */
  function Clamp(s: real, voltajeMaximo: real): (v: real)
    ensures 0.0 <= voltajeMaximo ==> 0.0 <= v <= voltajeMaximo
    ensures 0.0 <= s <= voltajeMaximo ==> v == s
  {
    var low := if s < 0.0 then 0.0 else s;
    if low > voltajeMaximo then voltajeMaximo else low
  }

  /**
   * medida_analogica: the consumption as a fraction of the maximum, times
   * the full-scale voltage, clamped to [0, maximum].  A zero maximum (the
   * positive zero an `int` converts to) is IEEE-754 division by zero: a
   * nonzero consumption gives an infinity, which the clamps turn into one of
   * the bounds, and 0/0 or 0 times infinity gives NaN, which passes both
   * clamps untouched.
   */
  function MedidaAnalogica(consumo: Double, consumoMaximo: real, voltajeMaximo: real): (r: Double)
    ensures r.Num? && 0.0 <= voltajeMaximo ==> 0.0 <= r.x <= voltajeMaximo
    ensures r.NaN? <==> consumo.NaN? || (consumoMaximo == 0.0 && (consumo.x == 0.0 || voltajeMaximo == 0.0))
  {
    match consumo
    case NaN => NaN
    case Num(c) =>
      if consumoMaximo != 0.0 then Num(Clamp(voltajeMaximo * (c / consumoMaximo), voltajeMaximo))
      else if c == 0.0 || voltajeMaximo == 0.0 then NaN
      else if (c > 0.0) == (voltajeMaximo > 0.0) then Num(voltajeMaximo)
      else Num(Clamp(0.0, voltajeMaximo))
  }

  /** Inside the range the signal is exactly proportional to the consumption. */
  lemma MedidaAnalogicaProportional(c: real, consumoMaximo: real, voltajeMaximo: real)
    requires 0.0 < consumoMaximo && 0.0 <= c <= consumoMaximo
    requires 0.0 <= voltajeMaximo
    ensures MedidaAnalogica(Num(c), consumoMaximo, voltajeMaximo) == Num(voltajeMaximo * (c / consumoMaximo))
  {
    assert c / consumoMaximo <= 1.0;
    assert voltajeMaximo * (c / consumoMaximo) <= voltajeMaximo * 1.0;
  }

  /** Out of range the signal saturates: 0 for no or negative consumption, full scale at or above the maximum. */
  lemma MedidaAnalogicaSaturates(c: real, consumoMaximo: real, voltajeMaximo: real)
    requires 0.0 < consumoMaximo && 0.0 <= voltajeMaximo
    ensures c <= 0.0 ==> MedidaAnalogica(Num(c), consumoMaximo, voltajeMaximo) == Num(0.0)
    ensures consumoMaximo <= c ==> MedidaAnalogica(Num(c), consumoMaximo, voltajeMaximo) == Num(voltajeMaximo)
  {
    if c <= 0.0 {
      assert c / consumoMaximo <= 0.0;
      assert voltajeMaximo * (c / consumoMaximo) <= 0.0;
    }
    if consumoMaximo <= c {
      assert 1.0 <= c / consumoMaximo;
      assert voltajeMaximo * 1.0 <= voltajeMaximo * (c / consumoMaximo);
    }
  }

  /** A larger consumption never gives a smaller signal. */
  lemma MedidaAnalogicaMonotone(c1: real, c2: real, consumoMaximo: real, voltajeMaximo: real)
    requires 0.0 < consumoMaximo && 0.0 <= voltajeMaximo && c1 <= c2
    ensures MedidaAnalogica(Num(c1), consumoMaximo, voltajeMaximo).x <= MedidaAnalogica(Num(c2), consumoMaximo, voltajeMaximo).x
  {
    var s1, s2 := voltajeMaximo * (c1 / consumoMaximo), voltajeMaximo * (c2 / consumoMaximo);
    assert c1 / consumoMaximo <= c2 / consumoMaximo;
    assert s1 <= s2;
    assert Clamp(s1, voltajeMaximo) <= Clamp(s2, voltajeMaximo);
  }

  /**
   * The maximum as the task actually holds it.  The task passes the address
   * of its `double consumoMaximo` (initially 10.0) where
   * configSistemaLeerConsumoMax expects an `int *`; on the little-endian
   * ESP32 the 32-bit integer lands in the low word of the double's mantissa,
   * and the high word of 10.0 stays.  The resulting double is
   * 10 + u * 2^-49, with u the integer read as unsigned.
   */
  function StoredConsumoMax(n: int): (d: real)
    ensures 10.0 <= d < 10.0 + 1.0 / 131072.0
  {
    10.0 + (n % Modulus32) as real / 562949953421312.0
  }

  /**
   * As written, the configured maximum does not reach the scaling: with the
   * maximum configured as 20 a consumption of 5 is sent as about 5 V instead
   * of 2.5 V.
   */
  lemma StoredMaxIgnoresConfig()
    ensures MedidaAnalogica(Num(5.0), StoredConsumoMax(20), VoltajeMaximo).Num?
    ensures MedidaAnalogica(Num(5.0), StoredConsumoMax(20), VoltajeMaximo).x > 4.99
    ensures MedidaAnalogica(Num(5.0), 20 as real, VoltajeMaximo) == Num(2.5)
  {
    var d := StoredConsumoMax(20);
    assert d < 10.01;
    assert 5.0 / d > 0.499 by {
      assert 5.0 > 0.499 * d;
    }
    MedidaAnalogicaProportional(5.0, d, VoltajeMaximo);
    MedidaAnalogicaProportional(5.0, 20.0, VoltajeMaximo);
  }

  /**
   * With the maximum read as the integer it is (the corrected reading),
   * a consumption at the configured maximum is sent at full scale and half
   * of it at half scale, whatever the maximum.
   */
  lemma ConfiguredMaxScales(n: int)
    requires 0 < n
    ensures MedidaAnalogica(Num(n as real), n as real, VoltajeMaximo) == Num(VoltajeMaximo)
    ensures MedidaAnalogica(Num(n as real / 2.0), n as real, VoltajeMaximo) == Num(VoltajeMaximo / 2.0)
  {
    var m := n as real;
    assert m / m == 1.0;
    assert (m / 2.0) / m == 0.5;
    MedidaAnalogicaProportional(m, m, VoltajeMaximo);
    MedidaAnalogicaProportional(m / 2.0, m, VoltajeMaximo);
  }

  /** The signals for a sequence of consumptions, in order, against the integer maximum. */
  function Scaled(s: seq<real>, consumoMaximo: int): (r: seq<Double>)
    ensures |r| == |s|
    ensures forall i :: 0 <= i < |s| ==> r[i] == MedidaAnalogica(Num(s[i]), consumoMaximo as real, VoltajeMaximo)
  {
    seq(|s|, i requires 0 <= i < |s| => MedidaAnalogica(Num(s[i]), consumoMaximo as real, VoltajeMaximo))
  }

  /** Every number in `sent` is a voltage the analog output can produce. */
  predicate InRange(sent: seq<Double>) {
    forall i :: 0 <= i < |sent| && sent[i].Num? ==> 0.0 <= sent[i].x <= VoltajeMaximo
  }

  /** The task keeps the remote buffer only for MEDIDA_REMOTO with the request line active and no emergency. */
  predicate ClearsRemote(emergencia: bool, comando: Comando, senal: bool) {
    emergencia || comando != MedidaRemoto || !senal
  }

  /**
   * The task's variables that outlive an activation: the last emergency
   * flag, command and maximum read (kept when a read fails), the last signal
   * computed (which a failed pop rescales) and the loop flag.
   */
  datatype RemoteLocals = RemoteLocals(emergencia: bool, comando: Comando, consumoMaximo: int,
                                       medidaConsumo: Double, continuar: bool)

  /** The variables before the first activation. */
  const InitialRemoteLocals := RemoteLocals(false, MedidaOff, 10, Num(0.0), true)

  /**
   * One pass of the sending loop: the pop (acquisition k), the signal for
   * the value popped or, after a failed pop, for the previous signal, and
   * the emptiness test (acquisition k + 1).
   */
  method SendNext(medida: Double, consumoMaximo: int, remoto: Buffer, locks: seq<bool>, k: nat)
    returns (popped: bool, medida': Double, vacio: bool)
    requires remoto.Valid()
    modifies remoto
    ensures remoto.Valid()
    ensures popped <==> Granted(locks, k) && old(remoto.Contents) != []
    ensures popped ==>
              remoto.Contents == old(remoto.Contents)[1..] &&
              medida' == MedidaAnalogica(Num(old(remoto.Contents)[0]), consumoMaximo as real, VoltajeMaximo)
    ensures !popped ==>
              remoto.Contents == old(remoto.Contents) && medida' == MedidaAnalogica(medida, consumoMaximo as real, VoltajeMaximo)
    ensures medida'.Num? ==> 0.0 <= medida'.x <= VoltajeMaximo
    ensures vacio == (Granted(locks, k + 1) && remoto.Contents == [])
  {
    var v;
    popped, v := remoto.Saca(Granted(locks, k), 0.0);
    medida' := MedidaAnalogica(if popped then Num(v) else medida, consumoMaximo as real, VoltajeMaximo);
    vacio := remoto.Vacio(Granted(locks, k + 1));
  }

  /**
   * The sending loop: while there is no emergency, the buffer does not
   * report empty, the command is MEDIDA_REMOTO and the line is active, pop a
   * value, scale it and send it.  A failed pop rescales and resends the
   * previous signal and stops the task (but not this loop).
   */
  method SendStep(emergencia: bool, comando: Comando, senal: bool, consumoMaximo: int, medida: Double,
                  remoto: Buffer, locks: seq<bool>, k: nat)
    returns (sent: seq<Double>, medida': Double, ok: bool, k': nat)
    requires remoto.Valid()
    modifies remoto
    ensures remoto.Valid() && k' >= k
    ensures IsSuffix(remoto.Contents, old(remoto.Contents))
    ensures InRange(sent)
    ensures ClearsRemote(emergencia, comando, senal) ==>
              sent == [] && ok && medida' == medida && remoto.Contents == old(remoto.Contents)
    ensures AllGranted(locks) ==> ok
    ensures !ClearsRemote(emergencia, comando, senal) && AllGranted(locks) ==>
              sent == Scaled(old(remoto.Contents), consumoMaximo) && remoto.Contents == []
    // whatever the mutexes do: the emptiness test uses acquisition k and the first pop k + 1
    ensures !ClearsRemote(emergencia, comando, senal) && old(remoto.Contents) != [] && !Granted(locks, k + 1) ==> !ok
  {
    ghost var c0 := remoto.Contents;
    ghost var taken: nat := 0;
    sent, medida', ok, k' := [], medida, true, k;
    var more := false;
    if !emergencia {
      var vacio := remoto.Vacio(Granted(locks, k'));
      k' := k' + 1;
      more := !vacio && comando == MedidaRemoto && senal;
    }
    while more
      invariant remoto.Valid() && k' >= k
      invariant taken <= |c0| && remoto.Contents == c0[taken..]
      invariant InRange(sent)
      invariant more ==> !ClearsRemote(emergencia, comando, senal)
      invariant ClearsRemote(emergencia, comando, senal) ==> sent == [] && ok && medida' == medida && taken == 0
      invariant AllGranted(locks) ==>
                  ok && sent == Scaled(c0[..taken], consumoMaximo) &&
                  (more <==> !ClearsRemote(emergencia, comando, senal) && remoto.Contents != [])
      invariant !ClearsRemote(emergencia, comando, senal) && c0 != [] && !Granted(locks, k + 1) ==>
                  !ok || (more && taken == 0 && k' == k + 1)
      decreases Pending(locks, k'), |remoto.Contents| + (if more then 1 else 0)
    {
      var popped, vacio;
      popped, medida', vacio := SendNext(medida', consumoMaximo, remoto, locks, k');
      k' := k' + 2;
      if popped {
        taken := taken + 1;
        assert Scaled(c0[..taken], consumoMaximo) == Scaled(c0[..taken - 1], consumoMaximo) + [medida'];
      }
      sent := sent + [medida'];
      ok := ok && popped;
      more := !vacio && comando == MedidaRemoto && senal;
    }
    assert remoto.Contents == c0[taken..];
  }

  /**
   * One activation of tareaComunicacionRemoto (the body of its loop after
   * xTaskDelayUntil), with the maximum read as an integer (see
   * `StoredConsumoMax` for what the task does instead).  The emergency and
   * command reads ignore their outcome; a failed read of the maximum, clear
   * or pop stops the task.
   */
  method RemoteCycle(l: RemoteLocals, senal: bool, locks: seq<bool>, latch: EmergencyLatch, state: SystemState,
                     config: SystemConfig, remoto: Buffer)
    returns (r: RemoteLocals, sent: seq<Double>)
    requires l.continuar
    requires remoto.Valid()
    modifies latch`err, state`err, config`err, remoto
    ensures remoto.Valid()
    ensures r.emergencia == if Granted(locks, 0) then latch.paradaEmergencia else l.emergencia
    ensures r.comando == if Granted(locks, 1) then state.comando else l.comando
    ensures r.consumoMaximo == if Granted(locks, 2) then TruncToInt(config.consumoMaximo) else l.consumoMaximo
    ensures !Granted(locks, 2) ==> !r.continuar
    // what the remote system receives
    ensures |sent| > 0 ==> !ClearsRemote(r.emergencia, r.comando, senal)
    ensures InRange(sent)
    ensures IsSuffix(remoto.Contents, old(remoto.Contents))
    // with every mutex obtained
    ensures AllGranted(locks) ==> r.continuar
    ensures AllGranted(locks) && ClearsRemote(r.emergencia, r.comando, senal) ==>
              remoto.Contents == [] && sent == []
    ensures AllGranted(locks) && !ClearsRemote(r.emergencia, r.comando, senal) ==>
              remoto.Contents == [] && sent == Scaled(old(remoto.Contents), r.consumoMaximo)
    // whatever the mutexes do: the clear uses acquisition 3; otherwise the
    // emptiness test uses 3 and the first pop 4
    ensures ClearsRemote(r.emergencia, r.comando, senal) ==>
              sent == [] && (r.continuar <==> Granted(locks, 2) && Granted(locks, 3)) &&
              remoto.Contents == if Granted(locks, 3) then [] else old(remoto.Contents)
    ensures !ClearsRemote(r.emergencia, r.comando, senal) && old(remoto.Contents) != [] && !Granted(locks, 4) ==>
              !r.continuar
  {
    var okE, emergencia := latch.Leer(Granted(locks, 0), l.emergencia);
    var okC, comando := state.LeerComando(Granted(locks, 1), l.comando);
    var okM, consumoMaximo := config.LeerConsumoMax(Granted(locks, 2), l.consumoMaximo);
    ghost var c0 := remoto.Contents;
    var cleared, k := ClearWhen(ClearsRemote(emergencia, comando, senal), remoto, locks, 3);
    ghost var c1 := remoto.Contents;
    var medida, okSend, k';
    sent, medida, okSend, k' := SendStep(emergencia, comando, senal, consumoMaximo, l.medidaConsumo, remoto, locks, k);
    SuffixOfSuffix(remoto.Contents, c1, c0);
    r := RemoteLocals(emergencia, comando, consumoMaximo, medida, l.continuar && okM && cleared && okSend);
  }
}
