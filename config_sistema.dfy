/**
 * The configuration store (configSistema.c / configSistema.h): the user
 * parameters behind one mutex.  The file provides only the constructor and
 * the readers; nothing in it writes a parameter after creation.
 */
module ConfigSistema {
  import opened CTypes

  datatype ConfigError = ConfigSistOk | ConfigSistErrMutex

  /** Default parameters set by configSistemaCrea. */
  const DefaultPeriodoMs: int := 500
  const DefaultEsperaS: int := 5
  const DefaultConsumoMaximo: real := 10.0
  const DefaultNivelMaximo: real := 100.0
  const DefaultNivelMinimo: real := 5.0

  class SystemConfig {
    var tag: string
    /** Measurement period in ms (C `int`). */
    var periodoMedida: int
    /** Stabilisation wait in s (C `int`). */
    var esperaEstabilizacion: int
    /** The three limits are C `double`s. */
    var consumoMaximo: real
    var nivelMaximo: real
    var nivelMinimo: real
    /** Error code of the last operation. */
    var err: ConfigError

    /** The parameters hold the values configSistemaCrea gives them. */
    predicate HasDefaults()
      reads this
    {
      periodoMedida == DefaultPeriodoMs && esperaEstabilizacion == DefaultEsperaS &&
      consumoMaximo == DefaultConsumoMaximo && nivelMaximo == DefaultNivelMaximo &&
      nivelMinimo == DefaultNivelMinimo
    }

    /**
     * configSistemaCrea: with the mutex created the parameters take their
     * defaults (500 ms, 5 s, 10, 100, 5) and `err == CONFIG_SIST_OK`;
     * otherwise `err` is CONFIG_SIST_ERR_MUTEX.
     */
    constructor Crea(etiqueta: string, mutexCreated: bool)
      ensures (err == ConfigSistOk) == mutexCreated
      ensures mutexCreated ==> HasDefaults() && tag == etiqueta
    {
      tag := etiqueta;
      periodoMedida, esperaEstabilizacion := DefaultPeriodoMs, DefaultEsperaS;
      consumoMaximo, nivelMaximo, nivelMinimo := DefaultConsumoMaximo, DefaultNivelMaximo, DefaultNivelMinimo;
      if mutexCreated {
        err := ConfigSistOk;
      } else {
        err := ConfigSistErrMutex;
      }
    }

    /** The error code a lock attempt leaves. */
    method SetLockResult(lockAcquired: bool) returns (ok: bool)
      modifies this`err
      ensures err == (if lockAcquired then ConfigSistOk else ConfigSistErrMutex)
      ensures ok == lockAcquired
    {
      err := if lockAcquired then ConfigSistOk else ConfigSistErrMutex;
      ok := lockAcquired;
    }

    /**
     * configSistemaLeerPeriodo: the `int` period widened into the caller's
     * `double`; without the lock the caller's variable keeps `pPeriodo`.
     * Only `err` changes, so the parameters keep their values.
     */
    method LeerPeriodo(lockAcquired: bool, pPeriodo: real) returns (ok: bool, v: real)
      modifies this`err
      ensures ok == lockAcquired && ok == (err == ConfigSistOk)
      ensures v == if lockAcquired then periodoMedida as real else pPeriodo
    {
      ok := SetLockResult(lockAcquired);
      v := if lockAcquired then periodoMedida as real else pPeriodo;
    }

    /** configSistemaLeerEspera: the stabilisation wait, `int` to `int`. */
    method LeerEspera(lockAcquired: bool, pEspera: int) returns (ok: bool, v: int)
      modifies this`err
      ensures ok == lockAcquired && ok == (err == ConfigSistOk)
      ensures v == if lockAcquired then esperaEstabilizacion else pEspera
    {
      ok := SetLockResult(lockAcquired);
      v := if lockAcquired then esperaEstabilizacion else pEspera;
    }

    /** configSistemaLeerConsumoMax: the `double` limit stored into an `int`, truncated toward zero. */
    method LeerConsumoMax(lockAcquired: bool, pConsumoMax: int) returns (ok: bool, v: int)
      modifies this`err
      ensures ok == lockAcquired && ok == (err == ConfigSistOk)
      ensures v == if lockAcquired then TruncToInt(consumoMaximo) else pConsumoMax
    {
      ok := SetLockResult(lockAcquired);
      v := if lockAcquired then TruncToInt(consumoMaximo) else pConsumoMax;
    }

    /** configSistemaLeerNivelMax: as LeerConsumoMax, for the maximum level. */
    method LeerNivelMax(lockAcquired: bool, pNivelMax: int) returns (ok: bool, v: int)
      modifies this`err
      ensures ok == lockAcquired && ok == (err == ConfigSistOk)
      ensures v == if lockAcquired then TruncToInt(nivelMaximo) else pNivelMax
    {
      ok := SetLockResult(lockAcquired);
      v := if lockAcquired then TruncToInt(nivelMaximo) else pNivelMax;
    }

    /** configSistemaLeerNivelMin: as LeerConsumoMax, for the minimum level. */
    method LeerNivelMin(lockAcquired: bool, pNivelMin: int) returns (ok: bool, v: int)
      modifies this`err
      ensures ok == lockAcquired && ok == (err == ConfigSistOk)
      ensures v == if lockAcquired then TruncToInt(nivelMinimo) else pNivelMin
    {
      ok := SetLockResult(lockAcquired);
      v := if lockAcquired then TruncToInt(nivelMinimo) else pNivelMin;
    }
  }

  /** With the default parameters the truncating readers return 10, 100 and 5. */
  lemma DefaultsReadBack()
    ensures TruncToInt(DefaultConsumoMaximo) == 10
    ensures TruncToInt(DefaultNivelMaximo) == 100
    ensures TruncToInt(DefaultNivelMinimo) == 5
  {
  }
}
