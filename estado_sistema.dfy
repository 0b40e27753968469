/**
 * The system-state store (estadoSistema.c / estadoSistema.h): the last
 * measurement command from the console, the stabilisation wait, the level
 * warning, the tank state and the remote request line, behind one mutex.
 */
module EstadoSistema {
  import opened CTypes

  datatype EstSistError = EstSistOk | EstSistErrMutex

  /** estadoSistemaComando_t, in declaration order (ordinals 0 … 3). */
  datatype Comando = MedidaManualPuntual | MedidaManualContinuada | MedidaRemoto | MedidaOff

  /** estadoSistemaEspera_t, in declaration order (ordinals 0 … 2). */
  datatype Espera = Desactivada | Iniciada | EnCurso

  /** estadoSistemaNivel_t. */
  datatype Nivel = NivelNormal | NivelMaximo | NivelMinimo

  /** estadoSistemaDeposito_t. */
  datatype Deposito = DepositoNormal | DepositoLlenado | DepositoVaciado

  /** The integer value of a command enumerator. */
  function ComandoOrdinal(c: Comando): (n: int)
    ensures 0 <= n <= 3
    ensures n == 0 <==> c == MedidaManualPuntual
  {
    match c
    case MedidaManualPuntual => 0
    case MedidaManualContinuada => 1
    case MedidaRemoto => 2
    case MedidaOff => 3
  }

  /** The command enumerator with integer value `n`, if any. */
  function ComandoDeOrdinal(n: int): (c: Option<Comando>)
    ensures c.Some? <==> 0 <= n <= 3
    ensures c.Some? ==> ComandoOrdinal(c.value) == n
  {
    if n == 0 then Some(MedidaManualPuntual)
    else if n == 1 then Some(MedidaManualContinuada)
    else if n == 2 then Some(MedidaRemoto)
    else if n == 3 then Some(MedidaOff)
    else None
  }

  /** The integer value of a stabilisation enumerator. */
  function EsperaOrdinal(e: Espera): (n: int)
    ensures 0 <= n <= 2
    ensures n == 0 <==> e == Desactivada
  {
    match e
    case Desactivada => 0
    case Iniciada => 1
    case EnCurso => 2
  }

  /**
   * Passing a stabilisation enumerator where a command is expected (C
   * converts through the integer value): DESACTIVADA becomes
   * MEDIDA_MANUAL_PUNTUAL.
   */
  lemma EsperaAsComando(e: Espera)
    ensures ComandoDeOrdinal(EsperaOrdinal(e)).Some?
    ensures e == Desactivada ==> ComandoDeOrdinal(EsperaOrdinal(e)) == Some(MedidaManualPuntual)
  {
  }

  class SystemState {
    var tag: string
    var comando: Comando
    var esperaEstabilizacion: Espera
    var nivelDeposito: Nivel
    var estadoDeposito: Deposito
    var peticionMedidas: bool
    /** Error code of the last operation. */
    var err: EstSistError

    /**
     * estadoSistemaCrea: with the mutex created the store starts with
     * MEDIDA_OFF, DESACTIVADA, NIVEL_NORMAL, DEPOSITO_NORMAL, no remote
     * request and `err == EST_SIST_OK`; otherwise `err` is EST_SIST_ERR_MUTEX.
     */
    constructor Crea(etiqueta: string, mutexCreated: bool)
      ensures (err == EstSistOk) == mutexCreated
      ensures mutexCreated ==> comando == MedidaOff && esperaEstabilizacion == Desactivada
      ensures mutexCreated ==> nivelDeposito == NivelNormal && estadoDeposito == DepositoNormal
      ensures mutexCreated ==> !peticionMedidas && tag == etiqueta
    {
      tag := etiqueta;
      comando := MedidaOff;
      esperaEstabilizacion := Desactivada;
      nivelDeposito := NivelNormal;
      estadoDeposito := DepositoNormal;
      peticionMedidas := false;
      if mutexCreated {
        err := EstSistOk;
      } else {
        err := EstSistErrMutex;
      }
    }

    /** The error code a lock attempt leaves. */
    method SetLockResult(lockAcquired: bool) returns (ok: bool)
      modifies this`err
      ensures err == (if lockAcquired then EstSistOk else EstSistErrMutex)
      ensures ok == lockAcquired
    {
      err := if lockAcquired then EstSistOk else EstSistErrMutex;
      ok := lockAcquired;
    }

    /**
     * estadoSistemaLeerComando: with the lock the caller's variable receives
     * the command, otherwise it keeps `pComando`; no state field changes.
     */
    method LeerComando(lockAcquired: bool, pComando: Comando) returns (ok: bool, v: Comando)
      modifies this`err
      ensures ok == lockAcquired && ok == (err == EstSistOk)
      ensures v == if lockAcquired then comando else pComando
    {
      ok := SetLockResult(lockAcquired);
      v := if lockAcquired then comando else pComando;
    }

    /** estadoSistemaLeerEspera: as LeerComando, for the stabilisation wait. */
    method LeerEspera(lockAcquired: bool, pEspera: Espera) returns (ok: bool, v: Espera)
      modifies this`err
      ensures ok == lockAcquired && ok == (err == EstSistOk)
      ensures v == if lockAcquired then esperaEstabilizacion else pEspera
    {
      ok := SetLockResult(lockAcquired);
      v := if lockAcquired then esperaEstabilizacion else pEspera;
    }

    /** estadoSistemaLeerNivel: as LeerComando, for the level warning. */
    method LeerNivel(lockAcquired: bool, pNivel: Nivel) returns (ok: bool, v: Nivel)
      modifies this`err
      ensures ok == lockAcquired && ok == (err == EstSistOk)
      ensures v == if lockAcquired then nivelDeposito else pNivel
    {
      ok := SetLockResult(lockAcquired);
      v := if lockAcquired then nivelDeposito else pNivel;
    }

    /** estadoSistemaLeerDeposito: as LeerComando, for the tank state. */
    method LeerDeposito(lockAcquired: bool, pDeposito: Deposito) returns (ok: bool, v: Deposito)
      modifies this`err
      ensures ok == lockAcquired && ok == (err == EstSistOk)
      ensures v == if lockAcquired then estadoDeposito else pDeposito
    {
      ok := SetLockResult(lockAcquired);
      v := if lockAcquired then estadoDeposito else pDeposito;
    }

    /**
     * estadoSistemaLeerPeticion: returns the request flag itself, and false
     * when the lock fails, so a failure reads as "no request".
     */
    method LeerPeticion(lockAcquired: bool) returns (peticionActiva: bool)
      modifies this`err
      ensures peticionActiva == (lockAcquired && peticionMedidas)
      ensures err == if lockAcquired then EstSistOk else EstSistErrMutex
    {
      var _ := SetLockResult(lockAcquired);
      peticionActiva := lockAcquired && peticionMedidas;
    }

    /**
     * estadoSistemaEscribirComando: with the lock the command becomes
     * `c`; the other fields never change, and without the lock nothing but
     * `err` changes.
     */
    method EscribirComando(lockAcquired: bool, c: Comando) returns (ok: bool)
      modifies this`comando, this`err
      ensures ok == lockAcquired && ok == (err == EstSistOk)
      ensures comando == if lockAcquired then c else old(comando)
    {
      ok := SetLockResult(lockAcquired);
      if lockAcquired {
        comando := c;
      }
    }

    /** estadoSistemaEscribirEspera: as EscribirComando, for the stabilisation wait. */
    method EscribirEspera(lockAcquired: bool, e: Espera) returns (ok: bool)
      modifies this`esperaEstabilizacion, this`err
      ensures ok == lockAcquired && ok == (err == EstSistOk)
      ensures esperaEstabilizacion == if lockAcquired then e else old(esperaEstabilizacion)
    {
      ok := SetLockResult(lockAcquired);
      if lockAcquired {
        esperaEstabilizacion := e;
      }
    }

    /** estadoSistemaEscribirNivel: as EscribirComando, for the level warning. */
    method EscribirNivel(lockAcquired: bool, n: Nivel) returns (ok: bool)
      modifies this`nivelDeposito, this`err
      ensures ok == lockAcquired && ok == (err == EstSistOk)
      ensures nivelDeposito == if lockAcquired then n else old(nivelDeposito)
    {
      ok := SetLockResult(lockAcquired);
      if lockAcquired {
        nivelDeposito := n;
      }
    }

    /** estadoSistemaEscribirDeposito: as EscribirComando, for the tank state. */
    method EscribirDeposito(lockAcquired: bool, d: Deposito) returns (ok: bool)
      modifies this`estadoDeposito, this`err
      ensures ok == lockAcquired && ok == (err == EstSistOk)
      ensures estadoDeposito == if lockAcquired then d else old(estadoDeposito)
    {
      ok := SetLockResult(lockAcquired);
      if lockAcquired {
        estadoDeposito := d;
      }
    }
  }
}
