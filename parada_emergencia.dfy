/**
 * The emergency-stop latch (paradaEmergencia.c): a mutex-guarded boolean
 * that the emergency push-button interrupt and the console command
 * ACTIVAR_PARADA_EMERGENCIA set, and only the console command
 * DETENER_PARADA_EMERGENCIA clears.
 */
module ParadaEmergencia {

  datatype EmergenciaError = EmergenciaOk | EmergenciaErrMutex

  class EmergencyLatch {
    var tag: string
    var paradaEmergencia: bool
    /** Error code of the last operation. */
    var err: EmergenciaError

    /**
     * paradaEmergenciaCrea: with the mutex created the latch starts
     * inactive and `err == EMERGENCIA_OK`; otherwise `err` is
     * EMERGENCIA_ERR_MUTEX and the call reports failure.
     */
    constructor Crea(etiqueta: string, mutexCreated: bool)
      ensures (err == EmergenciaOk) == mutexCreated
      ensures mutexCreated ==> !paradaEmergencia && tag == etiqueta
    {
      tag := etiqueta;
      paradaEmergencia := false;
      if mutexCreated {
        err := EmergenciaOk;
      } else {
        err := EmergenciaErrMutex;
      }
    }

    /**
     * paradaEmergenciaActivar: with the lock the latch becomes active;
     * without it nothing but `err` changes.  Returns `err == EMERGENCIA_OK`.
     * A second call with the lock leaves the latch as the first one did.
     */
    method Activar(lockAcquired: bool) returns (ok: bool)
      modifies this`paradaEmergencia, this`err
      ensures ok == lockAcquired && ok == (err == EmergenciaOk)
      ensures paradaEmergencia == (lockAcquired || old(paradaEmergencia))
    {
      if lockAcquired {
        paradaEmergencia := true;
        err := EmergenciaOk;
      } else {
        err := EmergenciaErrMutex;
      }
      ok := err == EmergenciaOk;
    }

    /**
     * paradaEmergenciaDesactivar: with the lock the latch becomes inactive;
     * without it nothing but `err` changes.
     */
    method Desactivar(lockAcquired: bool) returns (ok: bool)
      modifies this`paradaEmergencia, this`err
      ensures ok == lockAcquired && ok == (err == EmergenciaOk)
      ensures paradaEmergencia == (!lockAcquired && old(paradaEmergencia))
    {
      if lockAcquired {
        paradaEmergencia := false;
        err := EmergenciaOk;
      } else {
        err := EmergenciaErrMutex;
      }
      ok := err == EmergenciaOk;
    }

    /**
     * paradaEmergenciaLeer: with the lock the caller's variable receives the
     * latch; without it the variable keeps its previous value
     * `pEstadoEmergencia`.  The latch itself never changes.
     */
    method Leer(lockAcquired: bool, pEstadoEmergencia: bool) returns (ok: bool, v: bool)
      modifies this`err
      ensures ok == lockAcquired && ok == (err == EmergenciaOk)
      ensures v == if lockAcquired then paradaEmergencia else pEstadoEmergencia
    {
      v := pEstadoEmergencia;
      if lockAcquired {
        v := paradaEmergencia;
        err := EmergenciaOk;
      } else {
        err := EmergenciaErrMutex;
      }
      ok := err == EmergenciaOk;
    }

    /**
     * The emergency push-button interrupt (interrupcionEmergencia.c): it
     * sets the latch whatever the outcome of its take-from-ISR, and leaves
     * `err` alone.
     */
    method ActivarDesdeInterrupcion()
      modifies this`paradaEmergencia
      ensures paradaEmergencia
    {
      paradaEmergencia := true;
    }
  }
}
