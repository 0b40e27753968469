/**
 * The mutex-protected circular buffer of `double` samples
 * (bufferCircular.c / bufferCircular.h) that links every pipeline stage.
 *
 * The C struct holds a fixed array `valor` of NUMELEMENTOS entries, the index
 * `cabeza` of the next free slot, the index `cola` of the oldest entry, the
 * count `numElementos` and the error code of the last operation.  The model
 * keeps exactly those fields; the ghost field `Contents` is the FIFO view:
 * the `numElementos` values from `cola` onward, oldest first.
 *
 * Each `xSemaphoreTake` becomes the input `lockAcquired`.
 */
module BufferCircular {
  import opened Mutex

  /** NUMELEMENTOS: the capacity of every buffer. */
  const Capacidad: int := 100

  datatype BufferError = BufferOk | BufferErrMutex | BufferErrLleno | BufferErrVacio

  /**
   * The contents after pushing `xs`, one `bufferCircularMete` at a time, onto
   * a buffer holding `c`: a push onto a full buffer is refused and the value
   * is lost.
   */
  function Pushed(c: seq<real>, xs: seq<real>): (r: seq<real>)
    decreases |xs|
  {
    if xs == [] then c
    else Pushed(if |c| < Capacidad then c + [xs[0]] else c, xs[1..])
  }

  /**
   * Pushing keeps the old contents in front and appends as many of the new
   * values, in order, as there is room for; the rest are dropped.
   */
  lemma {:induction false} PushedKeepsRoom(c: seq<real>, xs: seq<real>)
    requires |c| <= Capacidad
    decreases |xs|
    ensures var room := Capacidad - |c|;
            Pushed(c, xs) == c + (if |xs| <= room then xs else xs[..room])
  {
    if xs != [] {
      if |c| < Capacidad {
        PushedKeepsRoom(c + [xs[0]], xs[1..]);
        var room := Capacidad - |c|;
        if |xs| <= room {
          assert [xs[0]] + xs[1..] == xs;
        } else {
          assert [xs[0]] + xs[1..][..room - 1] == xs[..room];
        }
      } else {
        PushedKeepsRoom(c, xs[1..]);
      }
    }
  }

  /** `u` is what is left of `s` after values were taken from its front. */
  predicate IsSuffix(u: seq<real>, s: seq<real>) {
    |u| <= |s| && u == s[|s| - |u|..]
  }

  lemma SuffixOfSuffix(u: seq<real>, t: seq<real>, s: seq<real>)
    requires IsSuffix(u, t) && IsSuffix(t, s)
    ensures IsSuffix(u, s)
  {
    assert s[|s| - |t|..][|t| - |u|..] == s[|s| - |u|..];
  }

  /** Slot arithmetic: index `k` positions after `base` on the ring. */
  lemma {:induction false} RingStep(base: int, k: int)
    requires 0 <= base < Capacidad && 0 <= k < Capacidad
    ensures ((base + k) % Capacidad + 1) % Capacidad == (base + k + 1) % Capacidad
    ensures (base + k) % Capacidad == if base + k < Capacidad then base + k else base + k - Capacidad
  {
    if base + k < Capacidad {
      assert (base + k) % Capacidad == base + k;
    } else {
      assert (base + k) % Capacidad == base + k - Capacidad;
      if base + k + 1 < 2 * Capacidad {
        assert (base + k + 1) % Capacidad == base + k + 1 - Capacidad;
      }
    }
  }

  /** Advancing the base by one slot shifts every position by one. */
  lemma {:induction false} Shift(base: int, k: int)
    requires 0 <= base < Capacidad && 0 <= k < Capacidad
    ensures ((base + 1) % Capacidad + k) % Capacidad == (base + k + 1) % Capacidad
  {
    if base + 1 < Capacidad {
      assert (base + 1) % Capacidad == base + 1;
    } else {
      assert (base + 1) % Capacidad == 0;
      assert (base + k + 1) % Capacidad == k;
    }
  }

  /** Two different positions less than a full turn apart use different slots. */
  lemma {:induction false} SlotsDistinct(base: int, i: int, j: int)
    requires 0 <= base < Capacidad
    requires 0 <= i < j < Capacidad
    ensures (base + i) % Capacidad != (base + j) % Capacidad
  {
    RingStep(base, i);
    RingStep(base, j);
  }

  /**
   * Removing the oldest value and advancing the read index by one slot keeps
   * every remaining value at its slot.
   */
  lemma PopKeepsSlots(c: seq<real>, vals: seq<real>, cola: int)
    requires |vals| == Capacidad && 0 <= cola < Capacidad && 0 < |c| <= Capacidad
    requires forall i :: 0 <= i < |c| ==> c[i] == vals[(cola + i) % Capacidad]
    ensures forall i :: 0 <= i < |c| - 1 ==> c[1..][i] == vals[((cola + 1) % Capacidad + i) % Capacidad]
  {
    forall i | 0 <= i < |c| - 1
      ensures c[1..][i] == vals[((cola + 1) % Capacidad + i) % Capacidad]
    {
      Shift(cola, i);
    }
  }

  class Buffer {
    /** Label used in diagnostics only. */
    var tag: string
    /** The storage: NUMELEMENTOS doubles. */
    const valor: array<real>
    /** Next slot to write. */
    var cabeza: int
    /** Next slot to read. */
    var cola: int
    var numElementos: int
    /** Error code of the last operation. */
    var err: BufferError

    /** FIFO view of the buffer, oldest value first. */
    ghost var Contents: seq<real>

    /**
     * The buffer invariant: the count is within the capacity, both indices
     * are slots, the write index is `numElementos` slots after the read
     * index, and `Contents` lists the occupied slots from `cola` onward.
     */
    ghost predicate Valid()
      reads this, valor
    {
      valor.Length == Capacidad &&
      0 <= numElementos <= Capacidad &&
      0 <= cola < Capacidad && 0 <= cabeza < Capacidad &&
      cabeza == (cola + numElementos) % Capacidad &&
      |Contents| == numElementos &&
      forall i :: 0 <= i < numElementos ==> Contents[i] == valor[(cola + i) % Capacidad]
    }

    /**
     * bufferCircularCrea: when the mutex can be created the buffer starts
     * empty with both indices at 0 and `err == BUFFER_OK`; otherwise only
     * `err == BUFFER_ERR_MUTEX` is set (and `Crea` returns false).
     */
    constructor Crea(etiqueta: string, mutexCreated: bool)
      ensures fresh(valor) && valor.Length == Capacidad
      ensures (err == BufferOk) == mutexCreated
      ensures !mutexCreated ==> err == BufferErrMutex
      ensures mutexCreated ==> Valid() && Contents == [] && tag == etiqueta
      ensures mutexCreated ==> cabeza == 0 && cola == 0 && numElementos == 0
    {
      valor := new real[Capacidad];
      tag := etiqueta;
      cabeza, cola, numElementos := 0, 0, 0;
      Contents := [];
      if mutexCreated {
        err := BufferOk;
      } else {
        err := BufferErrMutex;
      }
    }

    /**
     * bufferCircularMete: stores `x` at `cabeza`, advances `cabeza` modulo
     * NUMELEMENTOS and counts it, unless the buffer is full (BUFFER_ERR_LLENO)
     * or the mutex is not obtained (BUFFER_ERR_MUTEX); a failed call changes
     * nothing but `err`.  Returns `err == BUFFER_OK`.
     */
    method Mete(lockAcquired: bool, x: real) returns (ok: bool)
      requires Valid()
      modifies this, valor
      ensures Valid()
      ensures ok == (lockAcquired && old(numElementos) < Capacidad)
      ensures err == (if !lockAcquired then BufferErrMutex else if ok then BufferOk else BufferErrLleno)
      ensures ok ==> Contents == old(Contents) + [x]
      ensures ok ==> valor[old(cabeza)] == x && cabeza == (old(cabeza) + 1) % Capacidad
      ensures ok ==> numElementos == old(numElementos) + 1
      ensures !ok ==> Contents == old(Contents) && cabeza == old(cabeza) && numElementos == old(numElementos)
      ensures !ok ==> valor[..] == old(valor[..])
      ensures cola == old(cola) && tag == old(tag)
      ensures forall j :: 0 <= j < Capacidad && j != old(cabeza) ==> valor[j] == old(valor[j])
    {
      if lockAcquired {
        if numElementos < Capacidad {
          ghost var n := numElementos;
          RingStep(cola, n);
          valor[cabeza] := x;
          forall i | 0 <= i < n
            ensures Contents[i] == valor[(cola + i) % Capacidad]
          {
            SlotsDistinct(cola, i, n);
          }
          cabeza := (cabeza + 1) % Capacidad;
          numElementos := numElementos + 1;
          Contents := Contents + [x];
          err := BufferOk;
        } else {
          err := BufferErrLleno;
        }
      } else {
        err := BufferErrMutex;
      }
      ok := err == BufferOk;
    }

    /**
     * bufferCircularSaca: returns the value at `cola` (the oldest one),
     * advances `cola` modulo NUMELEMENTOS and uncounts it; on an empty buffer
     * (BUFFER_ERR_VACIO) or without the mutex (BUFFER_ERR_MUTEX) nothing but
     * `err` changes and the caller's variable keeps its previous value
     * `pValor`.
     */
    method Saca(lockAcquired: bool, pValor: real) returns (ok: bool, v: real)
      requires Valid()
      modifies this
      ensures Valid()
      ensures ok == (lockAcquired && old(numElementos) > 0)
      ensures err == (if !lockAcquired then BufferErrMutex else if ok then BufferOk else BufferErrVacio)
      ensures ok ==> v == old(Contents)[0] && Contents == old(Contents)[1..]
      ensures ok ==> v == valor[old(cola)] && cola == (old(cola) + 1) % Capacidad
      ensures ok ==> numElementos == old(numElementos) - 1
      ensures !ok ==> v == pValor && Contents == old(Contents) && cola == old(cola)
      ensures !ok ==> numElementos == old(numElementos)
      ensures cabeza == old(cabeza) && tag == old(tag)
    {
      v := pValor;
      if lockAcquired {
        if numElementos != 0 {
          v := valor[cola];
          assert (cola + 0) % Capacidad == cola;
          PopKeepsSlots(Contents, valor[..], cola);
          Shift(cola, numElementos - 1);
          cola := (cola + 1) % Capacidad;
          numElementos := numElementos - 1;
          Contents := Contents[1..];
          err := BufferOk;
        } else {
          err := BufferErrVacio;
        }
      } else {
        err := BufferErrMutex;
      }
      ok := err == BufferOk;
    }

    /**
     * bufferCircularLleno: true only when the mutex is obtained and the
     * buffer holds NUMELEMENTOS values; a failed lock reads as "not full".
     */
    method Lleno(lockAcquired: bool) returns (r: bool)
      requires Valid()
      modifies this`err
      ensures Valid()
      ensures r == (lockAcquired && numElementos == Capacidad)
      ensures err == if lockAcquired then BufferOk else BufferErrMutex
    {
      r := false;
      if lockAcquired {
        r := numElementos == Capacidad;
        err := BufferOk;
      } else {
        err := BufferErrMutex;
      }
    }

    /**
     * bufferCircularVacio: true only when the mutex is obtained and the
     * buffer is empty; a failed lock reads as "not empty".
     */
    method Vacio(lockAcquired: bool) returns (r: bool)
      requires Valid()
      modifies this`err
      ensures Valid()
      ensures r == (lockAcquired && Contents == [])
      ensures err == if lockAcquired then BufferOk else BufferErrMutex
    {
      r := false;
      if lockAcquired {
        r := numElementos == 0;
        err := BufferOk;
      } else {
        err := BufferErrMutex;
      }
    }

    /**
     * bufferCircularNumElementos as written: it reads the count into a local
     * and returns only the success flag; the caller's variable `*pValor` is
     * never written, so it keeps whatever it held (`pValor`).
     */
    method NumElementosAsWritten(lockAcquired: bool, pValor: int) returns (ok: bool, v: int)
      requires Valid()
      modifies this`err
      ensures Valid()
      ensures ok == lockAcquired
      ensures err == if lockAcquired then BufferOk else BufferErrMutex
      ensures v == pValor
    {
      var n := 0;
      if lockAcquired {
        n := numElementos;
        err := BufferOk;
      } else {
        err := BufferErrMutex;
      }
      v := pValor;
      ok := err == BufferOk;
    }

    /**
     * bufferCircularNumElementos as evidently intended: the local count
     * (the number of stored values, or its initial 0 when the mutex is not
     * obtained) is copied to `*pValor`.
     */
    method NumElementos(lockAcquired: bool) returns (ok: bool, v: int)
      requires Valid()
      modifies this`err
      ensures Valid()
      ensures ok == lockAcquired
      ensures err == if lockAcquired then BufferOk else BufferErrMutex
      ensures v == if lockAcquired then |Contents| else 0
    {
      var n := 0;
      if lockAcquired {
        n := numElementos;
        err := BufferOk;
      } else {
        err := BufferErrMutex;
      }
      v := n;
      ok := err == BufferOk;
    }

    /**
     * bufferCircularLimpia: advances `cola` one slot per stored value until
     * the count is 0, so it ends on `cabeza`; `cabeza` and the storage are
     * untouched.  Without the mutex nothing but `err` changes.
     */
    method Limpia(lockAcquired: bool) returns (ok: bool)
      requires Valid()
      modifies this
      ensures Valid()
      ensures ok == lockAcquired
      ensures err == if lockAcquired then BufferOk else BufferErrMutex
      ensures ok ==> Contents == [] && numElementos == 0 && cola == old(cabeza)
      ensures !ok ==> Contents == old(Contents) && numElementos == old(numElementos) && cola == old(cola)
      ensures cabeza == old(cabeza) && tag == old(tag)
    {
      if lockAcquired {
        while numElementos != 0
          invariant 0 <= numElementos <= Capacidad && 0 <= cola < Capacidad
          invariant cabeza == old(cabeza) && tag == old(tag)
          invariant cabeza == (cola + numElementos) % Capacidad
          decreases numElementos
        {
          Shift(cola, numElementos - 1);
          cola := cola + 1;
          cola := cola % Capacidad;
          numElementos := numElementos - 1;
        }
        assert cabeza == cola % Capacidad;
        Contents := [];
        err := BufferOk;
      } else {
        err := BufferErrMutex;
      }
      ok := err == BufferOk;
    }
  }

  /**
   * The clearing step the two display tasks share: when `clear` holds the
   * buffer is cleared with the cycle's k-th mutex acquisition; a failed
   * clear is reported in `ok`.
   */
  method ClearWhen(clear: bool, b: Buffer, locks: seq<bool>, k: nat) returns (ok: bool, k': nat)
    requires b.Valid()
    modifies b
    ensures b.Valid()
    ensures !clear ==> ok && k' == k && b.Contents == old(b.Contents)
    ensures clear ==> k' == k + 1 && ok == Granted(locks, k) && b.Contents == (if ok then [] else old(b.Contents))
    ensures IsSuffix(b.Contents, old(b.Contents))
  {
    ok, k' := true, k;
    if clear {
      ok := b.Limpia(Granted(locks, k));
      k' := k + 1;
    }
  }
}
