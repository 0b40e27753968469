/**
 * The averaging task (calculaMedias.c): one activation of tareaMedia drains
 * the readings buffer, accumulating the values popped and their count, and
 * pushes their mean onto the averages buffer when at least one value was
 * taken.
 */
module CalculaMedias {
  import opened Mutex
  import opened BufferCircular

  /** The sum of a sequence, accumulated from the front as the task's `+=` does. */
  function Sum(s: seq<real>): real
    decreases |s|
  {
    if s == [] then 0.0 else Sum(s[..|s| - 1]) + s[|s| - 1]
  }

  /** The arithmetic mean, `valorMedio / numValores`. */
  function Mean(s: seq<real>): real
    requires |s| > 0
  {
    Sum(s) / (|s| as real)
  }

  /** Bounds on every element bound the sum by the count times each bound. */
  lemma {:induction false} SumBounds(s: seq<real>, lo: real, hi: real)
    requires forall i :: 0 <= i < |s| ==> lo <= s[i] <= hi
    decreases |s|
    ensures (|s| as real) * lo <= Sum(s) <= (|s| as real) * hi
  {
    if s != [] {
      var p := s[..|s| - 1];
      assert forall i :: 0 <= i < |p| ==> p[i] == s[i];
      SumBounds(p, lo, hi);
      assert (|s| as real) * lo == (|p| as real) * lo + lo;
      assert (|s| as real) * hi == (|p| as real) * hi + hi;
    }
  }

  /** The mean lies between the smallest and the largest bound of the values averaged. */
  lemma MeanBounds(s: seq<real>, lo: real, hi: real)
    requires |s| > 0
    requires forall i :: 0 <= i < |s| ==> lo <= s[i] <= hi
    ensures lo <= Mean(s) <= hi
  {
    SumBounds(s, lo, hi);
    var n := |s| as real;
    DivideBounds(Sum(s), n, lo);
    DivideBounds(-Sum(s), n, -hi);
  }

  /** A lower bound on `n·x` divides into a lower bound on `x`. */
  lemma DivideBounds(t: real, n: real, lo: real)
    requires n > 0.0 && n * lo <= t
    ensures lo <= t / n
  {
    assert t / n - lo == (t - n * lo) / n;
  }

  /** The mean of equal values is that value. */
  lemma MeanOfConstant(s: seq<real>, x: real)
    requires |s| > 0
    requires forall i :: 0 <= i < |s| ==> s[i] == x
    ensures Mean(s) == x
  {
    MeanBounds(s, x, x);
  }

  /**
   * The task's variables that outlive an activation: the last value popped
   * (which a failed pop adds again) and the loop flag.
   */
  datatype MediaLocals = MediaLocals(medida: real, continuar: bool)

  /**
   * The accumulation loop: while the readings buffer does not report empty,
   * pop a value and add it to the running sum and count.  The pop result is
   * ignored, so a failed pop adds the previous value again.
   */
  method Accumulate(medida: real, lecturas: Buffer, locks: seq<bool>, k: nat)
    returns (valorMedio: real, numValores: nat, medida': real, k': nat)
    requires lecturas.Valid()
    modifies lecturas
    ensures lecturas.Valid() && k' >= k
    ensures IsSuffix(lecturas.Contents, old(lecturas.Contents))
    ensures AllGranted(locks) ==>
              lecturas.Contents == [] && numValores == |old(lecturas.Contents)| && valorMedio == Sum(old(lecturas.Contents))
  {
    ghost var c0 := lecturas.Contents;
    ghost var taken: nat := 0;
    valorMedio, numValores, medida', k' := 0.0, 0, medida, k;
    var vacio := lecturas.Vacio(Granted(locks, k'));
    k' := k' + 1;
    while !vacio
      invariant lecturas.Valid() && k' >= k
      invariant taken <= |c0| && lecturas.Contents == c0[taken..]
      invariant AllGranted(locks) ==>
                  numValores == taken && valorMedio == Sum(c0[..taken]) && (vacio <==> lecturas.Contents == [])
      decreases Pending(locks, k'), |lecturas.Contents| + (if vacio then 0 else 1)
    {
      var popped;
      popped, medida' := lecturas.Saca(Granted(locks, k'), medida');
      k' := k' + 1;
      if popped {
        taken := taken + 1;
        assert c0[..taken][..taken - 1] == c0[..taken - 1];
      }
      valorMedio := valorMedio + medida';
      numValores := numValores + 1;
      vacio := lecturas.Vacio(Granted(locks, k'));
      k' := k' + 1;
    }
    if AllGranted(locks) {
      assert taken == |c0| && c0[..taken] == c0;
    }
  }

  /**
   * One activation of tareaMedia (the body of its loop after
   * xTaskDelayUntil): the sum and count restart at zero, the readings are
   * drained, and the mean is pushed if a value was taken; a failed push
   * stops the task.
   */
  method MediaCycle(l: MediaLocals, locks: seq<bool>, lecturas: Buffer, medias: Buffer) returns (r: MediaLocals)
    requires l.continuar
    requires lecturas.Valid() && medias.Valid()
    requires lecturas != medias && lecturas.valor != medias.valor
    modifies lecturas, medias, medias.valor
    ensures lecturas.Valid() && medias.Valid()
    // whatever the mutexes do: readings only leave from the front, at most one mean is appended
    ensures IsSuffix(lecturas.Contents, old(lecturas.Contents))
    ensures medias.Contents == old(medias.Contents) || |medias.Contents| == |old(medias.Contents)| + 1
    ensures old(medias.Contents) <= medias.Contents
    ensures medias.Contents != old(medias.Contents) ==> r.continuar
    // every mutex obtained: all readings are consumed and their mean is pushed if there were any
    ensures AllGranted(locks) ==> lecturas.Contents == []
    ensures AllGranted(locks) && old(lecturas.Contents) == [] ==>
              medias.Contents == old(medias.Contents) && r.continuar
    ensures AllGranted(locks) && old(lecturas.Contents) != [] ==>
              medias.Contents == Pushed(old(medias.Contents), [Mean(old(lecturas.Contents))]) &&
              (r.continuar <==> |old(medias.Contents)| < Capacidad)
  {
    var valorMedio, numValores, medida, k := Accumulate(l.medida, lecturas, locks, 0);
    r := l.(medida := medida);
    if numValores != 0 {
      valorMedio := valorMedio / (numValores as real);
      var pushed := medias.Mete(Granted(locks, k), valorMedio);
      if !pushed {
        r := r.(continuar := false);
      }
    }
  }
}
