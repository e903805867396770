/** The size classes of pooled message buffers (message.go). */
module MessagePool {
  import opened Wire

  /** Pooled buffers have at least 2^6 bytes. */
  const MIN_CLASS: nat := 6

  /** bits.Len64: the number of bits needed to write n. */
  function BitLen(n: nat): (r: nat)
  {
    if n == 0 then 0 else 1 + BitLen(n / 2)
  }

  /** classOf: the index of the class a buffer of n bytes is taken from. */
  function ClassOf(n: nat): (c: nat)
  {
    if n <= Pow2(MIN_CLASS) then
      0
    else
      BitLenBounds(n - 1);
      Pow2Injective(BitLen(n - 1), MIN_CLASS);
      BitLen(n - 1) - MIN_CLASS
  }

  /** classSize: sizes double from class to class up to the limit. */
  function ClassSize(c: nat, maxSize: nat): (r: nat) {
    Min(Pow2(c + MIN_CLASS), maxSize)
  }

  lemma {:induction false} BitLenBounds(n: nat)
    ensures n < Pow2(BitLen(n))
    ensures n > 0 ==> BitLen(n) > 0 && Pow2(BitLen(n) - 1) <= n
  {
    if n > 0 {
      BitLenBounds(n / 2);
    }
  }

  lemma {:induction false} Pow2Monotone(a: nat, b: nat)
    requires a <= b
    ensures Pow2(a) <= Pow2(b)
    decreases b
  {
    if a < b {
      Pow2Monotone(a, b - 1);
    }
  }

  lemma {:induction false} Pow2Injective(a: nat, b: nat)
    ensures Pow2(a) < Pow2(b) <==> a < b
  {
    if a < b {
      Pow2Monotone(a + 1, b);
    } else {
      Pow2Monotone(b, a);
    }
  }

  /** ClassOf is the smallest class whose (uncapped) buffers hold n bytes. */
  lemma {:induction false} ClassOfIsSmallest(n: nat, c: nat)
    ensures n <= Pow2(ClassOf(n) + MIN_CLASS)
    ensures n <= Pow2(c + MIN_CLASS) ==> ClassOf(n) <= c
  {
    if n > Pow2(MIN_CLASS) {
      BitLenBounds(n - 1);
      if n <= Pow2(c + MIN_CLASS) {
        Pow2Injective(BitLen(n - 1) - 1, c + MIN_CLASS);
      }
    }
  }

  /** Every size up to the limit has a class, and the buffers of that class hold it
      although the largest class is capped at the limit. */
  lemma {:induction false} ClassFits(n: nat, maxSize: nat)
    requires n <= maxSize && n <= MAX_INT
    ensures ClassOf(n) <= ClassOf(Min(maxSize, MAX_INT))
    ensures n <= ClassSize(ClassOf(n), maxSize)
  {
    ClassOfIsSmallest(n, ClassOf(Min(maxSize, MAX_INT)));
    ClassOfIsSmallest(Min(maxSize, MAX_INT), 0);
  }

  /** msgPool: spare buffers by class. What sync.Pool drops is modelled by Get's
      freedom to ignore the spares. */
  class Pool {
    const maxSize: nat
    var spares: seq<seq<seq<byte>>>

    predicate Valid()
      reads this
    {
      |spares| == ClassOf(Min(maxSize, MAX_INT)) + 1 &&
      forall c, i :: 0 <= c < |spares| && 0 <= i < |spares[c]| ==> |spares[c][i]| == ClassSize(c, maxSize)
    }

    constructor (maxSize: nat)
      ensures Valid() && this.maxSize == maxSize
      ensures forall c :: 0 <= c < |spares| ==> spares[c] == []
    {
      this.maxSize := maxSize;
      this.spares := seq(ClassOf(Min(maxSize, MAX_INT)) + 1, _ => []);
    }

    /** Returns a buffer of at least n bytes, a spare one if reuse is true and there
        is one; its old contents are whatever it was used for before. */
    method Get(n: nat, reuse: bool) returns (data: seq<byte>)
      requires Valid() && n <= maxSize && n <= MAX_INT
      modifies this
      ensures Valid()
      ensures ClassOf(n) < |old(spares)|
      ensures n <= |data| && |data| == ClassSize(ClassOf(n), maxSize)
      ensures
        var c := ClassOf(n);
        if reuse && old(spares[c]) != [] then spares == old(spares)[c := old(spares[c])[1..]] && data == old(spares[c])[0]
        else spares == old(spares)
    {
      ClassFits(n, maxSize);
      var c := ClassOf(n);
      if reuse && spares[c] != [] {
        data := spares[c][0];
        spares := spares[c := spares[c][1..]];
      } else {
        data := seq(ClassSize(c, maxSize), _ => 0);
      }
    }

    method Put(data: seq<byte>, c: nat)
      requires Valid() && c < |spares| && |data| == ClassSize(c, maxSize)
      modifies this
      ensures Valid() && spares == old(spares)[c := [data] + old(spares[c])]
    {
      spares := spares[c := [data] + spares[c]];
    }
  }
}
