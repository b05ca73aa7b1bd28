/** Small numbers as 64-bit words and back. Both ways go through one byte, since
    no count here exceeds 128. */
module Words {

  predicate Below(x: bv64, max: bv64) {
    x < max
  }

  /** The byte that has counted to `n`. */
  function Byte(n: nat): (x: bv8)
    requires n < 256
    ensures x as nat == n
  {
    if n == 0 then 0 else NextByte(Byte(n - 1)); Byte(n - 1) + 1
  }

  lemma NextByte(x: bv8)
    requires x as nat < 255
    ensures (x + 1) as nat == x as nat + 1
  {
  }

  function Word(n: nat): bv64
    requires n < 256
  {
    Byte(n) as bv64
  }

  function Index(r: bv64): nat
    requires Below(r, 256)
  {
    (r as bv8) as nat
  }

  lemma IndexWord(n: nat)
    requires n < 256
    ensures Below(Word(n), 256) && Index(Word(n)) == n
  {
    Widened(Byte(n));
  }

  lemma Widened(x: bv8)
    ensures Below(x as bv64, 256) && (x as bv64) as bv8 == x
  {
  }

  lemma WordIndex(r: bv64)
    requires Below(r, 256)
    ensures Index(r) < 256 && Word(Index(r)) == r
  {
    ByteIndex(r as bv8);
    SameByte(Byte(Index(r)), r as bv8);
    Narrow(r);
  }

  lemma ByteIndex(x: bv8)
    ensures x as nat < 256
  {
  }

  lemma SameByte(x: bv8, y: bv8)
    requires x as nat == y as nat
    ensures x == y
  {
  }

  lemma Narrow(r: bv64)
    requires Below(r, 256)
    ensures (r as bv8) as bv64 == r
  {
  }

  lemma ByteOrder(x: bv8, y: bv8)
    ensures x < y <==> x as nat < y as nat
  {
  }

  lemma WidenedOrder(x: bv64, y: bv64)
    requires Below(x, 256) && Below(y, 256)
    ensures Below(x, y) <==> x as bv8 < y as bv8
  {
  }

  lemma IndexOrder(x: bv64, y: bv64)
    requires Below(x, 256) && Below(y, 256)
    ensures Below(x, y) <==> Index(x) < Index(y)
  {
    WidenedOrder(x, y);
    ByteOrder(x as bv8, y as bv8);
  }

  lemma Transitive(x: bv64, y: bv64, z: bv64)
    requires Below(x, y) && Below(y, z)
    ensures Below(x, z)
  {
  }

  /** The words below the word of `n` are the words of the numbers below `n`. */
  lemma IndexBelow(r: bv64, n: nat)
    requires n < 256 && Below(r, Word(n))
    ensures Below(r, 256) && Index(r) < n
  {
    IndexWord(n);
    Transitive(r, Word(n), 256);
    IndexOrder(r, Word(n));
  }

  lemma WordBelow(k: nat, n: nat)
    requires k < n < 256
    ensures Below(Word(k), Word(n))
  {
    IndexWord(k);
    IndexWord(n);
    IndexOrder(Word(k), Word(n));
  }

  lemma WordPositive(n: nat)
    requires 0 < n < 256
    ensures Word(n) > 0
  {
    assert Word(0) == 0;
    WordBelow(0, n);
  }
}
