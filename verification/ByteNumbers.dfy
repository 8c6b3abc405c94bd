/** Bytes as numbers. */
module ByteNumbers {

  lemma ByteBack(n: nat)
    requires n < 256
    ensures (n as bv8) as nat == n
  {
  }

  lemma NumberBack(b: bv8)
    ensures (b as nat) as bv8 == b
  {
  }

  /** A byte is the low eight bits of a number below 256 exactly if it counts as that number. */
  lemma ByteIs(b: bv8, n: nat)
    requires n < 256
    ensures b == n as bv8 <==> b as nat == n
  {
    if b as nat == n {
      NumberBack(b);
      assert n as bv8 == (b as nat) as bv8;
    } else if b == n as bv8 {
      ByteBack(n);
    }
  }
}
