/** 64-bit arithmetic, which wraps around. */
module Words {
  const WORD := 0x1_0000_0000_0000_0000
  const HALF := 0x8000_0000_0000_0000

  /** A uint64. */
  function Wrap(n: nat): nat {
    n % WORD
  }

  /** An int64. */
  function WrapSigned(n: int): int {
    (n + HALF) % WORD - HALF
  }

  lemma WrapSuccessor(n: nat)
    ensures Wrap(Wrap(n) + 1) == Wrap(n + 1) && Wrap(1) == 1
  {
  }

  lemma SignedSuccessor(n: int)
    ensures WrapSigned(WrapSigned(n) + 1) == WrapSigned(n + 1) && WrapSigned(0) == 0
  {
  }

  /** Exactly the numbers in range are represented as themselves. */
  lemma InSignedRange(n: int)
    ensures -HALF <= n < HALF <==> WrapSigned(n) == n
  {
  }
}
