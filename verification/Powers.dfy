/** Powers of two. */
module Powers {

  const TWO32: nat := 0x1_0000_0000

  function Two(n: nat): nat {
    if n == 0 then 1 else 2 * Two(n - 1)
  }

  lemma Two32()
    ensures Two(32) == TWO32
  {
    assert Two(8) == 256;
    assert Two(16) == 65536;
    assert Two(24) == 16777216;
  }
}
