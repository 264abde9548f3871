/** Machine word sizes. */
module Words {

  const U32 := 0x1_0000_0000

  const WORD_BITS := 64
  const WORD := 0x1_0000_0000_0000_0000
}
