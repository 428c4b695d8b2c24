/** Bytes, words and addresses, shared by every component model that handles them. */
module Words {
  type Byte = b: nat | b < 256

  const WORD: nat := 0x1_0000_0000_0000_0000_0000_0000_0000_0000_0000_0000_0000_0000_0000_0000_0000_0000

  /** A 256-bit storage or stack word. */
  type Word = w: nat | w < WORD

  type Address = nat
}
