/** The 32-bit word of timer counts and transfer lengths. */
module Words {
  type Word = x: int | 0 <= x < 0x1_0000_0000
}
