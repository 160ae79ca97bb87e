/** The FNV-1a hash used by the tables of the compiler. */
module Fnv {
  const Word32 := 0x1_0000_0000
  const Basis32 := 2166136261
  const Prime32 := 16777619

  function Xor(a: nat, b: nat): nat
    decreases a
  {
    if a == 0 then b
    else if b == 0 then a
    else (a + b) % 2 + 2 * Xor(a / 2, b / 2)
  }

  function Mix32(h: nat, x: nat): nat {
    Xor(h, x % Word32) * Prime32 % Word32
  }

  function HashText(h: nat, text: string): nat
    decreases |text|
  {
    if text == "" then h else HashText(Mix32(h, text[0] as nat % 256), text[1..])
  }
}
