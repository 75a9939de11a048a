/** The index of a machine in its VLAN: a 64-bit hash of the name, reduced to 0..240. */
module MachineIndex {
  const TWO_63 := 0x8000_0000_0000_0000
  const TWO_64 := 0x1_0000_0000_0000_0000

  /** Go's int on a 64-bit platform: the value in [-2^63, 2^63) congruent to x modulo 2^64. */
  function Wrap(x: int): (w: int)
    ensures -TWO_63 <= w < TWO_63
    ensures (x - w) % TWO_64 == 0
  {
    (x + TWO_63) % TWO_64 - TWO_63
  }

  /** Go's %: the remainder has the sign of the dividend. */
  function Rem(x: int, y: int): int
    requires y > 0
  {
    if x >= 0 then x % y else -((-x) % y)
  }

  function Abs(x: int): nat {
    if x < 0 then -x else x
  }

  function Pow31(n: nat): nat {
    if n == 0 then 1 else 31 * Pow31(n - 1)
  }

  /** The base-31 polynomial of a name over the integers: the first character has the highest weight. */
  function Polynomial(name: string): nat {
    if name == "" then 0 else name[0] as int * Pow31(|name| - 1) + Polynomial(name[1..])
  }

  /** The index as the documentation means it: a number fixed by the polynomial's 64-bit value. */
  function IndexOf(name: string): nat {
    Abs(Wrap(Polynomial(name))) % 241
  }

  /** Horner's rule: appending a character multiplies by 31 and adds it. */
  lemma {:induction false} Horner(front: string, c: char)
    ensures Polynomial(front + [c]) == 31 * Polynomial(front) + c as int
  {
    var name := front + [c];
    if front == "" {
      assert name[1..] == "";
      assert Polynomial(name) == c as int * Pow31(0) + Polynomial("");
    } else {
      var x, n := front[0] as int, |front|;
      assert name[1..] == front[1..] + [c];
      Horner(front[1..], c);
      assert x * Pow31(n) == 31 * (x * Pow31(n - 1)) by {
        assert Pow31(n) == 31 * Pow31(n - 1);
        Rearrange(x, Pow31(n - 1));
      }
    }
  }

  lemma Rearrange(x: int, p: int)
    ensures x * (31 * p) == 31 * (x * p)
  {}

  /** Numbers that differ by a multiple of 2^64 wrap to the same value. */
  lemma WrapCongruent(x: int, y: int, k: int)
    requires x - y == TWO_64 * k
    ensures Wrap(x) == Wrap(y)
  {}

  /** One wrapped step of the loop is one step of the polynomial, wrapped. */
  lemma WrapStep(p: int, c: int)
    ensures Wrap(Wrap(p) * 31 + c) == Wrap(31 * p + c)
  {
    var k := (p - Wrap(p)) / TWO_64;
    assert p - Wrap(p) == TWO_64 * k;
    WrapCongruent(31 * p + c, Wrap(p) * 31 + c, 31 * k);
  }

  /** getMachineIndex: the wrapping loop computes the polynomial modulo 2^64, and its index lies in 0..240. */
  method GetMachineIndex(name: string) returns (index: int)
    ensures 0 <= index <= 240
    ensures index == IndexOf(name)
  {
    var hash := 0;
    for i := 0 to |name|
      invariant hash == Wrap(Polynomial(name[..i]))
    {
      Horner(name[..i], name[i]);
      assert name[..i + 1] == name[..i] + [name[i]];
      WrapStep(Polynomial(name[..i]), name[i] as int);
      hash := Wrap(hash * 31 + name[i] as int);
    }
    assert name[..|name|] == name;
    index := Rem(hash, 241);
    if index < 0 {
      index := -index;
    }
  }

  /** The comment above getMachineIndex promises unique addresses; these two valid machine names share their index. */
  lemma IndicesCollide()
    ensures IndexOf("ah") == IndexOf("ia") == 219
  {
    Horner("a", 'h');
    Horner("i", 'a');
    assert "a" + ['h'] == "ah" && "i" + ['a'] == "ia";
    assert "a"[1..] == "" && "i"[1..] == "";
    assert Polynomial("a") == 97 * Pow31(0) && Polynomial("i") == 105 * Pow31(0);
  }
}
