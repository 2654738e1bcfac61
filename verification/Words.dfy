/** Machine words, wrapping and saturating arithmetic, and finite sums.
    Every other module writes the source's `u16`, `u32` and `u64` with these types. */
module Words {

  type u8 = x: int | 0 <= x < 0x100
  type u16 = x: int | 0 <= x < 0x1_0000
  type u32 = x: int | 0 <= x < 0x1_0000_0000
  type u64 = x: int | 0 <= x < 0x1_0000_0000_0000_0000

  datatype Option<+T> = None | Some(value: T)

  datatype Result<+T, +E> = Ok(value: T) | Err(error: E)

  /** A sum reduced to 16 bits, as `wrapping_add` and `as u16` do: what remains after taking
      away 2^16 as often as possible. `Wrap16IsMod` ties it to `%`. */
  function Wrap16(n: nat): u16 {
    if n < 0x1_0000 then n else Wrap16(n - 0x1_0000)
  }

  /** A sum reduced to 32 bits. */
  function Wrap32(n: nat): u32 {
    if n < 0x1_0000_0000 then n else Wrap32(n - 0x1_0000_0000)
  }

  /** `n >> 16`. */
  function Shift16(n: nat): nat {
    if n < 0x1_0000 then 0 else 1 + Shift16(n - 0x1_0000)
  }

  lemma {:induction false} Wrap16IsMod(n: nat)
    ensures Wrap16(n) == n % 0x1_0000
  {
    if n >= 0x1_0000 {
      Wrap16IsMod(n - 0x1_0000);
    }
  }

  lemma {:induction false} Wrap32IsMod(n: nat)
    ensures Wrap32(n) == n % 0x1_0000_0000
  {
    if n >= 0x1_0000_0000 {
      Wrap32IsMod(n - 0x1_0000_0000);
    }
  }

  lemma {:induction false} Shift16IsDiv(n: nat)
    ensures Shift16(n) == n / 0x1_0000
  {
    if n >= 0x1_0000 {
      Shift16IsDiv(n - 0x1_0000);
    }
  }

  /** The clamp of `saturating_add` and `saturating_mul` on 64 bits. */
  function Sat64(n: nat): u64 {
    if n < 0x1_0000_0000_0000_0000 then n else 0xFFFF_FFFF_FFFF_FFFF
  }

  /** `saturating_sub`. */
  function SatSub(a: nat, b: nat): nat {
    if b <= a then a - b else 0
  }

  /** Integer division, by repeated subtraction: `QuotIsDiv` ties it to `/`. Writing it this way
      keeps division by a variable out of the proofs that only pass quotients along. */
  function Quot(a: nat, b: nat): (q: nat)
    requires b > 0
    ensures q <= a
  {
    if a < b then 0 else 1 + Quot(a - b, b)
  }

  lemma {:induction false} QuotBelow(a: nat, b: nat, k: nat)
    requires b > 0
    ensures Quot(a, b) < k <==> a < k * b
  {
    if a >= b {
      if k > 0 {
        QuotBelow(a - b, b, k - 1);
        assert (k - 1) * b == k * b - b;
      }
    } else if k > 0 {
      assert k * b >= b;
    }
  }

  lemma {:induction false} QuotIsDiv(a: nat, b: nat)
    requires b > 0
    ensures Quot(a, b) == a / b
  {
    var q := a / b;
    assert q * b <= a < q * b + b;
    assert (q + 1) * b == q * b + b;
    QuotBelow(a, b, q);
    QuotBelow(a, b, q + 1);
  }

  function Max(a: int, b: int): int {
    if a < b then b else a
  }

  function Min(a: int, b: int): int {
    if a < b then a else b
  }

  function Sum(s: seq<nat>): nat {
    if |s| == 0 then 0 else Sum(s[..|s| - 1]) + s[|s| - 1]
  }

  lemma {:induction false} SumPush(s: seq<nat>, x: nat)
    ensures Sum(s + [x]) == Sum(s) + x
  {}

  lemma {:induction false} SumConcat(a: seq<nat>, b: seq<nat>)
    ensures Sum(a + b) == Sum(a) + Sum(b)
  {
    if |b| == 0 {
      assert a + b == a;
    } else {
      var c := b[..|b| - 1];
      SumConcat(a, c);
      assert a + b == (a + c) + [b[|b| - 1]];
      SumPush(a + c, b[|b| - 1]);
    }
  }

  function Count<T>(xs: seq<T>, p: T -> bool): (n: nat)
    ensures n <= |xs|
    ensures n == 0 <==> forall i :: 0 <= i < |xs| ==> !p(xs[i])
  {
    if |xs| == 0 then 0 else Count(xs[..|xs| - 1], p) + if p(xs[|xs| - 1]) then 1 else 0
  }

  lemma {:induction false} CountPush<T>(xs: seq<T>, x: T, p: T -> bool)
    ensures Count(xs + [x], p) == Count(xs, p) + if p(x) then 1 else 0
  {}

  /** Saturating step by step is saturating once. */
  lemma {:induction false} Sat64Step(a: nat, b: nat)
    ensures Sat64(Sat64(a) + b) == Sat64(a + b)
  {}

  lemma {:induction false} Wrap16Step(a: nat, b: nat)
    ensures Wrap16(Wrap16(a) + b) == Wrap16(a + b)
  {
    if a >= 0x1_0000 {
      Wrap16Step(a - 0x1_0000, b);
    }
  }

  lemma {:induction false} Wrap32Step(a: nat, b: nat)
    ensures Wrap32(Wrap32(a) + b) == Wrap32(a + b)
  {
    if a >= 0x1_0000_0000 {
      Wrap32Step(a - 0x1_0000_0000, b);
    }
  }

  /** Adding `n` wraps around to the same word exactly when `n` is a multiple of the modulus. */
  lemma {:induction false} Wrap16Fix(a: u16, n: nat)
    ensures Wrap16(a + n) == a <==> Wrap16(n) == 0
  {
    if n >= 0x1_0000 {
      Wrap16Fix(a, n - 0x1_0000);
    }
  }

  lemma {:induction false} Wrap32Fix(a: u32, n: nat)
    ensures Wrap32(a + n) == a <==> Wrap32(n) == 0
  {
    if n >= 0x1_0000_0000 {
      Wrap32Fix(a, n - 0x1_0000_0000);
    }
  }
}
