/** Byte strings and their big-endian values, as Go's encoding/binary and math/big read them. */
module Bytes {

  type byte = x: int | 0 <= x < 256

  type Data = seq<byte>

  function Pow256(n: nat): (p: nat)
    ensures p > 0
  {
    if n == 0 then 1 else 256 * Pow256(n - 1)
  }

  /** The unsigned big-endian value of a byte string. */
  function Value(s: Data): nat {
    if s == [] then 0 else 256 * Value(s[..|s| - 1]) + s[|s| - 1]
  }

  /** The n-byte big-endian string with value v. */
  function BigEndian(v: nat, n: nat): (s: Data)
    requires v < Pow256(n)
    ensures |s| == n && Value(s) == v
  {
    if n == 0 then
      []
    else
      var s := BigEndian(v / 256, n - 1) + [v % 256];
      assert s[..n - 1] == BigEndian(v / 256, n - 1);
      s
  }

  lemma {:induction false} ValueBound(s: Data)
    ensures Value(s) < Pow256(|s|)
  {
    if s != [] {
      ValueBound(s[..|s| - 1]);
    }
  }

  lemma {:induction false} ValueInjective(s: Data, t: Data)
    requires |s| == |t| && Value(s) == Value(t)
    ensures s == t
  {
    if s != [] {
      ValueInjective(s[..|s| - 1], t[..|t| - 1]);
      assert s == s[..|s| - 1] + [s[|s| - 1]];
      assert t == t[..|t| - 1] + [t[|t| - 1]];
    }
  }

  /** Leading zero bytes do not change the value. */
  lemma {:induction false} ValueLeadingZero(s: Data)
    ensures Value([0] + s) == Value(s)
  {
    if s != [] {
      ValueLeadingZero(s[..|s| - 1]);
      assert ([0] + s)[..|s|] == [0] + s[..|s| - 1];
    } else {
      assert ([0] + s)[..0] == [];
    }
  }

  lemma {:induction false} Pow256Monotone(m: nat, n: nat)
    requires m <= n
    ensures Pow256(m) <= Pow256(n)
  {
    if m < n {
      Pow256Monotone(m, n - 1);
    }
  }
}
