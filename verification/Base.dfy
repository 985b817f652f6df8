/** What every other module needs: optional values and the C++ integer operators. */
module Base {

  const ERROR_SUCCESS := 0

  datatype Option<+T> = None | Some(value: T)

  function Max(a: int, b: int): int {
    if a < b then b else a
  }

  /** C++ `/` on signed integers: the quotient is cut off towards zero. */
  function TruncDiv(a: int, b: int): int
    requires b > 0
  {
    if a >= 0 then a / b else -(-a / b)
  }

  /** What is left of a 64-bit value that is stored in a 32-bit `int`. */
  function Narrow32(x: int): int {
    (x + 0x8000_0000) % 0x1_0000_0000 - 0x8000_0000
  }

  /** The quotient, rounded down, and the remainder bound that makes it unique. */
  lemma TruncDivIsFloor(a: int, b: int)
    requires a >= 0 && b > 0
    ensures TruncDiv(a, b) >= 0
    ensures TruncDiv(a, b) * b <= a < (TruncDiv(a, b) + 1) * b
  {
    var q := a / b;
    assert a == q * b + a % b;
    assert (q + 1) * b == q * b + b;
  }

  /** The cut-off is the same on both sides of zero. */
  lemma TruncDivIsOdd(a: int, b: int)
    requires b > 0
    ensures TruncDiv(-a, b) == -TruncDiv(a, b)
  {
  }

  /** What is left fits 32 bits, and differs by whole multiples of 2^32; a value that fits is kept. */
  lemma Narrow32Fits(x: int)
    ensures -0x8000_0000 <= Narrow32(x) < 0x8000_0000
    ensures (x - Narrow32(x)) % 0x1_0000_0000 == 0
    ensures -0x8000_0000 <= x < 0x8000_0000 ==> Narrow32(x) == x
  {
  }

  // ----- std::vector

  /** std::find and erase: drop the first occurrence. */
  function Erase<T(==)>(s: seq<T>, x: T): seq<T> {
    if s == [] then [] else if s[0] == x then s[1..] else [s[0]] + Erase(s[1..], x)
  }

  ghost predicate NoDuplicates<T>(s: seq<T>) {
    forall i, j :: 0 <= i < j < |s| ==> s[i] != s[j]
  }

  lemma {:induction false} EraseMembers<T>(s: seq<T>, x: T)
    requires NoDuplicates(s) && x in s
    ensures NoDuplicates(Erase(s, x)) && |Erase(s, x)| == |s| - 1
    ensures forall y :: y in Erase(s, x) <==> y in s && y != x
  {
    assert s == [s[0]] + s[1..];
    if s[0] == x {
      assert forall i :: 0 <= i < |s[1..]| ==> s[1..][i] == s[i + 1] != x;
    } else {
      EraseMembers(s[1..], x);
      assert s[0] !in s[1..];
    }
  }

  /** Where the first occurrence is, erasing cuts one place out. */
  lemma {:induction false} EraseAt<T>(s: seq<T>, k: nat)
    requires k < |s| && forall i :: 0 <= i < k ==> s[i] != s[k]
    ensures Erase(s, s[k]) == s[..k] + s[k + 1..]
  {
    if k > 0 {
      assert s[1..][k - 1] == s[k];
      EraseAt(s[1..], k - 1);
      assert s[..k] == [s[0]] + s[1..][..k - 1];
    }
  }

  lemma EraseLast<T>(s: seq<T>, x: T)
    requires x !in s
    ensures Erase(s + [x], x) == s
  {
    EraseAt(s + [x], |s|);
    assert (s + [x])[..|s|] == s;
  }

  lemma {:induction false} EraseNothing<T>(s: seq<T>, x: T)
    requires x !in s
    ensures Erase(s, x) == s
  {
    if s != [] {
      EraseNothing(s[1..], x);
    }
  }
}
