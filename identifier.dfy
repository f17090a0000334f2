/** Public identifiers (`generateRandomString` in index.js): each random
    byte is reduced modulo 36 and picks one symbol of a lower-case
    alphanumeric alphabet. */
module Identifier {
  import opened Values
  import opened Text

  /** The 36 symbols of an identifier, in the order the source lists them. */
  const Alphabet := "abcdefghijklmnopqrstuvwxyz0123456789"

  /** Symbol `d` of the alphabet: the letters, then the digits. */
  function AlphabetChar(d: nat): (c: char)
    requires d < 36
    ensures IsLowerAlnum(c)
  {
    if d < 26 then (97 + d) as char else (22 + d) as char
  }

  lemma AlphabetLayout()
    ensures |Alphabet| == 36
    ensures forall d | 0 <= d < 36 :: Alphabet[d] == AlphabetChar(d)
  {
  }

  /** The identifier that a run of random bytes maps to: symbol `k` is
      the alphabet symbol that byte `k` reduces to modulo 36. */
  function IdentifierOf(bytes: seq<byte>): string
  {
    seq(|bytes|, k requires 0 <= k < |bytes| => AlphabetChar(bytes[k] as int % 36))
  }

  /** `generateRandomString(length)`, with the `length` bytes that
      `crypto.randomBytes(length)` returned passed in. */
  method GenerateRandomString(length: nat, randomBytes: seq<byte>) returns (result: string)
    requires |randomBytes| == length
    ensures result == IdentifierOf(randomBytes)
  {
    AlphabetLayout();
    result := "";
    for i := 0 to length
      invariant |result| == i
      invariant forall k | 0 <= k < i :: result[k] == Alphabet[randomBytes[k] as int % 36]
    {
      result := result + [Alphabet[randomBytes[i] as int % 36]];
    }
  }

  /** Where a symbol sits in the alphabet. */
  function AlphabetIndex(c: char): (d: nat)
    requires IsLowerAlnum(c)
    ensures d < 36 && AlphabetChar(d) == c
  {
    if 'a' <= c <= 'z' then c as int - 97 else c as int - 22
  }

  /** Every string over the alphabet is the identifier of some bytes: the
      mapping reaches the whole identifier space. */
  lemma EveryIdentifierReachable(id: string)
    requires forall k | 0 <= k < |id| :: IsLowerAlnum(id[k])
    ensures IdentifierOf(seq(|id|, k requires 0 <= k < |id| => AlphabetIndex(id[k]) as byte)) == id
  {
    var bytes := seq(|id|, k requires 0 <= k < |id| => AlphabetIndex(id[k]) as byte);
    forall k | 0 <= k < |id|
      ensures IdentifierOf(bytes)[k] == id[k]
    {
      assert bytes[k] as int % 36 == AlphabetIndex(id[k]);
    }
  }

  /** How many of the bytes `0 .. n-1` map to alphabet symbol `d`. */
  function BytesMappingTo(d: nat, n: nat): nat
  {
    if n == 0 then 0 else BytesMappingTo(d, n - 1) + (if (n - 1) % 36 == d then 1 else 0)
  }

  lemma {:induction false} BytesMappingToClosed(d: nat, n: nat)
    requires d < 36
    ensures BytesMappingTo(d, n) == n / 36 + (if d < n % 36 then 1 else 0)
  {
    if n > 0 {
      BytesMappingToClosed(d, n - 1);
      var m := n - 1;
      if m % 36 == 35 {
        assert n / 36 == m / 36 + 1 && n % 36 == 0;
      } else {
        assert n / 36 == m / 36 && n % 36 == m % 36 + 1;
      }
    }
  }

  /** The reduction `byte % 36` is not uniform: of the 256 byte values,
      8 map to each of 'a', 'b', 'c' and 'd' and 7 to every other symbol. */
  lemma ModuloBias(d: nat)
    requires d < 36
    ensures BytesMappingTo(d, 256) == if d < 4 then 8 else 7
  {
    BytesMappingToClosed(d, 256);
  }
}
