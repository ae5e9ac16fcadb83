/**
  Identifier generation of the annotation pass (src/model-transform.ts:111-132).

  Both generators build candidates of the form `<prefix>_<i>` for i = 0, 1, 2, ...
  and return the first candidate that is not yet a key of the map they are given.
  `getNewIdForNode` uses a freshly drawn random token as the prefix,
  `getNewNodeCustomId` a fixed prefix such as "datatype" or "op_param".
  A map is represented here by the sequence of its keys.
*/
module Ids {

  /** The decimal digit character for d < 10. */
  function DigitChar(d: nat): (c: char)
    requires d < 10
    ensures '0' <= c <= '9'
  {
    ('0' as int + d) as char
  }

  /** JavaScript's `${i}` for a non-negative integer: its decimal digits, most significant first. */
  function NatToString(n: nat): (s: string)
    ensures |s| >= 1
    ensures forall k :: 0 <= k < |s| ==> '0' <= s[k] <= '9'
    decreases n
  {
    if n < 10 then [DigitChar(n)] else NatToString(n / 10) + [DigitChar(n % 10)]
  }

  /** Two numbers with the same decimal rendering are equal. */
  lemma {:induction false} NatToStringInjective(a: nat, b: nat)
    requires NatToString(a) == NatToString(b)
    ensures a == b
    decreases a
  {
    var s := NatToString(a);
    if a >= 10 && b >= 10 {
      assert NatToString(a / 10) == s[..|s| - 1] == NatToString(b / 10);
      NatToStringInjective(a / 10, b / 10);
      assert DigitChar(a % 10) == s[|s| - 1] == DigitChar(b % 10);
    } else if a < 10 && b < 10 {
      assert DigitChar(a) == s[0] == DigitChar(b);
    }
  }

  /** The candidate identifier `${prefix}_${i}`. */
  function Suffixed(prefix: string, i: nat): (id: string)
    ensures |id| > |prefix| + 1
    ensures id[..|prefix|] == prefix && id[|prefix|] == '_'
  {
    prefix + "_" + NatToString(i)
  }

  /** Different counters give different candidates under one prefix. */
  lemma SuffixedInjective(prefix: string, i: nat, j: nat)
    requires Suffixed(prefix, i) == Suffixed(prefix, j)
    ensures i == j
  {
    var n := |prefix| + 1;
    assert NatToString(i) == Suffixed(prefix, i)[n..];
    assert NatToString(j) == Suffixed(prefix, j)[n..];
    NatToStringInjective(i, j);
  }

  /**
    Pigeonhole: if the candidates 0 .. n-1 of one prefix are all keys, there are at least n keys.
    This is why both generators' loops stop after at most |keys| + 1 probes.
  */
  lemma {:induction false} OccupiedBound(prefix: string, keys: seq<string>, n: nat)
    requires forall j :: 0 <= j < n ==> Suffixed(prefix, j) in keys
    ensures n <= |keys|
    decreases n
  {
    if n > 0 {
      var last := Suffixed(prefix, n - 1);
      var k :| 0 <= k < |keys| && keys[k] == last;
      var rest := keys[..k] + keys[k + 1..];
      forall j | 0 <= j < n - 1
        ensures Suffixed(prefix, j) in rest
      {
        var x := Suffixed(prefix, j);
        if x == last {
          SuffixedInjective(prefix, j, n - 1);
        }
        var m :| 0 <= m < |keys| && keys[m] == x;
        if m < k {
          assert rest[m] == x;
        } else {
          assert rest[m - 1] == x;
        }
      }
      OccupiedBound(prefix, rest, n - 1);
    }
  }

  /** Some counter no larger than |keys| gives a free candidate. */
  lemma FreeCandidateExists(prefix: string, keys: seq<string>)
    ensures exists b :: 0 <= b <= |keys| && Suffixed(prefix, b) !in keys
  {
    if forall j :: 0 <= j <= |keys| ==> Suffixed(prefix, j) in keys {
      OccupiedBound(prefix, keys, |keys| + 1);
    }
  }

  /**
    The least free candidate: `id` is `prefix_i`, it is not a key, and every `prefix_j`
    with j < i is a key. These facts determine `id` uniquely (see LeastFreeUnique).
  */
  ghost predicate IsLeastFree(keys: seq<string>, prefix: string, id: string)
  {
    id !in keys &&
    exists i: nat :: id == Suffixed(prefix, i) && forall j :: 0 <= j < i ==> Suffixed(prefix, j) in keys
  }

  /** Only one candidate is the least free one. */
  lemma LeastFreeUnique(keys: seq<string>, prefix: string, a: string, b: string)
    requires IsLeastFree(keys, prefix, a) && IsLeastFree(keys, prefix, b)
    ensures a == b
  {
    var i: nat :| a == Suffixed(prefix, i) && forall j :: 0 <= j < i ==> Suffixed(prefix, j) in keys;
    var k: nat :| b == Suffixed(prefix, k) && forall j :: 0 <= j < k ==> Suffixed(prefix, j) in keys;
  }

  /**
    getNewNodeCustomId: counts i up from 0 while `prefix_i` is a key and returns the first free one.
  */
  method NewNodeCustomId(keys: seq<string>, prefix: string) returns (id: string)
    ensures id !in keys
    ensures exists i: nat :: i <= |keys| && id == Suffixed(prefix, i) &&
                             forall j :: 0 <= j < i ==> Suffixed(prefix, j) in keys
  {
    FreeCandidateExists(prefix, keys);
    ghost var bound :| 0 <= bound <= |keys| && Suffixed(prefix, bound) !in keys;
    var i := 0;
    while Suffixed(prefix, i) in keys
      invariant i <= bound
      invariant forall j :: 0 <= j < i ==> Suffixed(prefix, j) in keys
      decreases bound - i
    {
      i := i + 1;
    }
    id := Suffixed(prefix, i);
  }

  /**
    A token as randomHex produces it: "0x" followed by five lower-case hexadecimal digits
    (floor(random * 0xfffff) in base 16, padded at the end with '0').
  */
  predicate IsHexToken(t: string)
  {
    |t| == 7 && t[0] == '0' && t[1] == 'x' &&
    forall k :: 2 <= k < 7 ==> t[k] in "0123456789abcdef"
  }

  /**
    getNewIdForNode: the same search as getNewNodeCustomId, over the node registry's keys,
    with the drawn random token as the prefix.
  */
  method NewIdForNode(keys: seq<string>, token: string) returns (id: string)
    requires IsHexToken(token)
    ensures id !in keys
    ensures IsLeastFree(keys, token, id)
    ensures id[0] == '0'
  {
    id := NewNodeCustomId(keys, token);
    assert id[..|token|] == token;
  }
}
