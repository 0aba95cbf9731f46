/**
 * The header/line pattern shared by EKKO/EKPO, VBAK/VBAP and AFIH/AFVC: the
 * child table is the concatenation, in header order, of one block of lines
 * per header, and every line of block k carries the key of header k.
 *
 * `Flatten` is how the generators' nested append loops lay lines out;
 * `Select` is the filter `df[df['KEY'] == key]` that a consumer applies to
 * find the lines of one header.
 */
module Lines {

  /** The blocks, one after the other. */
  function Flatten<T>(blocks: seq<seq<T>>): (s: seq<T>)
    ensures |s| == TotalSize(blocks)
    decreases |blocks|
  {
    if blocks == [] then [] else Flatten(blocks[..|blocks| - 1]) + blocks[|blocks| - 1]
  }

  /** The total number of lines in the blocks. */
  function TotalSize<T>(blocks: seq<seq<T>>): nat
    decreases |blocks|
  {
    if blocks == [] then 0 else TotalSize(blocks[..|blocks| - 1]) + |blocks[|blocks| - 1]|
  }

  /** The elements of s whose key is k, in their order in s. */
  function Select<T>(s: seq<T>, key: T -> string, k: string): (r: seq<T>)
    ensures |r| <= |s|
    ensures forall i :: 0 <= i < |r| ==> key(r[i]) == k
    decreases |s|
  {
    if s == [] then []
    else Select(s[..|s| - 1], key, k) + (if key(s[|s| - 1]) == k then [s[|s| - 1]] else [])
  }

  /** Block k holds lines keyed by keys[k], for every k. */
  ghost predicate Keyed<T>(blocks: seq<seq<T>>, key: T -> string, keys: seq<string>) {
    && |blocks| == |keys|
    && forall k, j :: 0 <= k < |blocks| && 0 <= j < |blocks[k]| ==> key(blocks[k][j]) == keys[k]
  }

  predicate DistinctKeys(keys: seq<string>) {
    forall a, b :: 0 <= a < b < |keys| ==> keys[a] != keys[b]
  }

  /** One step of a loop that builds s row by row: the next prefix is the current one and the next row. */
  lemma PrefixStep<T>(s: seq<T>, i: nat)
    requires i < |s|
    ensures s[..i + 1] == s[..i] + [s[i]]
  {
  }

  /** Adding one block appends its lines. */
  lemma FlattenSnoc<T>(blocks: seq<seq<T>>, n: nat)
    requires n < |blocks|
    ensures Flatten(blocks[..n + 1]) == Flatten(blocks[..n]) + blocks[n]
  {
    assert blocks[..n + 1][..n] == blocks[..n];
  }

  /** With every block holding between lo and hi lines, the total is between lo and hi per block. */
  lemma {:induction false} TotalSizeBounds<T>(blocks: seq<seq<T>>, lo: nat, hi: nat)
    requires forall k :: 0 <= k < |blocks| ==> lo <= |blocks[k]| <= hi
    ensures lo * |blocks| <= TotalSize(blocks) <= hi * |blocks|
    decreases |blocks|
  {
    if blocks != [] {
      var n := |blocks| - 1;
      TotalSizeBounds(blocks[..n], lo, hi);
      assert lo * |blocks| == lo * n + lo && hi * |blocks| == hi * n + hi;
    }
  }

  /** A line is in the flattened table exactly when it is in one of the blocks. */
  lemma {:induction false} FlattenMember<T>(blocks: seq<seq<T>>, x: T)
    ensures x in Flatten(blocks) <==> exists k :: 0 <= k < |blocks| && x in blocks[k]
    decreases |blocks|
  {
    if blocks != [] {
      var n := |blocks| - 1;
      FlattenMember(blocks[..n], x);
      if x in blocks[n] {
        assert 0 <= n < |blocks| && x in blocks[n];
      }
      if exists k :: 0 <= k < |blocks| && x in blocks[k] {
        var k :| 0 <= k < |blocks| && x in blocks[k];
        if k < n {
          assert x in blocks[..n][k];
        }
      }
    }
  }

  /** Selecting from a concatenation selects from each part. */
  lemma {:induction false} SelectConcat<T>(a: seq<T>, b: seq<T>, key: T -> string, k: string)
    ensures Select(a + b, key, k) == Select(a, key, k) + Select(b, key, k)
    decreases |b|
  {
    if b != [] {
      assert (a + b)[..|a + b| - 1] == a + b[..|b| - 1];
      SelectConcat(a, b[..|b| - 1], key, k);
    } else {
      assert a + b == a;
    }
  }

  /** A block whose lines all carry key k selects to itself for k and to nothing for any other key. */
  lemma {:induction false} SelectUniform<T>(s: seq<T>, key: T -> string, k: string, other: string)
    requires forall i :: 0 <= i < |s| ==> key(s[i]) == k
    ensures Select(s, key, k) == s
    ensures other != k ==> Select(s, key, other) == []
    decreases |s|
  {
    if s != [] {
      SelectUniform(s[..|s| - 1], key, k, other);
      assert s[..|s| - 1] + [s[|s| - 1]] == s;
    }
  }

  /** When the keys are distinct, selecting header k's key gives back exactly block k. */
  lemma {:induction false} SelectFlatten<T>(blocks: seq<seq<T>>, key: T -> string, keys: seq<string>, k: nat)
    requires Keyed(blocks, key, keys) && DistinctKeys(keys)
    requires k < |blocks|
    ensures Select(Flatten(blocks), key, keys[k]) == blocks[k]
    decreases |blocks|
  {
    var n := |blocks| - 1;
    assert Flatten(blocks) == Flatten(blocks[..n]) + blocks[n];
    SelectConcat(Flatten(blocks[..n]), blocks[n], key, keys[k]);
    SelectUniform(blocks[n], key, keys[n], keys[k]);
    assert Keyed(blocks[..n], key, keys[..n]);
    if k < n {
      SelectFlatten(blocks[..n], key, keys[..n], k);
    } else {
      SelectAbsent(blocks[..n], key, keys[..n], keys[k]);
    }
  }

  /** A key no header carries selects nothing. */
  lemma {:induction false} SelectAbsent<T>(blocks: seq<seq<T>>, key: T -> string, keys: seq<string>, k: string)
    requires Keyed(blocks, key, keys)
    requires forall a :: 0 <= a < |keys| ==> keys[a] != k
    ensures Select(Flatten(blocks), key, k) == []
    decreases |blocks|
  {
    if blocks != [] {
      var n := |blocks| - 1;
      SelectConcat(Flatten(blocks[..n]), blocks[n], key, k);
      SelectUniform(blocks[n], key, keys[n], k);
      SelectAbsent(blocks[..n], key, keys[..n], k);
    }
  }

  /** The lines of the flattened table come grouped by header, in header order. */
  ghost predicate GroupedBy<T>(lines: seq<T>, key: T -> string, keys: seq<string>) {
    forall p, q, a, b ::
      (0 <= p < q < |lines| && 0 <= a < |keys| && 0 <= b < |keys| &&
       key(lines[p]) == keys[a] && key(lines[q]) == keys[b]) ==> a <= b
  }

  /** The line at p of Flatten(blocks) is line j of block k, and lies past the lines of the blocks before k. */
  lemma {:induction false} FlattenAt<T>(blocks: seq<seq<T>>, p: nat) returns (k: nat, j: nat)
    requires p < |Flatten(blocks)|
    ensures k < |blocks| && j < |blocks[k]| && Flatten(blocks)[p] == blocks[k][j]
    ensures |Flatten(blocks[..k])| <= p
    ensures forall k' :: k < k' <= |blocks| ==> p < |Flatten(blocks[..k'])|
    decreases |blocks|
  {
    var n := |blocks| - 1;
    var front := Flatten(blocks[..n]);
    assert blocks[..n + 1] == blocks;
    if p < |front| {
      k, j := FlattenAt(blocks[..n], p);
      assert blocks[..n][..k] == blocks[..k];
      forall k' | k < k' <= |blocks| ensures p < |Flatten(blocks[..k'])| {
        if k' <= n {
          assert blocks[..n][..k'] == blocks[..k'];
        } else {
          assert blocks[..k'] == blocks;
        }
      }
    } else {
      k, j := n, p - |front|;
    }
  }

  /** Flatten lays out the blocks grouped by header in header order, given distinct keys. */
  lemma FlattenGrouped<T>(blocks: seq<seq<T>>, key: T -> string, keys: seq<string>)
    requires Keyed(blocks, key, keys) && DistinctKeys(keys)
    ensures GroupedBy(Flatten(blocks), key, keys)
  {
    var lines := Flatten(blocks);
    forall p, q, a, b |
      0 <= p < q < |lines| && 0 <= a < |keys| && 0 <= b < |keys| &&
      key(lines[p]) == keys[a] && key(lines[q]) == keys[b]
      ensures a <= b
    {
      var kp, jp := FlattenAt(blocks, p);
      var kq, jq := FlattenAt(blocks, q);
      assert keys[kp] == keys[a] && keys[kq] == keys[b];
      assert kp == a && kq == b;
    }
  }
}
