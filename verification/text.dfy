/** String helpers shared by the renderings: Python's `sep.join(parts)`. */
module Text {

  /** Sum of the lengths of `parts`. */
  function TotalLength(parts: seq<string>): nat {
    if |parts| == 0 then 0 else |parts[0]| + TotalLength(parts[1..])
  }

  /** Python's `sep.join(parts)`: the parts in order with `sep` between neighbours. */
  function Join(sep: string, parts: seq<string>): (r: string)
    ensures |parts| == 0 ==> r == ""
    ensures |parts| == 1 ==> r == parts[0]
    ensures |parts| > 0 ==> |r| == TotalLength(parts) + |sep| * (|parts| - 1)
  {
    if |parts| == 0 then ""
    else if |parts| == 1 then parts[0]
    else parts[0] + sep + Join(sep, parts[1..])
  }

  /** Where `parts[i]` starts inside `Join(sep, parts)`. */
  function PartOffset(sep: string, parts: seq<string>, i: nat): nat
    requires i <= |parts|
  {
    TotalLength(parts[..i]) + i * |sep|
  }

  /** `u` occurs in `t` starting at position `k`. */
  predicate OccursAt(u: string, t: string, k: int) {
    0 <= k && k + |u| <= |t| && t[k..k + |u|] == u
  }

  /** `u` is a substring of `t` (Python's `u in t`). */
  predicate Occurs(u: string, t: string) {
    exists k | 0 <= k <= |t| :: OccursAt(u, t, k)
  }

  /** An occurrence inside an occurrence is an occurrence. */
  lemma OccursAtCompose(u: string, s: string, t: string, k1: int, k2: int)
    requires OccursAt(s, t, k1)
    requires OccursAt(u, s, k2)
    ensures OccursAt(u, t, k1 + k2)
  {
    forall x | 0 <= x < |u|
      ensures t[k1 + k2 + x] == u[x]
    {
      assert t[k1..k1 + |s|][k2 + x] == s[k2 + x];
      assert s[k2..k2 + |u|][x] == u[x];
    }
  }

  /** Prefixing `t` shifts every occurrence in it by the prefix's length. */
  lemma OccursAtShift(u: string, p: string, t: string, k: int)
    requires OccursAt(u, t, k)
    ensures OccursAt(u, p + t, |p| + k)
  {
  }

  /** Every part appears in the joined string, at its offset. */
  lemma {:induction false} JoinPartAt(sep: string, parts: seq<string>, i: nat)
    requires i < |parts|
    ensures OccursAt(parts[i], Join(sep, parts), PartOffset(sep, parts, i))
  {
    if |parts| == 1 {
      assert parts[..0] == [];
    } else if i == 0 {
      assert parts[..0] == [];
      assert Join(sep, parts) == parts[0] + (sep + Join(sep, parts[1..]));
      assert Join(sep, parts)[..|parts[0]|] == parts[0];
    } else {
      var rest := parts[1..];
      JoinPartAt(sep, rest, i - 1);
      assert parts[..i][0] == parts[0];
      assert parts[..i][1..] == rest[..i - 1];
      assert TotalLength(parts[..i]) == |parts[0]| + TotalLength(rest[..i - 1]);
      assert PartOffset(sep, parts, i) == |parts[0] + sep| + PartOffset(sep, rest, i - 1);
      OccursAtShift(parts[i], parts[0] + sep, Join(sep, rest), PartOffset(sep, rest, i - 1));
    }
  }

  /** The separator sits right after every part but the last. */
  lemma {:induction false} JoinSepAt(sep: string, parts: seq<string>, i: nat)
    requires i + 1 < |parts|
    ensures OccursAt(sep, Join(sep, parts), PartOffset(sep, parts, i) + |parts[i]|)
  {
    var rest := parts[1..];
    if i == 0 {
      assert parts[..0] == [];
      assert Join(sep, parts) == parts[0] + sep + Join(sep, rest);
      assert Join(sep, parts)[|parts[0]|..|parts[0]| + |sep|] == sep;
    } else {
      JoinSepAt(sep, rest, i - 1);
      assert parts[..i][0] == parts[0];
      assert parts[..i][1..] == rest[..i - 1];
      assert TotalLength(parts[..i]) == |parts[0]| + TotalLength(rest[..i - 1]);
      assert PartOffset(sep, parts, i) == |parts[0] + sep| + PartOffset(sep, rest, i - 1);
      OccursAtShift(sep, parts[0] + sep, Join(sep, rest), PartOffset(sep, rest, i - 1) + |rest[i - 1]|);
    }
  }
}
