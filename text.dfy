/**
 * Strings as sequences of characters: ASCII case mapping, and the view of a
 * template literal as the concatenation of a list of pieces (fixed literal
 * chunks and interpolated values), with the offsets at which each piece lands.
 */
module Text {
  import opened Wrappers

  /** JavaScript truthiness of an optional string: present and non-empty. */
  predicate Truthy(v: Option<string>)
  {
    v.Some? && v.value != ""
  }

  /** Lower-cases an ASCII letter and leaves every other character alone.
      This approximates JavaScript's toLowerCase, which maps all of Unicode. */
  function AsciiLower(c: char): (r: char)
    ensures ('A' <= c <= 'Z') == (r != c)
    ensures 'A' <= c <= 'Z' ==> 'a' <= r <= 'z' && r as int - c as int == 32
  {
    if 'A' <= c <= 'Z' then (c as int + 32) as char else c
  }

  /** Upper-cases an ASCII letter and leaves every other character alone
      (again an ASCII-only approximation of toUpperCase). */
  function AsciiUpper(c: char): (r: char)
    ensures ('a' <= c <= 'z') == (r != c)
    ensures 'a' <= c <= 'z' ==> 'A' <= r <= 'Z' && c as int - r as int == 32
  {
    if 'a' <= c <= 'z' then (c as int - 32) as char else c
  }

  /** `s.toLowerCase()`, ASCII letters only. */
  function ToLowerAscii(s: string): (r: string)
    ensures |r| == |s|
    ensures forall i :: 0 <= i < |s| ==> r[i] == AsciiLower(s[i])
  {
    seq(|s|, i requires 0 <= i < |s| => AsciiLower(s[i]))
  }

  /** `s.toUpperCase()`, ASCII letters only. */
  function ToUpperAscii(s: string): (r: string)
    ensures |r| == |s|
    ensures forall i :: 0 <= i < |s| ==> r[i] == AsciiUpper(s[i])
  {
    seq(|s|, i requires 0 <= i < |s| => AsciiUpper(s[i]))
  }

  /** `key` contains no upper-case ASCII letter. */
  ghost predicate IsLowerCase(key: string)
  {
    forall i :: 0 <= i < |key| ==> !('A' <= key[i] <= 'Z')
  }

  /** `p` spells `key` with any choice of case for each ASCII letter. */
  ghost predicate CaseVariant(p: string, key: string)
  {
    |p| == |key| && forall i :: 0 <= i < |p| ==> p[i] == key[i] || p[i] == AsciiUpper(key[i])
  }

  /** Lower-casing `p` gives the lower-case `key` exactly when `p` is `key`
      written in some mix of cases. */
  lemma LowerIffCaseVariant(p: string, key: string)
    requires IsLowerCase(key)
    ensures ToLowerAscii(p) == key <==> CaseVariant(p, key)
  {
    if ToLowerAscii(p) == key {
      forall i | 0 <= i < |p| ensures p[i] == key[i] || p[i] == AsciiUpper(key[i]) {
        assert AsciiLower(p[i]) == key[i];
      }
    }
    if CaseVariant(p, key) {
      forall i | 0 <= i < |p| ensures ToLowerAscii(p)[i] == key[i] {
        assert p[i] == key[i] || p[i] == AsciiUpper(key[i]);
      }
    }
  }

  /** The string a template literal produces from its pieces, left to right. */
  function Concat(ps: seq<string>): string
  {
    if ps == [] then "" else ps[0] + Concat(ps[1..])
  }

  /** `sub` appears in `s` starting at index `i`. */
  ghost predicate OccursAt(s: string, sub: string, i: int)
  {
    0 <= i && i + |sub| <= |s| && s[i..i + |sub|] == sub
  }

  /** Where piece `j` starts in `Concat(ps)`. */
  function Offset(ps: seq<string>, j: nat): nat
    requires j <= |ps|
  {
    |Concat(ps[..j])|
  }

  lemma {:induction false} ConcatAppend(a: seq<string>, b: seq<string>)
    ensures Concat(a + b) == Concat(a) + Concat(b)
  {
    if a == [] {
      assert a + b == b;
    } else {
      assert (a + b)[1..] == a[1..] + b;
      ConcatAppend(a[1..], b);
    }
  }

  lemma ConcatSingle(x: string)
    ensures Concat([x]) == x
  {
    assert [x][1..] == [];
  }

  /** The middle part of a three-way concatenation. */
  lemma MiddleOccurs(a: string, b: string, c: string)
    ensures OccursAt(a + b + c, b, |a|)
  {
    var s := a + b + c;
    assert forall i :: 0 <= i < |b| ==> s[|a| + i] == b[i];
  }

  /** Splitting the pieces in three splits the string in three. */
  lemma ConcatSplit(ps: seq<string>, j: nat, k: nat)
    requires j <= k <= |ps|
    ensures Concat(ps) == Concat(ps[..j]) + Concat(ps[j..k]) + Concat(ps[k..])
  {
    SplitAt(ps, j, k);
    ConcatAppend(ps[..k], ps[k..]);
    ConcatAppend(ps[..j], ps[j..k]);
  }

  /** A sequence is its three parts cut at `j` and `k`, put back together. */
  lemma SplitAt<T>(xs: seq<T>, j: nat, k: nat)
    requires j <= k <= |xs|
    ensures xs[..j] + xs[j..k] == xs[..k]
    ensures xs[..k] + xs[k..] == xs
  {
  }

  /** The pieces `j` to `k` appear, joined, at piece `j`'s offset. */
  lemma RunOccurs(ps: seq<string>, j: nat, k: nat)
    requires j <= k <= |ps|
    ensures OccursAt(Concat(ps), Concat(ps[j..k]), Offset(ps, j))
  {
    ConcatSplit(ps, j, k);
    MiddleOccurs(Concat(ps[..j]), Concat(ps[j..k]), Concat(ps[k..]));
  }

  /** Each piece appears at its offset. */
  lemma PieceOccurs(ps: seq<string>, j: nat)
    requires j < |ps|
    ensures OccursAt(Concat(ps), ps[j], Offset(ps, j))
  {
    RunOccurs(ps, j, j + 1);
    assert ps[j..j + 1] == [ps[j]];
    ConcatSingle(ps[j]);
  }

  /** A run of pieces ends where the piece after it starts. */
  lemma RunEnds(ps: seq<string>, j: nat, k: nat)
    requires j <= k <= |ps|
    ensures Offset(ps, j) + |Concat(ps[j..k])| == Offset(ps, k)
  {
    assert ps[..k] == ps[..j] + ps[j..k];
    ConcatAppend(ps[..j], ps[j..k]);
  }

  /** Piece `j + 1` starts where piece `j` ends. */
  lemma OffsetStep(ps: seq<string>, j: nat)
    requires j < |ps|
    ensures Offset(ps, j + 1) == Offset(ps, j) + |ps[j]|
  {
    RunEnds(ps, j, j + 1);
    assert ps[j..j + 1] == [ps[j]];
    ConcatSingle(ps[j]);
  }

  /** Later pieces start no earlier. */
  lemma OffsetMonotone(ps: seq<string>, j: nat, k: nat)
    requires j <= k <= |ps|
    ensures Offset(ps, j) <= Offset(ps, k)
  {
    RunEnds(ps, j, k);
  }

  lemma Concat3(a: string, b: string, c: string)
    ensures Concat([a, b, c]) == a + b + c
  {
    assert [a, b, c][1..] == [b, c];
    assert [b, c][1..] == [c];
    ConcatSingle(c);
  }

  /** The whole string ends where the last piece ends. */
  lemma LastPieceEnds(ps: seq<string>)
    requires |ps| > 0
    ensures Offset(ps, |ps| - 1) + |ps[|ps| - 1]| == |Concat(ps)|
  {
    var n := |ps| - 1;
    assert ps == ps[..n] + [ps[n]];
    ConcatAppend(ps[..n], [ps[n]]);
    ConcatSingle(ps[n]);
  }

  /** Piece `h` occurs at its offset and the next piece starts right after. */
  lemma OnePiece(ps: seq<string>, h: nat)
    requires h < |ps|
    ensures OccursAt(Concat(ps), ps[h], Offset(ps, h))
    ensures Offset(ps, h) + |ps[h]| == Offset(ps, h + 1)
  {
    PieceOccurs(ps, h);
    OffsetStep(ps, h);
  }

  /** Pieces `h`, `h + 1`, `h + 2` occur joined at piece `h`'s offset. */
  lemma ThreePieces(ps: seq<string>, h: nat)
    requires h + 3 <= |ps|
    ensures OccursAt(Concat(ps), ps[h] + ps[h + 1] + ps[h + 2], Offset(ps, h))
    ensures Offset(ps, h) + |ps[h] + ps[h + 1] + ps[h + 2]| == Offset(ps, h + 3)
  {
    assert ps[h..h + 3] == [ps[h], ps[h + 1], ps[h + 2]];
    Concat3(ps[h], ps[h + 1], ps[h + 2]);
    RunOccurs(ps, h, h + 3);
    RunEnds(ps, h, h + 3);
  }

  /** An occurrence inside an occurrence is an occurrence. */
  lemma OccursWithin(s: string, u: string, i: int, v: string, j: int)
    requires OccursAt(s, u, i) && OccursAt(u, v, j)
    ensures OccursAt(s, v, i + j)
  {
    assert forall n :: 0 <= n < |v| ==> s[i + j + n] == u[j + n] == v[n];
  }
}
