/** Occurrence of one string inside another, used to state what a composed
    subject line or message body carries. */
module Text {

  /** `t` occurs in `s` starting at index `i`. */
  predicate OccursAt(s: string, t: string, i: nat)
  {
    i + |t| <= |s| && s[i..i + |t|] == t
  }

  ghost predicate Contains(s: string, t: string)
  {
    exists i: nat :: OccursAt(s, t, i)
  }

  /** `t` occurs in `s`, and `u` occurs after the end of that occurrence. */
  ghost predicate ContainsInOrder(s: string, t: string, u: string)
  {
    exists i: nat, j: nat :: i + |t| <= j && OccursAt(s, t, i) && OccursAt(s, u, j)
  }

  lemma PieceOccurs(a: string, t: string, b: string)
    ensures OccursAt(a + t + b, t, |a|)
  {
  }

  lemma PieceContained(a: string, t: string, b: string)
    ensures Contains(a + t + b, t)
  {
    PieceOccurs(a, t, b);
  }

  /** The concatenation of `parts`, as a template literal joins its pieces. */
  function Concat(parts: seq<string>): string
  {
    if parts == [] then "" else parts[0] + Concat(parts[1..])
  }

  /** Joining is associative: a concatenation splits at any index. */
  lemma {:induction false} ConcatSplit(parts: seq<string>, k: nat)
    requires k <= |parts|
    ensures Concat(parts) == Concat(parts[..k]) + Concat(parts[k..])
  {
    if k == 0 {
      assert parts[..0] == [] && parts[0..] == parts;
    } else {
      ConcatSplit(parts[1..], k - 1);
      assert parts[..k][1..] == parts[1..][..k - 1];
      assert parts[1..][k - 1..] == parts[k..];
    }
  }

  /** Every run of consecutive parts of a concatenation is contained in it. */
  lemma SliceContained(parts: seq<string>, i: nat, j: nat)
    requires i <= j <= |parts|
    ensures Contains(Concat(parts), Concat(parts[i..j]))
  {
    ConcatSplit(parts, j);
    ConcatSplit(parts[..j], i);
    assert parts[..j][i..] == parts[i..j];
    PieceContained(Concat(parts[..j][..i]), Concat(parts[i..j]), Concat(parts[j..]));
  }

  /** Three consecutive parts occur together, as a template puts a value between its two labels. */
  lemma TripleContained(parts: seq<string>, i: nat)
    requires i + 3 <= |parts|
    ensures Contains(Concat(parts), parts[i] + parts[i + 1] + parts[i + 2])
  {
    var a, b, c := parts[i], parts[i + 1], parts[i + 2];
    SliceContained(parts, i, i + 3);
    assert parts[i..i + 3] == [a, b, c];
    Concat3(a, b, c);
  }

  lemma Concat3(a: string, b: string, c: string)
    ensures Concat([a, b, c]) == a + b + c
  {
    assert [c][1..] == [];
    assert Concat([c]) == c;
    assert [b, c][1..] == [c];
    assert Concat([b, c]) == b + c;
    assert [a, b, c][1..] == [b, c];
  }

  /** In `a + t + m + u + b` the piece `t` comes before the piece `u`. */
  lemma PiecesInOrder(a: string, t: string, m: string, u: string, b: string)
    ensures ContainsInOrder(a + t + m + u + b, t, u)
  {
    var s := a + t + m + u + b;
    PieceOccurs(a, t, m + u + b);
    assert s == a + t + (m + u + b);
    PieceOccurs(a + t + m, u, b);
    assert |a| + |t| <= |a + t + m|;
  }
}
