/** Strings as PHP's string functions see them: truthiness, `implode`, substring search. */
module Text {

  datatype Option<+T> = None | Some(value: T)

  /** PHP's truthiness of a string (`!empty($s)`, `if ($s)`): only "" and "0" are false. */
  predicate Truthy(s: string) {
    s != "" && s != "0"
  }

  /** `implode('', xs)`. */
  function Concat(xs: seq<string>): string {
    if xs == [] then "" else xs[0] + Concat(xs[1..])
  }

  /** `implode(sep, xs)`: the pieces with `sep` between neighbours. */
  function Join(sep: string, xs: seq<string>): string {
    if xs == [] then ""
    else if |xs| == 1 then xs[0]
    else xs[0] + sep + Join(sep, xs[1..])
  }

  /** Every piece with `sep` in front of it. */
  function Prefixed(sep: string, xs: seq<string>): (r: seq<string>)
    ensures |r| == |xs|
    ensures forall i :: 0 <= i < |xs| ==> r[i] == sep + xs[i]
  {
    if xs == [] then [] else [sep + xs[0]] + Prefixed(sep, xs[1..])
  }

  /** `t` occurs in `s` starting at index `i`. */
  predicate OccursAt(s: string, t: string, i: int) {
    0 <= i <= |s| - |t| && s[i..i + |t|] == t
  }

  /** `t` occurs somewhere in `s`. */
  predicate Contains(s: string, t: string) {
    exists i | 0 <= i <= |s| - |t| :: OccursAt(s, t, i)
  }

  /** The number of occurrences of `c` in `s`. */
  function Count(s: string, c: char): nat {
    if s == [] then 0 else (if s[0] == c then 1 else 0) + Count(s[1..], c)
  }

  lemma {:induction false} ConcatAppend(xs: seq<string>, ys: seq<string>)
    ensures Concat(xs + ys) == Concat(xs) + Concat(ys)
  {
    if xs != [] {
      assert (xs + ys)[0] == xs[0];
      assert (xs + ys)[1..] == xs[1..] + ys;
      ConcatAppend(xs[1..], ys);
    } else {
      assert xs + ys == ys;
    }
  }

  /** The k-th piece stands right after the pieces before it. */
  lemma ConcatAround(xs: seq<string>, k: nat)
    requires k < |xs|
    ensures Concat(xs) == Concat(xs[..k]) + xs[k] + Concat(xs[k + 1..])
    ensures Concat(xs[..k + 1]) == Concat(xs[..k]) + xs[k]
  {
    assert xs == xs[..k] + xs[k..];
    ConcatAppend(xs[..k], xs[k..]);
    assert xs[k..][0] == xs[k];
    assert xs[k..][1..] == xs[k + 1..];
    assert xs[..k + 1] == xs[..k] + [xs[k]];
    ConcatAppend(xs[..k], [xs[k]]);
    assert Concat([xs[k]]) == xs[k] + Concat([]);
  }

  /**
   * Two lists of pieces that agree everywhere except at k, where the second piece has
   * `m` inserted into the first: the concatenations differ by that one insertion.
   */
  lemma ConcatSplice(lo: seq<string>, hi: seq<string>, k: nat, front: string, m: string, back: string)
    requires k < |lo| == |hi|
    requires lo[..k] == hi[..k] && lo[k + 1..] == hi[k + 1..]
    requires lo[k] == front + back && hi[k] == front + m + back
    ensures Concat(lo) == (Concat(lo[..k]) + front) + (back + Concat(lo[k + 1..]))
    ensures Concat(hi) == (Concat(lo[..k]) + front) + m + (back + Concat(lo[k + 1..]))
  {
    assert lo[k] == front + "" + back;
    ConcatInsert(lo, k, front, "", back);
    ConcatInsert(hi, k, front, m, back);
  }

  /** `longer` is `shorter` with `m` inserted at one place, and nothing else changed. */
  ghost predicate Inserted(shorter: string, longer: string, m: string) {
    exists a, b :: shorter == a + b && longer == a + m + b
  }

  /** The same insertion, under a common prefix, as a pair of cut points. */
  lemma SpliceWitness(p: string, lo: seq<string>, hi: seq<string>, k: nat, front: string, m: string, back: string)
    requires k < |lo| == |hi|
    requires lo[..k] == hi[..k] && lo[k + 1..] == hi[k + 1..]
    requires lo[k] == front + back && hi[k] == front + m + back
    ensures Inserted(p + Concat(lo), p + Concat(hi), m)
  {
    ConcatSplice(lo, hi, k, front, m, back);
    var x := Concat(lo[..k]) + front;
    var y := back + Concat(lo[k + 1..]);
    Assoc(p, x, y);
    Assoc(p, x + m, y);
    Assoc(p, x, m);
    assert p + Concat(lo) == (p + x) + y && p + Concat(hi) == (p + x) + m + y;
  }

  /** A piece `front + mid + back` at position k, seen from the whole concatenation. */
  lemma ConcatInsert(xs: seq<string>, k: nat, front: string, mid: string, back: string)
    requires k < |xs| && xs[k] == front + mid + back
    ensures Concat(xs) == (Concat(xs[..k]) + front) + mid + (back + Concat(xs[k + 1..]))
  {
    ConcatAround(xs, k);
    var p, q := Concat(xs[..k]), Concat(xs[k + 1..]);
    assert Concat(xs) == p + xs[k] + q;
    Assoc(p, front + mid, back);
    Assoc(p + (front + mid), back, q);
    assert p + (front + mid) == (p + front) + mid;
  }

  /** Concatenation regroups freely; stated once so that proofs can name the step. */
  lemma Assoc<T>(a: seq<T>, b: seq<T>, c: seq<T>)
    ensures (a + b) + c == a + (b + c)
  {
  }

  /** Where the k-th piece sits in the concatenation. */
  lemma ConcatAt(xs: seq<string>, k: nat)
    requires k < |xs|
    ensures var o := |Concat(xs[..k])|;
            o + |xs[k]| <= |Concat(xs)|
            && Concat(xs)[o..o + |xs[k]|] == xs[k]
            && |Concat(xs[..k + 1])| == o + |xs[k]|
  {
    ConcatAround(xs, k);
  }

  /** Where the k-th piece sits behind a prefix, and where the next one starts. */
  lemma PieceAt(p: string, xs: seq<string>, k: nat)
    requires k < |xs|
    ensures var whole := p + Concat(xs);
            var o := |p| + |Concat(xs[..k])|;
            o + |xs[k]| <= |whole|
            && whole[o..o + |xs[k]|] == xs[k]
            && (k + 1 < |xs| ==> |p| + |Concat(xs[..k + 1])| == o + |xs[k]|)
            && (k + 1 == |xs| ==> o + |xs[k]| == |whole|)
  {
    ConcatAt(xs, k);
    var r := Concat(xs);
    var o := |Concat(xs[..k])|;
    assert (p + r)[|p| + o..|p| + o + |xs[k]|] == r[o..o + |xs[k]|];
    if k + 1 == |xs| {
      assert xs[..k + 1] == xs;
    }
  }

  /** Two neighbouring pieces behind a prefix, and what follows them. */
  lemma TwoPiecesAt(whole: string, p: string, xs: seq<string>, k: nat, o: nat, x: string, y: string)
    requires k + 1 < |xs| && whole == p + Concat(xs) && o == |p| + |Concat(xs[..k])|
    requires xs[k] == x && xs[k + 1] == y
    ensures o + |x| + |y| <= |whole| && whole[o..] == x + y + whole[o + |x| + |y|..]
  {
    PieceAt(p, xs, k);
    PieceAt(p, xs, k + 1);
    Adjacent(whole, o, x, y);
  }

  /** Two pieces that stand side by side from `o` on, and what follows them. */
  lemma Adjacent(w: string, o: nat, x: string, y: string)
    requires o + |x| + |y| <= |w|
    requires w[o..o + |x|] == x && w[o + |x|..o + |x| + |y|] == y
    ensures w[o..] == x + y + w[o + |x| + |y|..]
  {
    var n := o + |x| + |y|;
    assert w[o..] == w[o..o + |x|] + w[o + |x|..n] + w[n..];
  }

  /** A non-empty join with the separator in front is the concatenation of the prefixed pieces. */
  lemma {:induction false} PrefixedJoin(sep: string, xs: seq<string>)
    requires xs != []
    ensures sep + Join(sep, xs) == Concat(Prefixed(sep, xs))
  {
    if |xs| > 1 {
      PrefixedJoin(sep, xs[1..]);
    }
  }

  /** A join whose first piece is non-empty starts with that piece's first character. */
  lemma JoinHead(sep: string, xs: seq<string>)
    requires xs != [] && xs[0] != ""
    ensures Join(sep, xs) != "" && Join(sep, xs)[0] == xs[0][0]
  {
  }
}
