/** The JavaScript array and string built-ins the sentence builder relies on,
    stated as pure functions over sequences: `Array.prototype.includes`,
    `Array.prototype.filter` with an (element, index) callback,
    `Array.prototype.join`, and `String.prototype.split` as the inverse of join. */
module ArrayOps {

  /** `xs.includes(x)`: a left-to-right scan for an element equal to `x`. */
  function Includes<T(==)>(xs: seq<T>, x: T): (found: bool)
    ensures found <==> x in xs
    ensures found <==> exists i :: 0 <= i < |xs| && xs[i] == x
  {
    if |xs| == 0 then false
    else if xs[0] == x then true
    else Includes(xs[1..], x)
  }

  /** `s.filter(keep)`: the elements of `s`, in order, for which
      `keep(element, position)` holds. It never adds an element, and a callback that
      keeps every position keeps the whole sequence. */
  function FilterIndexed<T>(s: seq<T>, keep: (T, int) -> bool): (r: seq<T>)
    ensures |r| <= |s|
    ensures forall k :: 0 <= k < |r| ==> r[k] in s
    ensures (forall i :: 0 <= i < |s| ==> keep(s[i], i)) ==> r == s
  {
    if |s| == 0 then []
    else
      var n := |s| - 1;
      var p := s[..n];
      assert forall i :: 0 <= i < |p| ==> p[i] == s[i];
      FilterIndexed(p, keep) + (if keep(s[n], n) then [s[n]] else [])
  }

  /** The callback `(_, i) => i !== index`: it rejects position `index` and keeps every
      other position, whatever the element. */
  function NotAt<T(!new)>(index: int): (keep: (T, int) -> bool)
    ensures forall x: T :: !keep(x, index)
    ensures forall x: T, i :: i != index ==> keep(x, i)
  {
    (x: T, i: int) => i != index
  }

  /** Filtering out one position removes exactly the element there, keeping the others
      in order; a position outside the sequence (negative, or past the end) removes nothing. */
  lemma {:induction false} FilterNotAt<T(!new)>(s: seq<T>, index: int)
    ensures 0 <= index < |s| ==> FilterIndexed(s, NotAt(index)) == s[..index] + s[index + 1..]
    ensures !(0 <= index < |s|) ==> FilterIndexed(s, NotAt(index)) == s
  {
    if |s| > 0 {
      var n := |s| - 1;
      var p := s[..n];
      var keep: (T, int) -> bool := NotAt(index);
      var last := if n != index then [s[n]] else [];
      assert FilterIndexed(s, keep) == FilterIndexed(p, keep) + last;
      FilterNotAt(p, index);
      if index == n {
        assert s[..index] + s[index + 1..] == p;
      } else if 0 <= index < n {
        calc {
          FilterIndexed(s, keep);
          p[..index] + p[index + 1..] + [s[n]];
          { assert p[..index] == s[..index]; assert p[index + 1..] + [s[n]] == s[index + 1..]; }
          s[..index] + s[index + 1..];
        }
      } else {
        assert p + [s[n]] == s;
      }
    }
  }

  /** `xs.join(sep)`: the elements with `sep` between neighbours and nowhere else. It
      begins with the first element, followed by the separator when there are more. */
  function Join(xs: seq<string>, sep: string): (r: string)
    ensures |xs| > 0 ==> xs[0] <= r
    ensures |xs| > 1 ==> xs[0] + sep <= r
  {
    if |xs| == 0 then ""
    else if |xs| == 1 then xs[0]
    else xs[0] + sep + Join(xs[1..], sep)
  }

  /** With a non-empty separator, the join is empty exactly when there is nothing to
      join, or a single empty element. */
  lemma JoinEmptyIff(xs: seq<string>, sep: string)
    requires sep != ""
    ensures Join(xs, sep) == "" <==> |xs| == 0 || (|xs| == 1 && xs[0] == "")
  {
  }

  /** Appending one element to a non-empty sequence adds the separator and that element
      at the end of the join. */
  lemma {:induction false} JoinSnoc(xs: seq<string>, x: string, sep: string)
    requires |xs| > 0
    ensures Join(xs + [x], sep) == Join(xs, sep) + sep + x
  {
    if |xs| > 1 {
      var ys := xs + [x];
      assert ys[0] == xs[0] && ys[1..] == xs[1..] + [x];
      JoinSnoc(xs[1..], x, sep);
      assert Join(ys, sep) == xs[0] + sep + Join(xs[1..] + [x], sep);
    } else {
      assert xs + [x] == [xs[0], x];
    }
  }

  /** Position of the first `c` in `s`, or `|s|` if there is none. */
  function IndexOf(s: string, c: char): (i: nat)
    ensures i <= |s|
    ensures i < |s| <==> c in s
    ensures i < |s| ==> s[i] == c
    ensures c !in s[..i]
  {
    if |s| == 0 then 0
    else if s[0] == c then 0
    else
      var j := IndexOf(s[1..], c);
      assert s[..j + 1] == [s[0]] + s[1..][..j];
      1 + j
  }

  /** `s.split(c)` for a one-character separator: the maximal runs between separators,
      including empty ones. */
  function Split(s: string, c: char): (parts: seq<string>)
    decreases |s|
  {
    var i := IndexOf(s, c);
    if i == |s| then [s] else [s[..i]] + Split(s[i + 1..], c)
  }

  /** Splitting a join on its one-character separator gives back the elements, provided
      there is at least one element and none of them contains the separator. */
  lemma {:induction false} SplitJoin(xs: seq<string>, c: char)
    requires |xs| > 0
    requires forall k :: 0 <= k < |xs| ==> c !in xs[k]
    ensures Split(Join(xs, [c]), c) == xs
  {
    if |xs| == 1 {
      assert IndexOf(xs[0], c) == |xs[0]|;
    } else {
      var a, rest := xs[0], Join(xs[1..], [c]);
      var s := a + [c] + rest;
      assert Join(xs, [c]) == s;
      assert s[|a|] == c && s[..|a|] == a;
      assert IndexOf(s, c) == |a|;
      var i := |a|;
      assert s[..i] == a;
      assert s[i + 1..] == rest;
      SplitJoin(xs[1..], c);
    }
  }
}
