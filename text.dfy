/** The JavaScript string and array operations the route handlers rely on:
    `substring(0, n)`, `split` on one character, `join`, `splice` inserting one
    element, and the decimal rendering of a number inside a template literal. */
module Text {

  /** `s.substring(0, n)`: the first `n` characters, or all of `s` when it is shorter. */
  function Take(s: string, n: nat): (r: string)
    ensures r <= s
    ensures |r| == if |s| < n then |s| else n
  {
    if |s| < n then s else s[..n]
  }

  /** `parts.join(sep)`; the empty list joins to the empty string. */
  function Join(parts: seq<string>, sep: string): (r: string)
  {
    if parts == [] then ""
    else if |parts| == 1 then parts[0]
    else parts[0] + sep + Join(parts[1..], sep)
  }

  /** `s.split(c)` for a one-character separator: the pieces between
      separators, empty pieces included, so at least one piece. */
  function Split(s: string, c: char): (parts: seq<string>)
    ensures |parts| >= 1
  {
    if s == [] then [""]
    else
      var rest := Split(s[1..], c);
      if s[0] == c then [""] + rest
      else [[s[0]] + rest[0]] + rest[1..]
  }

  /** No piece produced by `Split` contains the separator. */
  lemma {:induction false} SplitPiecesAreFree(s: string, c: char)
    ensures forall i :: 0 <= i < |Split(s, c)| ==> c !in Split(s, c)[i]
  {
    if s != [] {
      SplitPiecesAreFree(s[1..], c);
    }
  }

  /** Joining the pieces again with the separator gives back the string. */
  lemma {:induction false} JoinSplit(s: string, c: char)
    ensures Join(Split(s, c), [c]) == s
  {
    if s != [] {
      var rest := Split(s[1..], c);
      JoinSplit(s[1..], c);
      if s[0] == c {
        assert ([""] + rest)[1..] == rest;
      } else {
        var parts := [[s[0]] + rest[0]] + rest[1..];
        if |rest| == 1 {
          assert parts == [[s[0]] + rest[0]];
        } else {
          assert parts[1..] == rest[1..];
          assert Join(rest, [c]) == rest[0] + [c] + Join(rest[1..], [c]);
        }
      }
    }
  }

  /** A piece free of the separator splits to itself. */
  lemma {:induction false} SplitFree(w: string, c: char)
    requires c !in w
    ensures Split(w, c) == [w]
  {
    if w != [] {
      SplitFree(w[1..], c);
      assert [w[0]] + w[1..] == w;
    }
  }

  /** A piece free of the separator, then the separator, then anything. */
  lemma {:induction false} SplitAfterPiece(w: string, c: char, t: string)
    requires c !in w
    ensures Split(w + [c] + t, c) == [w] + Split(t, c)
  {
    if w == [] {
      assert ([c] + t)[1..] == t;
      assert w + [c] + t == [c] + t;
    } else {
      assert (w + [c] + t)[1..] == w[1..] + [c] + t;
      SplitAfterPiece(w[1..], c, t);
      assert [w[0]] + w[1..] == w;
    }
  }

  /** Splitting a join of separator-free pieces gives back the pieces. */
  lemma {:induction false} SplitJoin(parts: seq<string>, c: char)
    requires |parts| >= 1
    requires forall i :: 0 <= i < |parts| ==> c !in parts[i]
    ensures Split(Join(parts, [c]), c) == parts
  {
    if |parts| == 1 {
      SplitFree(parts[0], c);
    } else {
      SplitJoin(parts[1..], c);
      SplitAfterPiece(parts[0], c, Join(parts[1..], [c]));
      assert [parts[0]] + parts[1..] == parts;
    }
  }

  /** The join seen from part `i`: everything before it ends with a separator,
      everything after it starts with one. */
  lemma {:induction false} JoinAt(parts: seq<string>, sep: string, i: nat)
    requires i < |parts|
    ensures Join(parts, sep) ==
      (if i == 0 then "" else Join(parts[..i], sep) + sep)
      + parts[i]
      + (if i == |parts| - 1 then "" else sep + Join(parts[i + 1..], sep))
  {
    if i > 0 {
      JoinAt(parts[1..], sep, i - 1);
      assert parts[1..][i - 1] == parts[i];
      assert parts[1..][i..] == parts[i + 1..];
      if i == 1 {
        assert parts[..1] == [parts[0]];
      } else {
        assert parts[..i][0] == parts[0];
        assert parts[..i][1..] == parts[1..][..i - 1];
      }
    }
  }

  /** JavaScript's relative start index of `splice(start, ...)` on a list of length `len`. */
  function SpliceIndex(len: nat, start: int): (k: nat)
    ensures k <= len
    ensures 0 <= start <= len ==> k == start
    ensures 0 - len <= start < 0 ==> k == len + start
    ensures start > len ==> k == len
    ensures start < 0 - len ==> k == 0
  {
    if start < 0 then (if len + start < 0 then 0 else len + start)
    else if start > len then len
    else start
  }

  /** `s` without its element at `k`. */
  function RemoveAt<T>(s: seq<T>, k: nat): (r: seq<T>)
    requires k < |s|
    ensures |r| == |s| - 1
    ensures forall j :: 0 <= j < k ==> r[j] == s[j]
    ensures forall j :: k <= j < |r| ==> r[j] == s[j + 1]
  {
    s[..k] + s[k + 1..]
  }

  /** `s.splice(start, 0, item)`: the list grows by one, `item` sits at the
      relative start index, and removing it gives back `s`. */
  function SpliceInsert<T>(s: seq<T>, start: int, item: T): (r: seq<T>)
    ensures |r| == |s| + 1
    ensures r[SpliceIndex(|s|, start)] == item
    ensures RemoveAt(r, SpliceIndex(|s|, start)) == s
  {
    var k := SpliceIndex(|s|, start);
    var r := s[..k] + [item] + s[k..];
    assert RemoveAt(r, k) == s[..k] + s[k..];
    assert s[..k] + s[k..] == s;
    r
  }

  /** A decimal digit character. */
  function Digit(d: nat): char
    requires d < 10
  {
    "0123456789"[d]
  }

  /** The decimal rendering of a number, as in `${n}`. */
  function DecimalString(n: nat): (r: string)
    ensures |r| >= 1
    decreases n
  {
    if n < 10 then [Digit(n)] else DecimalString(n / 10) + [Digit(n % 10)]
  }
}
