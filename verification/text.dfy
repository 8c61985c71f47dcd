/**
 The list and string operations the bootstrap uses to build its re-run hint:
 Python's `list.insert`, `str.join` with a one-character separator, and
 `str.split` with an explicit separator, which is the inverse of the join.
 */
module Text {

  /** Python's `xs.insert(i, x)` for a non-negative index: an index past the
      end appends. */
  function Insert<T>(xs: seq<T>, i: nat, x: T): (r: seq<T>)
    ensures |r| == |xs| + 1
    ensures var k := if i <= |xs| then i else |xs|;
            r[k] == x && r[..k] == xs[..k] && r[k + 1..] == xs[k..]
    ensures forall j :: 0 <= j < |r| ==> r[j] == x || r[j] in xs
  {
    var k := if i <= |xs| then i else |xs|;
    xs[..k] + [x] + xs[k..]
  }

  /** Inserting adds exactly one occurrence of the element and keeps every
      other element. */
  lemma InsertIsPermutation<T>(xs: seq<T>, i: nat, x: T)
    ensures multiset(Insert(xs, i, x)) == multiset(xs) + multiset{x}
  {
    var k := if i <= |xs| then i else |xs|;
    assert xs == xs[..k] + xs[k..];
  }

  /** Inserting at index 1 puts the element right after the head. */
  lemma InsertAfterHead<T>(head: T, rest: seq<T>, x: T)
    ensures Insert([head] + rest, 1, x) == [head, x] + rest
  {
    var xs := [head] + rest;
    assert xs[..1] == [head] && xs[1..] == rest;
  }

  /** Python's `sep.join(parts)`. */
  function Join(parts: seq<string>, sep: char): string
  {
    if |parts| == 0 then ""
    else if |parts| == 1 then parts[0]
    else parts[0] + [sep] + Join(parts[1..], sep)
  }

  /** A join of two or more pieces is the first piece, the separator and
      the join of the rest. */
  lemma JoinCons(head: string, rest: seq<string>, sep: char)
    requires |rest| > 0
    ensures Join([head] + rest, sep) == head + [sep] + Join(rest, sep)
  {
    assert ([head] + rest)[1..] == rest;
  }

  /** A join of two leading pieces and a non-empty rest. */
  lemma JoinTwoHeads(a: string, b: string, rest: seq<string>, sep: char)
    requires |rest| > 0
    ensures Join([a, b] + rest, sep) == a + [sep] + (b + [sep] + Join(rest, sep))
  {
    var tail := [b] + rest;
    assert [a, b] + rest == [a] + tail;
    JoinCons(b, rest, sep);
    JoinCons(a, tail, sep);
  }

  /** Python's `s.split(sep)` with an explicit separator: every occurrence
      splits, empty pieces are kept, and the empty string gives `[""]`. */
  function Split(s: string, sep: char): (parts: seq<string>)
    ensures |parts| >= 1
    ensures forall i :: 0 <= i < |parts| ==> sep !in parts[i]
    decreases |s|
  {
    if |s| == 0 then [""]
    else
      var rest := Split(s[1..], sep);
      if s[0] == sep then [""] + rest
      else [[s[0]] + rest[0]] + rest[1..]
  }

  /** A piece without the separator does not split. */
  lemma {:induction false} SplitWithoutSeparator(a: string, sep: char)
    requires sep !in a
    ensures Split(a, sep) == [a]
  {
    if |a| > 0 {
      SplitWithoutSeparator(a[1..], sep);
      assert [a[0]] + a[1..] == a;
    }
  }

  /** Splitting at the first separator peels off the piece before it. */
  lemma {:induction false} SplitAfterPiece(a: string, rest: string, sep: char)
    requires sep !in a
    ensures Split(a + [sep] + rest, sep) == [a] + Split(rest, sep)
  {
    var s := a + [sep] + rest;
    if |a| == 0 {
      assert s == [sep] + rest;
      assert s[1..] == rest;
    } else {
      assert s[0] == a[0];
      assert s[1..] == a[1..] + [sep] + rest;
      SplitAfterPiece(a[1..], rest, sep);
      assert [a[0]] + a[1..] == a;
    }
  }

  /** Joining pieces that do not contain the separator can be undone by
      splitting: the joined string determines the pieces. */
  lemma {:induction false} SplitJoin(parts: seq<string>, sep: char)
    requires |parts| > 0
    requires forall i :: 0 <= i < |parts| ==> sep !in parts[i]
    ensures Split(Join(parts, sep), sep) == parts
  {
    if |parts| == 1 {
      SplitWithoutSeparator(parts[0], sep);
    } else {
      assert sep !in parts[0];
      SplitJoin(parts[1..], sep);
      SplitAfterPiece(parts[0], Join(parts[1..], sep), sep);
      assert [parts[0]] + parts[1..] == parts;
    }
  }

  /** Splitting and joining again gives back any string. */
  lemma {:induction false} JoinSplit(s: string, sep: char)
    ensures Join(Split(s, sep), sep) == s
  {
    if |s| > 0 {
      var rest := Split(s[1..], sep);
      JoinSplit(s[1..], sep);
      assert s == [s[0]] + s[1..];
      if s[0] == sep {
        assert ([""] + rest)[1..] == rest;
        assert Join([""] + rest, sep) == "" + [sep] + Join(rest, sep);
      } else {
        var head := [s[0]] + rest[0];
        if |rest| > 1 {
          assert ([head] + rest[1..])[1..] == rest[1..];
          assert Join(rest, sep) == rest[0] + [sep] + Join(rest[1..], sep);
          assert Join([head] + rest[1..], sep) == head + [sep] + Join(rest[1..], sep);
        }
      }
    }
  }
}
