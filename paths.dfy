/**
 * Python's `str.split(".")`, its inverse `".".join(...)` and the `"." in s`
 * test, which the attribute and import builders rely on.
 */
module Paths {

  const Sep: char := '.'

  /** `s.split(".")`: the maximal dot-free pieces of `s`, empty ones included. */
  function Split(s: string): (parts: seq<string>)
    ensures |parts| >= 1
  {
    if s == [] then [""]
    else
      var rest := Split(s[1..]);
      if s[0] == Sep then [""] + rest
      else [[s[0]] + rest[0]] + rest[1..]
  }

  /** `".".join(parts)`. */
  function Join(parts: seq<string>): string {
    if parts == [] then ""
    else if |parts| == 1 then parts[0]
    else parts[0] + [Sep] + Join(parts[1..])
  }

  predicate DotFree(parts: seq<string>) {
    forall i :: 0 <= i < |parts| ==> Sep !in parts[i]
  }

  /** No piece of a split contains the separator. */
  lemma {:induction false} SplitDotFree(s: string)
    ensures DotFree(Split(s))
  {
    if s != [] {
      SplitDotFree(s[1..]);
      var rest := Split(s[1..]);
      if s[0] != Sep {
        assert forall c :: c in [s[0]] + rest[0] ==> c == s[0] || c in rest[0];
      }
    }
  }

  /** Joining the pieces of a split gives back the string. */
  lemma {:induction false} JoinSplit(s: string)
    ensures Join(Split(s)) == s
  {
    if s != [] {
      JoinSplit(s[1..]);
      var rest := Split(s[1..]);
      if s[0] == Sep {
        assert s == [Sep] + s[1..];
      } else {
        var head := [s[0]] + rest[0];
        if |rest| == 1 {
          assert s == [s[0]] + s[1..];
        } else {
          assert rest == [rest[0]] + rest[1..];
          assert Join(rest) == rest[0] + [Sep] + Join(rest[1..]);
          assert Join([head] + rest[1..]) == head + [Sep] + Join(rest[1..]);
          assert s == [s[0]] + s[1..];
        }
      }
    }
  }

  /** A path splits into two or more pieces exactly when it contains a dot. */
  lemma {:induction false} SplitCount(s: string)
    ensures |Split(s)| >= 2 <==> Sep in s
  {
    if s != [] {
      SplitCount(s[1..]);
      assert s == [s[0]] + s[1..];
    }
  }

  /** Splitting a join of dot-free pieces gives back the pieces. */
  lemma {:induction false} SplitJoin(parts: seq<string>)
    requires |parts| >= 1 && DotFree(parts)
    ensures Split(Join(parts)) == parts
  {
    if |parts| == 1 {
      SplitPiece(parts[0]);
    } else {
      SplitJoin(parts[1..]);
      SplitPrefix(parts[0], Join(parts[1..]));
    }
  }

  /** A dot-free string splits into itself alone. */
  lemma {:induction false} SplitPiece(p: string)
    requires Sep !in p
    ensures Split(p) == [p]
  {
    if p != [] {
      SplitPiece(p[1..]);
      assert p == [p[0]] + p[1..];
    }
  }

  /** Splitting `p + "." + s`, for dot-free `p`, puts `p` in front of the pieces of `s`. */
  lemma {:induction false} SplitPrefix(p: string, s: string)
    requires Sep !in p
    ensures Split(p + [Sep] + s) == [p] + Split(s)
  {
    if p == [] {
      assert p + [Sep] + s == [Sep] + s;
      assert ([Sep] + s)[1..] == s;
    } else {
      SplitPrefix(p[1..], s);
      assert (p + [Sep] + s)[1..] == p[1..] + [Sep] + s;
      assert p == [p[0]] + p[1..];
    }
  }
}
