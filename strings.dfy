/** The few functions of Go's `strings` package that the k3d helpers rely on.
    They work over characters, not Go's bytes: positions (as returned by
    Index) count characters, and the substrings they produce agree with Go's
    on valid UTF-8 text. There is no case folding. */
module GoStrings {

  /** strings.HasPrefix */
  predicate HasPrefix(s: string, prefix: string) {
    |prefix| <= |s| && s[..|prefix|] == prefix
  }

  /** strings.TrimPrefix: removes one leading `prefix` when there is one. */
  function TrimPrefix(s: string, prefix: string): (r: string)
    ensures HasPrefix(s, prefix) ==> s == prefix + r
    ensures !HasPrefix(s, prefix) ==> r == s
  {
    if HasPrefix(s, prefix) then s[|prefix|..] else s
  }

  /** `t` occurs in `s` starting at position `i`. */
  predicate OccursAt(s: string, t: string, i: int) {
    0 <= i && i + |t| <= |s| && s[i..i + |t|] == t
  }

  lemma OccursAtTail(s: string, t: string, j: int)
    requires 1 <= j && 1 <= |s|
    ensures OccursAt(s, t, j) == OccursAt(s[1..], t, j - 1)
  {
    if j + |t| <= |s| {
      assert s[1..][j - 1..j - 1 + |t|] == s[j..j + |t|];
    }
  }

  /** strings.Index: the first position at which `t` occurs in `s`, or -1. */
  function Index(s: string, t: string): (r: int)
    ensures -1 <= r <= |s|
    ensures r >= 0 ==> OccursAt(s, t, r)
    ensures forall j :: 0 <= j && (r < 0 || j < r) ==> !OccursAt(s, t, j)
    decreases |s|
  {
    if |s| < |t| then -1
    else if s[..|t|] == t then 0
    else
      var r := Index(s[1..], t);
      assert forall j :: 1 <= j ==> OccursAt(s, t, j) == OccursAt(s[1..], t, j - 1) by {
        forall j | 1 <= j ensures OccursAt(s, t, j) == OccursAt(s[1..], t, j - 1) {
          OccursAtTail(s, t, j);
        }
      }
      if r < 0 then -1 else r + 1
  }

  /** strings.Contains */
  predicate Contains(s: string, t: string) {
    Index(s, t) >= 0
  }

  /** strings.Join */
  function Join(elems: seq<string>, sep: string): string {
    if |elems| == 0 then ""
    else if |elems| == 1 then elems[0]
    else elems[0] + sep + Join(elems[1..], sep)
  }

  /** strings.Split for a non-empty separator: the pieces of `s` between the
      successive non-overlapping occurrences of `sep`, from left to right. */
  function Split(s: string, sep: string): (parts: seq<string>)
    requires |sep| > 0
    ensures |parts| >= 1
    ensures |parts| >= 2 <==> Contains(s, sep)
    ensures Contains(s, sep) ==> parts[0] == s[..Index(s, sep)]
    decreases |s|
  {
    var i := Index(s, sep);
    if i < 0 then [s] else [s[..i]] + Split(s[i + |sep|..], sep)
  }

  /** Joining the pieces of a split with the same separator gives the
      original string back: Split loses nothing. */
  lemma {:induction false} SplitJoin(s: string, sep: string)
    requires |sep| > 0
    ensures Join(Split(s, sep), sep) == s
    decreases |s|
  {
    var i := Index(s, sep);
    if i >= 0 {
      var rest := s[i + |sep|..];
      SplitJoin(rest, sep);
      var parts := Split(s, sep);
      assert parts == [s[..i]] + Split(rest, sep);
      assert parts[1..] == Split(rest, sep);
      calc {
        Join(parts, sep);
        s[..i] + sep + Join(Split(rest, sep), sep);
        s[..i] + sep + rest;
        { assert s[i..i + |sep|] == sep; }
        s;
      }
    }
  }

  /** Joining a one-element vector yields that element. */
  lemma JoinSingleton(x: string, sep: string)
    ensures Join([x], sep) == x
  {
  }
}
