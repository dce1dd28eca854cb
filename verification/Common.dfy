/** Small shared vocabulary: optional values and the sequence facts the other modules use. */
module Common {

  datatype Option<+T> = None | Some(value: T)

  /** `s` unless it is empty. */
  function Or(s: string, fallback: string): string {
    if s != "" then s else fallback
  }

  /** `s` without the element at position `i`. */
  function RemoveAt<T>(s: seq<T>, i: nat): seq<T>
    requires i < |s|
  {
    s[..i] + s[i + 1..]
  }

  lemma RemoveAtMultiset<T>(s: seq<T>, i: nat)
    requires i < |s|
    ensures multiset(s) == multiset(RemoveAt(s, i)) + multiset{s[i]}
  {
    assert s == s[..i] + [s[i]] + s[i + 1..];
  }

  lemma DropMultiset<T>(s: seq<T>, m: nat)
    requires m < |s|
    ensures multiset(s[m..]) - multiset{s[m]} == multiset(s[m + 1..])
  {
    assert s[m..] == [s[m]] + s[m + 1..];
  }

  /** `f` applied `n` times, first application first. */
  function Iterate<S>(f: S -> S, s: S, n: nat): S
    decreases n
  {
    if n == 0 then s else Iterate(f, f(s), n - 1)
  }

  lemma {:induction false} IterateAppend<S>(f: S -> S, s: S, a: nat, b: nat)
    ensures Iterate(f, s, a + b) == Iterate(f, Iterate(f, s, a), b)
    decreases a
  {
    if a > 0 { IterateAppend(f, f(s), a - 1, b); }
  }

  lemma IterateOnce<S>(f: S -> S, s: S)
    ensures Iterate(f, s, 1) == f(s)
  {
    assert Iterate(f, f(s), 0) == f(s);
  }

  ghost predicate Distinct<T(!new)>(s: seq<T>) {
    forall i, j :: 0 <= i < j < |s| ==> s[i] != s[j]
  }

  /** First occurrences of `s`, in order. */
  function Dedup<T(==,!new)>(s: seq<T>): (r: seq<T>)
    ensures forall x :: x in r <==> x in s
    ensures forall i, j :: 0 <= i < j < |r| ==> r[i] != r[j]
  {
    if s == [] then []
    else
      var front := Dedup(s[..|s| - 1]);
      var x := s[|s| - 1];
      assert s == s[..|s| - 1] + [x];
      if x in front then front else front + [x]
  }

  lemma DedupAppend<T(!new)>(s: seq<T>, x: T)
    ensures Dedup(s + [x]) == if x in s then Dedup(s) else Dedup(s) + [x]
  {
    assert (s + [x])[..|s|] == s;
  }

  lemma {:induction false} DedupDistinct<T(!new)>(s: seq<T>)
    requires Distinct(s)
    ensures Dedup(s) == s
  {
    if s != [] {
      DedupDistinct(s[..|s| - 1]);
      assert s == s[..|s| - 1] + [s[|s| - 1]];
    }
  }
}
