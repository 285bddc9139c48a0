/** Searching a sequence, and order-preserving, duplicate-free embedding of one sequence in another. */
module Sequences {

  /** The position of the first element with the property, or the length when there is none. */
  function First<T>(s: seq<T>, p: T -> bool): (i: nat)
    ensures i <= |s|
    ensures i < |s| ==> p(s[i])
    ensures forall j :: 0 <= j < i ==> !p(s[j])
  {
    if s == [] || p(s[0]) then 0 else 1 + First(s[1..], p)
  }

  lemma Regroup<T>(a: seq<T>, b: seq<T>, c: seq<T>)
    ensures a + b + c == a + (b + c)
  {
  }

  /** `at` lists, in increasing order, one position of `t` for every element of `s`. */
  ghost predicate EmbedsAt<T>(s: seq<T>, t: seq<T>, at: seq<nat>) {
    && |at| == |s|
    && (forall i :: 0 <= i < |at| ==> at[i] < |t| && s[i] == t[at[i]])
    && (forall i, j :: 0 <= i < j < |at| ==> at[i] < at[j])
  }

  /** `s` is `t` with some elements left out: no element is reordered or used twice. */
  ghost predicate Subsequence<T>(s: seq<T>, t: seq<T>) {
    exists at: seq<nat> :: EmbedsAt(s, t, at)
  }

  lemma SubsequenceOfGrown<T>(s: seq<T>, t: seq<T>, more: seq<T>)
    requires Subsequence(s, t)
    ensures Subsequence(s, t + more)
  {
    var at: seq<nat> :| EmbedsAt(s, t, at);
    assert EmbedsAt(s, t + more, at);
  }

  lemma SubsequenceAppend<T>(s: seq<T>, t: seq<T>, x: T)
    requires Subsequence(s, t)
    ensures Subsequence(s + [x], t + [x])
  {
    var at: seq<nat> :| EmbedsAt(s, t, at);
    assert EmbedsAt(s + [x], t + [x], at + [|t|]);
  }

  lemma SubsequenceWithout<T>(s: seq<T>, t: seq<T>, i: nat)
    requires Subsequence(s, t) && i < |s|
    ensures Subsequence(s[..i] + s[i + 1..], t)
  {
    var at: seq<nat> :| EmbedsAt(s, t, at);
    assert EmbedsAt(s[..i] + s[i + 1..], t, at[..i] + at[i + 1..]);
  }

  lemma SubsequencePrepend<T>(skipped: seq<T>, x: T, s: seq<T>, t: seq<T>)
    requires Subsequence(s, t)
    ensures Subsequence([x] + s, skipped + [x] + t)
  {
    var at: seq<nat> :| EmbedsAt(s, t, at);
    var n := |skipped|;
    var moved: seq<nat> := seq(|at|, i requires 0 <= i < |at| => n + 1 + at[i]);
    assert EmbedsAt([x] + s, skipped + [x] + t, [n] + moved);
  }

  lemma SubsequenceAfter<T>(x: T, s: seq<T>, t: seq<T>)
    requires Subsequence(s, t)
    ensures Subsequence(s, [x] + t)
  {
    var at: seq<nat> :| EmbedsAt(s, t, at);
    var moved: seq<nat> := seq(|at|, i requires 0 <= i < |at| => 1 + at[i]);
    assert EmbedsAt(s, [x] + t, moved);
  }

  lemma EmptySubsequence<T>(t: seq<T>)
    ensures Subsequence([], t)
  {
    assert EmbedsAt([], t, []);
  }
}
