/** Collections of documents. A document's id is its position in its collection:
    the collections of the core only ever grow, so positions are stable. */
module Tables {

  type Id = nat

  predicate Increasing(s: seq<Id>)
  {
    forall i, j :: 0 <= i < j < |s| ==> s[i] < s[j]
  }

  predicate Distinct(s: seq<Id>)
  {
    forall i, j :: 0 <= i < j < |s| ==> s[i] != s[j]
  }

  /** The ids below `n` whose document matches `p`: a `find(filter)` over a
      collection of `n` documents, in id order (the model's choice; `find(filter)`
      itself promises no order). */
  function Select(n: nat, p: Id -> bool): (r: seq<Id>)
    ensures forall i: Id :: i in r <==> i < n && p(i)
    ensures Increasing(r)
  {
    if n == 0 then []
    else
      var prefix := Select(n - 1, p);
      assert forall k :: 0 <= k < |prefix| ==> prefix[k] in prefix;
      prefix + (if p(n - 1) then [n - 1] else [])
  }

  lemma IncreasingIsDistinct(s: seq<Id>)
    requires Increasing(s)
    ensures Distinct(s)
  {
  }
}
