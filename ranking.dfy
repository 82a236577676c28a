// CodeOverview.ShowScripts sorts an offender list in place with
// List<Script>.Sort(), which orders by Script.CompareTo. The library's own
// algorithm and its (unstable) tie order are not modelled: a selection sort
// stands in for it, proved to give what Sort() promises, an ascending
// permutation.
module Ranking {
  import opened ScriptScan

  /** Script.CompareTo on two scripts: Int32.CompareTo of the line counts. */
  function CompareTo(a: Script, b: Script): (r: int)
    ensures r == -1 || r == 0 || r == 1
    ensures r < 0 <==> a.lineCount < b.lineCount
    ensures r == 0 <==> a.lineCount == b.lineCount
  {
    if a.lineCount < b.lineCount then -1
    else if a.lineCount > b.lineCount then 1
    else 0
  }

  /** CompareTo is a total preorder, as Sort() requires of it: reversing the
    * arguments flips the sign, and "not greater" chains. */
  lemma CompareToPreorder(a: Script, b: Script, c: Script)
    ensures CompareTo(a, b) == -CompareTo(b, a)
    ensures CompareTo(a, a) == 0
    ensures CompareTo(a, b) <= 0 && CompareTo(b, c) <= 0 ==> CompareTo(a, c) <= 0
  {
  }

  predicate SortedByLineCount(s: seq<Script>) {
    forall i, j :: 0 <= i < j < |s| ==> s[i].lineCount <= s[j].lineCount
  }

  /** Index of a script of least line count in a[from..]. */
  method SelectMin(a: array<Script>, from: nat) returns (m: nat)
    requires from < a.Length
    ensures from <= m < a.Length
    ensures forall k :: from <= k < a.Length ==> a[m].lineCount <= a[k].lineCount
  {
    m := from;
    var k := from + 1;
    while k < a.Length
      invariant from <= m < k <= a.Length
      invariant forall j :: from <= j < k ==> a[m].lineCount <= a[j].lineCount
    {
      if CompareTo(a[k], a[m]) < 0 {
        m := k;
      }
      k := k + 1;
    }
  }

  /** Exchanges two entries of the array, leaving the others in place. */
  method Swap(a: array<Script>, i: nat, j: nat)
    requires i < a.Length && j < a.Length
    modifies a
    ensures a[i] == old(a[j]) && a[j] == old(a[i])
    ensures forall k :: 0 <= k < a.Length && k != i && k != j ==> a[k] == old(a[k])
    ensures multiset(a[..]) == multiset(old(a[..]))
  {
    a[i], a[j] := a[j], a[i];
  }

  /** listToShow.Sort(): ascending by line count, a permutation of the list. */
  method SortByLineCount(a: array<Script>)
    modifies a
    ensures SortedByLineCount(a[..])
    ensures multiset(a[..]) == multiset(old(a[..]))
  {
    var i := 0;
    while i < a.Length
      invariant 0 <= i <= a.Length
      invariant forall p, q :: 0 <= p < q < i ==> a[p].lineCount <= a[q].lineCount
      invariant forall p, q :: 0 <= p < i <= q < a.Length ==> a[p].lineCount <= a[q].lineCount
      invariant multiset(a[..]) == multiset(old(a[..]))
    {
      var m := SelectMin(a, i);
      Swap(a, i, m);
      i := i + 1;
    }
  }
}
