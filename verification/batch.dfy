/** Accounting over an ordered batch of per-item outcomes, shared by the add
    loop, the delete loop and the browser's zone loop. Every function speaks
    of the first `n` items, the part of the batch a loop has attempted. */
module Batch {
  import opened Basics

  /** How many of the first `n` items completed. */
  function Succeeded(outs: seq<Outcome>, n: nat): (k: nat)
    requires n <= |outs|
    ensures k <= n
  {
    if n == 0 then 0 else Succeeded(outs, n - 1) + (if outs[n - 1].Done? then 1 else 0)
  }

  /** The positions, in increasing order, of the failed items among the first `n`. */
  function FailedIndices(outs: seq<Outcome>, n: nat): (f: seq<nat>)
    requires n <= |outs|
    ensures forall k :: 0 <= k < |f| ==> f[k] < n && outs[f[k]].Failed?
    ensures forall i :: 0 <= i < n && outs[i].Failed? ==> i in f
    ensures forall k, l :: 0 <= k < l < |f| ==> f[k] < f[l]
  {
    if n == 0 then []
    else FailedIndices(outs, n - 1) + (if outs[n - 1].Failed? then [n - 1] else [])
  }

  /** The error line the Worker records for a failed item. */
  function Report(subject: string, message: string): string {
    "Rule " + subject + ": " + message
  }

  /** The error lines recorded for the first `n` items: one per failed item,
      in order, labelled with that item's subject. */
  function Reports(subjects: seq<string>, outs: seq<Outcome>, n: nat): seq<string>
    requires n <= |outs| == |subjects|
  {
    if n == 0 then []
    else
      Reports(subjects, outs, n - 1)
      + (if outs[n - 1].Failed? then [Report(subjects[n - 1], outs[n - 1].message)] else [])
  }

  /** Every attempted item is counted exactly once: as a success or as a failure. */
  lemma {:induction false} Accounting(outs: seq<Outcome>, n: nat)
    requires n <= |outs|
    ensures Succeeded(outs, n) + |FailedIndices(outs, n)| == n
  {
    if n > 0 {
      Accounting(outs, n - 1);
    }
  }

  /** The recorded errors are exactly the failed items, in input order: the
      k-th error line belongs to the k-th failed position. */
  lemma {:induction false} ReportsListFailures(subjects: seq<string>, outs: seq<Outcome>, n: nat)
    requires n <= |outs| == |subjects|
    ensures |Reports(subjects, outs, n)| == |FailedIndices(outs, n)|
    ensures forall k :: 0 <= k < |FailedIndices(outs, n)| ==>
      Reports(subjects, outs, n)[k]
        == Report(subjects[FailedIndices(outs, n)[k]], outs[FailedIndices(outs, n)[k]].message)
  {
    if n > 0 {
      ReportsListFailures(subjects, outs, n - 1);
    }
  }

  /** All attempted items completed exactly when the count reaches `n`. */
  lemma {:induction false} AllSucceeded(outs: seq<Outcome>, n: nat)
    requires n <= |outs|
    ensures Succeeded(outs, n) == n <==> forall i :: 0 <= i < n ==> outs[i].Done?
  {
    if n > 0 {
      AllSucceeded(outs, n - 1);
    }
  }

  /** No attempted item completed exactly when the count is zero. */
  lemma {:induction false} NoneSucceeded(outs: seq<Outcome>, n: nat)
    requires n <= |outs|
    ensures Succeeded(outs, n) == 0 <==> forall i :: 0 <= i < n ==> outs[i].Failed?
  {
    if n > 0 {
      NoneSucceeded(outs, n - 1);
    }
  }
}
