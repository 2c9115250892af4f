/**
 * The snapshot merge of the script-style servers: every remote name that is not
 * yet in the local list is appended, in the remote list's order.
 */
module ListMerge {
  import opened Base

  /** `local` after the merge loop has visited all of `remote`. */
  function MergeUnion<T(==)>(local: seq<T>, remote: seq<T>): seq<T>
    decreases |remote|
  {
    if remote == [] then local
    else
      var merged := MergeUnion(local, remote[..|remote| - 1]);
      var x := remote[|remote| - 1];
      if x in merged then merged else merged + [x]
  }

  /** One more loop step: visiting `x` after `remote`. */
  lemma MergeStep<T>(local: seq<T>, remote: seq<T>, x: T)
    ensures MergeUnion(local, remote + [x])
         == if x in MergeUnion(local, remote) then MergeUnion(local, remote) else MergeUnion(local, remote) + [x]
  {
    assert (remote + [x])[..|remote + [x]| - 1] == remote;
  }

  /** The local list is kept, in order, as a prefix of the result. */
  lemma {:induction false} MergeKeepsLocalPrefix<T>(local: seq<T>, remote: seq<T>)
    ensures |local| <= |MergeUnion(local, remote)|
    ensures MergeUnion(local, remote)[..|local|] == local
    decreases |remote|
  {
    if remote != [] {
      MergeKeepsLocalPrefix(local, remote[..|remote| - 1]);
    }
  }

  /** The result holds exactly the elements of both lists. */
  lemma {:induction false} MergeHoldsBoth<T>(local: seq<T>, remote: seq<T>)
    ensures forall x :: x in MergeUnion(local, remote) <==> x in local || x in remote
    decreases |remote|
  {
    if remote != [] {
      var front := remote[..|remote| - 1];
      MergeHoldsBoth(local, front);
      assert remote == front + [remote[|remote| - 1]];
    }
  }

  /** Merging names that are all present already changes nothing. */
  lemma {:induction false} MergePresentIsIdentity<T>(local: seq<T>, remote: seq<T>)
    requires forall x :: x in remote ==> x in local
    ensures MergeUnion(local, remote) == local
    decreases |remote|
  {
    if remote != [] {
      var front := remote[..|remote| - 1];
      assert forall x :: x in front ==> x in remote;
      MergePresentIsIdentity(local, front);
    }
  }

  /** Receiving the same snapshot twice is the same as receiving it once. */
  lemma MergeIdempotent<T>(local: seq<T>, remote: seq<T>)
    ensures MergeUnion(MergeUnion(local, remote), remote) == MergeUnion(local, remote)
  {
    MergeHoldsBoth(local, remote);
    MergePresentIsIdentity(MergeUnion(local, remote), remote);
  }

  /** A duplicate-free list stays duplicate-free. */
  lemma {:induction false} MergeKeepsDistinct<T>(local: seq<T>, remote: seq<T>)
    requires Distinct(local)
    ensures Distinct(MergeUnion(local, remote))
    decreases |remote|
  {
    if remote != [] {
      MergeKeepsDistinct(local, remote[..|remote| - 1]);
    }
  }

  /** The string entries of a list whose entries may be of any type (`None` stands for a non-string). */
  function Strings(items: seq<Option<string>>): (r: seq<string>)
    ensures forall x :: x in r <==> Some(x) in items
    decreases |items|
  {
    if items == [] then []
    else
      var front := items[..|items| - 1];
      var last := items[|items| - 1];
      assert items == front + [last];
      Strings(front) + (if last.Some? then [last.value] else [])
  }

  lemma StringsStep(items: seq<Option<string>>, x: Option<string>)
    ensures Strings(items + [x]) == Strings(items) + (if x.Some? then [x.value] else [])
  {
    assert (items + [x])[..|items + [x]| - 1] == items;
  }

  /** The merge loop itself: walk `remote`, appending each name `local` lacks. */
  method MergeLists<T(==)>(local: seq<T>, remote: seq<T>) returns (merged: seq<T>)
    ensures merged == MergeUnion(local, remote)
    ensures forall x :: x in merged <==> x in local || x in remote
    ensures Distinct(local) ==> Distinct(merged)
  {
    merged := local;
    for i := 0 to |remote|
      invariant merged == MergeUnion(local, remote[..i])
    {
      MergeStep(local, remote[..i], remote[i]);
      assert remote[..i + 1] == remote[..i] + [remote[i]];
      if remote[i] !in merged {
        merged := merged + [remote[i]];
      }
    }
    assert remote[..|remote|] == remote;
    MergeHoldsBoth(local, remote);
    if Distinct(local) {
      MergeKeepsDistinct(local, remote);
    }
  }
}
