/**
 * Splitting a sequence of outcomes into its successes and its failures, each
 * kept in input order: the shape of a loop that appends what worked to one
 * list and reports what failed on the side.
 */
module Partition {

  import opened Wrappers

  function Successes<T, E>(rs: seq<Result<T, E>>): seq<T>
  {
    if rs == [] then []
    else Successes(rs[..|rs| - 1]) + match rs[|rs| - 1] case Ok(v) => [v] case Err(_) => []
  }

  function Failures<T, E>(rs: seq<Result<T, E>>): seq<E>
  {
    if rs == [] then []
    else Failures(rs[..|rs| - 1]) + match rs[|rs| - 1] case Ok(_) => [] case Err(e) => [e]
  }

  /** Both lists of a concatenation are the lists of the parts, one after the other. */
  lemma {:induction false} PartitionAppend<T, E>(rs: seq<Result<T, E>>, qs: seq<Result<T, E>>)
    ensures Successes(rs + qs) == Successes(rs) + Successes(qs)
    ensures Failures(rs + qs) == Failures(rs) + Failures(qs)
    decreases |qs|
  {
    if qs == [] {
      assert rs + qs == rs;
    } else {
      var init := qs[..|qs| - 1];
      assert (rs + qs)[..|rs + qs| - 1] == rs + init;
      PartitionAppend(rs, init);
    }
  }

  /** Every outcome lands in exactly one of the two lists. */
  lemma {:induction false} PartitionCounts<T, E>(rs: seq<Result<T, E>>)
    ensures |Successes(rs)| + |Failures(rs)| == |rs|
  {
    if rs != [] {
      PartitionCounts(rs[..|rs| - 1]);
    }
  }

  /** The positions of the successes, in increasing order. */
  function OkPositions<T, E>(rs: seq<Result<T, E>>): (ix: seq<nat>)
    ensures forall j :: 0 <= j < |ix| ==> ix[j] < |rs| && rs[ix[j]].Ok?
    ensures forall j, k :: 0 <= j < k < |ix| ==> ix[j] < ix[k]
    ensures forall i :: 0 <= i < |rs| && rs[i].Ok? ==> i in ix
  {
    if rs == [] then []
    else
      var n := |rs| - 1;
      OkPositions(rs[..n]) + if rs[n].Ok? then [n] else []
  }

  /** The positions of the failures, in increasing order. */
  function ErrPositions<T, E>(rs: seq<Result<T, E>>): (ix: seq<nat>)
    ensures forall j :: 0 <= j < |ix| ==> ix[j] < |rs| && rs[ix[j]].Err?
    ensures forall j, k :: 0 <= j < k < |ix| ==> ix[j] < ix[k]
    ensures forall i :: 0 <= i < |rs| && rs[i].Err? ==> i in ix
  {
    if rs == [] then []
    else
      var n := |rs| - 1;
      ErrPositions(rs[..n]) + if rs[n].Err? then [n] else []
  }

  /** The j-th success is the value of the j-th successful outcome. */
  lemma {:induction false} SuccessesAt<T, E>(rs: seq<Result<T, E>>)
    ensures |Successes(rs)| == |OkPositions(rs)|
    ensures forall j :: 0 <= j < |Successes(rs)| ==> Successes(rs)[j] == rs[OkPositions(rs)[j]].value
  {
    if rs != [] {
      var n := |rs| - 1;
      SuccessesAt(rs[..n]);
    }
  }

  /** The j-th failure is the error of the j-th failed outcome. */
  lemma {:induction false} FailuresAt<T, E>(rs: seq<Result<T, E>>)
    ensures |Failures(rs)| == |ErrPositions(rs)|
    ensures forall j :: 0 <= j < |Failures(rs)| ==> Failures(rs)[j] == rs[ErrPositions(rs)[j]].error
  {
    if rs != [] {
      var n := |rs| - 1;
      FailuresAt(rs[..n]);
    }
  }

  /** With no failures, the successes are all the values, in order. */
  lemma {:induction false} AllOk<T, E>(rs: seq<Result<T, E>>)
    requires forall i :: 0 <= i < |rs| ==> rs[i].Ok?
    ensures Failures(rs) == []
    ensures |Successes(rs)| == |rs| && forall i :: 0 <= i < |rs| ==> Successes(rs)[i] == rs[i].value
  {
    if rs != [] {
      var n := |rs| - 1;
      AllOk(rs[..n]);
    }
  }
}
