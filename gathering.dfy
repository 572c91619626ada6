/**
 * `asyncio.gather` over one group of language-model requests, as the
 * pipeline uses it: the replies are collected in request order, and when
 * any request raised, gather raises instead of returning the list.
 */
module Gathering {
  import opened Wrappers
  import opened Types

  /**
   * The raw texts of `replies`, or the error of the first reply (in request
   * order) that is an exception.
   */
  function Gather(replies: seq<AgentResult>): Result<seq<string>, string>
  {
    if |replies| == 0 then Ok([])
    else
      var n := |replies| - 1;
      match Gather(replies[..n])
      case Err(e) => Err(e)
      case Ok(raws) =>
        match replies[n]
        case Output(t) => Ok(raws + [t])
        case Raised(e) => Err(e)
  }

  /**
   * Gathering succeeds exactly when every reply is an output, and then the
   * k-th text is the k-th reply's. Otherwise the error is that of an
   * exception all of whose predecessors are outputs.
   */
  lemma {:induction false} GatherAligned(replies: seq<AgentResult>)
    ensures var r := Gather(replies);
      && (r.Ok? <==> forall k :: 0 <= k < |replies| ==> replies[k].Output?)
      && (r.Ok? ==> |r.value| == |replies|)
      && (r.Ok? ==> forall k :: 0 <= k < |replies| ==> replies[k] == Output(r.value[k]))
      && (r.Err? ==> exists k ::
            && 0 <= k < |replies|
            && replies[k] == Raised(r.error)
            && forall j :: 0 <= j < k ==> replies[j].Output?)
  {
    if |replies| > 0 {
      var n := |replies| - 1;
      var pre := replies[..n];
      GatherAligned(pre);
      assert forall k :: 0 <= k < n ==> pre[k] == replies[k];
    }
  }

  /** Gathering one more reply extends the texts, or keeps the first error. */
  lemma GatherAppend(replies: seq<AgentResult>, reply: AgentResult)
    ensures Gather(replies + [reply]) ==
      match Gather(replies)
      case Err(e) => Err(e)
      case Ok(raws) => (match reply case Output(t) => Ok(raws + [t]) case Raised(e) => Err(e))
  {
    assert (replies + [reply])[..|replies|] == replies;
  }
}
