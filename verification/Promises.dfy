/**
 * `Promise.all` over promises that have already settled, each to a value or an error.
 */
module Promises {
  import opened Wrappers
  import opened Manifest

  /**
   * `Promise.all` over settled promises: resolves with every value, in order, when all
   * resolve; otherwise rejects with the error of one that rejected. Which one is a matter of
   * timing in the source; this definition takes the first in order.
   */
  function PromiseAll<T>(promises: seq<Result<T, Error>>): (r: Result<seq<T>, Error>)
    ensures r.Success? <==> forall j :: 0 <= j < |promises| ==> promises[j].Success?
    ensures r.Success? ==> |r.value| == |promises| && forall j :: 0 <= j < |promises| ==> r.value[j] == promises[j].value
    ensures r.Failure? ==> exists j :: 0 <= j < |promises| && promises[j] == Failure(r.error)
  {
    if promises == [] then Success([])
    else
      var prev := PromiseAll(promises[..|promises| - 1]);
      var last := promises[|promises| - 1];
      if prev.Failure? then Failure(prev.error)
      else if last.Failure? then Failure(last.error)
      else Success(prev.value + [last.value])
  }
}
