/**
 * `SoyTofuException`: the exception a render hands to its caller, built once at
 * the render boundary from the `RenderException` that propagated out of the
 * templates. Its cause is chosen by the root-cause policy: walk the cause chain
 * inward and stop at the first `SoyDataException`, which is never unwrapped.
 */
module Tofu {
  import opened Wrappers

  /** The only distinction the root-cause policy makes between throwables. */
  datatype ErrorKind = RenderError | SoyDataError | OtherError

  /** A throwable in a cause chain, reduced to its kind and message. */
  datatype Failure = Failure(kind: ErrorKind, message: string)

  // ---------------------------------------------------------------------------
  // The root-cause policy, on a cause chain: index 0 is the exception itself,
  // index i + 1 the cause of index i, and the last element has no cause.

  /** The index of the root cause of `chain[i]`. */
  function RootCauseFrom(chain: seq<Failure>, i: nat): (r: nat)
    requires i < |chain|
    ensures i <= r < |chain|
    ensures r < |chain| - 1 ==> chain[r].kind == SoyDataError
    decreases |chain| - i
  {
    if i == |chain| - 1 || chain[i].kind == SoyDataError then i
    else RootCauseFrom(chain, i + 1)
  }

  /** The index of the root cause of the exception at the head of the chain. */
  function RootCause(chain: seq<Failure>): nat
    requires |chain| > 0
  {
    RootCauseFrom(chain, 0)
  }

  /**
   * `k` is where the policy stops: it is in the chain, nothing before it is a
   * `SoyDataException`, and it is either one or has no cause.
   */
  ghost predicate IsRootCause(chain: seq<Failure>, k: nat) {
    && k < |chain|
    && (forall j :: 0 <= j < k ==> chain[j].kind != SoyDataError)
    && (k == |chain| - 1 || chain[k].kind == SoyDataError)
  }

  lemma {:induction false} RootCauseFromIsRootCause(chain: seq<Failure>, i: nat)
    requires i < |chain|
    requires forall j :: 0 <= j < i ==> chain[j].kind != SoyDataError
    ensures IsRootCause(chain, RootCauseFrom(chain, i))
    decreases |chain| - i
  {
    if i < |chain| - 1 && chain[i].kind != SoyDataError {
      RootCauseFromIsRootCause(chain, i + 1);
    }
  }

  /** The policy's answer is exactly the one index with the `IsRootCause` property. */
  lemma RootCauseCharacterized(chain: seq<Failure>, k: nat)
    requires |chain| > 0
    ensures IsRootCause(chain, k) <==> k == RootCause(chain)
  {
    RootCauseFromIsRootCause(chain, 0);
  }

  /** A cause-less exception is its own root cause. */
  lemma CauselessIsOwnRootCause(f: Failure)
    ensures RootCause([f]) == 0
  {
  }

  /** The first `SoyDataException` in the chain is the root cause, wherever it is. */
  lemma FirstDataErrorIsRootCause(chain: seq<Failure>, k: nat)
    requires k < |chain| && chain[k].kind == SoyDataError
    requires forall j :: 0 <= j < k ==> chain[j].kind != SoyDataError
    ensures RootCause(chain) == k
  {
    RootCauseCharacterized(chain, k);
  }

  /**
   * With no `SoyDataException` above the deepest cause, the deepest cause is the
   * root cause, whatever its own kind.
   */
  lemma NoDataErrorMeansDeepest(chain: seq<Failure>)
    requires |chain| > 0
    requires forall j :: 0 <= j < |chain| - 1 ==> chain[j].kind != SoyDataError
    ensures RootCause(chain) == |chain| - 1
  {
    RootCauseCharacterized(chain, |chain| - 1);
  }

  /**
   * Once the policy has stopped at a `SoyDataException`, whatever causes lie
   * beneath it make no difference: it is never unwrapped.
   */
  lemma DeeperCausesAreNotUnwrapped(chain: seq<Failure>, deeper: seq<Failure>)
    requires |chain| > 0 && chain[RootCause(chain)].kind == SoyDataError
    ensures RootCause(chain + deeper) == RootCause(chain)
  {
    var k := RootCause(chain);
    RootCauseCharacterized(chain, k);
    RootCauseCharacterized(chain + deeper, k);
  }

  // ---------------------------------------------------------------------------
  // The two exception objects

  /** A call of `RenderException.finalizeStackTrace`, recorded in the order made. */
  datatype FinalizeCall = FinalizeOwnTrace | FinalizeTraceOnto(target: SoyTofuException)

  /**
   * The exception that propagates out of nested template calls. Its trace
   * aggregation is not modelled; only the finalize calls made on it are recorded.
   */
  class RenderException {
    const message: string
    /** The causes beneath this exception, outermost first. */
    const causes: seq<Failure>
    var finalizeCalls: seq<FinalizeCall>

    constructor (message: string, causes: seq<Failure>)
      ensures this.message == message && this.causes == causes && finalizeCalls == []
    {
      this.message := message;
      this.causes := causes;
      finalizeCalls := [];
    }

    /** This exception followed by its causes. */
    function Chain(): (c: seq<Failure>)
      ensures |c| == |causes| + 1
      ensures c[0] == Failure(RenderError, message) && c[1..] == causes
    {
      [Failure(RenderError, message)] + causes
    }

    /** `finalizeStackTrace()`: fixes this exception's aggregated trace. */
    method FinalizeStackTrace()
      modifies this
      ensures finalizeCalls == old(finalizeCalls) + [FinalizeOwnTrace]
    {
      finalizeCalls := finalizeCalls + [FinalizeOwnTrace];
    }

    /** `finalizeStackTrace(t)`: copies this exception's aggregated trace onto `t`. */
    method FinalizeStackTraceOnto(target: SoyTofuException)
      modifies this
      ensures finalizeCalls == old(finalizeCalls) + [FinalizeTraceOnto(target)]
    {
      finalizeCalls := finalizeCalls + [FinalizeTraceOnto(target)];
    }
  }

  class SoyTofuException {
    const message: string
    const cause: Option<Failure>

    /** An exception with a message and no cause. */
    constructor (message: string)
      ensures this.message == message && cause == None
    {
      this.message := message;
      cause := None;
    }

    /**
     * The conversion at the render boundary: the message of `re`, its root cause
     * as the cause, and then `re`'s trace finalized and copied onto the new
     * exception, in that order and once each.
     */
    constructor FromRenderException(re: RenderException)
      modifies re
      ensures message == re.message
      ensures cause == Some(re.Chain()[RootCause(re.Chain())])
      ensures re.finalizeCalls == old(re.finalizeCalls) + [FinalizeOwnTrace, FinalizeTraceOnto(this)]
    {
      var k := GetRootCause(re.Chain());
      message := re.message;
      cause := Some(re.Chain()[k]);
      new;
      re.FinalizeStackTrace();
      re.FinalizeStackTraceOnto(this);
    }

    /**
     * `getRootCause`: walks the chain from its head while the current element
     * has a cause, returning early at a `SoyDataException`.
     */
    static method GetRootCause(chain: seq<Failure>) returns (k: nat)
      requires |chain| > 0
      ensures k < |chain|
      ensures forall j :: 0 <= j < k ==> chain[j].kind != SoyDataError
      ensures k == |chain| - 1 || chain[k].kind == SoyDataError
      ensures k == RootCause(chain)
    {
      k := 0;
      while k < |chain| - 1
        invariant k < |chain|
        invariant forall j :: 0 <= j < k ==> chain[j].kind != SoyDataError
        invariant RootCauseFrom(chain, k) == RootCause(chain)
      {
        if chain[k].kind == SoyDataError {
          return;
        }
        k := k + 1;
      }
    }
  }
}
