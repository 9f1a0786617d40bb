/** The two bounded retry loops of the scraper. The callee is an oracle: `func(k)` is what its
    (k+1)-th call does. A handler is an oracle too: `Some(raises)` is a given handler, whose call
    for attempt k raises exactly when `raises(k)`; `None` is no handler, and the source prints a
    message instead, which never raises. A handler call (or that message) is logged with the
    attempt number it receives. */
module Retry {
  import opened PyModel

  /** What one call of `func` did: it raised, or it returned a value that may be None. */
  datatype Attempt<T> = Raised | Returned(result: Option<T>)

  /** A call that counts as a success for `call_until_not_exception_or_none`. */
  predicate Succeeded<T>(a: Attempt<T>)
  {
    a.Returned? && a.result.Some?
  }

  /** The handler for attempt k was given and raised. */
  predicate Raises(handler: Option<nat -> bool>, k: nat)
  {
    handler.Some? && handler.value(k)
  }

  /** Which handler a failed attempt triggers, and with which attempt number (from 1). */
  datatype HandlerCall = ErrorHandler(attempt: nat) | NoneHandler(attempt: nat)

  /** The number of iterations of `range(n)`. */
  function Budget(n: int): nat
  {
    if n > 0 then n else 0
  }

  /** `call_until_no_exception`: the first result that did not raise (even None), else None.
      `calls` is how many times `func` ran, `handled` the attempt numbers passed to the handler.
      The exception of a handler that raises is not caught and ends the loop. */
  method CallUntilNoException<T>(n: int, func: nat -> Attempt<T>, handler: Option<nat -> bool> := None)
    returns (r: Result<Option<T>>, calls: nat, handled: seq<nat>)
    ensures calls <= Budget(n)
    ensures calls == |handled| || calls == |handled| + 1
    ensures forall i :: 0 <= i < |handled| ==> handled[i] == i + 1 && func(i).Raised?
    ensures forall i :: 0 <= i < |handled| - 1 ==> !Raises(handler, handled[i])
    ensures r.Err? <==> |handled| > 0 && Raises(handler, |handled|)
    ensures r.Err? ==> r == Err(OtherError) && calls == |handled|
    ensures calls == |handled| + 1 ==> func(|handled|).Returned? && r == Ok(func(|handled|).result)
    ensures calls == |handled| && r.Ok? ==> calls == Budget(n) && r == Ok(None)
  {
    calls, handled := 0, [];
    var attempt := 0;
    while attempt < n
      invariant 0 <= attempt <= Budget(n)
      invariant calls == attempt == |handled|
      invariant forall i :: 0 <= i < |handled| ==> handled[i] == i + 1 && func(i).Raised?
      invariant forall i :: 0 <= i < |handled| ==> !Raises(handler, handled[i])
      invariant |handled| > 0 ==> !Raises(handler, |handled|)
    {
      var outcome := func(attempt);
      calls := calls + 1;
      if outcome.Returned? {
        return Ok(outcome.result), calls, handled;
      }
      handled := handled + [attempt + 1];
      if handler.Some? && handler.value(attempt + 1) {
        return Err(OtherError), calls, handled;
      }
      attempt := attempt + 1;
    }
    return Ok(None), calls, handled;
  }

  /** The handler calls one attempt of `call_until_not_exception_or_none` makes, attempt number
      `k`: none for a success; the error handler for a call that raised; the None handler for a
      None result, followed by the error handler when the None handler itself raised, because it
      runs inside the `try`. */
  function AttemptLog<T>(a: Attempt<T>, k: nat, noneHandler: Option<nat -> bool>): seq<HandlerCall>
  {
    if Succeeded(a) then []
    else if a.Raised? then [ErrorHandler(k)]
    else [NoneHandler(k)] + (if Raises(noneHandler, k) then [ErrorHandler(k)] else [])
  }

  /** The exception of attempt `k` escapes the loop: the error handler was reached and raised. */
  predicate Escapes<T>(a: Attempt<T>, k: nat, errorHandler: Option<nat -> bool>, noneHandler: Option<nat -> bool>)
  {
    !Succeeded(a) && (a.Raised? || Raises(noneHandler, k)) && Raises(errorHandler, k)
  }

  /** The handler calls of the first m attempts, in order. */
  function HandlerLog<T>(func: nat -> Attempt<T>, m: nat, noneHandler: Option<nat -> bool>): seq<HandlerCall>
  {
    if m == 0 then [] else HandlerLog(func, m - 1, noneHandler) + AttemptLog(func(m - 1), m, noneHandler)
  }

  /** A failed attempt makes one handler call of the matching kind, or two when the None handler
      raised; the attempt number is passed to each. */
  lemma AttemptLogCases<T>(a: Attempt<T>, k: nat, noneHandler: Option<nat -> bool>)
    ensures Succeeded(a) <==> AttemptLog(a, k, noneHandler) == []
    ensures a.Raised? ==> AttemptLog(a, k, noneHandler) == [ErrorHandler(k)]
    ensures a == Returned(None) && !Raises(noneHandler, k) ==> AttemptLog(a, k, noneHandler) == [NoneHandler(k)]
    ensures a == Returned(None) && Raises(noneHandler, k) ==> AttemptLog(a, k, noneHandler) == [NoneHandler(k), ErrorHandler(k)]
  {
  }

  /** `call_until_not_exception_or_none`: the first non-None result, else None. The loop ends at
      the first attempt that succeeds or whose exception escapes through the error handler. */
  method CallUntilNotExceptionOrNone<T>(n: int, func: nat -> Attempt<T>,
                                       errorHandler: Option<nat -> bool> := None,
                                       noneHandler: Option<nat -> bool> := None)
    returns (r: Result<Option<T>>, calls: nat, handled: seq<HandlerCall>)
    ensures calls <= Budget(n)
    ensures handled == HandlerLog(func, calls, noneHandler)
    ensures forall i :: 0 <= i < calls - 1 ==> !Succeeded(func(i)) && !Escapes(func(i), i + 1, errorHandler, noneHandler)
    ensures r.Ok? && r.value.Some? ==> 0 < calls && Succeeded(func(calls - 1)) && r.value == func(calls - 1).result
    ensures r.Err? ==> 0 < calls && Escapes(func(calls - 1), calls, errorHandler, noneHandler) && r == Err(OtherError)
    ensures r == Ok(None) ==> calls == Budget(n) && forall i :: 0 <= i < calls ==> !Succeeded(func(i)) && !Escapes(func(i), i + 1, errorHandler, noneHandler)
    ensures errorHandler.None? ==> r.Ok? && (r.value.Some? <==> exists i :: 0 <= i < n && Succeeded(func(i)))
  {
    calls, handled := 0, [];
    var attempt := 0;
    while attempt < n
      invariant 0 <= attempt <= Budget(n)
      invariant calls == attempt
      invariant handled == HandlerLog(func, calls, noneHandler)
      invariant forall i :: 0 <= i < calls ==> !Succeeded(func(i)) && !Escapes(func(i), i + 1, errorHandler, noneHandler)
    {
      var outcome := func(attempt);
      calls := calls + 1;
      assert HandlerLog(func, calls, noneHandler) == handled + AttemptLog(outcome, calls, noneHandler);
      if outcome.Returned? && outcome.result.Some? {
        return Ok(outcome.result), calls, handled;
      }
      var reachesErrorHandler := outcome.Raised?;
      if outcome.Returned? {
        handled := handled + [NoneHandler(attempt + 1)];
        if noneHandler.Some? && noneHandler.value(attempt + 1) {
          reachesErrorHandler := true;
        }
      }
      if reachesErrorHandler {
        handled := handled + [ErrorHandler(attempt + 1)];
        if errorHandler.Some? && errorHandler.value(attempt + 1) {
          return Err(OtherError), calls, handled;
        }
      }
      attempt := attempt + 1;
    }
    return Ok(None), calls, handled;
  }
}
