/** Retryable errors and their aggregation (internal/retryableerror/retryableerror.go). */
module Retryable {
  import opened Wrappers

  /** Wrapped stands for an error formatted around a cause: it hides whether the cause could
      be retried, as a type switch does not look through it. */
  datatype Error =
    | Failure(what: string)
    | Wrapped(what: string, cause: Error)
    | Aggregate(errors: seq<Error>)
    | Retry(cause: Error, after: int)

  /** The non-nil entries, in order. */
  function Present(errs: seq<Option<Error>>): seq<Error> {
    if errs == [] then []
    else (match errs[0] case None => [] case Some(e) => [e]) + Present(errs[1..])
  }

  function NewAggregate(errs: seq<Option<Error>>): Option<Error> {
    if Present(errs) == [] then None else Some(Aggregate(Present(errs)))
  }

  method NewMaybeRetryableAggregate(errs: seq<Option<Error>>) returns (result: Option<Error>)
    ensures result == Combined(errs)
  {
    var aggregate := NewAggregate(errs);
    if aggregate.None? {
      return None;
    }
    var present := aggregate.value.errors;
    var afterHasInitialValue, after := false, 0;
    for i := 0 to |present|
      invariant forall k :: 0 <= k < i ==> present[k].Retry?
      invariant afterHasInitialValue <==> i > 0
      invariant i > 0 ==> after == Earliest(present[..i])
    {
      assert present[..i + 1][..i] == present[..i];
      if !present[i].Retry? {
        return aggregate;
      }
      if !afterHasInitialValue || present[i].after < after {
        after := present[i].after;
      }
      afterHasInitialValue := true;
    }
    assert present[..|present|] == present;
    return Some(Retry(aggregate.value, after));
  }

  // ---- Specification ---------------------------------------------------------------

  predicate AllRetry(errors: seq<Error>) {
    forall i :: 0 <= i < |errors| ==> errors[i].Retry?
  }

  function Earliest(errors: seq<Error>): int
    requires errors != [] && AllRetry(errors)
  {
    var last := errors[|errors| - 1].after;
    if |errors| == 1 then last
    else
      var rest := Earliest(errors[..|errors| - 1]);
      if last < rest then last else rest
  }

  function Combined(errs: seq<Option<Error>>): Option<Error> {
    var present := Present(errs);
    if present == [] then None
    else if AllRetry(present) then Some(Retry(Aggregate(present), Earliest(present)))
    else Some(Aggregate(present))
  }

  /** The delay is a lower bound that some error attains. */
  lemma {:induction false} EarliestIsMinimum(errors: seq<Error>)
    requires errors != [] && AllRetry(errors)
    ensures forall i :: 0 <= i < |errors| ==> Earliest(errors) <= errors[i].after
    ensures exists i :: 0 <= i < |errors| && errors[i].after == Earliest(errors)
  {
    var init, n := errors[..|errors| - 1], |errors| - 1;
    if n > 0 {
      EarliestIsMinimum(init);
      var i :| 0 <= i < |init| && init[i].after == Earliest(init);
      assert errors[i].after == Earliest(init);
    }
    if n == 0 || errors[n].after < Earliest(init) {
      assert errors[n].after == Earliest(errors);
    }
  }

  lemma {:induction false} PresentAppends(xs: seq<Option<Error>>, ys: seq<Option<Error>>)
    ensures Present(xs + ys) == Present(xs) + Present(ys)
  {
    if xs == [] {
      assert xs + ys == ys;
    } else {
      assert (xs + ys)[1..] == xs[1..] + ys;
      PresentAppends(xs[1..], ys);
    }
  }

  /** What a caller learns from a result: nothing wrong, try again after a delay, or fail. */
  datatype Kind = Fine | Later(after: int) | Hard

  function Classify(result: Option<Error>): Kind {
    match result
    case None => Fine
    case Some(Retry(_, after)) => Later(after)
    case Some(_) => Hard
  }

  lemma {:induction false} PresentCovers(errs: seq<Option<Error>>)
    ensures forall e :: e in Present(errs) <==> Some(e) in errs
  {
    if errs != [] {
      PresentCovers(errs[1..]);
      assert errs == [errs[0]] + errs[1..];
    }
  }

  /** Nil exactly when every entry is nil; retryable exactly when something is wrong and
      everything wrong is retryable. */
  lemma ClassOf(errs: seq<Option<Error>>)
    ensures Classify(Combined(errs)) == Fine <==> forall i :: 0 <= i < |errs| ==> errs[i] == None
    ensures Classify(Combined(errs)).Later? <==>
      && (exists i :: 0 <= i < |errs| && errs[i] != None)
      && forall i :: 0 <= i < |errs| && errs[i].Some? ==> errs[i].value.Retry?
  {
    PresentCovers(errs);
    var present := Present(errs);
    if i :| 0 <= i < |errs| && errs[i].Some? {
      assert errs[i].value in present;
    }
    if present != [] {
      assert present[0] in present;
      assert Some(present[0]) in errs;
    }
    if AllRetry(present) {
      forall i | 0 <= i < |errs| && errs[i].Some? ensures errs[i].value.Retry? {
        assert errs[i].value in present;
      }
    } else {
      var k :| 0 <= k < |present| && !present[k].Retry?;
      assert present[k] in present;
      assert Some(present[k]) in errs;
    }
  }

  function KindOf(errors: seq<Error>): Kind {
    if errors == [] then Fine else if AllRetry(errors) then Later(Earliest(errors)) else Hard
  }

  /** The worse of two outcomes; of two delays, the shorter. */
  function Join(a: Kind, b: Kind): Kind {
    if a == Fine then b
    else if b == Fine then a
    else if a == Hard || b == Hard then Hard
    else Later(if b.after < a.after then b.after else a.after)
  }

  lemma {:induction false} KindOfConcat(xs: seq<Error>, ys: seq<Error>)
    ensures KindOf(xs + ys) == Join(KindOf(xs), KindOf(ys))
  {
    var all := xs + ys;
    if ys == [] {
      assert all == xs;
    } else {
      var init, last := ys[..|ys| - 1], ys[|ys| - 1];
      KindOfConcat(xs, init);
      KindOfSnoc(xs + init, last);
      KindOfSnoc(init, last);
      assert all == (xs + init) + [last] && ys == init + [last];
    }
  }

  lemma KindOfSnoc(init: seq<Error>, last: Error)
    ensures KindOf(init + [last]) == Join(KindOf(init), if last.Retry? then Later(last.after) else Hard)
  {
    var all := init + [last];
    assert all[..|init|] == init && all[|init|] == last;
    if !AllRetry(init) {
      var k :| 0 <= k < |init| && !init[k].Retry?;
      assert !all[k].Retry?;
    }
  }

  /** Aggregating in two stages loses nothing a caller can see: the aggregates of two lists
      combine to the same kind, with the same delay, as the lists joined. */
  lemma AggregationComposes(xs: seq<Option<Error>>, ys: seq<Option<Error>>)
    ensures Classify(Combined([Combined(xs), Combined(ys)])) == Classify(Combined(xs + ys))
  {
    PresentAppends(xs, ys);
    KindOfConcat(Present(xs), Present(ys));
    PairKind(Combined(xs), Combined(ys));
  }

  lemma PairKind(a: Option<Error>, b: Option<Error>)
    ensures Classify(Combined([a, b])) == Join(Classify(a), Classify(b))
  {
    var pa, pb := Present([a]), Present([b]);
    assert [a, b][1..] == [b] && [a][1..] == [] && [b][1..] == [];
    KindOfConcat(pa, pb);
    PresentAppends([a], [b]);
    assert [a] + [b] == [a, b];
    if a.Some? { KindOfSnoc([], a.value); assert pa == [] + [a.value]; }
    if b.Some? { KindOfSnoc([], b.value); assert pb == [] + [b.value]; }
  }

  predicate AllWrapped(errs: seq<Option<Error>>) {
    forall i :: 0 <= i < |errs| && errs[i].Some? ==> errs[i].value.Wrapped?
  }

  /** A list of formatted errors never aggregates to a retryable one, whatever they wrap:
      the controller's requeue-after branch is unreachable. */
  lemma WrappingHidesRetry(errs: seq<Option<Error>>)
    requires AllWrapped(errs)
    ensures !Classify(Combined(errs)).Later?
  {
    ClassOf(errs);
  }

  /** Appends an error, wrapped, when there is one. */
  function HandleResult(errs: seq<Option<Error>>, what: string, err: Option<Error>): (r: seq<Option<Error>>)
    ensures AllWrapped(errs) ==> AllWrapped(r)
    ensures Combined(r).None? <==> Combined(errs).None? && err.None?
    ensures r == [] <==> errs == [] && err.None?
  {
    if err.None? then errs
    else
      PresentAppends(errs, [Some(Wrapped(what, err.value))]);
      errs + [Some(Wrapped(what, err.value))]
  }
}
