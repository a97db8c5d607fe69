/** The shape both broker polls share: walk a report from the start, take one
    step per event, stop at the first exception. */
module PollLoop {
  import opened Wrappers

  datatype Progress<S, X> = Progress(state: S, error: Option<X>)

  function Poll<S, E, X>(step: (S, E) -> Result<S, X>, s: S, report: seq<E>): Progress<S, X> {
    if report == [] then Progress(s, None)
    else PollNext(step, Poll(step, s, report[..|report| - 1]), report[|report| - 1])
  }

  function PollNext<S, E, X>(step: (S, E) -> Result<S, X>, before: Progress<S, X>, e: E): Progress<S, X> {
    if before.error.Some? then before
    else match step(before.state, e)
         case Err(x) => Progress(before.state, Some(x))
         case Ok(t) => Progress(t, None)
  }

  lemma PollOneMore<S, E, X>(step: (S, E) -> Result<S, X>, s: S, report: seq<E>, e: E)
    ensures Poll(step, s, report + [e]) == PollNext(step, Poll(step, s, report), e)
  {
    assert (report + [e])[..|report|] == report;
  }

  lemma {:induction false} PollErrSpreads<S, E, X>(step: (S, E) -> Result<S, X>, s: S, report: seq<E>, more: seq<E>)
    requires Poll(step, s, report).error.Some?
    ensures Poll(step, s, report + more) == Poll(step, s, report)
  {
    if more == [] {
      assert report + more == report;
    } else {
      var front, last := more[..|more| - 1], more[|more| - 1];
      PollErrSpreads(step, s, report, front);
      assert report + more == (report + front) + [last];
      PollOneMore(step, s, report + front, last);
    }
  }

  /** A step leaves its event dealt with, an event that is dealt with is passed
      over without effect, and it stays dealt with. */
  ghost predicate Idempotent<S(!new), E(!new), X>(step: (S, E) -> Result<S, X>, handled: (S, E) -> bool) {
    && (forall s, e :: step(s, e).Ok? ==> handled(step(s, e).value, e))
    && (forall s, e :: handled(s, e) ==> step(s, e) == Ok(s))
    && (forall s, e, d :: handled(s, e) && step(s, d).Ok? ==> handled(step(s, d).value, e))
  }

  lemma {:induction false} PolledIsHandled<S(!new), E(!new), X>(step: (S, E) -> Result<S, X>, handled: (S, E) -> bool,
                                                                s: S, report: seq<E>, e: E)
    requires Idempotent(step, handled) && Poll(step, s, report).error.None? && e in report
    ensures handled(Poll(step, s, report).state, e)
  {
    var front, last := report[..|report| - 1], report[|report| - 1];
    assert report == front + [last];
    if e in front {
      PolledIsHandled(step, handled, s, front, e);
    }
  }

  /** A poll over events that are all dealt with writes nothing. */
  lemma {:induction false} NothingNew<S(!new), E(!new), X>(step: (S, E) -> Result<S, X>, handled: (S, E) -> bool, s: S,
                                                           report: seq<E>)
    requires Idempotent(step, handled)
    requires forall e :: e in report ==> handled(s, e)
    ensures Poll(step, s, report) == Progress(s, None)
  {
    if report != [] {
      NothingNew(step, handled, s, report[..|report| - 1]);
    }
  }

  /** Convergence: stop after any prefix, start again from the beginning, and
      the outcome, refusals included, is that of one uninterrupted pass. */
  lemma {:induction false} RetryConverges<S(!new), E(!new), X>(step: (S, E) -> Result<S, X>, handled: (S, E) -> bool,
                                                               s: S, report: seq<E>, k: nat)
    requires Idempotent(step, handled) && k <= |report|
    requires Poll(step, s, report[..k]).error.None?
    ensures Poll(step, Poll(step, s, report[..k]).state, report) == Poll(step, s, report)
    decreases |report|
  {
    var stopped := Poll(step, s, report[..k]).state;
    if k == |report| {
      assert report[..k] == report;
      forall e | e in report ensures handled(stopped, e) {
        PolledIsHandled(step, handled, s, report, e);
      }
      NothingNew(step, handled, stopped, report);
    } else {
      var front := report[..|report| - 1];
      assert front[..k] == report[..k];
      RetryConverges(step, handled, s, front, k);
    }
  }

  // ---------------------------------------------------------------- retrying at a later clock

  lemma {:induction false} PollInTwo<S, E, X>(step: (S, E) -> Result<S, X>, s: S, first: seq<E>, more: seq<E>)
    requires Poll(step, s, first).error.None?
    ensures Poll(step, s, first + more) == Poll(step, Poll(step, s, first).state, more)
  {
    if more == [] {
      assert first + more == first;
    } else {
      var front, last := more[..|more| - 1], more[|more| - 1];
      PollInTwo(step, s, first, front);
      assert first + more == (first + front) + [last];
      PollOneMore(step, s, first + front, last);
    }
  }

  /** What the early step does, the late one does too, up to `same`. */
  ghost predicate Follows<S(!new), E(!new), X(!new)>(early: (S, E) -> Result<S, X>, late: (S, E) -> Result<S, X>,
                                                     same: (S, S) -> bool) {
    forall s, t, e :: same(s, t) && early(s, e).Ok? ==> late(t, e).Ok? && same(early(s, e).value, late(t, e).value)
  }

  /** The late step cannot tell states that are `same` apart, refusals included. */
  ghost predicate Agrees<S(!new), E(!new), X(!new)>(late: (S, E) -> Result<S, X>, same: (S, S) -> bool) {
    && Follows(late, late, same)
    && forall s, t, e :: same(s, t) && late(s, e).Err? ==> late(t, e).Err? && late(t, e).error == late(s, e).error
  }

  lemma {:induction false} PassFollows<S(!new), E(!new), X(!new)>(early: (S, E) -> Result<S, X>,
                                                                  late: (S, E) -> Result<S, X>, same: (S, S) -> bool,
                                                                  s: S, t: S, report: seq<E>)
    requires Follows(early, late, same) && same(s, t) && Poll(early, s, report).error.None?
    ensures Poll(late, t, report).error.None?
    ensures same(Poll(early, s, report).state, Poll(late, t, report).state)
  {
    if report != [] {
      PassFollows(early, late, same, s, t, report[..|report| - 1]);
    }
  }

  lemma {:induction false} PassAgrees<S(!new), E(!new), X(!new)>(late: (S, E) -> Result<S, X>, same: (S, S) -> bool,
                                                                 s: S, t: S, report: seq<E>)
    requires Agrees(late, same) && same(s, t)
    ensures Poll(late, s, report).error == Poll(late, t, report).error
    ensures same(Poll(late, s, report).state, Poll(late, t, report).state)
  {
    if report != [] {
      PassAgrees(late, same, s, t, report[..|report| - 1]);
    }
  }

  /** Convergence across clocks: stop an early pass after any prefix, run a
      late one over the whole report from there, and its refusal and outcome
      are those of an uninterrupted late pass, up to `same`. */
  lemma LaterRetryConverges<S(!new), E(!new), X(!new)>(early: (S, E) -> Result<S, X>, late: (S, E) -> Result<S, X>,
                                                       handled: (S, E) -> bool, same: (S, S) -> bool, s: S,
                                                       report: seq<E>, k: nat)
    requires Follows(early, late, same) && Agrees(late, same) && Idempotent(late, handled) && same(s, s)
    requires k <= |report| && Poll(early, s, report[..k]).error.None?
    requires forall e :: e in report[..k] ==> handled(Poll(early, s, report[..k]).state, e)
    ensures var retried, whole := Poll(late, Poll(early, s, report[..k]).state, report), Poll(late, s, report);
            retried.error == whole.error && same(retried.state, whole.state)
  {
    var first, more := report[..k], report[k..];
    assert report == first + more;
    var stopped := Poll(early, s, first).state;
    NothingNew(late, handled, stopped, first);
    PassFollows(early, late, same, s, s, first);
    PollInTwo(late, stopped, first, more);
    PollInTwo(late, s, first, more);
    PassAgrees(late, same, stopped, Poll(late, s, first).state, more);
  }
}
