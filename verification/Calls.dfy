/** The steps that one call of each method takes, whatever other threads do in between. */
module Calls {
  import opened Model
  import opened Pipeline

  // ----- workers ----------------------------------------------------------------------------------

  function Publishes(w: nat, k: nat): seq<Step> {
    if k == 0 then [] else Publishes(w, k - 1) + [Work(w, Publish(Done))]
  }

  /** One routing of a message with `n` recipients: it publishes to them in order until the first
      error and, if there was none, writes `sent`. It got to `k` recipients; `out` is what the last
      call did. */
  ghost predicate IsRouting(calls: seq<Step>, w: nat, n: nat, ok: bool) {
    exists k: nat, out: Outcome :: Routing(calls, w, n, k, out, ok)
  }

  predicate Routing(calls: seq<Step>, w: nat, n: nat, k: nat, out: Outcome, ok: bool) {
    if n == 0 then !ok && calls == [Work(w, FindNoRoutes)]
    else if k < n then !ok && out.Errs() && calls == Publishes(w, k) + [Work(w, Publish(out))]
    else k == n && (ok <==> out.Done?) && calls == Publishes(w, n) + [Work(w, WriteSent(out))]
  }

  /** What follows a failed routing: `dead_letter`, an entry and, if that reported an error, `failed`. */
  ghost predicate IsDeadLettering(calls: seq<Step>, w: nat, limit: int) {
    exists dead: Outcome, eid: Uuid, at: int, readable: bool, out: Outcome, failed: Outcome ::
      DeadLettering(calls, w, limit, dead, eid, at, readable, out, failed)
  }

  predicate DeadLettering(calls: seq<Step>, w: nat, limit: int,
      dead: Outcome, eid: Uuid, at: int, readable: bool, out: Outcome, failed: Outcome) {
    calls == [Work(w, WriteDead(dead)), Work(w, Enqueue(eid, limit, at, readable, out))]
      + if out.Errs() then [Work(w, WriteFailed(failed))] else []
  }

  /** One turn of a worker that popped a message with `n` recipients. */
  ghost predicate IsHandling(calls: seq<Step>, w: nat, n: nat, limit: int) {
    exists cut: nat, ok: bool :: Handling(calls, w, n, limit, cut, ok)
  }

  ghost predicate Handling(calls: seq<Step>, w: nat, n: nat, limit: int, cut: nat, ok: bool) {
    && 0 < cut <= |calls| && calls[0] == Work(w, Pop) && IsRouting(calls[1..cut], w, n, ok)
    && (if ok then cut == |calls| else IsDeadLettering(calls[cut..], w, limit))
  }

  lemma HandlingCalls(w: nat, n: nat, limit: int, ok: bool, routing: seq<Step>, rest: seq<Step>)
    requires IsRouting(routing, w, n, ok) && if ok then rest == [] else IsDeadLettering(rest, w, limit)
    ensures IsHandling([Work(w, Pop)] + (routing + rest), w, n, limit)
  {
    var calls, cut := [Work(w, Pop)] + (routing + rest), 1 + |routing|;
    assert calls[1..cut] == routing && calls[cut..] == rest;
    assert Handling(calls, w, n, limit, cut, ok);
  }

  // ----- retry loops ------------------------------------------------------------------------------

  function Republishes(l: nat, k: nat): seq<Step> {
    if k == 0 then [] else Republishes(l, k - 1) + [Retry(l, Republish(Done))]
  }

  /** One republication to `n` recipients. */
  ghost predicate IsRepublishing(calls: seq<Step>, l: nat, n: nat, ok: bool) {
    exists k: nat, out: Outcome :: Republishing(calls, l, n, k, out, ok)
  }

  predicate Republishing(calls: seq<Step>, l: nat, n: nat, k: nat, out: Outcome, ok: bool) {
    if n == 0 then !ok && calls == [Retry(l, FindNoRecipients)]
    else if k < n then !ok && out.Errs() && calls == Republishes(l, k) + [Retry(l, Republish(out))]
    else k == n && ok && calls == Republishes(l, n)
  }

  /** The end of a retry: the status of the message, unless more retries are left, then the entry. */
  ghost predicate IsVerdict(calls: seq<Step>, l: nat, c: Snapshot, ok: bool) {
    exists out: Outcome, mark: Outcome :: Verdict(calls, l, c, ok, out, mark)
  }

  predicate Verdict(calls: seq<Step>, l: nat, c: Snapshot, ok: bool, out: Outcome, mark: Outcome) {
    if ok then calls == [Retry(l, RewriteSent(out)), Retry(l, Mark(mark))]
    else if c.retryCount + 1 >= c.entry.maxRetries then calls == [Retry(l, GiveUp(out)), Retry(l, Mark(mark))]
    else calls == [Retry(l, Mark(mark))]
  }

  /** One retry of a listed entry. An entry whose payload does not decode is only marked. */
  ghost predicate IsRetry(calls: seq<Step>, l: nat, c: Snapshot) {
    if c.entry.readable then exists cut: nat, ok: bool :: Retrying(calls, l, c, cut, ok)
    else exists mark: Outcome :: Discarding(calls, l, mark)
  }

  ghost predicate Retrying(calls: seq<Step>, l: nat, c: Snapshot, cut: nat, ok: bool) {
    && 0 < cut <= |calls| && calls[0] == Retry(l, Take)
    && IsRepublishing(calls[1..cut], l, |c.entry.payload.recipients|, ok)
    && IsVerdict(calls[cut..], l, c, ok)
  }

  predicate Discarding(calls: seq<Step>, l: nat, mark: Outcome) {
    calls == [Retry(l, Take), Retry(l, Mark(mark))]
  }

  lemma RetryingCalls(l: nat, c: Snapshot, ok: bool, publishing: seq<Step>, verdict: seq<Step>)
    requires c.entry.readable && IsRepublishing(publishing, l, |c.entry.payload.recipients|, ok)
    requires IsVerdict(verdict, l, c, ok)
    ensures IsRetry([Retry(l, Take)] + (publishing + verdict), l, c)
  {
    var calls, cut := [Retry(l, Take)] + (publishing + verdict), 1 + |publishing|;
    assert calls[1..cut] == publishing && calls[cut..] == verdict;
    assert Retrying(calls, l, c, cut, ok);
  }

  /** One retry of each listed entry, in the order of the listing. */
  ghost predicate IsRetries(calls: seq<Step>, l: nat, batch: seq<Snapshot>)
    decreases |batch|
  {
    if |batch| == 0 then calls == []
    else exists cut: nat | cut <= |calls| ::
      && IsRetries(calls[..cut], l, batch[..|batch| - 1])
      && IsRetry(calls[cut..], l, batch[|batch| - 1])
  }

  function Batch(listed: Option<seq<Snapshot>>): seq<Snapshot> {
    if listed.Some? then listed.value else []
  }

  /** A listing that fails or is empty takes no step. */
  function Listing(l: nat, listed: Option<seq<Snapshot>>): seq<Step> {
    if Batch(listed) == [] then [] else [Retry(l, List(Batch(listed)))]
  }

  /** One pass of a retry loop over what was listed. */
  ghost predicate IsPass(calls: seq<Step>, l: nat, listed: Option<seq<Snapshot>>) {
    if listed.None? || listed.value == [] then calls == []
    else |calls| > 0 && calls[0] == Retry(l, List(listed.value)) && IsRetries(calls[1..], l, listed.value)
  }

  lemma RetriesNext(calls: seq<Step>, more: seq<Step>, l: nat, batch: seq<Snapshot>, i: nat)
    requires i < |batch| && IsRetries(calls, l, batch[..i]) && IsRetry(more, l, batch[i])
    ensures IsRetries(calls + more, l, batch[..i + 1])
  {
    var all, cut := calls + more, |calls|;
    assert all[..cut] == calls && all[cut..] == more;
    assert batch[..i + 1][..i] == batch[..i];
  }
}
