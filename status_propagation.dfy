/**
 * The report loop of one status propagation task: it holds the last status
 * it reported (initially the zero status), drops every observed status equal
 * to it, and writes a report for every other one.
 *
 * Cancellation may stop the task at any point, so the statuses a task sees
 * are any prefix of what its subscription delivers; CutOffIsPrefix says what
 * that does to the reports.
 */
module StatusPropagation {
  import opened ProxyTypes
  import opened ProxyWatch

  /** The status held after observing `observed`, starting from `seed`. */
  function LastOr(seed: Status, observed: seq<Status>): Status {
    if observed == [] then seed else observed[|observed| - 1]
  }

  /**
   * Reference semantics of the de-duplication: the observed statuses with
   * every status equal to its predecessor removed, where the predecessor of
   * the first one is `seed`.
   */
  function DropRepeats(seed: Status, observed: seq<Status>): (r: seq<Status>)
    ensures |r| <= |observed|
    decreases observed
  {
    if observed == [] then []
    else if observed[0] == seed then DropRepeats(seed, observed[1..])
    else [observed[0]] + DropRepeats(observed[0], observed[1..])
  }

  /** De-duplicating a concatenation continues from where the first part left off. */
  lemma {:induction false} DropRepeatsAppend(seed: Status, a: seq<Status>, b: seq<Status>)
    ensures DropRepeats(seed, a + b) == DropRepeats(seed, a) + DropRepeats(LastOr(seed, a), b)
    decreases a
  {
    if a == [] {
      assert a + b == b;
    } else {
      assert (a + b)[0] == a[0];
      assert (a + b)[1..] == a[1..] + b;
      var next := if a[0] == seed then seed else a[0];
      DropRepeatsAppend(next, a[1..], b);
      assert LastOr(next, a[1..]) == LastOr(seed, a);
    }
  }

  /**
   * One more observation either adds exactly that status to the reports (it
   * differs from the last status held) or adds nothing (it equals it).
   */
  lemma ObserveOne(seed: Status, observed: seq<Status>, status: Status)
    ensures DropRepeats(seed, observed + [status])
         == DropRepeats(seed, observed) + (if status == LastOr(seed, observed) then [] else [status])
  {
    DropRepeatsAppend(seed, observed, [status]);
    var last := LastOr(seed, observed);
    assert [status][1..] == [];
    assert DropRepeats(last, [status]) == (if status == last then [] else [status]);
  }

  /** No two adjacent reports carry equal statuses, and the first differs from the seed. */
  lemma {:induction false} NoAdjacentRepeats(seed: Status, observed: seq<Status>)
    ensures var r := DropRepeats(seed, observed);
      && (|r| > 0 ==> r[0] != seed)
      && forall i :: 0 <= i < |r| - 1 ==> r[i] != r[i + 1]
    decreases observed
  {
    if observed != [] {
      if observed[0] == seed {
        NoAdjacentRepeats(seed, observed[1..]);
      } else {
        NoAdjacentRepeats(observed[0], observed[1..]);
        var rest := DropRepeats(observed[0], observed[1..]);
        var r := [observed[0]] + rest;
        assert forall i :: 1 <= i < |r| - 1 ==> r[i] == rest[i - 1] && r[i + 1] == rest[i];
      }
    }
  }

  /** Every reported status was observed. */
  lemma {:induction false} ReportedWereObserved(seed: Status, observed: seq<Status>)
    ensures forall s :: s in DropRepeats(seed, observed) ==> s in observed
    decreases observed
  {
    if observed != [] {
      var next := if observed[0] == seed then seed else observed[0];
      ReportedWereObserved(next, observed[1..]);
    }
  }

  /**
   * Cutting the observed stream off after any number of statuses (the task
   * was cancelled) yields a prefix of the reports of the whole stream.
   */
  lemma CutOffIsPrefix(seed: Status, observed: seq<Status>, k: nat)
    requires k <= |observed|
    ensures DropRepeats(seed, observed[..k]) <= DropRepeats(seed, observed)
  {
    assert observed == observed[..k] + observed[k..];
    DropRepeatsAppend(seed, observed[..k], observed[k..]);
  }

  /** The report written for a new status of the proxy `key`. */
  function StatusReport(key: ResourceRef, resourceErrs: ResourceErrors, status: Status): Call {
    WriteReports(resourceErrs, map[key := status])
  }

  /**
   * The loop of one propagation task over the statuses it receives, with the
   * WriteReports calls it makes. Each call carries the validation errors
   * captured when the task was started and a one-entry status map for the
   * proxy; a failed write is only logged, so its result does not enter.
   */
  method ReportStatusChanges(key: ResourceRef, resourceErrs: ResourceErrors, observed: seq<Status>)
    returns (writes: seq<Call>)
    ensures |writes| == |DropRepeats(ZeroStatus, observed)| <= |observed|
    ensures forall i :: 0 <= i < |writes| ==>
      writes[i] == StatusReport(key, resourceErrs, DropRepeats(ZeroStatus, observed)[i])
    ensures forall i :: 0 <= i < |writes| - 1 ==> writes[i] != writes[i + 1]
    ensures |writes| > 0 ==> writes[0] != StatusReport(key, resourceErrs, ZeroStatus)
  {
    var lastStatus := ZeroStatus;
    writes := [];
    var i := 0;
    while i < |observed|
      invariant 0 <= i <= |observed|
      invariant lastStatus == LastOr(ZeroStatus, observed[..i])
      invariant |writes| == |DropRepeats(ZeroStatus, observed[..i])|
      invariant forall j :: 0 <= j < |writes| ==>
        writes[j] == StatusReport(key, resourceErrs, DropRepeats(ZeroStatus, observed[..i])[j])
    {
      var status := observed[i];
      assert observed[..i + 1] == observed[..i] + [status];
      ObserveOne(ZeroStatus, observed[..i], status);
      if status != lastStatus {
        lastStatus := status;
        writes := writes + [StatusReport(key, resourceErrs, status)];
      }
      i := i + 1;
    }
    assert observed[..i] == observed;
    NoAdjacentRepeats(ZeroStatus, observed);
    var r := DropRepeats(ZeroStatus, observed);
    forall i | 0 <= i < |writes| - 1 ensures writes[i] != writes[i + 1] {
      assert writes[i].statuses[key] == r[i] && writes[i + 1].statuses[key] == r[i + 1];
    }
    if |writes| > 0 {
      assert writes[0].statuses[key] == r[0];
    }
  }

  /**
   * One propagation task end to end: the watch of `proxy` filters the events
   * it receives and hands the statuses, in order, to the report loop, which
   * writes one report per change of the forwarded status. Every write reports the status of the watched proxy as found in some event,
   * keyed by the proxy, with the errors captured at start; there is at most
   * one write per event and no two consecutive writes are equal.
   */
  method RunPropagationTask(proxy: Proxy, resourceErrs: ResourceErrors, events: seq<WatchEvent>)
    returns (writes: seq<Call>)
    ensures var d := DropRepeats(ZeroStatus, Forwarded(Ref(proxy), events));
      && |writes| == |d|
      && forall i :: 0 <= i < |writes| ==> writes[i] == StatusReport(Ref(proxy), resourceErrs, d[i])
    ensures |writes| <= |events|
    ensures forall i :: 0 <= i < |writes| ==>
      exists k :: 0 <= k < |events| && Found(Ref(proxy), events[k]).Some?
        && writes[i] == StatusReport(Ref(proxy), resourceErrs, Found(Ref(proxy), events[k]).value.status)
    ensures forall i :: 0 <= i < |writes| - 1 ==> writes[i] != writes[i + 1]
  {
    var statuses := ForwardStatuses(proxy, events);
    writes := ReportStatusChanges(Ref(proxy), resourceErrs, statuses);
    ReportedWereObserved(ZeroStatus, statuses);
    forall i | 0 <= i < |writes|
      ensures exists k ::
        0 <= k < |events| && Found(Ref(proxy), events[k]).Some?
        && writes[i] == StatusReport(Ref(proxy), resourceErrs, Found(Ref(proxy), events[k]).value.status)
    {
      var s := DropRepeats(ZeroStatus, statuses)[i];
      assert s in DropRepeats(ZeroStatus, statuses);
      assert s in statuses;
    }
  }
}
