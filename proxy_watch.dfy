/**
 * The filtering done by the status watch of one proxy: the proxy client's
 * watch delivers either an error or the current list of proxies in the
 * proxy's namespace that carry its labels; only the watched proxy's status
 * is forwarded to the report loop.
 */
module ProxyWatch {
  import opened ProxyTypes

  /** One item received from the proxy client's watch: from its error stream or its data stream. */
  datatype WatchEvent = StreamError(err: Error) | ProxyList(proxies: seq<Proxy>)

  /** The first proxy in `list` with the given namespace and name, if any. */
  function Find(list: seq<Proxy>, ref: ResourceRef): (r: Option<Proxy>)
    ensures r.Some? ==> r.value in list && Ref(r.value) == ref
    ensures r.None? ==> forall p :: p in list ==> Ref(p) != ref
    ensures r.Some? ==>
      exists i ::
        0 <= i < |list| && list[i] == r.value && forall j :: 0 <= j < i ==> Ref(list[j]) != ref
  {
    if list == [] then None
    else if Ref(list[0]) == ref then Some(list[0])
    else Find(list[1..], ref)
  }

  /** The watched proxy as found in one event: never in an error, only when present in a list. */
  function Found(watched: ResourceRef, event: WatchEvent): (r: Option<Proxy>)
    ensures event.StreamError? ==> r.None?
    ensures r.Some? ==> event.ProxyList? && r.value in event.proxies && Ref(r.value) == watched
    ensures event.ProxyList? && r.None? ==> forall p :: p in event.proxies ==> Ref(p) != watched
  {
    match event
    case StreamError(_) => None
    case ProxyList(list) => Find(list, watched)
  }

  /** Reference semantics: the statuses forwarded for a sequence of watch events. */
  function Forwarded(watched: ResourceRef, events: seq<WatchEvent>): seq<Status> {
    if events == [] then []
    else
      (match Found(watched, events[0]) case None => [] case Some(p) => [p.status])
      + Forwarded(watched, events[1..])
  }

  /** One more event forwards the found proxy's status, or nothing when it does not contain it. */
  lemma {:induction false} ForwardOne(watched: ResourceRef, events: seq<WatchEvent>, event: WatchEvent)
    ensures Forwarded(watched, events + [event])
         == Forwarded(watched, events) + (match Found(watched, event) case None => [] case Some(p) => [p.status])
  {
    if events == [] {
      assert [event][1..] == [];
    } else {
      assert (events + [event])[0] == events[0];
      assert (events + [event])[1..] == events[1..] + [event];
      ForwardOne(watched, events[1..], event);
    }
  }

  /** A watch cut off after k events (it was cancelled) forwards a prefix of what the whole watch forwards. */
  lemma {:induction false} ForwardedCutOff(watched: ResourceRef, events: seq<WatchEvent>, k: nat)
    requires k <= |events|
    ensures Forwarded(watched, events[..k]) <= Forwarded(watched, events)
    decreases |events|
  {
    if k < |events| {
      var n := |events| - 1;
      assert events == events[..n] + [events[n]];
      ForwardOne(watched, events[..n], events[n]);
      assert events[..n][..k] == events[..k];
      ForwardedCutOff(watched, events[..n], k);
    } else {
      assert events[..k] == events;
    }
  }

  /**
   * Every forwarded status is the status of the watched proxy as found in
   * some event, there is at most one per event, and nothing at all is
   * forwarded exactly when no event contains the watched proxy.
   */
  lemma {:induction false} ForwardedOnlyFound(watched: ResourceRef, events: seq<WatchEvent>)
    ensures |Forwarded(watched, events)| <= |events|
    ensures forall s :: s in Forwarded(watched, events) ==>
      exists k :: 0 <= k < |events| && Found(watched, events[k]).Some? && Found(watched, events[k]).value.status == s
    ensures Forwarded(watched, events) == [] <==> forall k :: 0 <= k < |events| ==> Found(watched, events[k]).None?
  {
    if events != [] {
      ForwardedOnlyFound(watched, events[1..]);
      var head := match Found(watched, events[0]) case None => [] case Some(p) => [p.status];
      var rest := Forwarded(watched, events[1..]);
      assert Forwarded(watched, events) == head + rest;
      forall s | s in Forwarded(watched, events)
        ensures exists k :: 0 <= k < |events| && Found(watched, events[k]).Some? && Found(watched, events[k]).value.status == s
      {
        if s in head {
          assert Found(watched, events[0]).Some? && Found(watched, events[0]).value.status == s;
        } else {
          var k :| 0 <= k < |events[1..]| && Found(watched, events[1..][k]).Some? && Found(watched, events[1..][k]).value.status == s;
          assert events[1..][k] == events[k + 1];
        }
      }
      if forall k :: 0 <= k < |events| ==> Found(watched, events[k]).None? {
        assert forall k :: 0 <= k < |events[1..]| ==> events[1..][k] == events[k + 1];
      }
    }
  }

  /**
   * The loop of the watch task over the events it receives: stream errors
   * and lists without the watched proxy are skipped (only logged); for every
   * other list the found proxy's status is sent on.
   */
  method ForwardStatuses(watched: Proxy, events: seq<WatchEvent>) returns (statuses: seq<Status>)
    ensures statuses == Forwarded(Ref(watched), events)
    ensures |statuses| <= |events|
    ensures forall s :: s in statuses ==>
      exists k :: 0 <= k < |events| && Found(Ref(watched), events[k]).Some? && Found(Ref(watched), events[k]).value.status == s
  {
    statuses := [];
    var i := 0;
    while i < |events|
      invariant 0 <= i <= |events|
      invariant statuses == Forwarded(Ref(watched), events[..i])
    {
      assert events[..i + 1] == events[..i] + [events[i]];
      ForwardOne(Ref(watched), events[..i], events[i]);
      match events[i] {
        case StreamError(_) =>
        case ProxyList(list) =>
          var found := Find(list, Ref(watched));
          if found.Some? {
            statuses := statuses + [found.value.status];
          }
      }
      i := i + 1;
    }
    assert events[..i] == events;
    ForwardedOnlyFound(Ref(watched), events);
  }
}
