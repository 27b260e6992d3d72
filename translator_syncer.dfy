/**
 * One sync of the gateway translator syncer: translate the snapshot, reject
 * it when the aggregate validation errors are invalid, stamp every desired
 * proxy with the ownership labels, reconcile the proxies of the write
 * namespace once, and then set up status propagation for each proxy.
 *
 * The collaborators are inputs: what the translator returned (and what
 * validating its aggregate errors gave), what the reconciler returns, and
 * what the proxy client's watch returns for each proxy. What Sync does to
 * them is recorded as the sequence of calls it makes.
 */
module TranslatorSyncer {
  import opened ProxyTypes

  /** The ownership labels: every proxy the gateway writes carries exactly these. */
  const OwnerLabels: Labels := map["created_by" := "gateway"]

  /** Message of the error returned when the watch of a proxy cannot be created. */
  const WatchSetupMessage: string := "creating watch for proxy"

  /** A translated proxy (possibly nil) with the validation errors of the resources it came from. */
  datatype ProxyAndErrors = ProxyAndErrors(proxy: Option<Proxy>, resourceErrors: ResourceErrors)

  /**
   * What the translator returned for one snapshot, with the result of
   * validating the aggregate errors (None when they are valid).
   */
  datatype Translation = Translation(desired: seq<ProxyAndErrors>, resourceErrs: ResourceErrors, validation: Option<Error>)

  /** How a sync ends: it returns an error or nil, or it dereferences a nil proxy. */
  datatype SyncResult = Returned(err: Option<Error>) | Panicked

  predicate HasNilProxy(ds: seq<ProxyAndErrors>) {
    exists i :: 0 <= i < |ds| && ds[i].proxy.None?
  }

  /** A snapshot is accepted when its validation passed and the labelling loop does not panic. */
  predicate Accepted(t: Translation) {
    t.validation.None? && !HasNilProxy(t.desired)
  }

  /**
   * `proxies` are the translated proxies, in order, each with its labels
   * replaced by exactly the ownership labels and everything else unchanged.
   */
  predicate OwnedCopies(ds: seq<ProxyAndErrors>, proxies: seq<Proxy>) {
    && |proxies| == |ds|
    && forall i :: 0 <= i < |ds| ==>
      && ds[i].proxy.Some?
      && proxies[i].metadata.labels == OwnerLabels
      && proxies[i].metadata.namespace == ds[i].proxy.value.metadata.namespace
      && proxies[i].metadata.name == ds[i].proxy.value.metadata.name
      && proxies[i].status == ds[i].proxy.value.status
  }

  function Owned(p: Proxy): Proxy {
    p.(metadata := p.metadata.(labels := OwnerLabels))
  }

  /**
   * The translator's list as the propagation loop sees it: the labelling
   * loop overwrote the labels of these very proxies.
   */
  function Labeled(ds: seq<ProxyAndErrors>): (r: seq<ProxyAndErrors>)
    ensures |r| == |ds|
  {
    seq(|ds|, i requires 0 <= i < |ds| =>
      ds[i].(proxy := if ds[i].proxy.Some? then Some(Owned(ds[i].proxy.value)) else None))
  }

  /** The error returned when the watch of `p` cannot be created. */
  function WatchSetupError(p: Proxy, cause: Error): Error {
    Wrapped(WatchSetupMessage, Ref(p), cause)
  }

  /** The calls made while setting up propagation for one entry, given what its watch returns. */
  function SetupCallsOf(d: ProxyAndErrors, watchErr: Option<Error>): seq<Call> {
    match d.proxy
    case None => []
    case Some(p) =>
      [Watch(p.metadata.namespace, p.metadata.labels)]
      + (if watchErr.None? then [StartPropagation(Ref(p), d.resourceErrors)] else [])
  }

  /** The failure, if any, of setting up propagation for one entry. */
  function SetupFailureOf(d: ProxyAndErrors, watchErr: Option<Error>): seq<Error> {
    if d.proxy.Some? && watchErr.Some? then [WatchSetupError(d.proxy.value, watchErr.value)] else []
  }

  /** All setup calls, entry after entry. */
  function SetupCalls(ds: seq<ProxyAndErrors>, watchErrs: seq<Option<Error>>): seq<Call>
    requires |watchErrs| == |ds|
  {
    if ds == [] then [] else SetupCallsOf(ds[0], watchErrs[0]) + SetupCalls(ds[1..], watchErrs[1..])
  }

  /** All setup failures, in the order of the entries. */
  function SetupFailures(ds: seq<ProxyAndErrors>, watchErrs: seq<Option<Error>>): seq<Error>
    requires |watchErrs| == |ds|
  {
    if ds == [] then [] else SetupFailureOf(ds[0], watchErrs[0]) + SetupFailures(ds[1..], watchErrs[1..])
  }

  /** An aggregate of errors collapses to nil when it holds none. */
  function ErrorOrNil(errs: seq<Error>): (r: Option<Error>)
    ensures r.None? <==> errs == []
  {
    if errs == [] then None else Some(Multi(errs))
  }

  /** Setting up one more entry appends its calls at the end. */
  lemma {:induction false} SetupCallsOne(ds: seq<ProxyAndErrors>, watchErrs: seq<Option<Error>>, d: ProxyAndErrors, watchErr: Option<Error>)
    requires |watchErrs| == |ds|
    ensures SetupCalls(ds + [d], watchErrs + [watchErr]) == SetupCalls(ds, watchErrs) + SetupCallsOf(d, watchErr)
  {
    if ds == [] {
      assert [d][1..] == [] && [watchErr][1..] == [];
    } else {
      var ds', ws' := ds + [d], watchErrs + [watchErr];
      assert ds'[0] == ds[0] && ds'[1..] == ds[1..] + [d];
      assert ws'[0] == watchErrs[0] && ws'[1..] == watchErrs[1..] + [watchErr];
      var first, rest, last := SetupCallsOf(ds[0], watchErrs[0]), SetupCalls(ds[1..], watchErrs[1..]), SetupCallsOf(d, watchErr);
      calc {
        SetupCalls(ds', ws');
        first + SetupCalls(ds[1..] + [d], watchErrs[1..] + [watchErr]);
        { SetupCallsOne(ds[1..], watchErrs[1..], d, watchErr); }
        first + (rest + last);
        (first + rest) + last;
      }
    }
  }

  /** Setting up one more entry appends its failure at the end, so failures keep entry order. */
  lemma {:induction false} SetupFailuresOne(ds: seq<ProxyAndErrors>, watchErrs: seq<Option<Error>>, d: ProxyAndErrors, watchErr: Option<Error>)
    requires |watchErrs| == |ds|
    ensures SetupFailures(ds + [d], watchErrs + [watchErr]) == SetupFailures(ds, watchErrs) + SetupFailureOf(d, watchErr)
  {
    if ds == [] {
      assert [d][1..] == [] && [watchErr][1..] == [];
    } else {
      var ds', ws' := ds + [d], watchErrs + [watchErr];
      assert ds'[0] == ds[0] && ds'[1..] == ds[1..] + [d];
      assert ws'[0] == watchErrs[0] && ws'[1..] == watchErrs[1..] + [watchErr];
      var first, rest, last := SetupFailureOf(ds[0], watchErrs[0]), SetupFailures(ds[1..], watchErrs[1..]), SetupFailureOf(d, watchErr);
      calc {
        SetupFailures(ds', ws');
        first + SetupFailures(ds[1..] + [d], watchErrs[1..] + [watchErr]);
        { SetupFailuresOne(ds[1..], watchErrs[1..], d, watchErr); }
        first + (rest + last);
        (first + rest) + last;
      }
    }
  }

  /** Setup succeeds as a whole exactly when every non-nil proxy's watch was created. */
  lemma {:induction false} SetupSucceedsIff(ds: seq<ProxyAndErrors>, watchErrs: seq<Option<Error>>)
    requires |watchErrs| == |ds|
    ensures SetupFailures(ds, watchErrs) == [] <==>
      forall i :: 0 <= i < |ds| ==> ds[i].proxy.None? || watchErrs[i].None?
  {
    if ds != [] {
      SetupSucceedsIff(ds[1..], watchErrs[1..]);
      assert forall i :: 1 <= i < |ds| ==> ds[1..][i - 1] == ds[i] && watchErrs[1..][i - 1] == watchErrs[i];
    }
  }

  /**
   * Isolation: whatever the other entries' watches return, entry i is
   * watched; it starts propagating when its watch was created and its
   * failure is in the aggregate otherwise.
   */
  lemma {:induction false} SetupIsolated(ds: seq<ProxyAndErrors>, watchErrs: seq<Option<Error>>, i: nat)
    requires |watchErrs| == |ds| && i < |ds| && ds[i].proxy.Some?
    ensures Watch(ds[i].proxy.value.metadata.namespace, ds[i].proxy.value.metadata.labels) in SetupCalls(ds, watchErrs)
    ensures watchErrs[i].None? ==> StartPropagation(Ref(ds[i].proxy.value), ds[i].resourceErrors) in SetupCalls(ds, watchErrs)
    ensures watchErrs[i].Some? ==> WatchSetupError(ds[i].proxy.value, watchErrs[i].value) in SetupFailures(ds, watchErrs)
  {
    if i > 0 {
      SetupIsolated(ds[1..], watchErrs[1..], i - 1);
      assert ds[1..][i - 1] == ds[i] && watchErrs[1..][i - 1] == watchErrs[i];
    }
  }

  /**
   * Setup makes only watch calls, each with the watched proxy's own labels
   * as selector, and propagation starts; at most one failure per entry.
   */
  lemma {:induction false} SetupCallKinds(ds: seq<ProxyAndErrors>, watchErrs: seq<Option<Error>>, selector: Labels)
    requires |watchErrs| == |ds|
    requires forall i :: 0 <= i < |ds| && ds[i].proxy.Some? ==> ds[i].proxy.value.metadata.labels == selector
    ensures forall c :: c in SetupCalls(ds, watchErrs) ==> (c.Watch? && c.selector == selector) || c.StartPropagation?
    ensures |SetupFailures(ds, watchErrs)| <= |ds|
  {
    if ds != [] {
      assert forall i :: 0 <= i < |ds[1..]| ==> ds[1..][i] == ds[i + 1];
      SetupCallKinds(ds[1..], watchErrs[1..], selector);
    }
  }

  /** Setting up the first i + 1 entries is setting up the first i, then entry i. */
  lemma SetupPrefixStep(ds: seq<ProxyAndErrors>, watchErrs: seq<Option<Error>>, i: nat)
    requires |watchErrs| == |ds| && i < |ds|
    ensures SetupCalls(ds[..i + 1], watchErrs[..i + 1]) == SetupCalls(ds[..i], watchErrs[..i]) + SetupCallsOf(ds[i], watchErrs[i])
    ensures SetupFailures(ds[..i + 1], watchErrs[..i + 1]) == SetupFailures(ds[..i], watchErrs[..i]) + SetupFailureOf(ds[i], watchErrs[i])
  {
    assert ds[..i + 1] == ds[..i] + [ds[i]];
    assert watchErrs[..i + 1] == watchErrs[..i] + [watchErrs[i]];
    SetupCallsOne(ds[..i], watchErrs[..i], ds[i], watchErrs[i]);
    SetupFailuresOne(ds[..i], watchErrs[..i], ds[i], watchErrs[i]);
  }

  /**
   * The labelling loop: overwrite each translated proxy's labels with the
   * ownership labels and append it to the desired resources. The translator's
   * entries and the desired resources hold the same proxies, so `labeled` is
   * the translator's list after the overwrite. A nil proxy is dereferenced
   * there, which panics.
   */
  method LabelProxies(desired: seq<ProxyAndErrors>)
    returns (panicked: bool, labeled: seq<ProxyAndErrors>, desiredResources: seq<Proxy>)
    ensures panicked <==> HasNilProxy(desired)
    ensures !panicked ==> OwnedCopies(desired, desiredResources)
    ensures !panicked ==> labeled == Labeled(desired)
    ensures !panicked ==> forall i :: 0 <= i < |desired| ==>
      labeled[i] == ProxyAndErrors(Some(desiredResources[i]), desired[i].resourceErrors)
  {
    labeled, desiredResources := [], [];
    var i := 0;
    while i < |desired|
      invariant 0 <= i <= |desired|
      invariant !HasNilProxy(desired[..i])
      invariant OwnedCopies(desired[..i], desiredResources)
      invariant labeled == Labeled(desired)[..i]
      invariant forall j :: 0 <= j < i ==>
        labeled[j] == ProxyAndErrors(Some(desiredResources[j]), desired[j].resourceErrors)
    {
      if desired[i].proxy.None? {
        return true, labeled, desiredResources;
      }
      var proxy := desired[i].proxy.value;
      proxy := proxy.(metadata := proxy.metadata.(labels := OwnerLabels));
      labeled := labeled + [desired[i].(proxy := Some(proxy))];
      desiredResources := desiredResources + [proxy];
      assert desired[..i + 1][i] == desired[i];
      assert forall j :: 0 <= j < i ==> desired[..i + 1][j] == desired[..i][j];
      i := i + 1;
    }
    assert desired[..i] == desired;
    panicked := false;
  }

  /**
   * The propagation loop: set up every entry in turn, whatever the earlier
   * ones returned, and aggregate the failures in the order of the entries.
   */
  method PropagateAll(ds: seq<ProxyAndErrors>, watchErrs: seq<Option<Error>>)
    returns (err: Option<Error>, calls: seq<Call>)
    requires |watchErrs| == |ds|
    ensures calls == SetupCalls(ds, watchErrs)
    ensures err == ErrorOrNil(SetupFailures(ds, watchErrs))
    ensures err.None? <==> forall i :: 0 <= i < |ds| ==> ds[i].proxy.None? || watchErrs[i].None?
  {
    var errs: seq<Error> := [];
    calls := [];
    var i := 0;
    while i < |ds|
      invariant 0 <= i <= |ds|
      invariant calls == SetupCalls(ds[..i], watchErrs[..i])
      invariant errs == SetupFailures(ds[..i], watchErrs[..i])
    {
      var stepErr, stepCalls := PropagateProxyStatus(ds[i].proxy, ds[i].resourceErrors, watchErrs[i]);
      assert stepCalls == SetupCallsOf(ds[i], watchErrs[i]);
      assert (if stepErr.Some? then [stepErr.value] else []) == SetupFailureOf(ds[i], watchErrs[i]);
      SetupPrefixStep(ds, watchErrs, i);
      calls := calls + stepCalls;
      if stepErr.Some? {
        errs := errs + [stepErr.value];
      }
      i := i + 1;
    }
    assert ds[..i] == ds && watchErrs[..i] == watchErrs;
    SetupSucceedsIff(ds, watchErrs);
    err := ErrorOrNil(errs);
  }

  /**
   * Set up status propagation for one proxy: a nil proxy is skipped and
   * counts as success; otherwise the proxy's namespace is watched with the
   * proxy's labels as selector, and when the watch cannot be created the
   * error, wrapped with the proxy's name, is returned and nothing starts.
   */
  method PropagateProxyStatus(proxy: Option<Proxy>, resourceErrs: ResourceErrors, watchErr: Option<Error>)
    returns (err: Option<Error>, calls: seq<Call>)
    ensures proxy.None? ==> err.None? && calls == []
    ensures proxy.Some? ==> |calls| >= 1 && calls[0] == Watch(proxy.value.metadata.namespace, proxy.value.metadata.labels)
    ensures proxy.Some? && watchErr.Some? ==>
      err == Some(Wrapped(WatchSetupMessage, Ref(proxy.value), watchErr.value)) && |calls| == 1
    ensures proxy.Some? && watchErr.None? ==>
      err.None? && calls[1..] == [StartPropagation(Ref(proxy.value), resourceErrs)]
  {
    if proxy.None? {
      return None, [];
    }
    var p := proxy.value;
    calls := [Watch(p.metadata.namespace, p.metadata.labels)];
    if watchErr.Some? {
      return Some(WatchSetupError(p, watchErr.value)), calls;
    }
    calls := calls + [StartPropagation(Ref(p), resourceErrs)];
    err := None;
  }

  /**
   * One sync. `watchErrs[i]` is what the proxy client's watch returns for
   * the i-th translated proxy.
   */
  method Sync(writeNamespace: string, t: Translation, reconcileErr: Option<Error>, watchErrs: seq<Option<Error>>)
    returns (result: SyncResult, calls: seq<Call>)
    requires |watchErrs| == |t.desired|
    // the translator is called first, and the reconciler at most once, right after it
    ensures |calls| >= 1 && calls[0] == Translate(writeNamespace)
    ensures forall j :: 0 <= j < |calls| && calls[j].Reconcile? ==> j == 1 && Accepted(t)
    // fail closed: an invalid snapshot is reported with no status data and returned
    ensures t.validation.Some? ==>
      result == Returned(t.validation) && calls == [Translate(writeNamespace), WriteReports(t.resourceErrs, map[])]
    ensures t.validation.None? && HasNilProxy(t.desired) ==>
      result == Panicked && calls == [Translate(writeNamespace)]
    // one reconcile of the write namespace, of the owned copies, selected by the ownership labels
    ensures Accepted(t) ==>
      && |calls| >= 2 && calls[1].Reconcile?
      && calls[1].namespace == writeNamespace && calls[1].selector == OwnerLabels
      && OwnedCopies(t.desired, calls[1].desired)
    ensures Accepted(t) && reconcileErr.Some? ==> result == Returned(reconcileErr) && |calls| == 2
    // then every proxy is watched, with the ownership labels as selector
    ensures Accepted(t) && reconcileErr.None? ==>
      && calls[2..] == SetupCalls(Labeled(t.desired), watchErrs)
      && result == Returned(ErrorOrNil(SetupFailures(Labeled(t.desired), watchErrs)))
    ensures forall j :: 0 <= j < |calls| && calls[j].Watch? ==>
      calls[j].selector == OwnerLabels && Accepted(t) && reconcileErr.None?
    // nil is returned exactly when the snapshot was accepted, reconciled and every watch was created
    ensures result == Returned(None) <==>
      Accepted(t) && reconcileErr.None? && forall i :: 0 <= i < |watchErrs| ==> watchErrs[i].None?
  {
    calls := [Translate(writeNamespace)];
    if t.validation.Some? {
      // the reporter's result is only logged
      calls := calls + [WriteReports(t.resourceErrs, map[])];
      return Returned(t.validation), calls;
    }

    var panicked, labeled, desiredResources := LabelProxies(t.desired);
    if panicked {
      return Panicked, calls;
    }
    calls := calls + [Reconcile(writeNamespace, desiredResources, OwnerLabels)];
    if reconcileErr.Some? {
      return Returned(reconcileErr), calls;
    }

    var errs, setupCalls := PropagateAll(labeled, watchErrs);
    assert forall j :: 0 <= j < |labeled| ==> labeled[j].proxy.Some? && labeled[j].proxy.value.metadata.labels == OwnerLabels;
    SetupCallKinds(labeled, watchErrs, OwnerLabels);
    calls := calls + setupCalls;
    assert calls[2..] == setupCalls;
    forall j | 2 <= j < |calls| ensures !calls[j].Reconcile? && (calls[j].Watch? ==> calls[j].selector == OwnerLabels) {
      assert calls[j] in setupCalls;
    }
    result := Returned(errs);
  }
}
