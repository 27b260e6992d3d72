/**
 * Concrete runs of the model: the de-duplication of a status stream, a
 * snapshot with one proxy whose status goes from Pending to Accepted, and a
 * snapshot with three proxies whose second watch cannot be created.
 */
module Scenarios {
  import opened ProxyTypes
  import opened ProxyWatch
  import opened StatusPropagation
  import opened TranslatorSyncer

  const PendingStatus: Status := Status(Pending, "", "")
  const AcceptedStatus: Status := Status(Accepted, "", "")
  /** A Pending status that names who reported it, so it differs from the zero status. */
  const PendingByGloo: Status := Status(Pending, "", "gloo")

  /**
   * Since the report loop starts from the zero status, a plain Pending status
   * at the head of the stream is taken for a repeat: the stream Pending,
   * Pending, Accepted, Accepted, Accepted, Pending gives two reports.
   */
  lemma PlainPendingFirstIsDropped()
    ensures DropRepeats(ZeroStatus, [PendingStatus, PendingStatus, AcceptedStatus, AcceptedStatus, AcceptedStatus, PendingStatus])
         == [AcceptedStatus, PendingStatus]
  {
    var s := [PendingStatus, PendingStatus, AcceptedStatus, AcceptedStatus, AcceptedStatus, PendingStatus];
    assert s[0] == ZeroStatus && s[1..][0] == ZeroStatus;
    assert DropRepeats(ZeroStatus, s) == DropRepeats(ZeroStatus, s[2..]);
    assert s[2..][1..] == s[3..] && s[3..][1..] == s[4..] && s[4..][1..] == s[5..];
    assert DropRepeats(ZeroStatus, s[2..]) == [AcceptedStatus] + DropRepeats(AcceptedStatus, s[3..]);
    assert DropRepeats(AcceptedStatus, s[3..]) == DropRepeats(AcceptedStatus, s[5..]);
    assert s[5..][1..] == [];
  }

  /** A Pending status that differs from the zero status is reported: three reports. */
  lemma ReportedPendingIsKept()
    ensures DropRepeats(ZeroStatus, [PendingByGloo, PendingByGloo, AcceptedStatus, AcceptedStatus, AcceptedStatus, PendingByGloo])
         == [PendingByGloo, AcceptedStatus, PendingByGloo]
  {
    var s := [PendingByGloo, PendingByGloo, AcceptedStatus, AcceptedStatus, AcceptedStatus, PendingByGloo];
    assert s[1..][1..] == s[2..] && s[2..][1..] == s[3..] && s[3..][1..] == s[4..] && s[4..][1..] == s[5..];
    assert DropRepeats(ZeroStatus, s) == [PendingByGloo] + DropRepeats(PendingByGloo, s[1..]);
    assert DropRepeats(PendingByGloo, s[1..]) == DropRepeats(PendingByGloo, s[2..]);
    assert DropRepeats(PendingByGloo, s[2..]) == [AcceptedStatus] + DropRepeats(AcceptedStatus, s[3..]);
    assert DropRepeats(AcceptedStatus, s[3..]) == DropRepeats(AcceptedStatus, s[5..]);
    assert s[5..][1..] == [];
  }

  function JerryProxy(status: Status): Proxy {
    Proxy(Metadata("ns1", "jerry-proxy", OwnerLabels), status)
  }

  /**
   * The watch of "jerry-proxy" delivers a list holding it as Pending, an
   * error, a list without it, and a list holding it as Accepted: the watch
   * forwards Pending then Accepted, and the report loop reports Accepted only.
   */
  lemma PendingThenAcceptedReportsOnce()
    ensures var events := [
        ProxyList([JerryProxy(PendingStatus)]),
        StreamError(Failure("watch interrupted")),
        ProxyList([]),
        ProxyList([JerryProxy(AcceptedStatus)])];
      && Forwarded(ResourceRef("ns1", "jerry-proxy"), events) == [PendingStatus, AcceptedStatus]
      && DropRepeats(ZeroStatus, Forwarded(ResourceRef("ns1", "jerry-proxy"), events)) == [AcceptedStatus]
  {
    var ref := ResourceRef("ns1", "jerry-proxy");
    var events := [
        ProxyList([JerryProxy(PendingStatus)]),
        StreamError(Failure("watch interrupted")),
        ProxyList([]),
        ProxyList([JerryProxy(AcceptedStatus)])];
    assert Find([JerryProxy(PendingStatus)], ref) == Some(JerryProxy(PendingStatus));
    assert Find([JerryProxy(AcceptedStatus)], ref) == Some(JerryProxy(AcceptedStatus));
    assert events[1..][1..] == events[2..] && events[2..][1..] == events[3..] && events[3..][1..] == [];
    assert Forwarded(ref, events[3..]) == [AcceptedStatus];
    assert Forwarded(ref, events[1..]) == [AcceptedStatus];
    var fs := [PendingStatus, AcceptedStatus];
    assert fs[1..] == [AcceptedStatus] && [AcceptedStatus][1..] == [];
    assert DropRepeats(ZeroStatus, fs) == DropRepeats(ZeroStatus, fs[1..]);
  }

  /** The end-to-end sync of a snapshot that translates to the single proxy "jerry-proxy". */
  method SingleProxySync() {
    var translated := Proxy(Metadata("ns1", "jerry-proxy", map[]), PendingStatus);
    var t := Translation([ProxyAndErrors(Some(translated), map[])], map[], None);
    assert !HasNilProxy(t.desired);
    var result, calls := Sync("gloo-system", t, None, [None]);
    assert result == Returned(None);
    assert |calls[1].desired| == 1 && calls[1].desired[0].metadata.labels == OwnerLabels;
    assert Labeled(t.desired)[0].proxy == Some(JerryProxy(PendingStatus));
    assert calls[2..] == [Watch("ns1", OwnerLabels), StartPropagation(ResourceRef("ns1", "jerry-proxy"), map[])];
    var writes := ReportStatusChanges(ResourceRef("ns1", "jerry-proxy"), map[], [PendingStatus, AcceptedStatus]);
    assert [PendingStatus, AcceptedStatus][1..] == [AcceptedStatus] && [AcceptedStatus][1..] == [];
    assert writes == [WriteReports(map[], map[ResourceRef("ns1", "jerry-proxy") := AcceptedStatus])];
  }

  /** Three proxies whose second watch cannot be created: the first and third still start. */
  method SecondWatchFails() {
    var p1 := Proxy(Metadata("ns1", "one", map[]), PendingStatus);
    var p2 := Proxy(Metadata("ns1", "two", map[]), PendingStatus);
    var p3 := Proxy(Metadata("ns2", "three", map[]), PendingStatus);
    var e := Failure("forbidden");
    var t := Translation([ProxyAndErrors(Some(p1), map[]), ProxyAndErrors(Some(p2), map[]), ProxyAndErrors(Some(p3), map[])], map[], None);
    assert !HasNilProxy(t.desired);
    var watchErrs := [None, Some(e), None];
    var result, calls := Sync("gloo-system", t, None, watchErrs);
    var labeled := Labeled(t.desired);
    SetupIsolated(labeled, watchErrs, 0);
    SetupIsolated(labeled, watchErrs, 1);
    SetupIsolated(labeled, watchErrs, 2);
    assert StartPropagation(ResourceRef("ns1", "one"), map[]) in calls[2..];
    assert StartPropagation(ResourceRef("ns2", "three"), map[]) in calls[2..];
    assert result.Returned? && result.err.Some?;
    assert Wrapped(WatchSetupMessage, ResourceRef("ns1", "two"), e) in result.err.value.errors;
  }
}
