# Gateway translator syncer — a Dafny model

This project models the gateway's translator syncer
(`projects/gateway/pkg/syncer/translator_syncer.go`). For each configuration snapshot
it runs one sync:

1. It translates the snapshot into proxies.
2. It rejects the snapshot when the translator's aggregate resource errors fail
   validation. In that case it writes an error-only report and returns the
   validation error.
3. It overwrites every proxy's labels with the ownership labels `{"created_by": "gateway"}`.
4. It reconciles the write namespace once against those proxies, selecting by the
   same labels.
5. It sets up one status propagation per proxy. Each propagation watches its proxy
   and writes a report whenever the proxy's status changes.

The translator, reconciler, reporter and proxy client are collaborators whose
internals are not visible. They become inputs:

- a `Translation`: the desired list, the aggregate errors, and what validating them returned;
- the reconciler's error;
- one watch-creation error per desired entry;
- for a running propagation, the events its watch delivers.

`Sync` returns its result together with the sequence of calls it makes on the
collaborators (`ProxyTypes.Call`). The properties are stated over that trace.

Modules:

- `ProxyTypes` (`core.dfy`): statuses, proxies, errors and collaborator calls.
- `ProxyWatch` (`proxy_watch.dfy`): the event filtering of `watchProxyStatus`.
- `StatusPropagation` (`status_propagation.dfy`): the de-duplicating report loop of
  `propagateProxyStatus`, its reference function `DropRepeats`, and one task end to end.
- `TranslatorSyncer` (`translator_syncer.dfy`): `Sync`, its labelling loop, and its
  propagation-setup loop.
- `Scenarios` (`scenarios.dfy`): concrete runs.

One might expect one report per status change, the first status included, a nil proxy to be
skipped, and a snapshot to be rejected whenever it has errors. The code behaves differently
in three places, and the model follows the code:

- **The zero status swallows a first plain Pending.** The report loop starts from the
  zero status, which is `Pending` with empty reason and reporter (lines 112, 119). A
  first observed status equal to that produces no report. So the stream Pending,
  Pending, Accepted, Accepted, Accepted, Pending gives two reports, not three
  (`Scenarios.PlainPendingFirstIsDropped`). A proxy going Pending → Accepted gives one
  report, Accepted (`Scenarios.PendingThenAcceptedReportsOnce`).
- **A nil proxy makes `Sync` panic.** `propagateProxyStatus` skips a nil proxy
  (lines 105-107). But the labelling loop dereferences every translated proxy first
  (lines 79-80), so a nil proxy from the translator panics there, before `Reconcile`.
  `Sync` models this as the result `Panicked`, with only the `Translate` call in the trace.
- **The rejection gate is `Validate()`, not "non-empty errors".** The gate is whatever
  `Validate()` returns (line 65). The model takes that result as an input.

## Model

| member | source | states |
|---|---|---|
| `TranslatorSyncer.Sync` | projects/gateway/pkg/syncer/translator_syncer.go:55-102 | Translate is called first. If validation fails, the trace is exactly Translate then `WriteReports(resourceErrs, nil)` and the validation error is returned; nothing else reports back, so the reporter's own failure cannot change that. A nil proxy panics before Reconcile. Reconcile appears only at position 1 and only for an accepted snapshot, with the write namespace, the ownership selector and the owned copies of the proxies in translator order. A Reconcile error is returned and nothing is watched. Otherwise the rest of the trace is the setup of every proxy, every Watch uses the ownership selector, and the aggregate of setup failures is returned. The result is nil iff the snapshot is accepted, reconciled and every watch was created |
| `TranslatorSyncer.LabelProxies` | projects/gateway/pkg/syncer/translator_syncer.go:73-82 | Panics iff some translated proxy is nil. Otherwise the desired resources have the same length and order as the translator's list, and each has labels exactly `{"created_by": "gateway"}` with namespace, name and status unchanged. The translator's entries hold these same proxies afterwards |
| `TranslatorSyncer.PropagateAll` | projects/gateway/pkg/syncer/translator_syncer.go:93-101 | Every entry is set up in order, whatever earlier ones returned. The returned error aggregates the failures in entry order. It is nil iff every non-nil proxy's watch was created |
| `TranslatorSyncer.PropagateProxyStatus` | projects/gateway/pkg/syncer/translator_syncer.go:104-111 | A nil proxy is skipped with no calls and no error. Otherwise the proxy's namespace is watched with the proxy's labels as selector. A watch-creation failure is returned wrapped with "creating watch for proxy" and the proxy's reference, and nothing starts. On success propagation starts, keyed by the proxy, with the captured resource errors |
| `TranslatorSyncer.ErrorOrNil` | projects/gateway/pkg/syncer/translator_syncer.go:101 | The aggregate is nil exactly when no error was appended |
| `TranslatorSyncer.SetupCallsOne` | projects/gateway/pkg/syncer/translator_syncer.go:95-96 | Setting up one more entry appends its calls at the end of the trace |
| `TranslatorSyncer.SetupFailuresOne` | projects/gateway/pkg/syncer/translator_syncer.go:95-99 | Setting up one more entry appends its failure, if any, at the end of the aggregate, so failures keep proxy order |
| `TranslatorSyncer.SetupSucceedsIff` | projects/gateway/pkg/syncer/translator_syncer.go:94-101 | No setup failure iff every entry is nil or its watch was created (both directions) |
| `TranslatorSyncer.SetupIsolated` | projects/gateway/pkg/syncer/translator_syncer.go:95-99 | Whatever the other watches return, each non-nil proxy is watched. It starts propagating when its own watch was created, and its wrapped failure is in the aggregate otherwise |
| `TranslatorSyncer.SetupCallKinds` | projects/gateway/pkg/syncer/translator_syncer.go:136-144 | Setup only watches, with the proxies' own labels as selector, and starts propagations. There is at most one failure per entry |
| `ProxyWatch.Find` | projects/gateway/pkg/syncer/translator_syncer.go:155-159 | A found proxy is the first entry of the list with the watched namespace and name. When none is found, no proxy in the list has them |
| `ProxyWatch.Found` | projects/gateway/pkg/syncer/translator_syncer.go:152-159 | A stream error never yields the proxy. A list yields it only if it contains it, and yields nothing only if no entry has its namespace and name |
| `ProxyWatch.ForwardOne` | projects/gateway/pkg/syncer/translator_syncer.go:152-164 | One more event forwards exactly the found proxy's status, or nothing for a stream error or a list without the proxy |
| `ProxyWatch.ForwardedOnlyFound` | projects/gateway/pkg/syncer/translator_syncer.go:148-166 | At most one status is forwarded per event. Each forwarded status is the status of the watched proxy as found in some event. Nothing is forwarded iff no event contains the proxy |
| `ProxyWatch.ForwardedCutOff` | projects/gateway/pkg/syncer/translator_syncer.go:148-151 | A watch stopped after any number of events has forwarded a prefix of what the whole watch forwards |
| `ProxyWatch.ForwardStatuses` | projects/gateway/pkg/syncer/translator_syncer.go:146-167 | The watch loop forwards exactly `Forwarded` of its events: at most one status per event, each being the watched proxy's status in some event |
| `StatusPropagation.DropRepeats` | projects/gateway/pkg/syncer/translator_syncer.go:112-122 | The de-duplicated sequence is never longer than the observed one |
| `StatusPropagation.DropRepeatsAppend` | projects/gateway/pkg/syncer/translator_syncer.go:112-122 | De-duplicating a concatenation continues from the last status held after the first part |
| `StatusPropagation.ObserveOne` | projects/gateway/pkg/syncer/translator_syncer.go:118-122 | One more observed status adds exactly itself when it differs from the last status held, and nothing when it is equal |
| `StatusPropagation.NoAdjacentRepeats` | projects/gateway/pkg/syncer/translator_syncer.go:112-122 | No two adjacent reported statuses are equal, and the first differs from the seed (the zero status) |
| `StatusPropagation.ReportedWereObserved` | projects/gateway/pkg/syncer/translator_syncer.go:118-122 | Every reported status was observed |
| `StatusPropagation.CutOffIsPrefix` | projects/gateway/pkg/syncer/translator_syncer.go:114-118 | A task cancelled after any number of statuses has written a prefix of the reports of the whole stream |
| `StatusPropagation.ReportStatusChanges` | projects/gateway/pkg/syncer/translator_syncer.go:112-131 | The loop writes one report per status of `DropRepeats(zero, observed)`, in order. Each carries the captured resource errors and a one-entry map from the proxy's key to the status. There are at most as many writes as observations, no two consecutive writes are equal, and the first never reports the zero status. Write failures do not enter |
| `StatusPropagation.RunPropagationTask` | projects/gateway/pkg/syncer/translator_syncer.go:113-131 | Watch and report loop together: the writes are exactly one report per status of `DropRepeats(zero, Forwarded(events))`, in order, so every change of the watched proxy's status is written. There is at most one write per event. Each write reports the watched proxy's status as found in some event, keyed by the proxy, with the captured errors. No two consecutive writes are equal |
| `Scenarios.PlainPendingFirstIsDropped` | projects/gateway/pkg/syncer/translator_syncer.go:112-122 | Pending, Pending, Accepted, Accepted, Accepted, Pending with a plain Pending gives the reports Accepted, Pending |
| `Scenarios.ReportedPendingIsKept` | projects/gateway/pkg/syncer/translator_syncer.go:119-122 | The same stream with a Pending that names its reporter gives Pending, Accepted, Pending |
| `Scenarios.PendingThenAcceptedReportsOnce` | projects/gateway/pkg/syncer/translator_syncer.go:152-164 | Events list(Pending), error, empty list, list(Accepted) forward Pending then Accepted and give the single report Accepted |

## Left out

- Goroutines, channels and `select`. The watch task and the report task are modelled as
  two loops composed in order; the unbuffered channel between them keeps that order.
- Cancellation timing (lines 116-117, 150-151, 161-162). It is modelled only as the event
  or status sequence ending at any point (`CutOffIsPrefix`, `ForwardedCutOff`).
- The closed status channel. After cancellation the watch task closes the status channel
  (line 147). The report loop's `select` may then read zero statuses from it, and write one
  more report carrying the zero status. This depends on which ready `select` branch runs,
  so it is not modelled.
- Proxies are pointers in the source; here they are values. The labels written in place at
  line 80 are modelled by `LabelProxies` returning the relabelled translator list as well as
  the desired resources. The propagation loop reads that list, as the aliased pointers do.
  Any change the reconciler might make to the proxies it is given is not modelled.
- Logging, snapshot hashing, and the formatting of `multierror` and `errors.Wrapf` messages.
  A wrapped error keeps its message, the proxy reference and the cause as fields.
- The translator, `Validate()`, the reconciler with `utils.TransitionFunction`, the reporter
  and the proxy client. Their results are inputs. The reporter's result is only logged by
  the source, so it is not an input.
- `core.Status`, `resources.Key` and `ProxyList.Find` are not part of this model.
  - A status is modelled by its state, reason and reporter, compared field by field.
  - A proxy's key is its namespace and name.
  - `Find` is taken to return the first proxy with the given namespace and name.
- `NewTranslatorSyncer` and `NewTranslatorSyncerWithReconciler` only store their arguments.
  The syncer's fields used by `Sync` (write namespace and collaborators) are `Sync`'s
  parameters instead.
- The lister, CRD registration, event-loop test and installer test files are outside the
  syncer core and are not part of this model.
