# Aqua Scan Gate: a verified model

Aqua Scan Gate holds Kubernetes pods back with a scheduling gate until every image they name is
known to Aqua. This project models its logic in Dafny and proves what it keeps, over every
interleaving, failure and stale read.

`dafny verify dfyconfig.toml` checks everything.

## The scan-gating protocol

`Protocol.dfy` is a transition system of two controllers over one API server. Each call of a
reconcile is one step, and anything may happen between two steps.

- The API server keeps every version of every object. An update takes effect only if the version
  that was read is still current (resource versions); an update that is applied may still look failed.
- The informer cache is a position in each object's history, so a cached read can be arbitrarily
  old. An event is undelivered exactly while the position lags; events can be coalesced or repeated.
- Each controller has a work queue: dirty keys, delayed keys (error retries and named delays), and
  keys being processed. A key is processed by one worker at a time.
- Users edit, create and delete pods at will; someone else may create scans; the process may restart
  anywhere, which loses caches, queues, timers and runs.
- Scans are not deleted, and nobody but the ImageScan controller edits them.
- Aqua, the registries and every call may answer anything at any time; what Aqua and the registries
  answered, and what a reconcile went to wait for, is kept as history for the theorems to speak of.

`ScanInvariant.dfy` and `GateInvariant.dfy` hold what every step keeps, `GateSafety.dfy` the safety
theorems, `ScanProgress.dfy`, `Wakeup.dfy`, `WakeupSteps.dfy` and `NoLostWakeup.dfy` the progress
theorems. `WakeupWitness.dfy` shows that both hypotheses of the wakeup theorem are needed, the first
of them exactly: the reconcile of one pod creates a scan, and the reconcile of a second pod waits on
that scan in vain. `WatchMapper.dfy` shows that the code of the watch mapper requests what the protocol's
step enqueues. `Admission.dfy` connects the webhook (`Webhook.dfy`) to all this.

`PodGateReconciler.dfy` and `ImageScanReconciler.dfy` are the two Reconcile functions as imperative
code: local variables and object fields that are reassigned, loops, early returns. They call a
`Cluster.World`, which lets any other step happen while a call is waiting and keeps the trace of all
that happened. The trace is proved to be an execution of the protocol, in which every step is one of
the reconcile's own or of others, and the last is the one that ends its run with what it returns. So
every theorem about executions is a theorem about them.

## The caches in front of Aqua

- `FileCacheProtocol.dfy` and `FileCacheSafety.dfy`: the shared cache file as interleaved file
  system calls of any number of processes, any of which can fail or die; `FileCache.dfy` is the
  imperative code over it.
- `AquaAnswers.dfy`: when all who write the file are clients of one API, what the file holds is what
  that API answered, stamped no earlier.
- `RegistryCache.dfy`: memory, that file cache and the API, with other goroutines and processes at
  work between any two accesses.
- `TokenProtocol.dfy`: concurrent GetToken calls over a read-write lock and a clock;
  `TokenManager.dfy` is the imperative code over it; `TokenTightness.dfy` gives the latency up to
  which a cached token is valid, exactly.

## Lists and strings

`ImageRefs.dfy` (extraction, scan names), `PodGates.dfy` (gates, the watch mapper), `Mirrors.dfy`
(mirror list and rewriting), `Manifests.dfy` and `BatchTrigger.dfy` (the batch command), with
`Text.dfy` and `Filtering.dfy` below them.

## Where documentation and code differ

The model follows the code. (README.md here is the repository's.)

- README.md:132 says that the gate goes once images pass "or fail". In the code a scan in Error keeps
  the gate (internal/controller/pod_gate_controller.go:262-269).
- README.md:117 shows a phase Passed; the phases are Pending, Registered and Error
  (api/v1alpha1/imagescan_types.go:24-32).
- README.md:23 and README.md:89 promise rescans; no reconcile code reads the interval.
- api/v1alpha1/imagescan_types.go:56-58 says that CompletedTime is set in a terminal state; the code
  sets it in Registered only.
- api/v1alpha1/imagescan_types.go:72-74 speaks of exponential backoff; Error is terminal, so the only
  delay ever requested is the first, 60 seconds.

## Model

| member | source | states |
|---|---|---|
| GateSafety.GateSafe | internal/controller/pod_gate_controller.go:151-296 | When the scan-checked Update takes effect, the stored pod carries our gate in a namespace in scope, and the references of the run are exactly the non-empty images of its init, regular and ephemeral containers. A digest the image string pins is kept; any other is one the registry gave to this pod when asked about that image behind the mirror of the first rule for its registry. And each reference has, at that moment, a Registered scan under its name, for whose own spec Aqua had answered Found. |
| GateSafety.UncheckedReleaseOnlyWhenAllowed | internal/controller/pod_gate_controller.go:113-137 | Any other Update that takes effect acts on a stored, gated pod in scope whose bypass annotation is there with the value "true", or all of whose containers have empty image strings. |
| GateSafety.GateGoesByUpdate | internal/controller/pod_gate_controller.go:113-296 | Of all steps but the users' own edits only such an Update changes a stored pod, and it leaves that pod without our gate and otherwise as it was. |
| GateSafety.PinnedErrorKeepsGate | internal/controller/pod_gate_controller.go:256-269 | Once the scan of an image that pins its digest is in Error, no later scan-checked Update takes effect on a stored pod with a container of that image. |
| GateSafety.TerminalPhasesAbsorb | internal/controller/imagescan_controller.go:73-86 | From any reachable state on, a stored scan that is Registered or in Error never changes again, whatever stale copies are still held. |
| GateSafety.ReachableStatuses | internal/controller/imagescan_controller.go:90-152 | In every version of every stored scan RetryCount is 1 exactly in Error and else 0, and LastScanTime equals CompletedTime, both set exactly in Registered. |
| GateSafety.StatusesAreExplained | internal/controller/imagescan_controller.go:86-152 | The status of every stored scan is accounted for by calls to Aqua about its own image: Pending by an answer of not found and a trigger that gave its scan ID, Registered by an answer of found, Error by a lookup, or a trigger after not found, that failed with its message; name, label and spec are still those of its creation. |
| GateSafety.OnlyFirstDelay | internal/controller/imagescan_controller.go:102-123 | Every delay ever requested after an Aqua error is 60 seconds. |
| GateSafety.ExecutionKeeps | internal/controller/pod_gate_controller.go:83-304 | Every execution keeps the protocol invariant, and versions once stored are never unwritten. |
| ScanProgress.EveryScanProgresses | internal/controller/imagescan_controller.go:62-155 | In every reachable state every stored scan is terminal or has an event, a queued or delayed key, or a run. |
| NoLostWakeup.EveryGatedPodIsServed | internal/controller/pod_gate_controller.go:197-303 | In every reachable state every stored pod in scope that carries our gate has a reconcile queued, running or timed, or an event that will enqueue it, or its last reconcile read it as it is stored and went to wait for an image whose scan is not Registered, or whose registration is on its way to the mapper, and whose label is the hash of an image of the pod; given that references sharing a scan name share the image hash and that no List failed. |
| NoLostWakeup.AtRestOnlyErrorsHoldPods | internal/controller/pod_gate_controller.go:283-303 | Under the same hypotheses a system with nothing left to do holds back a pod in scope only for an image of its own containers whose scan is in Error, under the digest it pins or the registry answered, and for which its last reconcile, of the pod as stored, went to wait. |
| WakeupSteps.MapperFindsPod | internal/controller/pod_gate_controller.go:414-489 | When the event of a terminal scan, Registered or Error, reaches the mapper, every gated pod blocked by that scan whose stored version the cache has is among those it wakes. |
| WakeupWitness.PodIsForgotten | internal/controller/pod_gate_controller.go:226-246 | For any two references sharing a scan name, with different image hashes or a failing List, an execution in which the controller's own Create labels the scan for the first pod ends at rest with the scan Registered and the second pod gated, waiting for that scan only. |
| WakeupWitness.ForgottenIsNotServed | internal/controller/pod_gate_controller.go:299-303 | A system at rest in which a pod waits only for a scan that is Registered is one where the pod is not served, in the sense of the wakeup theorem. |
| WakeupWitness.LabelsDecideWakeup | internal/controller/pod_gate_controller.go:470-471 | For any set of references a namespace in scope can consult: no execution over them without a failing List leaves a gated pod unserved if and only if references sharing a scan name share the hash of the image string. |
| WakeupWitness.FailingListForgets | internal/controller/pod_gate_controller.go:441-447 | One failing List loses a wakeup even with a single image and agreeing labels. |
| Admission.AdmittedPodIsQueued | internal/controller/pod_gate_controller.go:385-393 | The event of a pod the webhook gated passes the watch predicate and queues the pod. |
| Admission.AdmittedPodIsReconciled | internal/controller/pod_gate_controller.go:95-137 | Its reconcile passes the namespace, gate and bypass tests and goes on with the images of the pod as submitted. |
| Admission.AdmittedPodIsMapped | internal/controller/pod_gate_controller.go:366-380 | The mapper's indexed List includes it, and a terminal scan with the hash of one of its images wakes it. |
| Admission.AdmittedPodIsServed | internal/webhook/pod_webhook.go:60-110 | As long as it keeps the gate, a pod the webhook gated is served in the sense of the wakeup theorem. |
| Cluster.OthersLeaveRun | internal/controller/pod_gate_controller.go:83-304 | No step of anybody else, short of the end of the process, touches the local variables of a running reconcile. |
| Cluster.AnswersStay | internal/controller/pod_gate_controller.go:163-190 | No step of anybody takes an answer of the registry off the record. |
| Cluster.World.Interfere | internal/controller/pod_gate_controller.go:102-105 | While a call waits, any execution of the other parties may take place; it joins the trace, and the caller's run stays as it was. |
| PodGateReconciler.Client.GetPod | internal/controller/pod_gate_controller.go:102-137 | The reply of a Get that does not fail is the cached version of the pod at some moment of the call, and that version's number; on each reply the run is where the code goes next. |
| PodGateReconciler.Client.BuildResolver | internal/controller/pod_gate_controller.go:139-149 | A resolver that cannot be built ends the reconcile with a delay; otherwise nothing has happened yet. |
| PodGateReconciler.Client.Create | internal/controller/pod_gate_controller.go:217-251 | What is given must be labelled with the first 16 digits of the hash of the image string, name image and digest, and have an empty status. It is stored as given when there was none, and nothing is stored when there was one; both make the image pending. Any other end of the call, with or without effect, is a retry. |
| PodGateReconciler.Client.Update | internal/controller/pod_gate_controller.go:283-296 | What is given must be the pod read without our gate; on success it is the next stored version after the one read. The reconcile ends, with a retry unless the Update was applied and acknowledged. |
| PodGateReconciler.HasSchedulingGate | internal/controller/pod_gate_controller.go:306-313 | The loop decides membership of the gate. |
| PodGateReconciler.Client.ResolveImageRef | internal/controller/pod_gate_controller.go:159-190 | The reference asked about must be the image after mirroring; the digest answered is on record as the answer about that very reference; without an answer the reconcile ends with a delay. |
| PodGateReconciler.Reconciler.ResolveDigests | internal/controller/pod_gate_controller.go:151-191 | The digest loop keeps the image strings and the digests they pin; every other digest is one the registry gave when asked about that image behind the mirror of the first rule for its registry; it stops with a retry at the first failure. |
| PodGateReconciler.Reconciler.CheckScan | internal/controller/pod_gate_controller.go:204-275 | One turn of the check loop: the image passes only if its scan was there in the cache and read as Registered; otherwise it is pending, or the reconcile has ended with a retry. |
| PodGateReconciler.Reconciler.CheckScans | internal/controller/pod_gate_controller.go:194-276 | The check loop ends with the protocol's pending images, in order, and allPassed exactly when there are none. |
| PodGateReconciler.Reconciler.Release | internal/controller/pod_gate_controller.go:283-296 | The copy written back is the pod read, without our gate and otherwise as it was; when the reconcile is done that copy is the next version of the pod after the one read. |
| PodGateReconciler.Reconciler.Reconcile | internal/controller/pod_gate_controller.go:83-304 | With anything happening between its calls, what happens during the imperative Reconcile is an execution of the protocol whose steps are its own, none of them a start or the end of the process, or those of others; the last is its own and has the move, Finish or Retry, that it returns. |
| ImageScanReconciler.Client.UpdateStatus | internal/controller/imagescan_controller.go:98-102 | What is written is the copy as its fields were assigned, and on success that is what is stored; each return path and its outcome are told apart, with the delay on record. |
| ImageScanReconciler.LookupFailed | internal/controller/imagescan_controller.go:91-103 | Phase Error, the message of the failure and one more retry are assigned, times and scan ID stay, and the backoff for the new count is asked for whether or not the update succeeded. |
| ImageScanReconciler.TriggerMissing | internal/controller/imagescan_controller.go:108-132 | A failed trigger assigns Error and one more retry and leaves times and scan ID; a trigger assigns Pending, its message and a retry count of 0 and leaves the times; unless the update failed this is what is stored, and the scan is requeued at once if triggered and after a delay if not; a failed update is returned as an error. |
| ImageScanReconciler.Register | internal/controller/imagescan_controller.go:134-152 | Both times, phase, message and a retry count of 0 are assigned together, the scan ID stays; done means that this is what is stored, and otherwise an error is returned. |
| ImageScanReconciler.Reconcile | internal/controller/imagescan_controller.go:51-155 | What happens during the imperative Reconcile is an execution of the protocol whose steps are its own or those of others; the last is its own and ends the run, with a retry exactly when it is not done; in a reachable system the only delay it names is 60 seconds. |
| ScanPhases.CalculateBackoff | internal/controller/imagescan_controller.go:28-37 | The early-exit doubling loop gives 30, 60, 120, 240, 480 seconds for up to 0, 1, 2, 3, 4 retries and 600 from 5 on, which is min(30 s * 2^n, 10 min), and its variable stays below 20 minutes, so it cannot overflow. |
| ScanPhases.BackoffMonotone | internal/controller/imagescan_controller.go:21-37 | The delay never shrinks with more failures and stays between 30 seconds and 10 minutes. |
| ScanPhases.StatusChangesKeepShape | internal/controller/imagescan_controller.go:95-144 | Each status change keeps the shape of reachable statuses; failure and success are terminal, a trigger is not. |
| PodGates.RemoveSchedulingGate | internal/controller/pod_gate_controller.go:315-323 | The loop leaves in place the other gates in order, and touches nothing but the gates. |
| PodGates.WithoutGateCounts | internal/controller/pod_gate_controller.go:315-323 | Removal takes every occurrence of the name and no occurrence of any other. |
| PodGates.WithoutAbsentGate | internal/controller/pod_gate_controller.go:315-323 | Removing a gate that is not there changes nothing. |
| PodGates.FindImage | internal/controller/pod_gate_controller.go:468-485 | The inner loop finds whether some non-empty image of the pod has the scan's hash. |
| PodGates.MapImageScanToPods | internal/controller/pod_gate_controller.go:414-489 | The two loops request exactly what the mapper is to request: the concerned listed pods of a terminal scan in list order, and nothing when the scan is not terminal or the List fails. |
| PodGates.MappedExactly | internal/controller/pod_gate_controller.go:449-488 | For a scan that is Registered or in Error a key is requested if and only if some listed pod with that key is in scope, has its scans in the scan's namespace, and runs a container whose image has the hash on the scan's label, or that of the scan's own image if it has no label; in list order, and once if listed once. |
| WatchMapper.QueuedExactly | internal/controller/pod_gate_controller.go:385-393 | A pod event queues a reconcile exactly when the new pod, or the last one of a deleted pod, shows our gate. |
| WatchMapper.RequestsAreTargets | internal/controller/pod_gate_controller.go:414-489 | On a List of the cached gated pods, the requests for the old and the new object of a scan event are together exactly the pods the protocol's step enqueues; on a failed List both are empty. |
| Webhook.Handle | internal/webhook/pod_webhook.go:41-110 | A pod in scope whose bypass annotation is absent or not "true", without our gate, and not running excluded images only, comes out with the gate behind its own and the label, nothing else changed, and a patch is sent unless encoding fails; any other pod is let through unchanged for the first of these reasons; a pod that cannot be decoded is answered 400. |
| Webhook.CheckAllImagesExcluded | internal/webhook/pod_webhook.go:112-134 | True exactly when an exclusion list is configured and every init and every regular container runs an image on it. |
| Webhook.AdmissionIsIdempotent | internal/webhook/pod_webhook.go:66-83 | A second admission changes nothing and sends no patch. |
| Webhook.GateAddedOnce | internal/webhook/pod_webhook.go:60-96 | Exactly one gate is added, exactly to a pod in scope, not asking for a bypass, not gated, and not running excluded images only. |
| Webhook.RemovalRestoresGates | internal/controller/pod_gate_controller.go:315-323 | The controller's removal after the webhook's injection restores the original gate list; only the label remains. |
| Webhook.GatedPodIsInScope | internal/webhook/pod_webhook.go:139-144 | With a shared filter a pod gated by the webhook is in the controller's scope, not asking for a bypass, with the containers it had. |
| Objects.ScopeIsWhatIsNotExcluded | internal/controller/pod_gate_controller.go:328-333 | With an inclusion list a namespace is in scope if it is on it, without one unless it is on the exclusion list; entries that are false count as absent. |
| ImageRefs.Extract | pkg/imageref/imageref.go:24-57 | For every pod spec the closure over three loops yields exactly the non-empty images of init, regular and ephemeral containers, each with the digest its string pins, in that order and each at its first occurrence. |
| ImageRefs.UniqueKeepsFirstOccurrences | pkg/imageref/imageref.go:28-32 | What is kept are exactly the first occurrences of non-empty strings, in order. |
| ImageRefs.ExtractedImages | pkg/imageref/imageref.go:24-57 | Nothing is repeated, invented or lost, no empty string is kept, and the digest is a function of the image string. |
| ImageRefs.PinnedExactly | pkg/imageref/imageref.go:36-41 | The digest read off an image string is what follows the "@" of its first "@sha256:", and nothing when it has none. |
| ImageRefs.ScanNameLength | pkg/imageref/imageref.go:67-78 | Every name has 1 to 63 characters. |
| ImageRefs.ScanNameSpelled | pkg/imageref/imageref.go:67-78 | A name replaces each ":" of the digest and stops after 63 characters; without a digest it is "img-" and 56 digits of the hash of the image string. |
| ImageRefs.ScanNamesAgree | pkg/imageref/imageref.go:67-74 | For well-formed digests names are equal exactly when the first 56 hex digits are. |
| ImageRefs.ScanNameKinds | pkg/imageref/imageref.go:67-78 | A name from a digest is never a name from a hash. |
| Mirrors.ParseRegistryMirrors | pkg/aqua/client.go:250-283 | The appending loop returns what the segments mean, or the first error. |
| Mirrors.ParseFailsExactly | pkg/aqua/client.go:256-277 | It fails exactly when some non-blank segment lacks "=" or has an empty side. |
| Mirrors.PairReads | pkg/aqua/client.go:256-277 | Every rule read off a segment is what stands on either side of its first "=", without the blanks around. |
| Mirrors.ParsedMirrorsAreWellFormed | pkg/aqua/client.go:256-282 | Every list it returns is trimmed, non-empty, free of commas, with no "=" in a source. |
| Mirrors.ParseInvertsPrint | pkg/aqua/client.go:246-283 | Parsing inverts the canonical printer on all well-formed lists. |
| Mirrors.ParsePrintParse | pkg/aqua/client.go:246-283 | Printing what was parsed and parsing again gives the same list. |
| Mirrors.FirstRuleDecides | pkg/aqua/client.go:187-216 | Exactly the first rule for the same registry is used, by normalised name or as the two names of Docker Hub; without one nothing changes. |
| Mirrors.NormalizingStrips | pkg/aqua/client.go:218-224 | Normalising takes off one "https://", then one "http://", then one final slash, and nothing else. |
| Mirrors.RuleMatchesSameRegistry | pkg/aqua/client.go:195-229 | A rule is for a registry exactly when their normalised names are equal or are "docker.io" and "index.docker.io". |
| Mirrors.MirroredAsAsked | internal/controller/pod_gate_controller.go:339-362 | What the registry is asked about is the image behind the mirror of the first rule for its registry: the normalised mirror, a slash, path and suffix; and the image itself without a rule, or when that only repeats its registry. |
| Mirrors.RewriteRebuildsMirror | pkg/aqua/client.go:234-245 | Host and name of a rewritten reference rebuild the normalised mirror followed by the name, with no slash in the host. |
| Mirrors.RewritingNeverCollides | internal/controller/pod_gate_controller.go:339-362 | References to one registry that differ in path, tag or digest stay different under any rules, and so do references the parser rejects; a known digest is kept. |
| Manifests.ExtractImagesFromManifests | cmd/trigger/aqua-trigger.go:441-486 | Blank, undecodable and unsupported documents contribute nothing; a read error discards everything. |
| Manifests.DeduplicateImages | cmd/trigger/aqua-trigger.go:564-576 | The loop with its seen map keeps each image string at its first occurrence. |
| Manifests.DedupeIsOneExtraction | cmd/trigger/aqua-trigger.go:451-477 | De-duplicating the concatenated extractions equals one extraction over all containers concatenated. |
| Manifests.NamedImages | cmd/trigger/aqua-trigger.go:441-486 | The images of a stream are exactly those of the containers of the workloads its documents that are not blank decode to. |
| BatchTrigger.Run | cmd/trigger/aqua-trigger.go:211-438 | The whole run reports what its inputs and outcomes call for, in the order of its checks. A summary counts the triggers Aqua accepted, the images it knows, the failed lookups and triggers, and the images that cannot be resolved, and is an error exactly when some image fails in one of these ways. A scan is requested exactly for the resolved images whose lookup answers not found, up to a cancellation; none in a dry run. |
| BatchTrigger.RunFailsExactly | cmd/trigger/aqua-trigger.go:211-438 | A run fails exactly when the input cannot be read; or there are images and none resolves; or some resolve and the mirror list is malformed, or it is no dry run and is cancelled before the last or some image fails. |
| BatchTrigger.ResolveAll | cmd/trigger/aqua-trigger.go:247-295 | The first loop collects the resolved images in order and counts those without a digest that do not resolve. |
| BatchTrigger.ResolvedExactly | cmd/trigger/aqua-trigger.go:247-295 | What is resolved are, in order, exactly the images with a digest or one to get, with that digest. |
| BatchTrigger.ScanAll | cmd/trigger/aqua-trigger.go:340-410 | The second loop counts the accepted triggers, the known images and the failed lookups and triggers over the resolved images, unless it is cancelled, and requests a scan for those not found. |
| BatchTrigger.EveryImageIsAccountedFor | cmd/trigger/aqua-trigger.go:431-437 | In a summary triggered + already scanned + scan errors + resolve errors equals the number of unique images; each count is that of the replies, and it is an error exactly when some image does not resolve, or its lookup fails, or the trigger it needs does. |
| BatchTrigger.NoImageIsTriggeredTwice | cmd/trigger/aqua-trigger.go:235-410 | No image is requested twice, only images of the manifests are, and of the resolved ones exactly those not found. |
| FileCacheSafety.ExecutionKeeps | pkg/aqua/filecache.go:120-191 | Every interleaving of Sets, Clears and reads, with failures and deaths anywhere, keeps the file system invariant. |
| FileCacheSafety.CacheIsLastRename | pkg/aqua/filecache.go:147-172 | At every moment the cache file is absent, or holds the complete record of the last rename not since cleared. |
| FileCacheSafety.ReadIsComplete | pkg/aqua/filecache.go:94-106 | A read that spans any number of Sets and Clears decodes to the one record that was current when it opened the file. |
| FileCacheSafety.CacheHoldsWhatWasSet | pkg/aqua/filecache.go:132-146 | Whatever holds of every registry list ever passed to Set holds of the list the cache file has at any moment. |
| FileCacheSafety.FailureLeavesCache | pkg/aqua/filecache.go:142-172 | A Set or Clear that fails, or dies, before its rename or removal never changed the cache file, before or after; and its temporary file is gone unless it died or could not remove it. |
| FileCacheSafety.NoLitter | pkg/aqua/filecache.go:150-171 | When nobody died and no cleanup failed, only the cache file is left once all operations are over. |
| FileCache.FileCache.Set | pkg/aqua/filecache.go:120-175 | Success means that its list, stamped with a moment of the call, has just become the cache file; failure means that nothing in the file's history is its doing. |
| FileCache.FileCache.Clear | pkg/aqua/filecache.go:178-191 | Success means that there is no cache file now; failure changed nothing. |
| FileCache.FileCache.Get | pkg/aqua/filecache.go:86-117 | If the read does not fail, the result is a hit exactly when the record current at one moment of the call is at most the TTL old at another, and then that record, else a miss; it fails only when reading a file that is there failed. |
| FileCache.FileCache.IsExpired | pkg/aqua/filecache.go:194-222 | If the read does not fail, not expired exactly when the record current at one moment of the call is at most the TTL old at another. |
| AquaAnswers.StepKeepsHonest | pkg/aqua/filecache.go:120-146 | When only answered lists are passed to Set and stamps are the time of day, every file system step keeps all records, in the file and on the way there, repeats of real answers stamped no earlier than they were given. |
| AquaAnswers.CurrentIsGenuine | pkg/aqua/filecache.go:94-116 | So the record the file has at any moment of its history repeats an answer of the API and is stamped no earlier than that answer. |
| RegistryCache.PrefixMatchesPaths | pkg/aqua/client.go:680-698 | After normalisation a prefix matches exactly when its path elements begin those of the registry, or the registry begins the prefix as text. |
| RegistryCache.FirstServingIsFound | pkg/aqua/client.go:679-703 | The search returns the name of the first registry with a matching prefix, even when that name is empty, and "" when none matches. |
| RegistryCache.AquaClient.GetRegistries | pkg/aqua/client.go:525-558 | A list fresh in memory is returned as it is, with no request and nothing changed; otherwise one fresh in the file, if it can be read, is returned without a request and goes into memory with its own stamp; only then the API is asked, once. Every list is one the API really returned. |
| RegistryCache.AquaClient.FetchRegistries | pkg/aqua/client.go:561-642 | At most one request; a success is put in memory once, stamped no earlier than its answer, and passed to the file cache, which stores it or fails; a failure puts nothing there. |
| RegistryCache.AquaClient.FindRegistryByPrefix | pkg/aqua/client.go:649-676 | A name is the first match in a list the API returned, fetched in this call or at most the TTL old by its stamp when checked, and then nothing is asked; a match in a list fresh in memory is the answer; "not found" rests on a list fetched in this call; at most two requests; it fails exactly when a request could not be made or was not answered; a default registry asks nothing. |
| TokenProtocol.RequestsAreSpaced | pkg/aqua/auth.go:108-115 | Successful requests of one manager are separated, from stamp to sending, by the cached window, for any number of concurrent callers. |
| TokenProtocol.WindowSharesFetch | pkg/aqua/auth.go:89-115 | Every token handed out during the window of a fetch is the token of that fetch. |
| TokenProtocol.WindowLeavesSlack | pkg/aqua/auth.go:189-191 | Truncating nine tenths of v minutes gives floor(9v/10) and leaves at least one minute for every v of at least 1. |
| TokenProtocol.WindowExactly | pkg/aqua/auth.go:189-191 | In nanoseconds the window is nine tenths of the validity, rounded toward zero to whole minutes. |
| TokenProtocol.CachedTokenIsValid | pkg/aqua/auth.go:92-114 | A token from either check is within the server's validity if its answer was stamped within the part the window leaves out. |
| TokenProtocol.MinuteLatencyIsEnough | pkg/aqua/auth.go:189-191 | In particular for every validity of at least a minute and every latency of at most one. |
| TokenTightness.LatencyBoundIsExact | pkg/aqua/auth.go:189-191 | For every validity, cached tokens are always valid under a latency bound if and only if nothing is ever cached or the bound is at most what the window leaves out. |
| TokenManager.TokenManager.constructor | pkg/aqua/auth.go:70-85 | A validity of 0 becomes 240 minutes, and nothing is cached. |
| TokenManager.TokenManager.GetToken | pkg/aqua/auth.go:89-105 | A token returned is the one the protocol hands out at that moment, with exactly one request to the server unless it came from the cache; otherwise the one request failed, or the lock is still taken after as many looks as the call has patience for. |
| TokenManager.TokenManager.FetchToken | pkg/aqua/auth.go:108-199 | Double check, one request and the assignments all happen under the lock, as steps of the protocol: none is sent when another caller has refreshed the token, exactly one otherwise. |
| TokenManager.TokenManager.Receive | pkg/aqua/auth.go:189-198 | The token is cached until nine tenths of its validity have passed, in whole minutes. |

## Left out

- HTTP, JSON, YAML, URL building, HMAC and SHA-256: Aqua, the registries, decoding and hashing are parameters or arbitrary answers; of the hash only its 64 hex digits are used, of JSON only that decoding undoes encoding.
- Digest resolution, keychains and pull secrets (pkg/imageref/resolver.go, pkg/imageref/debug_keychain.go): building the resolver may fail, and resolving yields any digest or an error.
- Bytes: strings are sequences of characters, where Go's are bytes; the lengths and cuts that matter are of ASCII names, digests and hashes.
- The parser of image references: an arbitrary function to registry, path and suffix, where the path holds no ":" or "@".
- Tracing, logging, event recording, flags, wiring and deployment.
- Kubernetes beyond the environment stated above; scans deleted or edited by others.
- Vulnerability counts and the rescan interval, which no reconcile code uses.
- Answers of Aqua other than found, not found and an error: the client returns no other, so the last return of the ImageScan reconcile (internal/controller/imagescan_controller.go:155) is not reached.
- A read of the cache file that fails half-way: reading can fail when the file is opened, and is complete otherwise.
- Loss of power: a renamed file is taken to keep its bytes although the code does not sync it.
- RegistryCache.AquaClient.FindRegistryByPrefix: all who write the cache file are taken to be clients of one API that read one clock; without that the theorems about the file alone still hold.
- TokenManager.TokenManager.GetToken: a call whose lock is still taken after `patience` looks stops with Blocked, where the code would wait on; every wait that ends is covered by some `patience`. A token is named by the fetch it came from, and 64-bit overflow of the validity is not modelled.
- PodGateReconciler.Reconciler.Reconcile: a restart of the process in the middle of a reconcile ends it, and is a step of the protocol but not of this method.
- Idempotence of normalizing a registry URL and monotone stamps in memory: both are false of the code, and nothing here relies on them.
