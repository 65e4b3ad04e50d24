# Governing agents: a verified model of the AIP control plane

The AIP control plane puts autonomous agents under governance. An agent asks for an action by
creating an AgentRequest; a controller evaluates policies, waits for a human where one is needed,
takes a per-target lock (the OpsLock, a Lease object) and lets the request run; a gateway admits
requests, collects the agent's reports and the reviewers' decisions, and mints tokens; a collector
removes what is old. Trust profiles follow from how well an agent's past diagnoses were graded.

This project models that behaviour in Dafny and proves what it keeps.

## How the model is built

The centre is a step machine (`Lifecycle.dfy`). A state holds the stored requests, leases, audit
records, minted tokens, the clock, the running reconcile with its program counter, and the gateway
handlers and collector passes that are between two API calls, each with the snapshot it read and, for
the collector, the time at which it judged it. A run is any sequence of steps. Every controller step
makes at most one API write, and `Crash` may strike between any two, so a process death after any write
is covered. A gateway handler writes back the whole conditions list it read, so a late write may put an
older list back. Theorems are stated for every configuration, every starting time and every sequence of
steps.

Each request carries history (its phases, stored evaluations, losses of its lease, records, verdicts),
and each conditions list the result of the evaluation it stems from; no step consults them.
`History.dfy`, `Guarantees.dfy`, `Grading.dfy` and `Provenance.dfy` show that what it says of evaluations,
losses, verdicts and approvals did happen at steps of the run.

The proof is layered. `Invariant.dfy` states one inductive invariant request by request; `Entries.dfy`
shows that every change to a single request keeps its part; `Decisions.dfy` shows that what one
reconcile decides is always something it may do; `Locks.dfy` treats the leases; `Preservation.dfy` and
`Steps.dfy` put the parts together for every step and every run. `Guarantees.dfy` draws the promises
from it, `Provenance.dfy` those about where approvals come from, `Grading.dfy` those about verdicts,
`Handlers.dfy` what each gateway call does by itself,
`AuditTrail.dfy` and `AuditRuns.dfy` those about audit records, and `Reachability.dfy` shows that the
machine does run: requests do get approved.

`Reconciler.dfy` is the controller as code: one method per controller function, over the API server's
objects as mutable fields, with other clients free to act between any two API calls and a process that
dies once it has used up the writes it has to live. Its contracts say that whatever it does is a run of
the machine, and which phase, conditions, leases and audit records it leaves if it lives.

The other modules are independent of the machine and follow their sources: the trust gate, the policy
evaluator, the token cache and the identity provider around it, the trust ladder, rolling and
incremental accuracy, resource matching, context schemas, classification, signing keys and the
collector's scan.

## Results worth knowing

- Mutual exclusion of the OpsLock is not unconditional: `Reachability.TwoApproved` gives, for every
  configuration, a run without crashes and two requests Approved for one target. `Guarantees.MutualExclusion` and
  `Guarantees.HoldsUnlessLost` say exactly what does hold: an Approved or Executing request holds its
  lease if and only if it has not lost it, and `Guarantees.LossHappened` shows every loss to be a
  takeover after expiry or a release after the approval timed out.
- How long a lock lasts is bounded by the request's first approval (`Guarantees.LockTimeBound`). A late
  gateway write can drop the Approved condition and a later acquisition can stamp it anew, but only
  next to a report of the agent, with which no renewal happens; so the bound also holds in terms of
  whatever Approved condition is stored (`Guarantees.LockTimeBoundStored`).
- A phase path from creation has at most four changes; the first is from the empty phase, so after
  initialization there are at most three.
- `Accuracy.ExactlyOnce`: the incremental counters equal the tally over distinct names if and only if
  every redelivery finds its name among the hundred most recently introduced ones;
  `Accuracy.Overcounted` is a sequence where they do not.
- `Guarantees.ApprovalProvenance` is about the evaluation the approval rests on, not about any that was
  made: an evaluation whose patch was lost in a crash lifts nothing.
- The comment on `resolveTrustLevel` says it picks the highest level; the code picks the last listed
  one. `TrustLadder.ResolveOrderMatters` is a policy where they differ,
  `TrustLadder.ResolveIsHighest` a listing under which they always agree, and
  `TrustLadder.ResolveHighestExactly` says exactly for which policies they do.
- The comment on `normalizeClassification` promises exactly one slash; the code gives at most one
  (`Classification.AtMostOneSlash`), none for "config/" (`Classification.TrailingSlashLost`), and one
  exactly under the condition of `Classification.SlashExactly`. `Classification.ConformsExactly` says
  when the result meets the CRD pattern.
- The cleanup of the identity provider tests a cache and then deletes by key, so it can lose a usable
  token in two ways: a replacement stored under the key (`Provider.LoseFreshCache`) or the tested cache
  renewed in place (`Provider.LoseRefreshedCache`). `Provider.OidcProvider.DeleteTested` says exactly when:
  if and only if the last token that others stored, since the key was read, in the cache bound under it
  is still usable at the deletion.
- A caller of the token cache can be refused for a fetch that was refused before it asked: it joins the
  flight after the refusal and before its delivery (`TokenCache.LateCallerRefused`). Exactly otherwise
  the refusal came after it asked (`TokenCache.ResultsExplained`).
- The seconds of a lease are cut to 32 bits; from 2^31 seconds on a configured duration does not
  survive that (`Guarantees.SecondsExact`).
- The comment on `normalizeClassification` says that already valid values pass through unchanged; exactly
  the normal ones do (`Classification.FixedExactly`), and "a--b/c-" meets the CRD pattern and is changed
  (`Classification.ValidButChanged`).

## Assumptions

- Reconciles are serialized, as with the default single worker; only the controller touches leases.
- One reconcile sees one time, read when it fetches the request; `SetStatusCondition` uses the same
  clock. Times are integers in nanoseconds.
- The controller's reads are taken to be current. Those of governed resources and leases
  (agentrequest_controller.go:241, 842, 973) and of accuracy summaries (accuracy_controller.go:80) go
  through a cached client in the source, so this is assumed of them. Gateway reads may be old: a
  handler's snapshot is any value the request had since the handler started.
- Names of requests hold neither a slash nor a bar, as object names do not, and are not reused within
  a run. One namespace is modelled; locks are per namespace.
- SHA-256 is an arbitrary function. Mutual exclusion is stated per lease name and needs nothing of it.
  Audit exactness assumes that the 53-character digests of the finitely many inputs about the run's
  requests do not collide; over all strings that would be unsatisfiable.
- What the environment answers (the generation and soak mode of a GovernedResource, the evaluator's
  result, exchanged tokens, compiled patterns, CEL outcomes) is an input of the step or a parameter.
- Stored Kubernetes times other than those of leases are cut to whole seconds when written; the model
  keeps them as they are. What runs from such a time, like the grace period from the promotion or the
  approval window, so starts up to a second earlier than the act itself.
- Accuracies are reals. The lease duration in seconds is cut to 32 bits as in the source.
- A decision's reviewer is the caller's subject. Object names are compared byte-wise, and lengths of
  patterns are lengths in bytes.

## Model

| member | source | states |
|---|---|---|
| `TrustGate.EvaluateTrustGate` | cmd/gateway/governed_resource.go:84-170 | An agent is rejected exactly if the floor is no level or stands above it. Otherwise the request carries the agent's own level, or the ceiling where that stands lower; it is stamped can-execute="false" exactly if the first listing of that level does not grant execution, and else says that no human is needed exactly if that listing says so. In terms of the ladder and the listings, both directions. |
| `TrustGate.GateExactly` | cmd/gateway/governed_resource.go:84-170 | The value form of the gate, used by admission, decides the same. |
| `TrustGate.GateFailsClosed` | cmd/gateway/governed_resource.go:128-170 | A request let through whose level is unlisted, barred or without a graduation policy is barred from execution. |
| `TrustGate.Autonomy` | cmd/gateway/governed_resource.go:101-126 | The level that counts never exceeds the agent's own nor a known ceiling, and is one of the two. |
| `Entries.AdmittedSound` | cmd/gateway/agent_request_handlers.go:255-320 | HTTP admission turns away exactly an agent below the floor of a resource whose action is permitted. What it stores is the caller's agent, target and reference, denied at the gateway exactly if the action is not permitted, not executable exactly if the gate applies and does not grant execution, and free of human approval if and only if the first listing of the level that counts grants execution without one. |
| `Entries.McpAdmittedSound` | cmd/gateway/mcp_aip_tools.go:263-371 | The same of a request that comes in through a tool call, where an agent below the floor is stored as not executable and a gate that cannot be evaluated leaves both marks off. |
| `Phases.PathBounded` | internal/controller/agentrequest_controller.go:169-224 | A walk in the phase graph has at most four changes, never repeats a phase, and ends at a settled one. |
| `Phases.PathDescends` | internal/controller/agentrequest_controller.go:169-224 | Every phase change lowers the height, so the graph has no cycle. |
| `Decisions.CheckAllowed` | internal/controller/agentrequest_controller.go:238-302 | After the integrity check the reconcile either goes on having read the admitted generation or is about to deny the request and release its lock. |
| `Decisions.InitializeAllowed` | internal/controller/agentrequest_controller.go:382-487 | Initialization never sends a barred request to Pending, and whatever list it stores claims an evaluation only if there was one. |
| `Decisions.PendingAllowed` | internal/controller/agentrequest_controller.go:508-525 | From Pending a reconcile goes for the lock only on a list whose own evaluation was stored, was not Deny, and whose question, if it asked one, is settled by the waiver or by the human decision it read; no other evaluation counts. |
| `Decisions.ApprovedAllowed` | internal/controller/agentrequest_controller.go:944-1024 | From Approved it renews only inside the approval window and gives the lock up only after it. |
| `Decisions.ExecutingAllowed` | internal/controller/agentrequest_controller.go:1026-1126 | From Executing it only ever fails the request, and drops the lease only if it still holds it. |
| `Decisions.VerdictAllowed` | internal/controller/agentrequest_controller.go:1132-1177 | From AwaitingVerdict it completes the request only once a verdict is stored. |
| `Decisions.DispatchAllowed` | internal/controller/agentrequest_controller.go:197-226 | Whatever a reconcile decides, its next API call is one the invariant allows. |
| `Decisions.MoveAllowed` | internal/controller/agentrequest_controller.go:917-931 | The status patch of a phase change keeps the request's invariant, and what remains to be done afterwards is allowed. |
| `Decisions.ReleaseAllowed` | internal/controller/agentrequest_controller.go:993-1013 | Giving the lock up before the timeout patch is justified by the elapsed approval and leaves the plan in order. |
| `Entries.MoveSound` | internal/controller/agentrequest_controller.go:747-764 | Any planned phase change keeps path, provenance, trust-gate, verdict, loss and deletion facts of the request, and every older snapshot of it stays sound. |
| `Entries.SignalSound` | cmd/gateway/agent_request_lifecycle_handlers.go:251-287 | Writing back an old conditions list with one more report keeps every fact about the request, provided a barred request only ever reports failure. |
| `Entries.DecisionSound` | cmd/gateway/agent_request_review_handlers.go:184-195 | A stored human decision never comes from the requesting agent. |
| `Entries.GradeSound` | cmd/gateway/agent_request_review_handlers.go:67-92 | A verdict is added only to an ungraded request awaiting one. |
| `Entries.DeleteSound` | internal/gc/ar_worker.go:113-169 | Deletion at an age of at least the TTL, of a request at its end, keeps every fact about it. |
| `Invariant.TaskSurvives` | cmd/gateway/mcp_aip_tools.go:452-467 | What holds of a handler's snapshot when it is taken still holds after any later change of the request. |
| `Locks.OneHolder` | internal/controller/agentrequest_controller.go:818-819 | At most one request answers to the holder identity of a lease. |
| `Locks.TakenLease` | internal/controller/agentrequest_controller.go:821-880 | Creating or taking over a lease for a pending request keeps the lock facts of all requests. |
| `Locks.RemovedLease` | internal/controller/agentrequest_controller.go:1181-1201 | Deleting a lease leaves every request that was active under it marked as having lost it, and the lock facts intact. |
| `Locks.NobodyLost` | internal/controller/agentrequest_controller.go:324-326 | Releasing the lock of a request that has settled costs no active request anything. |
| `Locks.RenewedLease` | internal/controller/agentrequest_controller.go:969-989 | A heartbeat inside the approval window keeps the lock facts of all requests. |
| `Preservation.HolderIdInjective` | internal/controller/agentrequest_controller.go:819 | Agent and name can be read back from a holder identity, names having no slash. |
| `Preservation.PutStays` | cmd/gateway/agent_request_lifecycle_handlers.go:257-275 | A write that does not move the request keeps the invariant of the whole cluster, including the running reconcile and every snapshot. |
| `Steps.AcquireKeeps` | internal/controller/agentrequest_controller.go:807-942 | Every branch of lock acquisition keeps the invariant: creation, re-entry, takeover, giving up, waiting. |
| `Steps.DecidedKeeps` | internal/controller/agentrequest_controller.go:508-710 | Whatever the evaluator answers, the decision step keeps the invariant. |
| `Steps.WriteVerdictKeeps` | cmd/gateway/agent_request_review_handlers.go:67-92 | The optimistic lock lets a verdict through only onto the very object that was read ungraded. |
| `Steps.CollectKeeps` | internal/gc/ar_worker.go:113-169 | Deleting by an old copy and an old judgement of the request keeps the invariant. |
| `Steps.StillDue` | internal/gc/ar_worker.go:118-162 | What the collector judged to be due, before waiting on the limiter and paging through audit records, is due whenever it gets to deleting: terminal phases are final and the clock only advances. |
| `Steps.StepKeeps` | internal/controller/agentrequest_controller.go:150-226 | Every step of controller, gateway and collector keeps the invariant. |
| `Steps.RunKeeps` | internal/controller/agentrequest_controller.go:150-226 | The invariant holds in every reachable state. |
| `History.RunFollows` | internal/controller/agentrequest_controller.go:150-226 | What history says of a request after part of a run it still says at the end, and more. |
| `History.EvaluationHappened` | internal/controller/agentrequest_controller.go:600-608 | Every evaluation on record as stored was made at one step of the run and stored at a later one by the same reconcile, with nothing of its own in between. |
| `History.CommitHappened` | internal/controller/agentrequest_controller.go:712-775 | Every result on record as stored was stored by the one status patch of some reconcile of the run. |
| `History.NotingHappened` | internal/controller/agentrequest_controller.go:600-665 | A reconcile about to store an evaluation made that evaluation itself and has not moved since. |
| `Guarantees.MutualExclusion` | internal/controller/agentrequest_controller.go:807-942 | In every reachable state, of two requests Approved or Executing under one lease name at least one has lost its lease, after expiry or after its approval timed out. |
| `Guarantees.HoldsUnlessLost` | internal/controller/agentrequest_controller.go:1026-1126 | An active request holds its lease if and only if it has not lost it. |
| `Guarantees.LossHappened` | internal/controller/agentrequest_controller.go:855-874 | Every loss is a step of the run at which another request took the expired lease over or the controller released it because the approval had timed out. |
| `Guarantees.LeasePerTarget` | internal/controller/agentrequest_controller.go:818-819 | Two targets share a lease exactly if their digests are the same. |
| `Guarantees.SecondsExact` | internal/controller/agentrequest_controller.go:821-834 | A lease runs for the configured duration, five minutes by default, cut to whole seconds, if and only if that is less than 2^31 seconds; it never runs longer. |
| `Guarantees.ApprovalProvenance` | internal/controller/agentrequest_controller.go:667-805 | A request ever Approved rests on one evaluation: the one behind the list its approving reconcile read. One reconcile made and stored it; its result was not Deny; if it asked for approval, that was lifted by an approval by someone other than the agent or by the trust gate: for a request admitted by the gateway, the first listing of the level that counts grants execution without a human. So it is whatever other evaluations were made and lost and whatever older lists the gateway put back; and the admitted generation was read. |
| `Guarantees.ApprovedMarked` | internal/controller/agentrequest_controller.go:917-954 | A request ever Approved has an approval time on record; while it is Approved and nothing is reported, its list says Approved=True since that time, whatever lists were put back. |
| `Provenance.ApprovalTraced` | internal/controller/agentrequest_controller.go:667-931 | The approval is one step of the run, and everything it went by came before it: the evaluation was made and stored by one reconcile, the admitted generation was read by the approving reconcile itself, and a human decision it read had been made and stored in one call by a subject other than the agent. |
| `Provenance.HumanStored` | cmd/gateway/agent_request_review_handlers.go:184-195 | Every human decision on a stored request was made, in a call of the run, by a subject other than the agent and stored by that call. |
| `Provenance.GenerationRead` | internal/controller/agentrequest_controller.go:238-302 | A generation a reconcile goes by was read by that very reconcile, which has been running ever since. |
| `Provenance.AdmissionHappened` | cmd/gateway/agent_request_handlers.go:255-345 | Every stored request came in at one step of the run, under a free name, with exactly the specification and origin it still has. |
| `Provenance.FirstApprovalHappened` | internal/controller/agentrequest_controller.go:747-764 | The approval time on record is the clock of the reconcile whose patch first stored an Approved=True condition for the request. |
| `Guarantees.TrustGateEndToEnd` | internal/controller/agentrequest_controller.go:427-448 | A request whose gate refuses execution is never Pending, Approved or Executing, never holds a lease, never has a token, and is Completed only with a verdict. |
| `Guarantees.PhaseHistory` | internal/controller/agentrequest_controller.go:169-185 | Any phase a request had during a run is on its path; the path is a walk of at most four changes in which approval follows Pending, execution follows approval, expiry follows waiting for a verdict and the rest come first or last; an end phase stays. |
| `Guarantees.VerdictWrittenOnce` | cmd/gateway/agent_request_review_handlers.go:67-92 | With any interleaving of reviewers and controller at most one verdict is ever stored, as a whole, while AwaitingVerdict. |
| `Grading.VerdictFromOneReviewer` | cmd/gateway/agent_request_review_handlers.go:41-92 | All of a stored verdict is what one reviewer submitted, validly, in one call of the run, stored while the request was awaiting a verdict, ungraded and unchanged since that call read it. |
| `Handlers.DecisionCall` | cmd/gateway/agent_request_review_handlers.go:115-215 | A decision is stored, and an approval given a token where tokens are configured, if and only if the request is there and Pending and the caller is not its agent; nothing else changes. |
| `Handlers.VerdictCall` | cmd/gateway/agent_request_review_handlers.go:22-92 | A verdict is stored, stamped with the time, if and only if the request is there, awaiting one and ungraded, and the verdict gives one of the five reasons, or none and is correct. |
| `Handlers.VerdictLands` | cmd/gateway/agent_request_review_handlers.go:67-92 | With others at work in between: the write goes through if and only if the request is in every respect what the handler read. |
| `Handlers.ValidCounts` | cmd/gateway/agent_request_review_handlers.go:41-60 | Of the verdicts that may be stored, accuracy counts exactly those without a reason and the wrong diagnoses. |
| `Handlers.AwaitCall` | cmd/gateway/mcp_aip_tools.go:62-175 | Awaiting approval mints a token exactly for an Approved request, where tokens are configured. |
| `Handlers.ExecutingCall` | cmd/gateway/agent_request_lifecycle_handlers.go:71-112 | The start is put on the list if and only if the request is there and Approved; nothing else of it changes. |
| `Handlers.CompletedCall` | cmd/gateway/agent_request_lifecycle_handlers.go:114-156 | The completion is put on the list if and only if the request is there and Executing; nothing else of it changes. |
| `Handlers.McpCompleteCall` | cmd/gateway/mcp_aip_tools.go:400-416 | Completion by token puts start and completion on the list, without a token nothing. |
| `Handlers.AbandonCall` | cmd/gateway/mcp_aip_tools.go:420-448 | Abandoning puts the failure on the list exactly if the request is there and Executing, Pending or awaiting a verdict. |
| `Handlers.AbandonApprovedCall` | cmd/gateway/mcp_aip_tools.go:420-448 | Abandoning an Approved request puts its start and its failure on the list. |
| `Handlers.CollectCall` | internal/gc/ar_worker.go:113-169 | A pass deletes the request if and only if it is at an end, at least the TTL old, a TTL is set and it is no dry run; no other request changes. |
| `Handlers.DedupCall` | cmd/gateway/agent_request_handlers.go:344-370 | A duplicate is deleted exactly if it is at an end. |
| `Guarantees.DeletionSafe` | internal/gc/ar_worker.go:113-179 | Whatever is deleted was and stays terminal; what the collector deletes is at least the TTL old when it goes, however long before it was judged; nothing in dry-run mode or without a TTL. |
| `Guarantees.LockTimeBound` | internal/controller/agentrequest_controller.go:954-989 | The holder's renew time is at most the later of acquisition and the first stored approval plus the approved timeout; past that plus the lock duration the lease is expired. |
| `Guarantees.LockTimeBoundStored` | internal/controller/agentrequest_controller.go:954-989 | The same bound holds in terms of the transition time of whatever Approved=True condition is stored, at any point of any run. |
| `Guarantees.FrozenWhileExecuting` | internal/controller/agentrequest_controller.go:1113-1121 | No step changes the lease of a request that is Executing, short of taking it away. |
| `Guarantees.LeaseFrozen` | internal/controller/agentrequest_controller.go:1113-1121 | At any two points of a run where a request is Executing and still the holder, it holds the very same lease. |
| `Reachability.CanBeApproved` | internal/controller/agentrequest_controller.go:807-942 | Any fresh request whose lock is free or expired can be brought to Approved without moving anyone else. |
| `Reachability.TwoApproved` | internal/controller/agentrequest_controller.go:855-874 | Under every configuration some run in which the controller never dies has two requests Approved for one target. |
| `AuditTrail.AuditInputInjective` | internal/controller/agentrequest_controller.go:112-116 | The hashed input determines request, event and both phases. |
| `AuditTrail.MovedTrail` | internal/controller/agentrequest_controller.go:747-764 | Right after a phase change nothing stands for it yet and all earlier ones are as they were. |
| `AuditTrail.EdgeRecord` | internal/controller/agentrequest_controller.go:1206-1275 | The record of a phase change is new, and making it leaves each phase change with at most one. |
| `AuditRuns.FreshName` | internal/controller/agentrequest_controller.go:1261-1271 | A record that has not been made has a free name. |
| `AuditRuns.StepTrail` | internal/controller/agentrequest_controller.go:1206-1275 | Every step keeps the audit facts. |
| `AuditRuns.AuditExactness` | internal/controller/agentrequest_controller.go:1206-1275 | Each phase change has at most one record standing for it in every reachable state, exactly one if the controller never died and is not at work on the request; every record filed under a phase change is about one that was made; until collection they are all stored under their names. |
| `AuditRuns.NeverSwallowed` | internal/controller/agentrequest_controller.go:1265-1268 | AlreadyExists never swallows the record of a phase change. |
| `Reconciler.Cluster.Reconcile` | internal/controller/agentrequest_controller.go:150-226 | A missing or settled request is left alone. Otherwise the call looks at the resource, decides on an intact one, makes at most five writes, and leaves exactly the phase and the leases that follow from what it read, whatever others do in between; the conditions list it stores with them and the audit records it files are exactly those that follow too. An approval overdue since it was first given ends Failed with the own lease gone, no matter which lists were put back. Only a process with fewer than five writes left to live can die on the way, and all of it is a run of the machine. |
| `Reconciler.OverdueEnds` | internal/controller/agentrequest_controller.go:944-1013 | In every state the code can reach, what is to become of an Approved request with no report, later than the timeout after its first approval, is Failed and its own lease gone; nothing is assumed of its conditions. |
| `Reconciler.Cluster.CheckGovernedResourceIntegrity` | internal/controller/agentrequest_controller.go:238-302 | Denies exactly when the resource is missing or at another generation, in at most three writes, ending in Denied with the own lease given up and the denial filed, and otherwise goes on having read the admitted one with nothing written. |
| `Reconciler.Cluster.CheckAgentTransitions` | internal/controller/agentrequest_controller.go:304-377 | Handles exactly requests with a reported completion, failure or start that moves them, in at most four writes: they end Completed or Failed with the own lease given up, or Executing with all leases as they were, their conditions as read and both events of the change filed; otherwise nothing is touched. |
| `Reconciler.Cluster.InitializePhase` | internal/controller/agentrequest_controller.go:382-487 | Handles exactly requests with no phase and no submission on record: gateway-denied ones end Denied, observing ones Observed, those that may not execute or are soaking AwaitingVerdict, the rest Pending, with the submission on the list and the event filed; no lease changes. |
| `Reconciler.Cluster.HandleApprovalWait` | internal/controller/agentrequest_controller.go:667-710 | An approval leads to Approved, Denied or waiting as the lock allows, a denial to Denied, with the list and the event that go with each; without a decision nothing stored changes. |
| `Reconciler.Cluster.HandleEvaluationResult` | internal/controller/agentrequest_controller.go:712-805 | In at most five writes: a denial ends in Denied; any other result is stored by one patch of this call, with the waiver or the need for approval on the list, and filed; Allow and Log then go for the lock, and a request for approval waits with no lease touched. |
| `Reconciler.Cluster.AcquireLease` | internal/controller/agentrequest_controller.go:807-915 | Wins exactly if the lease is free, its own or expired, and writes a lease only then; is refused exactly past the wait limit; other leases stay; one write, and with one left to live it always comes to an outcome. |
| `Reconciler.Cluster.HandleLockAcquisition` | internal/controller/agentrequest_controller.go:807-942 | In at most three writes: with the lock available the request ends Approved and holding it, its list saying Approved=True since this reconcile unless it did before, and the approval is filed; otherwise Denied with Approved=False past the wait limit and Pending before it, with no lease changed; with three writes left to live it always gets there. |
| `Reconciler.Cluster.ReconcileApproved` | internal/controller/agentrequest_controller.go:944-1024 | Inside the window the own lease is renewed and the request stays Approved; after it the own lease is gone and the request Failed, with Failed=True on its list and the failure filed; without the Approved condition nothing stored changes. |
| `Reconciler.Cluster.ReconcileExecuting` | internal/controller/agentrequest_controller.go:1026-1126 | With the lease missing, or held and not expired, nothing stored changes; otherwise the request ends Failed with Failed=True on its list, the loss and the failure are filed, and a lease of its own that has run out is deleted unless that call fails. |
| `Reconciler.Cluster.ReconcileAwaitingVerdict` | internal/controller/agentrequest_controller.go:1132-1177 | Ends Completed with a verdict and Expired after the week, each with its event filed; otherwise nothing stored changes. |
| `Reconciler.Cluster.ReleaseLock` | internal/controller/agentrequest_controller.go:1181-1201 | With a write left to live, the lease goes exactly if this request holds it; no other lease changes, and one write is made. |
| `Reconciler.Cluster.EmitAuditRecord` | internal/controller/agentrequest_controller.go:1206-1275 | One step of the machine: the record under its deterministic name, an existing one counting as success, then the next event. |
| `Reconciler.Cluster.Sound` | internal/controller/agentrequest_controller.go:150-226 | Whatever the code did, the lifecycle invariant holds of the stored objects. |
| `Evaluation.Evaluate` | internal/evaluation/evaluator.go:53-158 | The result denies if and only if some scanned rule fails under a failure mode that is absent or FailClosed, or a matching rule denies; failing that it asks for approval, or logs, if and only if a matching rule of the request does. A failure under any other mode asks for nothing, and in the cascade only failures and denials count. Code, message and reports are those of the scan over policies, rules and targets in order; an unprepared request is denied as an evaluation failure. |
| `Evaluation.StrictestDecides` | internal/evaluation/evaluator.go:53-233 | The same of the scan, in terms of the policies' own fields and what each expression says. |
| `Evaluation.EvaluateRule` | internal/evaluation/evaluator.go:76-139 | One rule raises the running action exactly when it asks for more, and is reported exactly when it failed or matched other than Allow. |
| `Evaluation.EvaluateCascade` | internal/evaluation/evaluator.go:160-233 | The same policies against every affected target extend the scan; only failures under FailClosed and Deny rules count. |
| `Evaluation.QuietAllow` | internal/evaluation/evaluator.go:147-155 | There is a code exactly for a denial, and no message short of an approval request. |
| `EvaluationLaws.FinalAction` | internal/evaluation/evaluator.go:53-158 | The final action is the highest any rule in the scan asks for, Allow if none does: both directions, independent of the scan. |
| `EvaluationLaws.NeverLowers` | internal/evaluation/evaluator.go:75-140 | More rules, more targets, or a cascade scan where there was none never lower the action. |
| `EvaluationLaws.AddingPolicies` | internal/evaluation/evaluator.go:75-140 | Adding policies never lowers the action. |
| `EvaluationLaws.OrderIrrelevant` | internal/evaluation/evaluator.go:75-140 | No permutation of policies or affected targets changes the action. |
| `EvaluationLaws.RuleOrderIrrelevant` | internal/evaluation/evaluator.go:76-77 | No permutation of the rules of a policy changes the action. |
| `EvaluationLaws.FailOpenIrrelevant` | internal/evaluation/evaluator.go:105-110 | Errors under FailOpen change neither action nor code nor message. |
| `EvaluationLaws.CascadeOnlyDenies` | internal/evaluation/evaluator.go:160-233 | The cascade scan leaves the action alone or raises it to Deny. |
| `EvaluationLaws.CodeNamesFirstDenial` | internal/evaluation/evaluator.go:147-150 | A denial carries the code and message of the first item in scan order that demands it, told from the policy's fields; nothing else carries a code. |
| `EvaluationLaws.MessageNamesFirst` | internal/evaluation/evaluator.go:112-137 | A result that asks for approval, like a denial, carries the message of the first item in scan order that asks for it. |
| `EvaluationLaws.ItemsInOrder` | internal/evaluation/evaluator.go:75-77 | The scan looks at policies in order and at the rules of each in order. |
| `EvaluationLaws.ScanInOrder` | internal/evaluation/evaluator.go:160-190 | It looks at the affected targets in order, each with all policies. |
| `EvaluationLaws.ReportsExactly` | internal/evaluation/evaluator.go:89-137 | The reports name exactly the rules that failed, or matched to some effect, each with what came of it. |
| `TokenCache.RunKeeps` | internal/credential/cache.go:60-108 | The cache invariant holds under every interleaving of callers, deletions and clock ticks. |
| `TokenCache.OneFetchAtATime` | internal/credential/cache.go:76-101 | Between two fetches of a key starting, the first has ended. |
| `TokenCache.RefetchOnlyWhenStale` | internal/credential/cache.go:65-85 | A stored token neither replaced nor deleted is fetched anew only with less than five minutes left (for Get: at most thirty seconds, or no token). |
| `TokenCache.StoreMatchesLog` | internal/credential/cache.go:90-101 | The store is what successful fetches and deletions made it; failures leave no trace. |
| `TokenCache.TokensGenuine` | internal/credential/cache.go:60-108 | Every token handed to a caller came from a fetch for that caller's key. |
| `TokenCache.ResultsExplained` | internal/credential/cache.go:60-108 | Over any interleaving, a caller that is done with a token got the one stored and fresh when it looked, or the one its flight fetched and stored; one that is done without joined a flight whose fetch was refused, no earlier than it asked unless it joined after the refusal. |
| `TokenCache.FreshIsServed` | internal/credential/cache.go:65-75 | A caller that looks while a fresh token is stored is served that token. |
| `TokenCache.StoredWasAnswered` | internal/credential/cache.go:90-101 | Whatever is stored is what a fetch for that key answered. |
| `TokenCache.DeletedIsGone` | internal/credential/cache.go:112-117 | A deletion takes out exactly the token of its key. |
| `TokenCache.WaitingEnds` | internal/credential/cache.go:76-108 | From any reachable state a waiting caller can be brought to its end, whatever its fetch answers. |
| `TokenCache.LateCallerRefused` | internal/credential/cache.go:76-108 | A run in which a caller that asks after a fetch was refused, but before that is delivered, shares the refusal. |
| `Provider.OidcProvider.Token` | internal/credential/k8s.go:156-201 | With others acting between any two operations: the credential returned was exchanged for an identity with the digest of the one that asked, so for that one unless digests collide; a call that joins no other's fetch fails only without a URL or an identity or with its exchange; a failed call stores nothing, and the cache it made itself is in the map no more; of each deletion of its cleanup it is said exactly what was taken out and when that was a usable token. |
| `Provider.OidcProvider.Get` | internal/credential/cache.go:126-163 | A usable cached token is returned at once; otherwise the one this caller exchanged, or the first that others stored in this cache after it joined their fetch: always one that was in this cache during the call and was exchanged for its identity; a caller that leads the fetch fails only if its exchange does, and a failure stores nothing. |
| `Provider.OidcProvider.Fetch` | internal/credential/cache.go:137-163 | After a second look, what the exchange answers is stored and returned; a refusal or an empty token is a failure that stores nothing. |
| `Provider.OidcProvider.EvictExpired` | internal/credential/k8s.go:193-198 | A binding outlives the cleanup only if its cache was tested during it and had not expired; bindings that appear are to caches made since; every deletion is as DeleteTested says. |
| `Provider.OidcProvider.DeleteTested` | internal/credential/k8s.go:193-198 | The deletion is by key. It takes out the tested cache if and only if others did not take that binding out since it was read. It loses a usable token if and only if the last one that others stored since then in the cache bound under the key is still usable; for the tested cache only stores after the test matter, and without one it goes as expired as it was found. |
| `Provider.OidcProvider.UseFirst` | internal/credential/k8s.go:180-189 | A first fetch that fails leaves the own cache out of the map, whoever else was at work, and never takes out a replacement. |
| `Provider.LoseFreshCache` | internal/credential/k8s.go:193-198 | An interleaving of two cleanups and a new call in which a fresh cache is deleted in place of the expired one that was tested. |
| `Provider.LoseRefreshedCache` | internal/credential/k8s.go:171-198 | An interleaving in which the tested cache is renewed in place before it is deleted, and its fresh token is lost. |
| `TrustLadder.ResolveTrustLevel` | internal/controller/agenttrustprofile_controller.go:431-444 | The result is the last listed level whose minimums are met, or Observer. |
| `TrustLadder.ResolveIsHighest` | internal/controller/agenttrustprofile_controller.go:430-444 | With levels listed in ascending rank it outranks or equals every level that is met. |
| `TrustLadder.ResolveHighestExactly` | internal/controller/agenttrustprofile_controller.go:430-444 | Every agent is resolved to the highest level it meets if and only if the policy is listed well: each attainable level listed before a lower attainable one is followed, after both, by one that asks no more than the two together. |
| `TrustLadder.ResolveOrderMatters` | internal/controller/agenttrustprofile_controller.go:430-444 | A policy for which the result is not the highest level met. |
| `TrustLadder.CheckDemotion` | internal/controller/agenttrustprofile_controller.go:447-480 | Demotion is due if and only if the grace period has passed and the accuracy falls short of the minimum set by the first listing of the old level that sets one, by more than its buffer, or the drop threshold where it has none. |
| `TrustLadder.Profile.Evaluate` | internal/controller/agenttrustprofile_controller.go:136-177 | Promotions at once, demotions exactly when due in that sense, and the times of both. |
| `TrustLadder.AntiFlapping` | internal/controller/agenttrustprofile_controller.go:136-177 | Over any run every demotion comes at least the grace period after every earlier promotion and only with the accuracy short of the old level's minimum by more than the buffer, so lost executions alone never demote. |
| `TrustLadder.EarnedIsHeld` | internal/controller/agenttrustprofile_controller.go:136-177 | Over any run, a level earned that is no lower is held at once, and a lower one as soon as demotion is due. |
| `TrustLadder.FewReversals` | internal/controller/agenttrustprofile_controller.go:447-464 | Promotions followed by demotions number at most one per grace period of the run. |
| `RollingAccuracy.ComputeRollingAccuracy` | internal/controller/agenttrustprofile_controller.go:320-393 | The average, with a point for a correct and half a point for a partial verdict, over records that diagnose: as many as there are up to the window size, none left out that is newer than one taken, none taken twice; None if there are none. |
| `RollingAccuracy.OneKind` | internal/controller/agenttrustprofile_controller.go:369-392 | A window of correct verdicts gives 1, of partial ones a half, of others 0. |
| `RollingAccuracy.ListOrderIrrelevant` | internal/controller/agenttrustprofile_controller.go:352-363 | For a permuted list with distinct times the same accuracy and the same total are returned. |
| `RollingAccuracy.OldRecordsIrrelevant` | internal/controller/agenttrustprofile_controller.go:365-367 | For a list from which any records outside the window were deleted the same accuracy and the same total are returned. |
| `Accuracy.Summary.Reconcile` | internal/controller/accuracy_controller.go:53-153 | Each delivery counts once while its name is remembered; accuracy stays the ratio of the counters, in [0,1]; the memory holds at most a hundred names. |
| `Accuracy.ExactlyOnce` | internal/controller/accuracy_controller.go:107-147 | The counters equal the tally over distinct counting names if and only if every redelivery comes while its name is among the hundred newest. |
| `Accuracy.FirstsExactly` | internal/controller/accuracy_controller.go:53-112 | What is tallied is one delivery for each name that has a graded one with a reason about the diagnosis, and nothing else. |
| `Accuracy.RememberedExactly` | internal/controller/accuracy_controller.go:141-152 | A name is remembered exactly as long as at most 99 newer ones have come. |
| `Accuracy.LateRedelivery` | internal/controller/accuracy_controller.go:107-147 | After more than a hundred distinct names a redelivery of the first is counted again. |
| `Accuracy.Overcounted` | internal/controller/accuracy_controller.go:107-147 | A concrete sequence: 101 requests and one late redelivery give a total above 101. |
| `Accuracy.CountsAddUp` | internal/controller/accuracy_controller.go:113-122 | The three counts add up to the total. |
| `Accuracy.TallyExactly` | internal/controller/accuracy_controller.go:113-122 | The tally counts each verdict as often as it was delivered. |
| `Accuracy.RatioAverages` | internal/controller/accuracy_controller.go:124-128 | The accuracy is the average over the tallied verdicts, a point for a correct and half a point for a partial one. |
| `Accuracy.Recompute` | cmd/gateway/accuracy_handlers.go:24-66 | For each summary name with graded requests in question, and no other, the tally of all requests whose agent has that profile name. |
| `Accuracy.GradedExactly` | cmd/gateway/accuracy_handlers.go:24-66 | A request goes into a summary exactly if it is graded, its agent has that profile name and is the one asked for, if any is. |
| `Accuracy.RecomputeAgrees` | cmd/gateway/accuracy_handlers.go:24-66 | With prompt deliveries and no non-counting codes the incremental counters of a summary equal the recomputed ones. |
| `Matching.GlobCache.Match` | cmd/gateway/governed_resource.go:37-79 | Nil exactly if no resource compiles, matches and permits the action; otherwise one that does, every other having a shorter pattern, or one as long and a name that does not come before it; whatever the cache held. |
| `Matching.LessExactly` | cmd/gateway/governed_resource.go:72-76 | The order of names is the one by the first character where they differ. |
| `Matching.GlobCache.Add` | cmd/gateway/governed_resource.go:58-63 | The cache keeps agreeing with the compiler and never exceeds 1001 entries. |
| `Matching.OneAnswer` | cmd/gateway/governed_resource.go:30-36 | With distinct names the answer does not depend on the order of the items. |
| `Schemas.AppendOnly` | cmd/gateway/governed_resource_handlers.go:222-255 | Accepts exactly schemas that keep every field with its type; dropping one only if it declares nothing. |
| `Schemas.CheckConsistency` | cmd/gateway/governed_resource_handlers.go:196-220 | Accepts exactly if the new schema extends that of every peer. |
| `Schemas.Registry.Handle` | cmd/gateway/governed_resource_handlers.go:34-58 | Creates, replaces and deletes are served exactly when the checks pass, change the store under their name alone, and otherwise leave it as it is. |
| `Schemas.AlwaysChain` | cmd/gateway/governed_resource_handlers.go:113-139 | After any requests the schemas of a fetcher are totally ordered by extension. |
| `Schemas.OneTypePerField` | cmd/gateway/governed_resource_handlers.go:222-255 | A field declared by two of them has one type. |
| `Classification.Slugify` | cmd/gateway/server.go:276-296 | The loop computes the slug of the segment. |
| `Classification.SlugCanonical` | cmd/gateway/server.go:276-296 | A slug is empty or canonical: letters, digits and single inner hyphens, a letter first. |
| `Classification.SlugKeepsText` | cmd/gateway/server.go:276-296 | It spells out exactly the segment's lower-cased letters and digits in order, with an "x" in front when they start with a digit. |
| `Classification.SlugJoinsWords` | cmd/gateway/server.go:276-296 | A slug is the words of the lower-cased segment with one hyphen between any two, so every run of other runes between kept ones leaves exactly one, and "x-" in front of a leading digit. |
| `Classification.SlugEmpty` | cmd/gateway/server.go:276-296 | It is empty exactly when nothing in the segment is alphanumeric. |
| `Classification.NormalizeFixes` | cmd/gateway/server.go:248-271 | Normal values, of canonical segments, pass through unchanged. |
| `Classification.FixedExactly` | cmd/gateway/server.go:246-271 | A value passes through unchanged if and only if it is empty, one canonical segment, or two joined by a slash. |
| `Classification.ValidButChanged` | cmd/gateway/server.go:246-247 | A value that meets the CRD pattern and is changed: "a--b/c-". |
| `Classification.Idempotent` | cmd/gateway/server.go:248-271 | Normalising twice is normalising once. |
| `Classification.AtMostOneSlash` | cmd/gateway/server.go:248-271 | The result has at most one slash. |
| `Classification.SlashExactly` | cmd/gateway/server.go:248-271 | The result has its one slash if and only if a letter or digit comes before and another after the first slash of the input. |
| `Classification.NormalizeKeepsText` | cmd/gateway/server.go:248-271 | Cut at its first slash, a value keeps the letters and digits of both sides; without one it is its slug. |
| `Classification.TrailingSlashLost` | cmd/gateway/server.go:245-247 | The promise of exactly one slash fails at "config/". |
| `Classification.ConformsExactly` | api/v1alpha1/agentrequest_types.go:47 | The result meets the CRD pattern exactly when both sides of the first slash slugify to something. |
| `KeyRotation.Manager.ReloadKey` | internal/jwt/manager.go:137-168 | A real rotation keeps the old key as previous and restarts the grace period; the same key or a failed load changes nothing. |
| `KeyRotation.Manager.MintToken` | internal/jwt/manager.go:193-218 | A minted token is accepted at once, is signed by the current key and carries its expiry half an hour on, cut to a whole second. |
| `KeyRotation.Manager.ValidateToken` | internal/jwt/manager.go:221-264 | Accepts exactly by the current key, or by the previous one within the grace period. |
| `KeyRotation.AcceptedExactly` | internal/jwt/manager.go:221-264 | Over any run of reloads a token is accepted exactly if in time (section 4.1.4 of RFC 7519) and signed by the latest installed key, or by the one before it within five minutes of the last real rotation. |
| `KeyRotation.SameKeyReloads` | internal/jwt/manager.go:157-160 | Reloads of the installed key and failed reloads never change the grace window. |
| `KeyRotation.MintedLifetime` | internal/jwt/manager.go:193-243 | Whatever reloads follow, a minted token is accepted exactly while in time and while its key is the latest installed or was replaced at most the grace period ago; a key not installed again survives one real rotation by the grace period and no second; never past the half hour. |
| `Collector.Run` | internal/gc/ar_worker.go:42-111 | Nothing without a TTL or with the safety valve shut; otherwise the whole scan, or its part up to where the rate limiter gave up. |
| `Collector.ProcessRequest` | internal/gc/ar_worker.go:113-169 | One object is deleted, skipped or left as its phase, age and the mode say. |
| `Collector.DeletesOnlyDue` | internal/gc/ar_worker.go:113-129 | Everything deleted was terminal and old enough when looked at; a dry run deletes nothing. |
| `Collector.DeletesAllDue` | internal/gc/ar_worker.go:80-105 | Nothing due is left out of a completed scan. |
| `Collector.ScanCounts` | internal/gc/ar_worker.go:113-135 | A scan looks at everything once, passes over what is due in a dry run and otherwise asks the limiter once for each. |
| `Collector.ValveCounts` | internal/gc/ar_worker.go:50-69 | The valve counts the requests of the first page that are at an end. |

## Left out

- HTTP and JSON handling, event streams, logging, metrics, authentication and roles: input and output only.
- Provider context and target context fetching, and the patch that stores a provider context: they change neither phase nor conditions.
- The result text of a request and the backfill of it into its audit record: stored and shown, never decided on.
- The reason a human must give when active endpoints were verified: a body check that changes no state.
- Denial codes and messages on the request itself; those of the evaluator are modelled.
- Registration policy and identity checks of the HTTP handler, and permitted agents: they only refuse.
- Request names: deduplication by name is left out beyond deleting a terminal duplicate, and names are taken as fresh.
- Trust-profile audit records: levels can repeat a transition, so their names are not unique.
- The trust ladder without a graduation policy: the demotion guard is then skipped.
- CEL, glob matching, JSON schema validation, Ed25519, SHA-256 and token exchanges: functions or inputs.
- Provider.OidcProvider.Get: that fetches of one cache do not overlap, by which the fetch joined is the next to store, is stated in the token cache module and used here, not proved again.
- Floating-point rounding of accuracies.
- Reconciler.Cluster.Reconcile: what the controller requeues and when is not modelled; any later step may start another reconcile.
- Collector.Run: a failing page list ends the scan like a rate limiter that gave up and is not modelled apart from it.
- Lifecycle steps for the deprecated reference kept in the spec only: the reference is one value fixed at admission.
