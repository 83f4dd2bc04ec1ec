# Stackdome, verified

A Dafny model of the parts of Stackdome whose correctness rests on more than one function, with proofs of what they
are for. Each module follows one source file, or states what that file promises.

* **Compute quota.** `ComputeQuota` holds the cloud policy's usage projection and admission checks over wrapping 64-bit
  counters. `OrganisationUsage` holds what an organisation really owns, and proves that projecting usage which omits the
  replaced stack is the same as recounting after the mutation. `QuotaTransactions` interleaves transactions that lock an
  organisation, read its four counts one at a time, decide, write and commit or abort, with deletions that take no lock;
  committed organisations never leave their limits. `QuotaRoom` shows that this needs just the room below 2^63 that it is
  proved with. `CloudConfig` connects the configuration check with the policy
  built from it and with addon defaulting.
* **Server-sent events.** `EventStreamWriter` is the handler that prints a stream of objects. `EventStreamParser` is the
  reader of sections 9.2.5 and 9.2.6 of the WHATWG HTML Standard. `EventStreamRoundTrip` proves exactly which streams
  the reader recovers.
* **Installer.** `InstallerPlatform` resolves platform flags against the stored configuration, `InstallerSecrets` reads,
  renders and merges the bootstrap secret, and `InstallerRuns` puts whole install and upgrade runs together and proves
  what no sequence of runs can change, with the exact conditions where a promise can fail; `InstallerExamples` has a run
  for each failure.
* **Transaction hooks.** `TransactionHooks` has contexts, post-commit hooks and compensations. `Transactions` has the
  transaction executor, run under a context with or without a transaction and hooks, and proves that nested calls join.
  `Saga` proves what running the compensations restores, along the path a program took and when compensations fail, and
  `ClusterCompensations` applies it to the two compensations that the cluster service registers.
* **Cluster manager.** `ClusterManager` keeps registered clusters and the supervisor's services in agreement under every
  interleaving, a re-registration being two steps.
* **Names and trees.** `DomainNames` and `ResourcePorts` (direct children of the platform domain and certificate sources
  of ports), `SecretNames` (cluster secret names), `Scopes` and `Permissions` (token scopes), `ChartWalk` (the pruned walk
  for `crds` directories). `Splitting` and `Wrappers` are shared helpers.

Code that updates state in place is modelled by classes and methods, each tied by its `ensures` to a function of the old
state; the lemmas are about these functions.

## Where the code does not do what it, or its documentation, suggests

* Stack admission adds 64-bit counters that can wrap. `OrganisationUsage.AdmissionIsExact` and `VolumeAdmissionIsExact`
  say exactly when the verdict is right; `OverflowAdmits` is an input of the policy where it is not. The services count
  desired resources in memory and never ask for so many, so this input concerns the policy's own interface only. Over
  runs, `QuotaRoom.SafetyExactly` says how large desired counts may be.
* The handler does not split data at line breaks. `EventStreamRoundTrip.RoundTrip` is therefore an equivalence: a stream
  is recovered if and only if nothing it writes holds a CR or LF, and no written id a NUL. The handler writes one terminal
  frame at most, and last (`OneTerminalFrame`, any texts), but a text with line breaks can make the reader see another
  one, an `end` event included, while the stream goes on: `ForgedTerminalEvent`. `FlushedMessagesExactly` and
  `OutcomeToldExactly` scan the written lines and say exactly when the reader sees messages only, and exactly when it sees
  messages and then how the stream ended.
* The base domain and ACME environment are documented as stable (cmd/installer/platform.go:67-69). Install reads the
  secret twice, and treats a first read that does not answer as a fresh installation and a second one as a missing secret.
  `InstallerRuns.BaseDomainSurvives`, `ACMESurvives`, `PasswordsSurvive` and `SharedComputeSurvives` say exactly when each
  lasting value survives a run whose reads may not answer, and `RunKeepsPermanent` when all of them do;
  `HarmlessRunsKeepAll` is the promise over all sequences of such runs, `ConfigurationIsPermanent` its case in which the
  reads of installs answer. `InstallerExamples.BlindInstallLosesAll` and `RestagedInstallReplacesACME` are runs in which
  values do not survive. Stability of the ACME environment also needs that a secret without a base domain has no platform
  values at all, which every run keeps: `InstallerPlatform.ACMEIsKept` is the exact condition without it.
* The manifest of the bootstrap secret puts every value but the private key between double quotes as it is
  (install/manifests/bootstrap-secret.yaml:12-30). A value with a backslash is stored as something else, and one with a
  double quote makes a manifest that cannot be read. `InstallerSecrets.RenderedIsRead` and `InstallerRuns.StoredAsMeant`
  say exactly when values are stored as supplied, `RepeatExactly` when repeating a run writes nothing, and
  `InstallerExamples.EscapedIsWrittenAgain` is a run that, repeated, writes again.
* The four GitHub App values are set together except when a run reads an empty key file and no key is stored, or it is an
  install whose second read does not answer: `InstallerRuns.EmptyKeyFile`, an equivalence, and
  `InstallerExamples.EmptyKeyInstallBreaksGroup`.
* Addon defaulting is not idempotent for every limits value; `CloudConfig.DefaultingTwice` says for which it is, and
  `AcceptedDefaultingTwice` that every accepted configuration is among them.
* Outside a transaction a post-commit hook is to run at once (pkg/db/session.go:63-66). A compensation is outside, and
  still finds the finished transaction's hooks (`TransactionHooks.CompensationsFindFinishedHooks`): what it defers is kept
  there and not run, and a compensation it registers is dropped (`PostCommitHooks.RunRollback`). None of it has an effect,
  under any context and for any program: `Transactions.HooksRegisterForNothing`.
* The compensation of a cluster's creation undoes it exactly when, if the cluster was not registered before, its service
  is removed or nothing was registered. That of an update undoes it exactly when the cluster was registered with the
  previous credentials, or, if these do not connect, not at all; and when its service is not removed, exactly when the
  update had changed nothing. `ClusterCompensations.CreationIsUndone`, `UpdateIsUndone`, and for transactions that fail
  afterwards `FailedCreationExactly`, `FailedUpdateExactly`.
* A re-registration that succeeds can leave other credentials registered when someone registers the cluster between its
  two halves, even when its own do not connect: `ClusterManager.ReRegisteredCredentials` (exact) and `RotationCanBeLost`
  (an interleaving).
* A scope with a blank resource, such as `:read`, is never valid but covers every resource type without a parent:
  `Scopes.ValidityFailsExactly`, an equivalence.
* Different hosts can share a secret name; `SecretNames.CollisionByCharacter` says which, character by character.

## Model

| member | source | states |
|---|---|---|
| OrganisationUsage.ProjectionIsRecount | pkg/computequota/stack_limits.go:29-59 | Projecting the usage that omits the replaced stack gives exactly what a recount finds after creating, replacing, extending or updating a stack |
| OrganisationUsage.StackTotals | pkg/computequota/stack_limits.go:44-56 | Real stack and resource totals after each kind of mutation, from the totals with the replaced stack left out |
| OrganisationUsage.TotalWithout | pkg/stores/pgstore/compute_usage.go:21-72 | A resource count splits into one stack's share and the count that omits it |
| OrganisationUsage.TotalShrinks | pkg/stores/pgstore/compute_usage.go:21-72 | Fewer stacks with fewer resources never count more |
| OrganisationUsage.AdmissionIsExact | pkg/computequota/policy.go:101-130 | Stack admission is right (admits if and only if the real totals afterwards are within limits) exactly when no overflowing total goes unnoticed |
| OrganisationUsage.VerdictOnWrappedTotals | pkg/computequota/policy.go:101-130 | Which verdict every request gets, error kind and order included, as a function of the wrapped real totals |
| OrganisationUsage.OverflowAdmits | pkg/computequota/policy.go:122-127 | An organisation and a desired count that the policy admits far over the limit |
| OrganisationUsage.NotGrowingIsAdmitted | pkg/computequota/stack_limits.go:49-56 | From within limits, an update in place and a replacement that does not grow the stack are always admitted |
| OrganisationUsage.VolumeAdmissionIsExact | pkg/computequota/policy.go:132-149 | Which volumes are admitted, the wrapping count included, and exactly when that is right: unless a fitting volume is added to 2^63 - 1 of them |
| ComputeQuota.FailedReadRefuses | pkg/computequota/policy.go:101-155 | When usage cannot be read no stack, volume or addon is admitted, and the reader's error is passed on, but for a malformed change, which is refused first |
| ComputeQuota.BadChangeRefused | pkg/computequota/stack_limits.go:29-57 | An unsupported operation, a replacement without a stack id and a negative number of desired resources are refused whatever the usage, with which error |
| ComputeQuota.VolumeVerdictExactly | pkg/computequota/policy.go:132-149 | Exactly when a volume gets each verdict, count before size |
| ComputeQuota.AddonVerdictExactly | pkg/computequota/policy.go:151-188 | Exactly when an addon gets each verdict, in order: count, instances, storage, then each resource, which must be what is configured |
| ComputeQuota.ResourceRefusal | pkg/computequota/policy.go:190-199 | A resource passes exactly when it is what is expected, and a refusal tells whether it is a positive quantity |
| OrganisationUsage.ApplyMonotone | pkg/computequota/usage.go:16-22 | A mutation decided on a larger organisation has at most that effect on one that has shrunk since |
| OrganisationUsage.ShrinkingKeepsLimits | pkg/computequota/usage.go:16-22 | Deletions keep an organisation within its limits |
| QuotaTransactions.QuotaSafety | pkg/computequota/policy.go:101-188 | Over every interleaving of transactions and lock-free deletions in which desired counts leave room, committed organisations that begin within their stack, resource, volume and addon limits stay within them |
| QuotaRoom.SafetyExactly | pkg/computequota/policy.go:101-130 | With limits that allow two stacks, all runs in which no more than so many resources are desired are safe if and only if that number and the resource limit add up without overflow |
| QuotaRoom.Overrun | pkg/computequota/policy.go:101-130 | If they overflow: a run of one transaction that locks, reads, is admitted and commits an organisation over its limit |
| QuotaTransactions.RunKeepsInvariant | pkg/computequota/usage.go:16-22 | Every run keeps the invariant: one lock holder per organisation, what it has read covers a recount now, what it has written fits |
| QuotaTransactions.StepKeepsInvariant | pkg/computequota/usage.go:16-22 | Each step of begin, lock, read, decide, write, discard, commit, abort and delete keeps that invariant |
| QuotaTransactions.HolderKeepsInvariant | pkg/stores/pgstore/compute_usage.go:21-72 | While one transaction holds an organisation's lock, no step of another one disturbs what it has read or written |
| QuotaTransactions.ReadingCovers | pkg/stores/pgstore/compute_usage.go:21-72 | A further count read under the lock leaves everything read so far at least what a recount finds |
| QuotaTransactions.AdmittedFits | pkg/computequota/policy.go:101-188 | A positive verdict on counts read earlier bounds the real organisation after the mutation, for stacks, volumes and addons |
| QuotaTransactions.NoWrapping | pkg/computequota/policy.go:101-188 | With limits and desired counts that leave room, all totals computed in reachable states, of stacks, resources, volumes and addons, are mathematical sums |
| QuotaTransactions.DecisionsNeverWrap | pkg/computequota/policy.go:101-188 | No decision in any run, on stacks, volumes or addons, is taken on a total that wrapped |
| QuotaTransactions.StepEffects | pkg/computequota/usage.go:16-22 | Committed organisations change by commits and deletions only; commits, aborts and refusals end their transaction; no step concerns another transaction |
| QuotaTransactions.ActEffects | pkg/computequota/usage.go:16-22 | Only what was admitted is written, only a positive verdict on four counts admits, and the lock is kept |
| QuotaTransactions.FourReadsAreUsage | pkg/stores/pgstore/compute_usage.go:21-72 | Four counts read of an unchanged organisation are its usage without the replaced stack |
| CloudConfig.AcceptedConfigIsSafe | config/cloud_config.go:106-157 | A configuration that passes the limit checks makes the policy constructor panic-free, with positive quantities and requests at most limits |
| CloudConfig.AcceptedExactly | config/cloud_config.go:113-157 | Exactly which limits are accepted |
| CloudConfig.RefusalHasReason | config/cloud_config.go:113-157 | A refusal names a field and what is wrong with its value |
| CloudConfig.ApplyPostgresAddonDefaults | pkg/computequota/policy.go:210-225 | The addon after defaulting, field by field, as a function of the addon before |
| CloudConfig.DefaultingTwice | pkg/computequota/policy.go:210-225 | Defaulting again changes nothing, except exactly under the stated condition on limits and client choice |
| CloudConfig.AcceptedDefaultingTwice | config/cloud_config.go:228-241 | Under an accepted configuration defaulting is idempotent |
| CloudConfig.DefaultedAddonVerdict | pkg/computequota/policy.go:151-199 | A defaulted addon is admitted if and only if count, chosen instances, storage and chosen limits fit; requests never refuse |
| CloudConfig.UnchosenAddonRefusals | pkg/computequota/policy.go:151-199 | A defaulted addon with nothing chosen can only be refused for the addon count or its storage size |
| EventStreamWriter.WriteTerminal | pkg/handlers/handler_helper.go:186-195 | One terminal frame is flushed and nothing stays buffered |
| EventStreamWriter.WriteData | pkg/handlers/handler_helper.go:197-205 | One data frame, with its id line if the object carries an id, is flushed and nothing stays buffered |
| EventStreamWriter.HandleSignal | pkg/handlers/handler_helper.go:180-206 | What one pass of the select flushes, and whether the handler goes on |
| EventStreamWriter.InternalStreamHandler | pkg/handlers/handler_helper.go:166-207 | Chunks and outcome for every sequence of signals, as the specification the round trip is proved about; set-up failures write nothing |
| EventStreamRoundTrip.RoundTrip | pkg/handlers/handler_helper.go:179-206 | For every stream and stopping point, the reader recovers exactly the non-empty items with their last ids and the terminal event if and only if the written texts are clean |
| EventStreamRoundTrip.RoundTripItem | pkg/handlers/handler_helper.go:197-205 | The same for a stream that begins with a data item: one event from its frame, the rest from the rest |
| EventStreamRoundTrip.DataFrameRead | pkg/handlers/handler_helper.go:197-205 | A data frame is read as exactly its event if it is clean; if not, the first event read is a different one |
| EventStreamRoundTrip.TerminalFrameRead | pkg/handlers/handler_helper.go:185-196 | The same for a terminal frame |
| EventStreamRoundTrip.EveryFlushCompletes | pkg/handlers/handler_helper.go:188-204 | After each flush, whatever the texts hold, the reader has no partial line, event type or data pending |
| EventStreamRoundTrip.OneTerminalFrame | pkg/handlers/handler_helper.go:181-205 | For every stream, whatever its texts: no chunk before the last announces an event; the last is the end frame iff the source closed, announces an error iff an error object arrived, and else announces nothing |
| EventStreamRoundTrip.OneTerminalEvent | pkg/handlers/handler_helper.go:181-196 | Of the events the source means, at most one is terminal, and it is last, by how the stream ended |
| EventStreamRoundTrip.TerminalEventIsRead | pkg/handlers/handler_helper.go:181-196 | The reader of a clean stream sees just the one terminal event of its end |
| EventStreamRoundTrip.ForgedTerminalEvent | pkg/handlers/handler_helper.go:197-205 | Data that holds a frame after a blank line makes the reader see an event of any kind that was never written |
| EventStreamRoundTrip.AnnouncedExactly | pkg/handlers/handler_helper.go:197-205 | The reader sees an event that is not a message exactly when a scan of the lines for event types and data finds one announced |
| EventStreamRoundTrip.FlushedMessagesExactly | pkg/handlers/handler_helper.go:197-205 | For every stream and flush, the reader has seen messages only if and only if no chunk so far announces another event |
| EventStreamRoundTrip.MessagesWithoutEventLines | pkg/handlers/handler_helper.go:197-205 | In particular if no chunk has an event line |
| EventStreamRoundTrip.EndsInExactly | pkg/handlers/handler_helper.go:185-196 | The reader sees messages and then one last event of a kind exactly when a scan of the lines finds so |
| EventStreamRoundTrip.OutcomeToldExactly | pkg/handlers/handler_helper.go:179-206 | For every stream, clean or not, the reader sees messages and then just how the stream ended if and only if no data frame announces an event and the error frame ends in its error |
| EventStreamParser.LinesAppend | pkg/handlers/handler_helper.go:188-204 | Text that ends in a line feed is split into lines independently of what follows |
| EventStreamParser.ParseAppend | pkg/handlers/handler_helper.go:188-204 | Reading two such texts is reading the second from where the first left the buffers |
| EventStreamParser.EndsBlank | pkg/handlers/handler_helper.go:188-204 | Any text before two line feeds ends in a blank line with nothing unfinished, even after a CR |
| EventStreamParser.BlankLineSettles | pkg/handlers/handler_helper.go:188-204 | After a blank line no event type or data is pending, and pending data has been dispatched |
| EventStreamParser.IdsAreClean | pkg/handlers/handler_helper.go:199-202 | No id with a CR, LF or NUL is ever read |
| EventStreamParser.BrokenDataIsLost | pkg/handlers/handler_helper.go:203 | Data with a CR or LF is never recovered from its frame, whatever it contains |
| EventStreamParser.CleanDataIsRead | pkg/handlers/handler_helper.go:203 | Data without a CR or LF is recovered from its frame, leading spaces included |
| EventStreamParser.DataFrameDispatches | pkg/handlers/handler_helper.go:203 | A data frame always dispatches an event |
| EventStreamParser.FieldLine | pkg/handlers/handler_helper.go:188-203 | A printed field is read back as its name and value |
| InstallerPlatform.AcceptedConfig | cmd/installer/platform.go:70-130 | Accepted TLS has a base domain, a token and a valid ACME environment; a configured base domain and ACME environment are kept; soundness is kept |
| InstallerPlatform.AcceptedExactly | cmd/installer/platform.go:70-140 | Exactly which flags are accepted on which stored configuration |
| InstallerPlatform.ResolvedExactly | cmd/installer/platform.go:70-130 | The base domain, TLS, token and ACME environment that accepted flags are resolved to |
| InstallerPlatform.RefusalHasReason | cmd/installer/platform.go:70-140 | Each error is returned only for what it says is wrong |
| InstallerPlatform.TrimSpaceExactly | cmd/installer/platform.go:72-73 | What is trimmed is space, and what is left neither begins nor ends with one |
| InstallerPlatform.FramedFileGivesToken | cmd/installer/platform.go:97-103 | A token file with white space around a token is resolved to exactly that token |
| InstallerPlatform.FramedFlagsAreTrimmed | cmd/installer/platform.go:72-73 | White space around the flags' texts makes no difference |
| InstallerPlatform.ResolvedHasNoGaps | cmd/installer/platform.go:70-130 | Resolving never blanks a stored platform value |
| InstallerPlatform.ResolvingTwice | cmd/installer/platform.go:70-130 | Resolving the same flags against the result accepts the result unchanged |
| InstallerPlatform.OnlyTheTokenRotates | cmd/installer/platform.go:67-106 | On a fully configured platform only TLS and the token can change, each just as its flag says |
| InstallerPlatform.NoFlagsKeepStored | cmd/installer/platform.go:70-130 | A usable configuration is accepted unchanged without flags |
| InstallerPlatform.ACMEIsKept | cmd/installer/platform.go:89-108 | Exactly when a stored ACME environment survives an accepted resolution, sound or not |
| InstallerPlatform.UnsoundACMEIsReplaced | cmd/installer/platform.go:89-108 | An unsound stored configuration whose ACME environment is replaced |
| InstallerSecrets.RenderedIsRead | install/manifests/bootstrap-secret.yaml:12-30 | Reading a rendered secret recovers what it was rendered from if and only if no password is missing and every value comes back from its scalar as it went in |
| InstallerSecrets.ReadableExactly | cmd/installer/secrets.go:254-256 | A secret can be read exactly when all four passwords are there |
| InstallerSecrets.OlderSecretIsRead | cmd/installer/secrets.go:221-226 | A secret without a TLS entry reads as the same values with TLS on just when it has a base domain; any entry but "true" turns TLS off |
| InstallerSecrets.LastingRead | install/manifests/bootstrap-secret.yaml:12-30 | Plain passwords, base domain, ACME environment, TLS and shared compute credentials are read back whatever the other values are |
| InstallerSecrets.KeptButEmailIsRead | cmd/installer/secrets.go:190-259 | All values but the email are read back when their scalars keep them |
| InstallerSecrets.MergeFields | cmd/installer/secrets.go:148-175 | After the loop both sides agree on all twelve strings, each the supplied value or else the stored one; it reports a change iff the stored side differs from before |
| InstallerSecrets.MergeBootstrapConfig | cmd/installer/secrets.go:141-188 | Both sides after the merge, and the secret: rewritten with the merged values iff TLS or a text differs from what was stored, the manifest can be read and the apply succeeds |
| InstallerSecrets.ApplyGitHubFlags | cmd/installer/secrets.go:59-87 | All four app flags or none, else an error that changes nothing; which texts the flags set |
| InstallerSecrets.TogetherExactly | cmd/installer/secrets.go:60-70 | What all four or none means, of values and of flags |
| InstallerRuns.OnlySuccessWrites | cmd/installer/secrets.go:178-188 | A run that fails leaves the stored secret as it was; a secret that changed was written whole, as rendered, by a run that succeeded |
| InstallerRuns.SucceedsExactly | cmd/installer/main.go:131-187 | Exactly when a run succeeds: prepared, resolved, with shared compute and GitHub flags in order, and nothing to write or a write that is read and applied |
| InstallerRuns.EnsureSharedComputeClusterCredentials | cmd/installer/platform.go:142-155 | Credentials are extracted only for a base domain without complete ones |
| InstallerRuns.BuildValues | cmd/installer/upgrade.go:87-123 | The values a run supplies, or that it stops: resolve, shared compute and GitHub flags in turn |
| InstallerRuns.LoadOrMerge | cmd/installer/secrets.go:89-136 | Install creates or merges into what its second read found, upgrade merges into its first; the secret afterwards |
| InstallerRuns.MergeInto | cmd/installer/secrets.go:110-136 | Stored passwords are kept and the rest merged; the secret afterwards |
| InstallerRuns.RunInstaller | cmd/installer/main.go:131-187 | The secret and result after any install or upgrade run, failures at every step included |
| InstallerRuns.WhatIsWritten | cmd/installer/secrets.go:89-188 | Whatever its reads found: what a run resolves, supplies and writes, or that merging changes nothing |
| InstallerRuns.SoundIsWritten | cmd/installer/platform.go:70-130 | Whatever its reads found, a run writes sound values |
| InstallerRuns.StoredAsMeant | install/manifests/bootstrap-secret.yaml:12-30 | A run that writes stores exactly what it meant to if and only if every value comes back from its scalar as it went in |
| InstallerRuns.SuccessStores | cmd/installer/secrets.go:141-188 | On any reads, a successful run whose texts come back from their scalars stores supplied texts over those it took to exist, their passwords, and the resolved platform configuration unless only the second read found a secret |
| InstallerRuns.RunKeepsPermanent | cmd/installer/platform.go:67-130 | Exactly when one run keeps all that is permanent: it fails, or every lasting value survives it |
| InstallerRuns.ReadAfter | cmd/installer/secrets.go:190-259 | Whether reads answer or not and whatever else is supplied, a run keeps the secret sound, and the lasting values it writes are read back |
| InstallerRuns.HarmlessRunsKeepAll | cmd/installer/platform.go:67-69 | Over all sequences of runs, failing ones included, that each lasting value survives one by one, none ever changes once set |
| InstallerRuns.ConfigurationIsPermanent | cmd/installer/platform.go:67-69 | In particular as long as the reads of installs answer: base domain, ACME environment, complete shared compute credentials and passwords never change once set |
| InstallerRuns.StoredTLSIsUsable | cmd/installer/platform.go:109-130 | Over all sequences of runs, reads that do not answer included, stored TLS always has a valid base domain, a token and a valid ACME environment, if token files are plain |
| InstallerRuns.BaseDomainSurvives | cmd/installer/main.go:166-171 | Exactly when a configured base domain survives a successful run whose reads may not answer |
| InstallerRuns.ACMESurvives | cmd/installer/main.go:166-171 | Exactly when a configured ACME environment survives such a run |
| InstallerRuns.PasswordsSurvive | cmd/installer/secrets.go:89-110 | Exactly when the four passwords survive such a run |
| InstallerRuns.SharedComputeSurvives | cmd/installer/main.go:166-178 | Exactly when complete shared compute credentials survive such a run |
| InstallerRuns.RepeatWritesNothing | cmd/installer/secrets.go:141-188 | Repeating a successful run whose texts came back from their scalars succeeds and writes nothing |
| InstallerRuns.RepeatExactly | cmd/installer/secrets.go:141-188 | Repeating a successful run writes nothing if and only if it wrote nothing itself, or the GitHub flags and the token it is given come back and a token that TLS needs does not come back empty |
| InstallerRuns.RepeatNeedsKept | cmd/installer/secrets.go:159-177 | If a run wrote and its repetition does not, all that it was given came back as it went in |
| InstallerExamples.BlindInstallLosesAll | cmd/installer/secrets.go:89-134 | An install without flags whose reads do not answer: base domain gone, all passwords new |
| InstallerExamples.RestagedInstallReplacesACME | cmd/installer/main.go:166-171 | An install whose first read does not answer and that replaces the ACME environment |
| InstallerExamples.EmptyKeyInstallBreaksGroup | cmd/installer/secrets.go:76-86 | A fresh install with an empty key file: three of the four GitHub App values are set |
| InstallerExamples.EscapedIsWrittenAgain | install/manifests/bootstrap-secret.yaml:19 | A client secret with a backslash is stored otherwise, and repeating the install is not silent |
| InstallerRuns.AppValuesTogether | cmd/installer/secrets.go:59-87 | Over all sequences of runs, on any reads, with plain app flags in which no key file that is given is empty, the four GitHub App values are all set or all empty |
| InstallerRuns.EmptyKeyFile | cmd/installer/secrets.go:76-86 | Exactly when one successful run on any reads breaks that group |
| InstallerRuns.SharedComputeIsSet | cmd/installer/platform.go:142-155 | After a successful run with a base domain all three shared compute values are set |
| InstallerRuns.GitHubValuesStored | cmd/installer/secrets.go:59-87 | Each stored GitHub value is the one given or else the one the run took to exist, key file contents included |
| InstallerRuns.EmailFollowsOtherChanges | cmd/installer/secrets.go:170-177 | Exactly when a run changes the stored admin email: a new email alone is not written, and an install that finds no secret replaces it outright |
| TransactionHooks.CompensationContext | pkg/db/session.go:99-115 | For any context, the post-transaction context yields no transaction and no cancellation, and every other value unchanged |
| TransactionHooks.LookupIsInnermost | pkg/db/session.go:53-65 | A key is looked up as its innermost value, cancels in between making no difference |
| TransactionHooks.CancelledExactly | pkg/db/session.go:109-115 | A context is cancelled exactly when a fired cancel reaches it |
| TransactionHooks.CompensationsFindFinishedHooks | pkg/db/session.go:107-115 | A compensation is outside every transaction and finds the hooks of the finished one |
| TransactionHooks.OwnedContextHasBoth | pkg/stores/pgstore/atomic_executor_impl.go:37-38 | The owner's body finds its transaction and its hooks, whatever was in the context before |
| TransactionHooks.PostCommitHooks.Run | pkg/db/session.go:24-28 | The hooks there at the start run in registration order up to the first panic; what they register and defer meanwhile is kept and not run |
| TransactionHooks.PostCommitHooks.RunRollback | pkg/db/session.go:30-51 | Each compensation registered before is attempted exactly once in reverse order whatever they register, defer, fail or panic; errors in execution order; none is left; deferred hooks are kept and not run |
| TransactionHooks.Reversed | pkg/db/session.go:33-42 | What reverse order means |
| TransactionHooks.OnPostCommit | pkg/db/session.go:67-77 | Kept with the outermost transaction, or run at once outside one |
| TransactionHooks.OnRollback | pkg/db/session.go:79-85 | Registered last with the outermost transaction, or an error outside one |
| Transactions.WithTransaction | pkg/stores/pgstore/atomic_executor_impl.go:23-69 | Both branches, for any program and context: external state, outcome, registrations and what the database was asked for; a transaction that is found is joined |
| Transactions.RunOwned | pkg/stores/pgstore/atomic_executor_impl.go:32-40 | A transaction begun here has hooks of its own and leaves those it found alone |
| Transactions.EndOwned | pkg/stores/pgstore/atomic_executor_impl.go:44-80 | The owner ends the transaction as its specification says, about which Saga.AllOrNothing is |
| Transactions.Perform | pkg/db/session.go:53-85 | Any program under any context does and registers what its specification says, nested calls included |
| Transactions.NestedTouchesNothing | pkg/stores/pgstore/atomic_executor_impl.go:41-69 | Inside a transaction nothing is begun, committed or rolled back, however deep calls nest |
| Transactions.NestingIsTransparent | pkg/stores/pgstore/atomic_executor_impl.go:41-69 | Inside a transaction, a program does the same without its executor calls |
| Transactions.TransactionsAreEnded | pkg/stores/pgstore/atomic_executor_impl.go:23-80 | Under any context, every transaction begun is ended once, and before another begins |
| Transactions.HooksRegisterForNothing | pkg/db/session.go:24-85 | What hooks and compensations register or defer while they run changes nothing: state, outcome, registrations and log of any program under any context are the same without it |
| Saga.SagaRestores | pkg/db/session.go:33-51 | If each action's compensation undoes it, failing after any number of actions restores the initial state |
| Saga.OneHookRolledBack | pkg/db/session.go:44-51 | One compensation: its effect, and an error for a failure or a recovered panic, each of its kind |
| Saga.GroupsRolledBack | pkg/db/session.go:33-42 | Rolling back two groups is rolling back the later one first, errors and deferred hooks in order of execution |
| Saga.ProgramRestored | pkg/db/session.go:33-51 | If along the path taken each compensation undoes its action, registered after it or before it, failed or not, the compensations of any program give back the state it started from |
| Saga.AllOrNothing | pkg/stores/pgstore/atomic_executor_impl.go:23-80 | A program run in a new transaction commits exactly when it may begin and commit and its body returns; then actions and post-commit hooks have happened, else nothing has, and the caller gets the body's own error or panic, or the error of beginning or committing just when that failed |
| Saga.RunProgram | pkg/stores/pgstore/atomic_executor_impl.go:23-80 | The same of the executor itself, from an empty log |
| ClusterCompensations.ManagerRefinesView | pkg/clustermanager/manager.go:166-286 | Registering and unregistering act on which cluster has which credentials as on the whole registry |
| ClusterCompensations.CreationIsUndone | pkg/services/cluster_service.go:196-203 | Exactly when unregistering undoes a creation, failed or not, and whether the service is removed or not |
| ClusterCompensations.UpdateIsUndone | pkg/services/cluster_service.go:710-719 | Exactly when registering the previous credentials again undoes an update, failed at either half or not, whether services are removed or not |
| ClusterCompensations.FailedCreationExactly | pkg/services/cluster_service.go:159-221 | When a transaction that creates a cluster fails anywhere, the registered clusters are as they were exactly then |
| ClusterCompensations.FailedUpdateExactly | pkg/services/cluster_service.go:679-719 | The same for a transaction that updates a cluster |
| ClusterCompensations.FailedCreationLeavesNothing | pkg/services/cluster_service.go:159-221 | In particular a cluster under a fresh id is gone if its service is removed |
| ClusterCompensations.GuardedRollsBack | pkg/services/cluster_service.go:196-203 | An action registered first, then a program that is undone: without a commit, what is left is what the action's compensation makes of what the action left |
| Saga.KeysGivenBack | pkg/db/session.go:33-51 | From any state, the key of each compensation that returns gets back what its action found, and keys of no action stay |
| Saga.KeysUntilThen | pkg/db/session.go:33-51 | Actions on distinct keys find what was there at the start |
| Saga.DisjointKeysRestored | pkg/db/session.go:33-51 | With disjoint keys, every key whose compensation returns is restored even if others fail or panic |
| Saga.ErrorsAreReported | pkg/db/session.go:44-51 | No error is reported exactly when every compensation returned |
| Saga.CleanRollbackRestores | pkg/db/session.go:33-51 | A rollback that reports no error restores the whole state |
| ClusterManager.ClusterManagerImpl.constructor | pkg/clustermanager/manager.go:154-163 | A new manager has no clusters and no services |
| ClusterManager.ClusterManagerImpl.DecryptClusterCredentials | pkg/clustermanager/manager.go:217-236 | Two secrets already there are left alone; otherwise each is what its own encrypted field decrypts to, or nothing is written, exactly when one of them does not |
| ClusterManager.DecryptedExactly | pkg/clustermanager/manager.go:217-236 | The same of the specification, as an equivalence |
| ClusterManager.ClusterManagerImpl.RegisterCluster | pkg/clustermanager/manager.go:166-215 | Registry, supervisor, credentials and result after a registration; what is filed are the cluster's own secrets; a failed one changes neither registry nor supervisor |
| ClusterManager.FiledExactly | pkg/clustermanager/manager.go:166-215 | A new cluster is registered exactly when its own secrets can be had and connect, and those are filed |
| ClusterManager.ClusterManagerImpl.BuildControllers | pkg/clustermanager/manager.go:193-196 | One controller per controller function, in order, for this cluster |
| ClusterManager.ClusterManagerImpl.UnregisterCluster | pkg/clustermanager/manager.go:271-286 | Registry and supervisor after removal; a failed remove changes neither |
| ClusterManager.ClusterManagerImpl.ReRegisterCluster | pkg/clustermanager/manager.go:289-294 | Alone, it is an unregistration followed by a registration, unless the first fails |
| ClusterManager.ConfigurationMeansService | pkg/clustermanager/manager.go:250-259 | In every reachable registry there is a configuration for a cluster exactly when one live service serves it, and it is the one its registered credentials connect with |
| ClusterManager.RegisterAgrees | pkg/clustermanager/manager.go:166-215 | Registration keeps agreement, changes nothing when it fails, and registers when it succeeds |
| ClusterManager.UnregisterAgrees | pkg/clustermanager/manager.go:271-286 | Unregistration keeps agreement, changes nothing when it fails, and removes when it succeeds |
| ClusterManager.StepAgrees | pkg/clustermanager/manager.go:166-294 | Each atomic step, halves of re-registrations included, keeps agreement |
| ClusterManager.AlwaysAgree | pkg/clustermanager/manager.go:166-294 | Under every interleaving entries are under their own id with all controllers, and live services serve registered clusters |
| ClusterManager.NewManagerAgrees | pkg/clustermanager/manager.go:154-163 | Agreement holds at the start |
| ClusterManager.AgreementIsBijection | pkg/clustermanager/manager.go:166-294 | Agreement makes live tokens and registered clusters correspond one to one |
| ClusterManager.ReRegisteredCredentials | pkg/clustermanager/manager.go:289-294 | Exactly when a successful re-registration leaves its own credentials registered, credentials that do not connect included |
| ClusterManager.RotationCanBeLost | pkg/clustermanager/manager.go:289-294 | An interleaving in which it does not |
| DomainNames.DirectChildIsOneLabelBelow | pkg/builders/cluster_resource_builder.go:512-523 | The string test holds if and only if the normalised labels are one non-empty label followed by exactly the labels of a non-empty base |
| DomainNames.CutIsBelow | pkg/builders/cluster_resource_builder.go:519-522 | Cutting a dot-free prefix leaves the labels of the base |
| DomainNames.BelowIsCut | pkg/builders/cluster_resource_builder.go:519-522 | A name whose labels extend those of the base by one has that suffix |
| DomainNames.OneParent | pkg/builders/cluster_resource_builder.go:512-523 | A name is a direct child of at most one base domain |
| DomainNames.NormalisedExactly | pkg/builders/cluster_resource_builder.go:513-516 | Every character is lowered and one dot at the end is dropped |
| DomainNames.CaseIsIrrelevant | pkg/builders/cluster_resource_builder.go:513-516 | The test does not depend on the case of either name |
| DomainNames.FinalDotIsIrrelevant | pkg/builders/cluster_resource_builder.go:513-516 | Nor on a dot that ends a name |
| DomainNames.LabelMakesChild | pkg/builders/cluster_resource_builder.go:512-523 | A label and a dot before a base domain, in any case, name a direct child of it |
| ResourcePorts.ToInt32 | pkg/builders/cluster_resource_builder.go:487-510 | The port number is truncated to 32 bits, and unchanged when it fits |
| ResourcePorts.SetPorts | pkg/builders/cluster_resource_builder.go:487-510 | The emitted ports, one per port in order |
| ResourcePorts.EmittedExactly | pkg/builders/cluster_resource_builder.go:487-536 | Each emitted port field by field; TLS exactly for a public name without a local ending, and on shared compute only with platform TLS |
| ResourcePorts.OneCertificateSource | pkg/builders/cluster_resource_builder.go:487-510 | Each emitted TLS port is public and has exactly one certificate source, the wildcard iff its labels are one below the platform domain's |
| ResourcePorts.SharedComputeWithoutTLS | pkg/builders/cluster_resource_builder.go:492-494 | Shared compute without platform TLS emits no TLS port and needs no certificate |
| ResourcePorts.CertificateNeeds | pkg/builders/cluster_resource_builder.go:237-253 | Scanning the emitted ports finds a wildcard or issuer need exactly when a requested port has it |
| ResourcePorts.UsesPlatformWildcardTLS | pkg/builders/cluster_resource_builder.go:237-244 | True iff some port refers to the wildcard secret |
| ResourcePorts.HasCertManagerTLSPorts | pkg/builders/cluster_resource_builder.go:246-253 | True iff some TLS port has no secret reference |
| ResourcePorts.BuildStackResourceCR | pkg/builders/cluster_resource_builder.go:202-235 | The wildcard label and issuer annotation are set iff some requested port needs them |
| SecretNames.NameIsValid | pkg/credentials/resolver.go:92-108 | Any prefix and suffix give at most 63 name characters that do not end in '-' or '.' |
| SecretNames.HostNamesAreValid | pkg/credentials/resolver.go:79-134 | So do all hosts and purposes |
| SecretNames.HostNamesStart | pkg/credentials/resolver.go:72-90 | No name is empty, and its first letter tells its kind |
| SecretNames.SanitizedExactly | pkg/credentials/resolver.go:110-134 | Which character stands for which in hosts and purposes |
| SecretNames.NamesExactly | pkg/credentials/resolver.go:79-108 | A name is as much of the prefix and the sanitized host as fits in 63 characters, without the separators it ends in |
| SecretNames.CanonicalNameIs | pkg/credentials/resolver.go:79-108 | A host that sanitizing, cutting and trimming leave alone is found in its name as it is |
| SecretNames.TrimmedRight | pkg/credentials/resolver.go:103-108 | The longest prefix that does not end in '-' or '.' |
| SecretNames.CollisionExactly | pkg/credentials/resolver.go:92-134 | Two hosts share a name exactly when what is left of them after sanitizing, cutting and trimming is the same |
| SecretNames.CollisionByCharacter | pkg/credentials/resolver.go:92-134 | Two hosts share a name exactly when, within the space left, their characters agree but for case and separators up to a place after which both hold only separators and dots |
| SecretNames.CanonicalHostsDiffer | pkg/credentials/resolver.go:92-134 | Naming is injective on sanitized hosts that fit and end in a letter or digit |
| SecretNames.PortsCollide | pkg/credentials/resolver.go:123-134 | Two hosts that share a name |
| SecretNames.CaseIrrelevant | pkg/credentials/resolver.go:110-134 | Names do not depend on the case of letters |
| SecretNames.KindsNeverCollide | pkg/credentials/resolver.go:72-90 | Git, pull and push names never collide, for any hosts |
| Scopes.ValidateScope | pkg/auth/resources.go:71-89 | The loop decides validity: full access, or the first matching type has the action |
| Scopes.LookUp | pkg/auth/resources.go:80-88 | The first matching type decides |
| Scopes.ScopeCovers | pkg/auth/resources.go:93-126 | The loop decides covering: the resource itself or a child, with the action or the wildcard |
| Scopes.CoversExactly | pkg/auth/resources.go:93-134 | On the scope's text: exactly full access, and the action or the wildcard on the resource or on a registered parent, cover a request |
| Scopes.OneActionCovered | pkg/auth/resources.go:93-134 | A scope that does not end in the wildcard covers one action of a resource at most |
| Scopes.FirstMatchExactly | pkg/auth/resources.go:80-88 | When types that match agree on actions, first match is any match |
| Scopes.TableIsConsistent | pkg/auth/resources.go:47-66 | The table has distinct names and agreeing actions wherever two types match one resource |
| Scopes.ValidExactlyWhenUseful | pkg/auth/resources.go:71-126 | A scope is valid if and only if it covers some registered resource and action and its resource is not blank, for every consistent table |
| Scopes.BlankScopeCovers | pkg/auth/resources.go:93-126 | Exactly what a scope with a blank resource covers, while never valid |
| Scopes.ValidityFailsExactly | pkg/auth/resources.go:71-126 | Exactly the scopes whose validity is not their usefulness, for the table in use |
| Scopes.RootActions | pkg/auth/resources.go:47-66 | Types without a parent have all actions between them |
| Permissions.Check | pkg/auth/permission_service.go:40-87 | The verdict on every identity and request, error kinds in order |
| Permissions.UserPermittedExactly | pkg/auth/permission_service.go:66-104 | A user without a token is permitted if and only if the policy allows the request, or denies it and the user is admin of the project's organisation; an unanswered policy check refuses |
| Permissions.VerdictExactly | pkg/auth/permission_service.go:40-64 | Exactly when each other verdict is given: no identity, system identities, scopes and resource restrictions |
| Permissions.TokenPermittedExactly | pkg/auth/permission_service.go:49-87 | A token is permitted if and only if some scope covers the request, its resource restriction allows it and the same user without a token is permitted |
| Permissions.MoreScopesPermitMore | pkg/auth/permission_service.go:49-61 | More scopes never take a permission away |
| ChartWalk.Collector.Visit | cmd/installer/helm.go:125-143 | What the callback collects, and where it prunes or aborts |
| ChartWalk.WalkDir | cmd/installer/helm.go:123-148 | The walk below one entry collects what the specification says, in order, or fails |
| ChartWalk.WalkEntries | cmd/installer/helm.go:123-148 | The same for a directory's entries in turn, stopping at a failure |
| ChartWalk.FindCRDDirs | cmd/installer/helm.go:123-148 | The result of the whole walk |
| ChartWalk.WalkIsFilter | cmd/installer/helm.go:123-148 | The pruned walk is the unpruned walk filtered by path, in its order, and fails exactly when a directory it reads cannot be |
| ChartWalk.DirectoriesAreAll | cmd/installer/helm.go:123-148 | The unpruned walk lists exactly the directories of the tree |
| ChartWalk.FoundExactly | cmd/installer/helm.go:123-148 | Found are exactly the crds directories with no crds or templates directory above them within the walk |
| ChartWalk.FailsExactly | cmd/installer/helm.go:126-128 | The walk fails exactly when an unreadable directory lies below no pruned one |
| ChartWalk.NoneInsideAnother | cmd/installer/helm.go:138-141 | No directory found is inside another |
| ChartWalk.FoundOnce | cmd/installer/helm.go:123-148 | Every directory is found once |

## Left out

- QuotaTransactions.QuotaSafety: assumes no limit at the very top of the counter range; one organisation per transaction,
  the row lock held to its end, and statements that see what is committed when they run. Sizes of committed volumes and
  addons, which admission checks one by one, are not tracked.
- QuotaRoom.SafetyExactly: with fewer than two stacks allowed only the direction QuotaSafety is stated.
- InstallerRuns.HarmlessRunsKeepAll: assumes that a secret in the cluster is complete, and that extracted credentials and
  stored lasting values are plain.
- InstallerRuns.RunInstaller: ends where the configuration is stored; success means that this was reached, and what the
  installer applies afterwards is left out.
- InstallerSecrets.RenderedIsRead: what a text between double quotes is read as is an arbitrary partial function that keeps
  plain texts, one value at a time, so a text that closes its quotes and goes on with lines of its own is not modelled.
  The entry for the installation's own domain is left out, as is an apply that reports failure after taking effect.
- InstallerRuns.RepeatExactly: both times the reads of an install answer.
- EventStreamRoundTrip.RoundTrip: works on decoded characters, so UTF-8 and the byte order mark are left out, as are the
  reconnection time, HTTP headers, errors of writes and what the connection does between flushes.
- EventStreamWriter.InternalStreamHandler: which ready case a select picks is given as the sequence of signals received.
- Transactions.Perform: hooks do not look at their context; hooks registered on other goroutines and the error of the
  database rollback itself are left out.
- ClusterCompensations.FailedCreationExactly: is about which clusters are registered with which credentials; service tokens
  are not part of what is restored.
- ClusterManager.AlwaysAgree: each method body under the mutex is one step; the supervisor hands out fresh tokens and its
  removal succeeds or fails without effect. Running services, leadership and restarts are left out.
- DomainNames.DirectChildIsOneLabelBelow: lowering of single characters is a parameter, with no special casing that
  changes a name's length.
- ChartWalk.FindCRDDirs: the order of entries is given rather than sorted; symbolic links and a root that cannot be
  examined at all are left out.
- CloudConfig.AcceptedConfigIsSafe: covers the limits; access, registry, feature and sign-up settings are separate checks.
- Kubernetes quantities: an arbitrary parse into a totally ordered number with a sign. DNS-1123 validity is an arbitrary predicate.
- Compute leases and access checks, defaults of volumes and stack resources, and the self-hosted policy, which accepts all.
- Flag parsing, kubectl, helm and curl, password generation and manifest contents other than the bootstrap secret.
- Texts of error messages and logging; an error is told apart by its kind.
- Getters of the cluster manager beyond GetRestConfig, which repeat it; REST configuration and scheme construction.
- Builder output other than ports, labels and the issuer annotation.
- The policy store behind permission checks, an arbitrary function that may fail.
