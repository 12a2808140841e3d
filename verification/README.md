# Verified models of the server panel

The panel's back end is mostly HTTP, SQL and process plumbing around a handful of algorithms and
protocols that carry real invariants. This project models those in Dafny and proves what they promise.
`dafny verify dfyconfig.toml` checks all of it.

Code that updates state step by step is modelled as methods, loops and classes with fields, each tied by
its `ensures` to a declarative specification; the theorems are lemmas about that specification. Protocols
between goroutines are state machines whose steps are the code between two lock or channel operations,
and the theorems hold for every interleaving. Failures of the database, of Kopia, of a stream or of a
callback are parameters or nondeterministic choices, so the theorems cover every pattern of failure. The database
is `healthy` in a request where no statement fails for reasons of its own; then the reply is determined.

| file | what it models |
|---|---|
| Compose.dfy, ComposeServices.dfy | the indentation scanner that adds `label=disable` to services which mount the engine's socket; the services by line positions |
| BindMounts.dfy, EmptySections.dfy, ComposeStrip.dfy | the rest of the compose clean-up: `:Z` on bind mounts, stripped labels and networks, sections left empty, the pipeline |
| Retention.dfy | the count, age and size rules, the safety floor, and re-runs after failed deletions |
| BackupShutdown.dfy | trigger, running flag, wait counter and shutdown, in every interleaving |
| TopoSort.dfy, PluginManager.dfy | load order by Kahn's algorithm with priorities; enabled set, guard map, start and stop |
| HostDomains.dfy | who owns which domain through create, update, delete and claim, with any statement failing |
| Routes.dfy | upstream renumbering in clone, import and update, and the proxy lines rendered from routes |
| Braces.dfy, CaddyValidate.dfy | brace scanning and the checks on directives, domains and full blocks |
| CaddyRender.dfy, Caddyfile.dfy | the rendered file, directive by directive, and its brace depth |
| CaddyDirectives.dfy, CaddyServes.dfy | a meaning for directives, and what a rendered block tells the server about each request |
| SiteAddresses.dfy, ExtractedAddresses.dfy | which addresses a header may list, and exactly which addresses the scan of a rendered file finds |
| Reload.dfy, ReloadOutcomes.dfy | the debounced reload with its shared waiter list, and whose outcome each caller receives |
| ToolStream.dfy, AnthropicStream.dfy | reassembly of streamed tool calls for both providers |
| ToolLoop.dfy, Confirmations.dfy | the multi-round tool conversation, and pending confirmations across conversations |
| SqlLiteral.dfy, Iptables.dfy | SQL literal escaping against the semicolon scanner; printing and parsing port rules |
| Text.dfy, Words.dfy, Sorting.dfy, Optional.dfy | the parts of Go's library the code uses |

## Where the code does less than its comments say

Each of these is proved, with a concrete input or as the exact condition under which the promise holds.

- The comment on `injectSocketLabelDisable` says it is idempotent (plugins/appstore/renderer.go:318). It is
  exactly when no inserted item would stand at or left of the last `security_opt:` key of its service:
  `InjectIdempotent`, `TwoKeysRepeats`; one key per service suffices: `OneKeyIdempotent`.
- `relabelHostBindMount` measures the indentation with trailing blanks included: `RelabelExact`, `TrailingBlankExample`.
- `cleanEmptySection` leaves a section that held only empty sections: `CleanTwice`, `NestedNeedsTwo`.
- Size-limited retention may keep, on a retry, a snapshot it meant to delete: exactly when the first row whose
  deletion failed fits beside the kept ones, and never without a size limit: `RetryKeepsMoreIff`,
  `RetryKeepsSame`, `RetryMayKeepMore`.
- The seeded defaults of a fresh installation are not closed under dependencies for every registry:
  `SeedClosed`, `SeedLeavesPhpOpen`. A sidebar request can enable a plugin unchecked: `StepClosed`.
- A Disable whose write fails leaves the plugin enabled but blocked, and Enable does not repair it:
  `EnableOpens`, `StaleStays`, `StaleRepaired`, `StaleExample`.
- A refused Update keeps the claims it made, so domains end up with no owner, and a refusal between the writes
  costs the host its additional names: `RefusalStrands`, `StrandedExample`, `RefusalClears`. The DELETE of the old names
  is unchecked; where it fails, an update that asks for one of them again fails, and any other keeps them: `Update`.
- Update leaves a reference to a dropped upstream in place. It dangles until an update creates an upstream with
  that id, and then the route leads there: `UpdateDanglesIff`, `DanglesForeverIff`, `DanglingRevives`.
- Create takes upstream addresses and IP ranges unchecked; such a line keeps the file balanced exactly if
  the braces of the value match: `ValueLineIff`, `AddressLineIff`, `AddressesOpenIff`, `UnmatchedAddress`.
- A caller that joins while a reload is under way gets the result of that reload: `FreshUnlessLate`.
- The rule against content after the closing brace of a full block is about lines: on the line of that brace
  exactly the balanced texts are accepted, another site included: `TailAcceptedIff`, `SecondSiteExample`.
- A full block need not list all names of its host, and then the scan of the rendered file misses the others:
  `HeaderExact`, `OverrideLosesAddress`, `MissedExample`.
- A stream that finishes with "stop" drops the accumulated tool calls: `StopDropsCalls`, `StoppedCallIsLost`.
  Calls whose index is not below the number of calls are dropped too: `AllEmittedIff`, `GapLosesCall`.
- `ExtractSiteAddresses` is documented as reading top-level blocks; it looks at every line that ends in an
  opening brace. Besides what the blocks promise it finds "log", "output" and "file" in every rendered file, and
  whatever stands on such lines inside a block: `FoundExactly`, `PreambleFinds`.
- Two conversations with the same pending id share one entry: `CollisionStrands`, `CollisionCrosses`.
- An answer that has passed the checks of ResolveConfirmation blocks its request for good exactly when the
  channel is full and the call waits no longer; two answers and a cancellation, or three answers, suffice:
  `ArrivesIff`, `TwoAnswersBlock`, `ThirdAnswerBlocks`.
- A backup started by hand outlives a Stop that reports a full drain: `ManualOutlivesStop`, `DrainedQuietIff`,
  `DrainedRunsIff`.
- The escaping fits MySQL; where a backslash is ordinary it is read back doubled: `StandardReading`,
  `StandardReadsBackIff`, `BackslashDoubles`.

## Model

| member | source | states |
|---|---|---|
| Compose.FindServices | plugins/appstore/renderer.go:331-446 | the loop with its block-tracking variables yields the same services as folding one pure step over the lines; which lines these are is ServicesExact |
| Compose.PlanInsertions | plugins/appstore/renderer.go:448-513 | one edit per service that mounts the socket without label=disable, in document order, the key added where there is none |
| Compose.InsertBackwards | plugins/appstore/renderer.go:515-526 | splicing the edits last to first equals one forward pass that puts each edit behind the line it names |
| Compose.InjectSocketLabelDisable | plugins/appstore/renderer.go:331-526 | the three phases together compute the injected text, also when nothing is to be inserted; what that text is worth is EditsExact and InjectProtects |
| Compose.Simulation | plugins/appstore/renderer.go:331-526 | scanning the edited lines runs in step with scanning the original, through every edit |
| Compose.RescanSees | plugins/appstore/renderer.go:331-526 | a second scan sees the same services in order, with label=disable where it was added unless the edit was misplaced |
| ComposeServices.ServicesExact | plugins/appstore/renderer.go:331-446 | the scan finds exactly the services as given by line positions, in order: each begins at a header at the service indentation inside an open `services:` block and ends where the next one begins or the block is left; it mounts the socket if and only if one of its lines lies under its last open `volumes:` key and names a socket |
| ComposeServices.EditsExact | plugins/appstore/renderer.go:448-513 | an edit goes to exactly the services whose own lines mount the socket without label=disable, behind their last `security_opt:` key or their own name |
| Compose.HeaderForms | plugins/appstore/renderer.go:357-394 | a key with a colon is a header, with an inline comment or without |
| Compose.SocketForms | plugins/appstore/renderer.go:443-445 | a line mentions a socket wherever docker.sock or podman.sock stands in it |
| ComposeServices.InjectProtects | plugins/appstore/renderer.go:302-526 | every service of the result, by line positions, that mounts the socket declares label=disable, if and only if no edit was misplaced |
| ComposeServices.InjectUntouched | plugins/appstore/renderer.go:316-318 | the text is returned unchanged if and only if all socket services are protected already |
| ComposeServices.InjectIdempotent | plugins/appstore/renderer.go:316-318 | running twice equals running once, if and only if no edit was misplaced |
| ComposeServices.OneKeyIdempotent | plugins/appstore/renderer.go:316-526 | with at most one `security_opt:` line per service it is idempotent and protects every socket service |
| ComposeServices.TwoKeysRepeats | plugins/appstore/renderer.go:316-526 | a seven-line document with two keys is edited again by the second run and stays unprotected |
| Compose.InjectKeepsLines | plugins/appstore/renderer.go:316-526 | all original lines survive in order; only `security_opt:` keys and label items are added |
| BindMounts.RelabelExact | plugins/appstore/renderer.go:165-233 | an eligible mount reads back as the same item with `:Z` behind its text, inside its quotes, if and only if the line has no trailing blanks |
| BindMounts.TrailingBlankBreaks | plugins/appstore/renderer.go:224-231 | every quoted eligible mount with one blank behind its quote gets a second dash and is no item any more |
| BindMounts.TrailingBlankExample | plugins/appstore/renderer.go:224-231 | such a mount line |
| BindMounts.RelabelsExactly | plugins/appstore/renderer.go:165-233 | a `host:rest` item changes if and only if the host is an absolute path or a variable, names no engine socket, is not at or below /dev, /sys, /proc or /run/udev, and the rest is or ends in none of Z, z, ro, rw |
| BindMounts.RelabelIdempotent | plugins/appstore/renderer.go:165-233 | relabelling twice is relabelling once, for every line, quoted or not, with any trailing blanks |
| EmptySections.CleanEmptySection | plugins/appstore/renderer.go:530-566 | the nested loops compute the recursive clean-up |
| EmptySections.CleanExact | plugins/appstore/renderer.go:528-566 | exactly the hollow keys and the blank or comment lines right behind one are removed, everything else stays in order |
| EmptySections.CleanTwice | plugins/appstore/renderer.go:528-566 | a second pass changes nothing if and only if no section consisted of empty sections of the same name only |
| EmptySections.NestedNeedsTwo | plugins/appstore/renderer.go:528-566 | two nested empty sections: the first pass leaves the outer one, the second removes it |
| ComposeStrip.StripLines | plugins/appstore/renderer.go:250-308 | the loop's two variables decide as the positions do: a line goes if it is a store label or inside the store's network block; a line is relabelled if it lies deeper than the last open `volumes:` key |
| ComposeStrip.SanitizeStripAndRelabel | plugins/appstore/renderer.go:250-308 | strip, relabel, then both section clean-ups, in that order |
| ComposeStrip.SanitizeCompose | plugins/appstore/renderer.go:243-245 | the whole pipeline computes the specification that SanitizedClean is about |
| ComposeStrip.SanitizedClean | plugins/appstore/renderer.go:235-308 | for every document, no line of the result is a label of the other store, quoted or not, or a reference to its network; the socket services are protected unless an edit was misplaced |
| Retention.Largest | plugins/backup/service.go:447-492 | the largest prefix length that meets count, age and total size together |
| Retention.FlagByCount | plugins/backup/service.go:452-457 | rule 1 flags exactly the rows behind the count limit |
| Retention.FlagByAge | plugins/backup/service.go:459-468 | rule 2 extends the flagged suffix to the first old row |
| Retention.FlagBySize | plugins/backup/service.go:469-490 | rule 3 extends the suffix to the largest prefix within the size limit |
| Retention.PinNewest | plugins/backup/service.go:492-505 | the floor unflags the newest rows whatever the rules said |
| Retention.PlanRetention | plugins/backup/service.go:433-505 | the map-and-loop code deletes exactly the rows behind the newest max(min(floor, n), k), each with the reason of the first rule that applies |
| Retention.KeptIff | plugins/backup/service.go:433-505 | a row is kept if it is among the pinned newest ones, or it is within count, age and total size itself, the limits included; no other row is, unless sizes are negative under a size limit |
| Retention.BackupService.DeleteRow | plugins/backup/service.go:507-536 | a row and its logs go unless Kopia refused; then both stay |
| Retention.BackupService.DeleteRows | plugins/backup/service.go:507-541 | whatever the iteration order, exactly the rows that Kopia grants go, with their logs |
| Retention.BackupService.EnforceRetention | plugins/backup/service.go:433-541 | the table after a run is the declared one for every pattern of failures, and the count returned is the number of rows gone |
| Retention.AfterKeeps | plugins/backup/service.go:433-541 | what is left is the kept prefix, untouched, followed by the deletions that failed |
| Retention.KeepLenGrows | plugins/backup/service.go:433-505 | rows left behind the kept prefix never make a later run keep less of it |
| Retention.RunsKeep | plugins/backup/service.go:433-541 | at one clock, no number of runs with any failures deletes a snapshot the first run chose to keep |
| Retention.RunsSettle | plugins/backup/service.go:433-541 | after a run without failures, further runs delete nothing |
| Retention.RetryKeepsMoreIff | plugins/backup/service.go:433-541 | without a size limit or with no negative size, a run after failed deletions keeps more than the first chose to, if and only if the first row whose deletion failed meets the limits beside the kept prefix |
| Retention.RetryKeepsSame | plugins/backup/service.go:433-541 | without a size limit it never keeps more |
| Retention.RetryMayKeepMore | plugins/backup/service.go:469-526 | three snapshots for which a failed deletion is kept by the next run |
| TopoSort.BuildGraph | internal/plugin/manager.go:464-480 | an unknown dependency is reported truthfully; otherwise in-degrees and adjacency mirror the registry, repeated dependencies counted |
| TopoSort.SortByPriority | internal/plugin/manager.go:484-494 | sorted by priority, a permutation of the queue |
| TopoSort.VisitDependents | internal/plugin/manager.go:496-509 | in-degrees keep counting the dependencies not loaded, and the queue keeps holding exactly the ready plugins |
| TopoSort.PickNext | internal/plugin/manager.go:496-509 | the head of the queue is ready and of lowest priority among all ready plugins |
| TopoSort.LoadNext | internal/plugin/manager.go:496-509 | each round keeps the invariant and loads one plugin |
| TopoSort.Sort | internal/plugin/manager.go:464-515 | succeeds if and only if all dependencies are registered and there is no cycle; the order is a permutation, dependencies first, each pick greedy by priority; each failure names its true reason |
| TopoSort.OrderedIsAcyclic | internal/plugin/manager.go:464-515 | a load order rules out unknown dependencies and cycles |
| TopoSort.StuckHasCycle | internal/plugin/manager.go:511-513 | a set of plugins that wait for each other contains a cycle |
| TopoSort.DependencyEarlier | internal/plugin/manager.go:464-515 | every dependency stands before its dependent |
| TopoSort.PriorityFirst | internal/plugin/manager.go:464-514 | of two plugins that were both ready, the one loaded first has no higher priority number |
| PluginManager.StepClosed | internal/plugin/manager.go:237-321 | a request keeps the enabled set closed if and only if it is not a sidebar request that creates a row for a plugin with a disabled dependency |
| PluginManager.StepCovers | internal/plugin/manager.go:237-321 | whatever is persisted as off stays blocked, also when the write of Disable fails |
| PluginManager.RunSafe | internal/plugin/manager.go:237-393 | every run of requests with any failures keeps the set closed and the guard covering, given a row per plugin or no sidebar requests |
| PluginManager.SidebarEnablesNewPlugin | internal/plugin/manager.go:377-383 | a sidebar request that opens the enabled set, concretely |
| PluginManager.StepExact | internal/plugin/manager.go:237-321 | blocked and off stay the same plugins if and only if the request did not change only one of the two |
| PluginManager.EnableOpens | internal/plugin/manager.go:237-275 | a successful Enable leaves the plugin enabled, and blocked if and only if it was enabled and blocked before |
| PluginManager.EnableSucceedsIff | internal/plugin/manager.go:237-275 | Enable succeeds if and only if the plugin is on already, or its dependencies are and the write succeeds; otherwise it changes nothing |
| PluginManager.DisableSucceedsIff | internal/plugin/manager.go:277-321 | Disable succeeds for a known plugin if and only if it is off already, or nobody needs it and the write succeeds |
| PluginManager.DisableCloses | internal/plugin/manager.go:277-321 | after a successful Disable the plugin is off and blocked |
| PluginManager.DisableBlocks | internal/plugin/manager.go:277-321 | an enabled plugin that nobody needs is blocked in any case, and stays on if and only if the write fails; one that is needed is left alone |
| PluginManager.OthersKept | internal/plugin/manager.go:237-393 | no request changes row or guard of another plugin |
| PluginManager.StaleStays | internal/plugin/manager.go:237-321 | no other request than a stored Disable of that plugin ends this |
| PluginManager.StaleExample | internal/plugin/manager.go:237-321 | a Disable of docker whose write fails, and the Enable behind it reports success for a plugin that stays blocked |
| PluginManager.StaleRepaired | internal/plugin/manager.go:237-321 | a stored Disable and an Enable do |
| PluginManager.SeedClosed | internal/plugin/manager.go:395-417 | the seeded defaults are closed if and only if no plugin on by default needs one that is off or missing |
| PluginManager.SeedLeavesPhpOpen | plugins/php/plugin.go:28 | php, on by default and dependent on docker, would be such a case |
| PluginManager.SeedClosesShipped | main.go:235-261 | the plugins that the program registers start closed |
| PluginManager.StartsDependenciesFirst | internal/plugin/manager.go:183-197 | a started plugin's dependencies were started before it and did not fail |
| PluginManager.StopsDependentsFirst | internal/plugin/manager.go:200-216 | every enabled plugin is stopped, after all enabled plugins that need it |
| PluginManager.BootSafe | internal/plugin/manager.go:82-393 | from a fresh installation with closed defaults, every run of requests is safe |
| PluginManager.Manager.Register | internal/plugin/manager.go:60-79 | refused for an empty or known id, otherwise added |
| PluginManager.Manager.SeedDefaultStates | internal/plugin/manager.go:395-417 | rows only on an empty table, whatever the iteration order |
| PluginManager.Manager.InitAll | internal/plugin/manager.go:82-180 | fails on a bad graph without touching anything; otherwise seeds, and blocks what is off, up to the plugin that stopped it; a start that succeeds with an empty guard leaves exactly the disabled plugins blocked |
| PluginManager.Manager.InitEach | internal/plugin/manager.go:105-178 | the Init loop stops at the first enabled plugin that fails, and all before it are treated as declared |
| PluginManager.Manager.Enable | internal/plugin/manager.go:237-275 | new rows, guard and reply are those of the abstract step; a plugin reported as done is enabled; Start is called exactly when something changed |
| PluginManager.Manager.Disable | internal/plugin/manager.go:277-321 | a plugin reported as done is off; one that may be disabled is blocked, and off if and only if the write succeeded; the refusal names an enabled dependent; Stop is called exactly when allowed |
| PluginManager.Manager.SetSidebarVisible | internal/plugin/manager.go:377-383 | the abstract sidebar step, which may create a row and changes no other |
| PluginManager.Manager.StartAll | internal/plugin/manager.go:183-197 | calls Start on the enabled plugins in order up to the first failure |
| PluginManager.Manager.StopAll | internal/plugin/manager.go:200-216 | calls Stop on the enabled plugins in reverse order, failures or not |
| HostDomains.NormalizeHostDomains | internal/service/host.go:1040-1063 | rejects exactly the invalid names; the result is lower-case, trimmed, without repetitions, primary first, extras in order, with the same set of names |
| HostDomains.KeyStable | internal/service/host.go:1040-1063 | normalising a normalised name changes nothing |
| HostDomains.ClaimMoves | internal/service/host.go:1114-1234 | after a claim each host owns what it owned minus the claimed names, the exempt host everything |
| HostDomains.ClaimDeletes | internal/service/host.go:1169-1231 | a host is deleted if and only if it is not exempt and all its names are claimed |
| HostDomains.ClaimPromotes | internal/service/host.go:1188-1217 | a surviving host that lost its primary has one of its own unclaimed names instead, the lowest-sorted |
| HostDomains.ClaimFrees | internal/service/host.go:1083-1234 | after a claim nobody but the exempt host owns a claimed name, and one-owner is kept |
| HostDomains.ClaimIdle | internal/service/host.go:1114-1234 | a claim changes nothing if and only if the names were free already |
| HostDomains.RefusalStrands | internal/service/host.go:293-330 | after a claim for a refused update, the names it took from other hosts have no owner |
| HostDomains.StrandedExample | internal/service/host.go:293-330 | hosts a.com and b.com, an update of the first to both names refused behind its claim: exactly one outcome, in which the second host is gone and nobody owns b.com |
| HostDomains.RefusalClears | internal/service/host.go:282-566 | after a refusal between the writes the host owns its old primary name only, and the others what was not claimed |
| HostDomains.BrokenSpares | internal/service/host.go:1114-1234 | a claim that breaks off at one host spares the unclaimed names of all others |
| HostDomains.HostService.LoadDomains | internal/service/host.go:1169-1186 | all rows of the host, by sort order |
| HostDomains.HostService.Remaining | internal/service/host.go:1169-1200 | what is not claimed, its first entry the heir |
| HostDomains.HostService.HandOver | internal/service/host.go:1169-1231 | one host gives up its claimed names, or fails without touching another host; it fails only with the database |
| HostDomains.HostService.ServeOwners | internal/service/host.go:1160-1234 | the loop over owners in any order serves them all, or breaks off at one where the database failed |
| HostDomains.HostService.ClaimRequestedDomains | internal/service/host.go:1114-1234 | ok means claimed as declared; a failure, only with the database, leaves a claim broken off at one host; nobody ever gains a name |
| HostDomains.HostService.CheckDomainConflicts | internal/service/host.go:1083-1112 | clear means free; taken names a requested name with another owner |
| HostDomains.HostService.ClaimAndCheck | internal/service/host.go:73-93 | the check behind a claim fails only with the database, and never finds a conflict; if it passes, the domains are claimed and free |
| HostDomains.HostService.InsertRows | internal/service/host.go:1236-1242 | the additional names are inserted in order, and a failure leaves one-owner intact; with a healthy database they go in if and only if none of them stands in the table |
| HostDomains.HostService.InsertHost | internal/service/host.go:74-265 | a new id, the primary and the additional names settled; it fails only with the database |
| HostDomains.HostService.CreateInTransaction | internal/service/host.go:74-265 | saved means the new host owns exactly the requested names and nobody else lost any other; with a healthy database it saves every request that passes the validations |
| HostDomains.HostService.Create | internal/service/host.go:74-265 | all or nothing: saved as above, or both tables as before; with a healthy database a request with valid names is saved if and only if it is accepted |
| HostDomains.HostService.WriteUpdate | internal/service/host.go:396-566 | the writes of an update keep one-owner at every point of failure; saved means the host owns the requested names, and its old additional ones too if the DELETE failed; with a healthy database it saves if and only if the DELETE works or no old additional name is asked for again |
| HostDomains.HostService.Update | internal/service/host.go:282-566 | saved means the host owns exactly the requested names, and its old additional ones if the unchecked DELETE failed; a refusal leaves the claim, with or without the host's own rows cleared; a database failure leaves one-owner and gains within the requested names; with a healthy database each reply has its exact condition |
| HostDomains.HostService.Delete | internal/service/host.go:568-582 | the host and, by cascade, its names are gone; other hosts keep theirs; otherwise nothing changes; with a healthy database every existing host is deleted |
| HostDomains.HostService.Serve | internal/service/host.go:74-582 | in every run of creates, updates and deletes, succeeding or failing anywhere, no name has two owners, over both tables and without case |
| Routes.MapUpstreamIDs | internal/service/host.go:812-845 | old id to new id, the last entry for repeated ids |
| Routes.CopyRoutes | internal/service/host.go:823-845 | clone and import: each copied route resolves to the same address under the same path and order, orphans cleared |
| Routes.CopiesCompose | internal/service/host.go:952-976 | copying a copy keeps the original meaning |
| Routes.StoreTargets | internal/service/host.go:490-505 | the request's upstreams are stored in order with fresh ids |
| Routes.IndexUpstreams | internal/service/host.go:506-511 | old id to its index by sort order |
| Routes.RemapRoutes | internal/service/host.go:506-526 | each route is moved to the new upstream at its old index, or left alone |
| Routes.UpdateMeaning | internal/service/host.go:506-526 | after an update a route resolves to the request's upstream at its old index if there is one, and otherwise to what its old reference means among the new upstreams |
| Routes.UpdateDanglesIff | internal/service/host.go:506-526 | it resolves to nothing if and only if it has no upstream to move to and its old reference is no new id |
| Routes.UpdateKeepsMeaning | internal/service/host.go:506-526 | with the addresses unchanged a route resolves as before, if and only if it resolved at all or its reference is no new id |
| Routes.DanglesForeverIff | internal/service/host.go:432-526 | in every run of updates a dangling reference dangles throughout, if and only if none of them creates its id |
| Routes.DanglingRevives | internal/service/host.go:432-526 | a host whose two updates, with row numbers starting from 1 again, leave a reference dangling and then turn it to a newcomer |
| Routes.UpdateKeepsOrphan | internal/service/host.go:506-526 | unlike clone and import, an update leaves a reference to a dropped upstream in place |
| Routes.RenderRoutes | internal/caddy/renderer.go:225-248 | one directive per resolving route, in sort order |
| Routes.LinesProxy | internal/caddy/renderer.go:225-248 | a proxy line stands for exactly a route that resolves to that address |
| ExtractedAddresses.AnyPortGranted | internal/caddy/validate.go:261-311 | a header `h:p {` is accepted if and only if the host lists h, or h with that port |
| CaddyValidate.CaddyValueIff | internal/caddy/validate.go:198-206 | a value is accepted if and only if it has no brace, line break, quote or backslash |
| CaddyValidate.ValidDomainPlain | internal/caddy/validate.go:12-39 | an accepted domain has no brace, blank or comment sign |
| ExtractedAddresses.NameValidIff | internal/caddy/validate.go:12-39 | labels with dots between them are a valid domain if and only if they are not too long |
| ExtractedAddresses.PortValidIff | internal/caddy/validate.go:12-39 | with a port behind them, if and only if the port is 1 to 65535 in at most five digits and the whole is not too long |
| CaddyValidate.ScanLine | internal/caddy/validate.go:220-240 | the character loop fails if and only if the depth goes below zero, and otherwise returns the depth |
| CaddyValidate.SanitizeCustomDirectives | internal/caddy/validate.go:210-247 | accepted, negative or unbalanced exactly as the comment-aware depth says |
| CaddyValidate.VerdictUnique | internal/caddy/validate.go:210-247 | the three verdicts exclude each other |
| CaddyValidate.CollectDomains | internal/caddy/validate.go:261-283 | fails exactly on an invalid or empty list, else collects the exact and any-port grants |
| CaddyValidate.CheckHeader | internal/caddy/validate.go:288-311 | passes exactly a first line of granted addresses and one opening brace |
| CaddyValidate.ScanBlockLine | internal/caddy/validate.go:313-346 | depth, first opening and first closing of one line |
| CaddyValidate.ScanBlock | internal/caddy/validate.go:313-346 | accepts exactly balanced blocks with a brace and only blank or comment lines after the closing line |
| CaddyValidate.ValidateFullCaddyBlockForDomains | internal/caddy/validate.go:256-347 | accepts if and only if domains, header and body are acceptable, early exits included |
| CaddyValidate.FullBlockSanitizes | internal/caddy/validate.go:210-347 | an accepted full block is accepted by the check on custom directives, trimmed or not |
| CaddyValidate.HeaderOpens | internal/caddy/validate.go:288-311 | an accepted header has no other brace, opens depth one and closes nothing |
| CaddyValidate.AcceptedShape | internal/caddy/validate.go:256-347 | there is one closing line: before it all lines begin inside, after it the depth is zero and only blank or comment lines follow |
| CaddyValidate.TailAcceptedIff | internal/caddy/validate.go:313-346 | a text on the line of the closing brace of an accepted block is accepted if and only if it is balanced by itself and has no null character |
| ExtractedAddresses.SecondSiteExample | internal/caddy/validate.go:317-320 | the block of a.com with " b.com { }" behind its closing brace is accepted for a.com |
| CaddyRender.RenderRoutes | internal/caddy/renderer.go:225-248 | a matcher line and a proxy line for exactly the routes that resolve, by sort order, each naming the path and the address of the route |
| CaddyRender.ValueLineIff | internal/caddy/renderer.go:250-268 | a line of code that ends in any value, such as an unchecked IP range, is whole if and only if the braces of the value match |
| CaddyRender.AddressLineIff | internal/caddy/renderer.go:238-247 | the proxy line of a route, for every upstream address, validated or not |
| CaddyRender.AddressesOpenIff | internal/caddy/renderer.go:196-206 | the line that opens the proxy block opens exactly one block if and only if the braces of the joined addresses match, or a line break and a comment sign in them hide its brace and they open the block themselves |
| CaddyRender.UnmatchedAddress | internal/caddy/renderer.go:238-247 | the address "a:80}", which Create accepts, closes a block that its line did not open |
| CaddyRender.RenderTLS | internal/caddy/renderer.go:86-101 | the certificate line, the DNS block of the stored provider, or nothing, by TLS mode |
| CaddyRender.RenderDnsTLS | internal/caddy/renderer.go:374-430 | the block of the provider with its credentials; nothing is written unless all of them pass the check |
| CaddyRender.DirectivesNeutral | internal/caddy/validate.go:210-247 | accepted directives stay whole blocks after trimming and indenting |
| CaddyRender.RenderCustomDirectives | internal/caddy/renderer.go:140-145 | the directives are spliced in indented, and leave the depth as it was |
| CaddyDirectives.ReadsBack | internal/caddy/renderer.go:63-158 | written directives are read back from the text, blocks with their lines |
| CaddyServes.BlockAborts | internal/caddy/renderer.go:250-268 | a request is aborted if and only if some deny rule covers its address or some allow rule does not |
| CaddyServes.BlockProxies | internal/caddy/renderer.go:168-248 | only a proxy host proxies: with routes, to an address if and only if one of them covers the path and resolves to it; without, to exactly its upstreams |
| CaddyServes.BlockAnswers | internal/caddy/renderer.go:298-324 | a request is answered directly if and only if CORS is on and it is an OPTIONS request, and then with 204 |
| CaddyServes.BlockAuths | internal/caddy/renderer.go:188-194 | exactly the logins of the host are demanded |
| CaddyServes.LoginReads | internal/caddy/renderer.go:188-194 | a login is read back from its line if and only if its name has no blank |
| CaddyServes.BlockHeaders | internal/caddy/renderer.go:269-335 | the header blocks hold the security headers and the host's own by sort order; those for preflight requests the CORS headers |
| CaddyServes.HeaderReads | internal/caddy/renderer.go:269-292 | the operation, name and value of a custom header are read back from its line; other operations write none |
| CaddyServes.PreflightReads | internal/caddy/renderer.go:298-324 | the four CORS headers carry the configured origins, methods and headers |
| CaddyServes.BlockTls | internal/caddy/renderer.go:86-101 | the certificate files are those of a host with its own, and nothing otherwise |
| CaddyServes.DnsTold | internal/caddy/renderer.go:378-430 | the DNS challenge names the provider and gives each credential under its own key, if and only if all credentials can be written |
| CaddyServes.BlockEncode | internal/caddy/renderer.go:103-106 | answers are compressed if and only if the host says so |
| CaddyServes.BlockSite | internal/caddy/renderer.go:160-372 | redirect target and code, root, index files, listing and FastCGI address are those of the host, by its type |
| Caddyfile.HostSiteDomains | internal/caddy/renderer.go:42-61 | the primary name first, then every additional name by sort order, each once without case or surrounding space |
| Caddyfile.AddressForms | internal/caddy/renderer.go:63-82 | a name stands with `http://` in front if and only if TLS is off |
| Caddyfile.RenderHostBlock | internal/caddy/renderer.go:63-158 | what is appended is a block of the declared shape: the trimmed override, or a generated site with exactly the directives of its host before and behind the custom ones |
| Caddyfile.RenderGenerated | internal/caddy/renderer.go:75-158 | header, the directives of the host, the custom directives and final brace of a generated site |
| Caddyfile.RenderCaddyfile | internal/caddy/renderer.go:15-40 | the file is the preamble, line for line, and one block per enabled host in order, each generated one with exactly the directives of its host |
| Caddyfile.ShownIff | internal/caddy/renderer.go:34-38 | a host gets a block if and only if it is not switched off |
| CaddyServes.BlockTells | internal/caddy/renderer.go:63-158 | all of the above for a generated block as it is read back from the file's text, for every request |
| CaddyServes.WholeBlockTells | internal/caddy/renderer.go:63-158 | without custom directives also for the whole block, error pages and log included |
| Caddyfile.SafeDomainFileName | internal/caddy/validate.go:93-124 | 1 to 180 file name characters; an ordinary name of that length is unchanged |
| Caddyfile.HostBlockWell | internal/caddy/renderer.go:63-158 | the block of a validated host is well-formed, whatever directives are spliced in |
| Caddyfile.BlockBalanced | internal/caddy/renderer.go:63-158 | a well-formed block runs from depth zero to depth zero, never below |
| Caddyfile.InsideOpen | internal/caddy/renderer.go:75-158 | at least one brace is open everywhere in a generated block until its final brace |
| Caddyfile.FileBalanced | internal/caddy/renderer.go:15-40 | well-formed blocks make a balanced file |
| Caddyfile.FileDepths | internal/caddy/renderer.go:15-158 | at every character of the rendered file the depth is not negative, zero at every block boundary, at least one inside generated blocks |
| SiteAddresses.ScanHeader | internal/caddy/validate.go:352-376 | one line yields exactly the addresses of its header words |
| SiteAddresses.ExtractSiteAddresses | internal/caddy/validate.go:349-376 | exactly the normalised valid addresses on lines that end in an opening brace, at any depth |
| SiteAddresses.LowerValid | internal/caddy/validate.go:15-39 | lower-casing keeps a domain valid |
| SiteAddresses.NormalizeDomain | internal/caddy/validate.go:42-73 | a valid domain, with or without http, normalises to its lower-case self |
| SiteAddresses.AddressesFound | internal/caddy/validate.go:349-376 | scanning the rendered file finds every name of every host with a generated block, and every address that an overriding header lists |
| ExtractedAddresses.HeaderExact | internal/caddy/validate.go:349-376 | the header line of a block finds an address if and only if it is a name of the host, for a generated block, or stands in the header, for an overriding one |
| ExtractedAddresses.PreambleFinds | internal/caddy/renderer.go:18-30 | the preamble makes the scan find exactly "log", "output", "file", and the log directory where that reads as an address |
| ExtractedAddresses.AbsoluteDirSilent | internal/caddy/renderer.go:28 | an absolute log directory without spaces and commas does not |
| ExtractedAddresses.FoundExactly | internal/caddy/renderer.go:15-158 | scanning the rendered file finds exactly what the header lines promise, the words of the preamble, and what stands on lines inside a block that end in an opening brace |
| ExtractedAddresses.OwnBlockGranted | internal/caddy/validate.go:288-311 | an accepted block lists only addresses that the host's names grant |
| ExtractedAddresses.OverrideLosesAddress | internal/caddy/validate.go:288-376 | a host with two names and an accepted block for the first: the scan finds the first and the preamble's words, and nothing else |
| ExtractedAddresses.MissedExample | internal/caddy/validate.go:288-376 | so b.com is missed for a host {a.com, b.com}, and "log" is found |
| Reload.KeepsInv | internal/caddy/manager.go:131-169 | every step of timer, callback, caller or reload keeps the invariant |
| Reload.RunInv | internal/caddy/manager.go:131-169 | and so does every interleaving |
| Reload.OneCallback | internal/caddy/manager.go:134-169 | while somebody waits, exactly one timer is armed or has a callback that will take the waiters |
| Reload.SendsNeverBlock | internal/caddy/manager.go:158-166 | the next waiter's channel is always empty and its result was not received before |
| Reload.GotStays | internal/caddy/manager.go:134-169 | a caller receives one result, for good |
| Reload.FreshUnlessLate | internal/caddy/manager.go:134-169 | the result comes from a reload that began after the caller joined, if and only if none was under way then |
| Reload.LateMeansUnderWay | internal/caddy/manager.go:134-169 | the record used above is set exactly when a callback is between starting Reload and taking its waiters |
| Reload.LateCallerIsStale | internal/caddy/manager.go:134-169 | a run in which a late caller gets an older reload's result |
| Reload.StepCounts | internal/caddy/manager.go:134-169 | every step but a request lowers a measure by one |
| Reload.NotStuck | internal/caddy/manager.go:134-169 | while somebody is not served some step other than a request is possible |
| Reload.QuietEnds | internal/caddy/manager.go:134-169 | without further requests every schedule ends within that measure |
| Reload.AllServed | internal/caddy/manager.go:134-169 | and then everybody has a result |
| ReloadOutcomes.OutcomeIs | internal/caddy/manager.go:146-169 | in every run a caller receives an outcome only if the reload of the callback that took it ended so |
| ReloadOutcomes.OutcomeOfCallback | internal/caddy/manager.go:146-169 | whoever a callback took receives exactly the result its reload ended with |
| ReloadOutcomes.SameOutcome | internal/caddy/manager.go:146-169 | all callers taken by one callback receive the same |
| ReloadOutcomes.OneEnd | internal/caddy/manager.go:112-169 | a reload ends once, so that outcome is the only one |
| ReloadOutcomes.TraceHolds | internal/caddy/manager.go:134-169 | at every point of every run each result on its way to a caller is owed to such an end |
| ReloadOutcomes.FailureReaches | internal/caddy/manager.go:134-169 | when every reload fails, the first caller is told so |
| Reload.Manager.Stop | internal/caddy/manager.go:139-145 | stopping prevents the callback exactly of an armed timer |
| Reload.Manager.RequestReload | internal/caddy/manager.go:134-169 | the locked part is the abstract request step |
| Reload.Manager.TakeWaiters | internal/caddy/manager.go:150-166 | the locked part of the callback takes all waiters, whom it will send the result that Reload returned, and forgets its timer; what they receive is OutcomeIs |
| ToolStream.Accumulate | plugins/ai/client_tools.go:215-240 | the map of calls tracks, per index, the last id, the last name and the concatenated arguments |
| ToolStream.EmitCalls | plugins/ai/client_tools.go:179-260 | the calls with an index below the number of calls are emitted in index order, or up to a failing callback |
| ToolStream.ReadChoice | plugins/ai/client_tools.go:200-248 | text, fragments and finish reason of one choice, with any callback failure |
| ToolStream.ReadChunk | plugins/ai/client_tools.go:188-248 | the choices of one line up to one that ends the stream |
| ToolStream.ReadLines | plugins/ai/client_tools.go:179-250 | the scan loop up to the end of input, end marker, finish or failing callback |
| ToolStream.ParseOpenAI | plugins/ai/client_tools.go:179-260 | the callback sees exactly the declared events, cut at its first failure, and the error returned is the declared one |
| ToolStream.OneFinalDone | plugins/ai/client_tools.go:179-260 | an error-free run ends in exactly one done |
| ToolStream.AllEmittedIff | plugins/ai/client_tools.go:179-260 | every accumulated call is emitted if and only if the indices are contiguous |
| ToolStream.GapLosesCall | plugins/ai/client_tools.go:226-237 | calls 0 and 2: call 2 is not emitted |
| ToolStream.LateStartKeepsCall | plugins/ai/client_tools.go:226-237 | calls 1 and 2: call 1 is emitted although there is no call 0 |
| ToolStream.EmittedInOrder | plugins/ai/client_tools.go:179-260 | then the i-th call emitted is index i with all its fragments |
| ToolStream.WholeMeans | plugins/ai/client_tools.go:179-260 | a call has the last id and the last name that were sent for it |
| ToolStream.WholeConcat | plugins/ai/client_tools.go:179-260 | and its arguments are the pieces, joined in order |
| ToolStream.TextWhole | plugins/ai/client_tools.go:179-260 | the texts of all events are what the model wrote up to the finish, whatever becomes of the calls |
| ToolStream.InterleavingIrrelevant | plugins/ai/client_tools.go:179-260 | only the fragments of each index matter, not how they interleave |
| ToolStream.SplittingIrrelevant | plugins/ai/client_tools.go:179-260 | cutting an argument fragment in two, with other calls in between, changes nothing |
| ToolStream.StreamsAgree | plugins/ai/client_tools.go:179-260 | streams with the same text whose fragments assemble to the same calls produce the same events, however they are cut into lines and fragments |
| ToolStream.StopDropsCalls | plugins/ai/client_tools.go:179-260 | some call is reported if and only if the stream does not finish with stop and some index is below the number of calls |
| ToolStream.StoppedCallIsLost | plugins/ai/client_tools.go:238-241 | one call and then stop: only done is reported |
| AnthropicStream.ReadEvent | plugins/ai/client_tools.go:403-500 | one event changes only its own block and says what that block's state demands |
| AnthropicStream.ParseAnthropic | plugins/ai/client_tools.go:403-506 | the callback sees exactly the declared events, cut at its first failure, with the declared outcome |
| AnthropicStream.OpenHolds | plugins/ai/client_tools.go:403-500 | an open block holds all its fragments, whatever happens to other blocks |
| AnthropicStream.CallAtStop | plugins/ai/client_tools.go:403-500 | a tool call is reported at its block stop, with the concatenated arguments |
| AnthropicStream.TextAtDelta | plugins/ai/client_tools.go:403-500 | a text for an open block is told at its place, as it is; for a block that is not open nothing is |
| AnthropicStream.AgreeLater | plugins/ai/client_tools.go:403-506 | streams that agree so far agree after any common continuation |
| AnthropicStream.SplittingIrrelevant | plugins/ai/client_tools.go:403-506 | cutting an argument fragment in two, with other blocks in between, changes nothing that is ever said |
| AnthropicStream.SplittingUnseen | plugins/ai/client_tools.go:403-506 | the events and the outcome of the whole stream are the same, wherever it ends |
| AnthropicStream.OneFinalDone | plugins/ai/client_tools.go:403-506 | an error-free run ends in exactly one done |
| ToolLoop.TranscriptPaired | plugins/ai/service.go:276-429 | each assistant message with calls is followed by exactly one result per call, in order, with its id and name |
| ToolLoop.PairedConcat | plugins/ai/service.go:276-429 | well-paired transcripts concatenate |
| ToolLoop.TranscriptText | plugins/ai/service.go:276-432 | the text returned is what the assistant says in the transcript |
| ToolLoop.RoundTells | plugins/ai/service.go:309-429 | the notices of a round are, call by call in order, a request for confirmation with the pending id if and only if the call is gated, and right behind it its result |
| ToolLoop.CallTold | plugins/ai/service.go:236-432 | so it is in the notices of a whole conversation, at the place that belongs to the call |
| ToolLoop.ContentOf | plugins/ai/service.go:309-429 | the result that is told is the content of the call's message in the transcript |
| ToolLoop.DoneLast | plugins/ai/service.go:236-432 | the final notice is sent once and last, or not at all if a stream failed |
| ToolLoop.RunsAreApproved | plugins/ai/service.go:213-385 | with confirmations interleaved in any way, every run of an admin-only tool is by admin or owner, and every run of a gated tool has a yes from the user of the conversation on the channel of its own gate |
| ToolLoop.GatedRunsIff | plugins/ai/service.go:341-385 | a gated call is run if and only if its gate came to a yes |
| ToolLoop.RunsOneRound | plugins/ai/service.go:276-429 | the runs of all rounds are exactly the calls that may run, in order |
| ToolLoop.Service.Confirm | plugins/ai/service.go:341-379 | the decision is returned, its entry is gone afterwards and no other entry is lost |
| ToolLoop.Service.HandleCall | plugins/ai/service.go:309-429 | denial, rejection or output as the gates say, and exactly the notices about it; the registry is reached exactly when allowed |
| ToolLoop.Service.HandleCalls | plugins/ai/service.go:309-429 | one answer per call in order, exactly the permitted calls run, exactly the notices about them in order, no entry of the round remains |
| ToolLoop.Service.PlayRound | plugins/ai/service.go:276-429 | a round extends transcript, runs and notices as declared: the streamed reply, then those of its calls |
| ToolLoop.Service.ChatWithTools | plugins/ai/service.go:236-432 | at most ten rounds, the declared transcript, runs and notices and no others, one final done exactly on success, no pending entry left |
| Confirmations.OnlyTheOwnerApproves | plugins/ai/service.go:213-230 | in every interleaving a call that was let through was approved by its own user on its own channel |
| Confirmations.RefusedForReason | plugins/ai/service.go:213-385 | a call that was not let through was cancelled, or refused by its own user |
| Confirmations.DecisionArrives | plugins/ai/service.go:213-385 | while a call waits under its own entry, the answer of its user reaches it as it was given |
| Confirmations.OthersIgnored | plugins/ai/service.go:213-234 | an answer has an effect if and only if it is by the user of the call pending under that id |
| Confirmations.NoEntryRemains | plugins/ai/service.go:341-379 | no pending entry outlives its call |
| Confirmations.LosesEntry | plugins/ai/service.go:341-379 | a waiting call becomes unreachable if and only if a call with the same id registers or cleans up |
| Confirmations.StaysLost | plugins/ai/service.go:213-379 | and stays so in every continuation |
| Confirmations.CollisionStrands | plugins/ai/service.go:341-379 | two conversations with one id: the first can no longer be approved |
| Confirmations.CollisionCrosses | plugins/ai/service.go:213-379 | the answer meant for the first goes to the second |
| Confirmations.BlockedForever | plugins/ai/service.go:213-230 | an answer that finds the channel full after the decision is never delivered |
| Confirmations.ArrivesIff | plugins/ai/service.go:213-230 | an unsent answer can still be delivered if and only if its call waits or its channel is empty |
| Confirmations.TwoAnswersBlock | plugins/ai/service.go:213-379 | two answers and a cancellation between them: the second can never be delivered |
| Confirmations.ThirdAnswerBlocks | plugins/ai/service.go:213-379 | without a cancellation, three answers block a request |
| BackupShutdown.OneHolder | plugins/backup/service.go:321-337 | in every interleaving at most one backup holds the running flag |
| BackupShutdown.CounterExact | plugins/backup/service.go:72-89 | the wait counter is the number of live tracked jobs |
| BackupShutdown.NoAddAfterCancel | plugins/backup/service.go:64-139 | once Stop has cancelled, nothing raises the counter |
| BackupShutdown.DrainedStaysQuiet | plugins/backup/service.go:127-139 | after a drained Stop no tracked job is alive, then or later |
| BackupShutdown.TriggersAreOver | plugins/backup/service.go:64-139 | a stopped service never triggers again |
| BackupShutdown.ManualOutlivesStop | plugins/backup/handler.go:102-124 | a run in which a backup started by hand is still running after a full drain |
| BackupShutdown.DrainedQuietIff | plugins/backup/service.go:127-139 | a drained Stop leaves a backup running if and only if an untracked job holds the flag |
| BackupShutdown.DrainedRunsIff | plugins/backup/service.go:127-139 | in terms of the actions: if and only if a job started by hand took the free flag and has not given it back |
| BackupShutdown.Service.TriggerAsync | plugins/backup/service.go:72-89 | the locked part is the abstract trigger; a job is spawned exactly when not shutting down |
| BackupShutdown.Service.TryAcquire | plugins/backup/service.go:321-337 | the flag is taken exactly when free |
| BackupShutdown.Service.ReleaseFlag | plugins/backup/service.go:321-337 | the deferred reset is the abstract release |
| BackupShutdown.Service.Done | plugins/backup/service.go:72-89 | the counter goes down and never below zero |
| BackupShutdown.Service.BeginStop | plugins/backup/service.go:127-139 | cancelled under the lock, before waiting |
| SqlLiteral.ContainsUnquotedSemicolon | internal/plugin/coreapi.go:779-800 | the loop with lookahead finds exactly what a three-state scanner without lookahead finds |
| SqlLiteral.TwoPasses | internal/plugin/coreapi.go:771-775 | the two replacements equal one character-wise escape |
| SqlLiteral.EscapedStaysInside | internal/plugin/coreapi.go:771-800 | an escaped string never leaves the literal |
| SqlLiteral.LiteralRead | internal/plugin/coreapi.go:771-800 | the literal is scanned as one closed piece without a semicolon |
| SqlLiteral.CheckIgnoresLiteral | internal/plugin/coreapi.go:771-800 | the check on text, literal and text does not depend on the string when the first text ends outside a literal |
| SqlLiteral.CheckSees | internal/plugin/coreapi.go:771-800 | behind a text that ends inside another literal the check sees the semicolons of the string |
| SqlLiteral.CheckIgnoresIff | internal/plugin/coreapi.go:771-800 | independence of the string holds if and only if the text before is found already or does not end inside a literal, or the text after is found when read from inside one |
| SqlLiteral.ReadsBackIff | internal/plugin/coreapi.go:768-775 | a MySQL literal reads back as the original if and only if no quote follows it |
| SqlLiteral.StandardReading | internal/plugin/coreapi.go:768-775 | where a backslash is ordinary the literal reads with every backslash doubled |
| SqlLiteral.StandardReadsBackIff | internal/plugin/coreapi.go:768-775 | there it is the original if and only if that has no backslash |
| SqlLiteral.BackslashDoubles | internal/plugin/coreapi.go:768-775 | a single backslash reads back as two there |
| Iptables.ParsePortRule | internal/plugin/coreapi.go:1366-1386 | the loop yields the protocol and the port that the words name last |
| Iptables.FieldsParse | internal/plugin/coreapi.go:1366-1386 | a rule is read as its pair whatever key-free words surround it |
| Iptables.PrintParse | internal/plugin/coreapi.go:1245-1386 | every accepted pair, ranges included, survives printing, joining, splitting and parsing |
| Iptables.ListedRuleParses | internal/plugin/coreapi.go:1207-1243 | a single-port rule in the form iptables lists it, with the match module in between, parses to its pair |

## Left out

- CaddyServes.BlockTells: the meaning of directives is declared for what the renderer writes and not Caddy's own; a matcher name defined again, as by two allow rules, stands from there on for the later range, which is not what Caddy does with it.
- CaddyServes.WholeBlockTells: custom directives may add to what a block tells, so with them BlockTells is about the part in front of them.
- Error pages, access logs, cache and transport lines: fixed as text by `Written`, without a meaning of their own.
- ToolLoop.Service.Confirm: takes the decision as a parameter; `RunsAreApproved` ties the decisions to the gates of Confirmations, as each gate stands when its call is over.
- CaddyRender.Validated: an overriding block is taken as accepted for some list of names, because a claim may take names from a host without looking at its block.
- HostDomains.HostService.Create: custom directives, upstreams and other fields are one flag `accepted`; the validators of those fields are in CaddyValidate.
- Retention.RunsKeep: rows of the same time are taken to come back in the same order in every run; the query orders by time only.
- PluginManager.Manager.SeedDefaultStates: the INSERTs of the seed are taken to succeed, as the code ignores their errors.
- BackupShutdown.OneHolder: RunBackup without Kopia leaves before the flag; what a backup does while it holds the flag is not modelled.
- Text.Lower: ASCII case only, where Go folds Unicode letters as well; domains that pass validation are ASCII.
- Byte positions: strings are sequences of characters, so lengths and indents count characters; the two differ only for multi-byte white space around a line.
- The scanners' limit on line length (64 KiB for compose documents, 1 MiB for streams), behind which they stop silently.
- `RenderCaddyfile` for hosts whose fields bypassed validation: the theorem on the whole file takes every embedded field as accepted by its validator; Create does not enforce that for upstream addresses and IP ranges, for which the condition is stated line by line.
- Routes.DanglesForeverIff: whether the database gives out an id again is not modelled; where ids never come again, a dangling reference dangles for good.
- ComposeStrip.SanitizeCompose: that a second run changes nothing is stated for the relabelling, each clean-up and the injection one by one, not for the pipeline.
- CaddyValidate.TailAcceptedIff: is about the last line of a block; for texts elsewhere the exact verdict is that of ScanBlock.
- ExtractedAddresses.FoundExactly: what the body lines of a generated block contribute is given as the scan of those lines, without listing the words of each kind of directive.
- Domain uniqueness of CloneHost and ImportAll: neither keeps it; they are modelled for route remapping only.
- Interleaving of several host requests: each runs alone, as the model has no isolation levels.
- Sort ties: sort.Slice promises no order for equal keys, so no theorem fixes one.
- 64-bit overflow of sizes and counters.
- Pseudo-random, cryptographic and JSON functions; IP and regular-expression matching outside domain syntax.
- Wall-clock time: the retention cutoff is a parameter, the debounce delay and timeouts are nondeterministic steps.
- The conversion of transcript messages to each provider's JSON (plugins/ai/client_tools.go:135-177, 352-401).
- Saving and listing conversations, memories and prompts.
- Whether a rewritten compose file is well-formed YAML: the code works on lines and indentation, and so do the theorems.
- Firewall zones, services and the panel-port guard; the list of rules around the parsed line.
- Reads of the plugin table that fail: `isEnabled` then answers as for a missing row; in the model only writes fail.
- Retention.BackupService.DeleteRow: once Kopia has agreed, the deletion of the rows is taken to succeed, as the code ignores its errors.
- Unreferenced helpers, HTTP handlers, templates, settings, notifications and process control.
