# Sora core: a Dafny model

Sora is a VPN client whose Go core (`sora-core`) keeps subscriptions in an encrypted vault, runs one
session at a time behind an optional kill switch, compiles one plan for three routing engines, and
supervises the engine process. This project models the stateful protocols and the rule compilers of
that core and proves what they promise.

| area | modules |
|---|---|
| subscriptions over the vault | `References`, `Subscriptions`, `SubscriptionRuns`, `RefreshRaces`, `Vault`, `VaultFile`, `StoredRuns`, `SubscriptionBook` |
| kill switch: manager, sessions, guard | `Guard`, `KillSwitch` |
| engine process | `RestartBudget`, `Supervisor`, `LineWriter` |
| plans and groups | `Plans`, `GroupGraph`, `PlanCheck` |
| rule compilers | `Routing`, `Xray`, `XrayMeaning`, `SingBoxTags`, `PlanNames`, `SingBox`, `Mihomo`, `MihomoNames`, `Engines`, `Presets`, `Bridge` |
| policy routes | `PolicyRules`, `RouteLookup` |
| logs and events | `LogCenter`, `LogPaging`, `LogStore`, `EventFeed` |

Objects the core updates in place (`Store`, the book's `Keeper`, `Budget`, `Splitter`, `Center`,
`Journal`, the renderers) are classes whose methods are proved against specification functions; what
the core promises is proved about those functions and about runs of them. Protocols whose steps
interleave (sessions, supervisor, refresh, event feed) are state machines with one step per
lock-protected section; every failing call is a choice of the environment. A connection is an
arbitrary function from conditions to answers, so the routing theorems hold for every connection. Where
a theorem says "only if", the connection that shows it is real: it has one source port, one destination
port, one network and one process at most (`Routing.Real`).

Assumptions, each stated as a parameter or a precondition: codecs round-trip and encode the empty
list as no bytes; a fresh subscription id is used by no record and no running fetch; nobody else changes
vault entries whose names begin with `u1_`, although clients may put and delete any name
(`StoredRuns.ForeignMirrors` is the exact condition); ids and digests are hexadecimal of fixed length;
writing the vault file succeeds or changes nothing; letters and digits, as Unicode has them, hold no
comma; clocks are monotone where a window is counted; the kernel deletes the
first rule it finds and finds nothing beyond `deleteMatches`; process conditions never hold behind
SOCKS; engines read each condition as the reading functions in the three engine modules say.

Findings. Where the code does less than its comments or the plan say, the model follows the code and
proves exactly when the words hold, with a concrete input where the condition alone does not give one:

- A relinked subscription is said to be fetched at once; a fetch of the old link still running
  prevents it, and nothing starts one when that fetch ends (`RefreshRaces.RelinkFetchesUnlessUpdating`,
  `RefreshRaces.RelinkedLinkWaits`, `RefreshRaces.RelinkMayWait`).
- A result is said to be discarded if the link changed during the fetch; a link changed away and back
  is not noticed (`RefreshRaces.EndChangesNothingExactly`, `RefreshRaces.ReturnedLinkIsAccepted`).
- SetKillSwitch is said to apply immediately; after a Disarm that failed having removed the block,
  enabling succeeds without arming (`KillSwitch.EnablingBlocksUnlessLapsed`, `KillSwitch.LapseIsReachable`).
- Advertisement blocking is said to come before anything else; user rules come first
  (`Presets.EveryAdIsRejectedExactly`, `Presets.AdMayPass`).
- An Apply whose old child cannot be killed leaves two children (`Supervisor.OnlyALeakBreaksOneChild`).
- An Apply that fails to start a child during a restart delay does not keep the watcher from bringing
  back the plan it replaced (`Supervisor.RestartRunsThePlanAtExit`, `Supervisor.OldPlanIsRestarted`).
- A line over the limit is torn or not depending on how it arrives (`LineWriter.CuttingNeverMatters`).
- Xray balancers drop members that are not servers and may have nothing to choose from
  (`XrayMeaning.BalancerIsEmptyWithoutServers`, `XrayMeaning.AutomaticGroupOfGroupsIsEmpty`).
- A rule value with a comma is misread in a mihomo rule line (`Mihomo.ListReadsBack`,
  `Mihomo.CommaInValueMisreads`).
- Source-port rules do not survive the Xray TUN bridge in general (`Bridge.SplitKeepsOutcomes`,
  `Bridge.SourcePortRuleIsLost`).

## Model

| member | source | states |
|---|---|---|
| `SubscriptionRuns.VaultMatchesMemory` | core/control/subscriptions.go:142-434 | After every interleaving of save, delete, refresh-begin, refresh-end and restart, with any vault writes failing, the vault holds exactly the records, credentials and list chunks that memory names: records and chunks encode what memory has, and each credential is the last document stored for its server |
| `StoredRuns.FileMatchesMemory` | core/control/subscriptions.go:142-434 | The same for the vault file itself, shared with imports: after every run, with writes failing or refused by the vault's limits, the `u1_` names of the file are exactly the names of what memory has, with the same bytes, and the whole file keeps valid names, storable sizes and at most 4096 entries |
| `StoredRuns.NextMatches` | core/control/subscriptions.go:142-434 | Each single step keeps that, a write by someone else included |
| `StoredRuns.ForeignMirrors` | core/control/server.go:914-949 | A put or delete by someone else keeps the match if and only if every `u1_` name it puts has these bytes already and every one it only deletes is absent |
| `StoredRuns.GrantedIsSane` | core/secret/store.go:202-225 | An update the vault took holds storable documents only: nothing needs to be assumed about their sizes |
| `StoredRuns.ImportsAreLeftAlone` | core/control/subscriptions.go:57-64 | No step of the book changes or removes an entry whose name does not begin with `u1_`, so manual imports are unaffected |
| `VaultFile.WriteMirrors` | core/control/subscriptions.go:287-299 | One write of rendered names does to the file's section exactly what the change of references does to the vault: no two references meet in one name |
| `VaultFile.FitsExactly` | core/secret/store.go:202-236 | A change of the book is refused if and only if an entry is empty or too large or the file would hold too many entries, never for a name |
| `SubscriptionRuns.NextKeepsConsistency` | core/control/subscriptions.go:142-434 | Each single step, a restart on the stored vault included, keeps names, records and chunks in correspondence |
| `SubscriptionRuns.NextKeepsDocuments` | core/control/subscriptions.go:301-434 | Each single step keeps every credential equal to the last stored document: only a stored update and a delete change any |
| `Subscriptions.SaveKeepsConsistency` | core/control/subscriptions.go:212-285 | A save, refused, failed or stored, keeps names, records and chunks in correspondence |
| `Subscriptions.DeleteKeepsConsistency` | core/control/subscriptions.go:301-319 | A delete, failed or done, removes the record, all its credentials and all its chunks together and keeps the correspondence |
| `Subscriptions.EndKeepsConsistency` | core/control/subscriptions.go:353-390 | The second half of a refresh keeps the correspondence whether it is discarded, stored, fails to store, or fails to note its failure |
| `Subscriptions.UpdateKeepsConsistency` | core/control/subscriptions.go:394-434 | A stored update drops exactly the credentials of servers no longer listed and the chunks past the new end |
| `Subscriptions.ListSurvivesReload` | core/control/subscriptions.go:163-177 | Gathering the chunks a record counts and decoding them gives back the list in memory |
| `Subscriptions.ReloadKeepsTheBook` | core/control/subscriptions.go:125-177 | A book started on the vault of a consistent book has the same records and lists and is consistent |
| `Subscriptions.ChunksGlue` | core/control/subscriptions.go:409-413 | The chunks of an encoded list glue back to it, and each is between 1 byte and what a vault entry may hold |
| `SubscriptionRuns.FetchesNeverOverlap` | core/control/subscriptions.go:323-355 | In every run at most one fetch per subscription is in flight, and `updating` marks exactly the subscriptions being fetched |
| `Subscriptions.FailedRefreshKeepsServers` | core/control/subscriptions.go:361-379 | A refresh that fails for any reason leaves every credential and list chunk byte-identical |
| `Subscriptions.RefreshStoresDocuments` | core/control/subscriptions.go:394-434 | A refresh that succeeds stores the document of every listed server (the last of equal ones) and keeps no credential of a server that is not listed |
| `RefreshRaces.EndChangesNothingExactly` | core/control/subscriptions.go:353-390 | In every reachable state the end of a refresh changes nothing if and only if the id is absent or has another link, or no write succeeds, or the update repeats what is stored: same info, digests, list and documents, both time stamps already `now`, no failures and no error |
| `RefreshRaces.OvertakenRefreshIsDiscarded` | core/control/subscriptions.go:353-360 | Over every run: once the subscription is deleted during the fetch the result is discarded whatever is saved later; once it is relinked, unless a later save brings the old link back |
| `RefreshRaces.ReturnedLinkIsAccepted` | core/control/subscriptions.go:353-390 | A concrete run where the link changes away and back during the fetch and the result, a document the vault takes, is stored |
| `RefreshRaces.RelinkFetchesUnlessUpdating` | core/control/subscriptions.go:210-342 | The refresh a relinking save asks for starts a fetch if and only if none of that subscription is in flight |
| `RefreshRaces.RelinkedLinkWaits` | core/control/subscriptions.go:323-360 | After a relink during a fetch no fetch of the new link exists until a further Begin, and the end of the old one changes and starts nothing |
| `RefreshRaces.RelinkMayWait` | core/control/subscriptions.go:210-337 | A concrete run into such a state |
| `SubscriptionRuns.LinksStayDistinct` | core/control/subscriptions.go:212-285 | In every run no two subscriptions have the same link |
| `References.RenderIsInjective` | core/control/subscriptions.go:54-64 | The three families of vault names are disjoint and each name determines its subscription, chunk or digest |
| `References.LoaderFindsExactlyRecords` | core/control/subscriptions.go:142-161 | The loader's prefix and suffix test picks out exactly the record names among all names of the book |
| `References.ReferencesAreValid` | core/secret/format.go:30-52 | Every name the book uses is one the vault accepts |
| `SubscriptionBook.Load` | core/control/subscriptions.go:142-161 | On any vault file exactly the decodable record entries are loaded, each under its decoded id with the list its chunks give, and every other entry is passed over; the file of a consistent book gives back its records and lists |
| `SubscriptionBook.LoadList` | core/control/subscriptions.go:163-177 | The chunk loop equals its specification: a missing chunk or an undecodable list gives an empty list |
| `SubscriptionBook.Keeper.constructor` | core/control/subscriptions.go:125-161 | A book on an open store loads as above; on the file of a consistent book it starts with the same records and lists, nothing updating, and its invariant established |
| `SubscriptionBook.Keeper.Save` | core/control/subscriptions.go:212-285 | Memory, vault, stored file and result, every refusal included, are those of the specification; it stores exactly when the file can be written and the vault takes the record |
| `SubscriptionBook.Keeper.Write` | core/secret/store.go:202-260 | One change of references through `Store.Apply` under the rendered names: it succeeds exactly when the store is open, writable and the change fits, and the file's section stays the rendered vault |
| `SubscriptionBook.Keeper.RenderPuts` | core/control/subscriptions.go:54-64 | The rendered puts hold each reference's bytes under its own name |
| `SubscriptionBook.Keeper.FindLink` | core/control/subscriptions.go:234-241 | True if and only if another subscription has the link |
| `SubscriptionBook.Keeper.Delete` | core/control/subscriptions.go:301-319 | Memory, vault and stored file after a delete; it succeeds exactly when the id is known and the write succeeds |
| `SubscriptionBook.Keeper.RefreshBegin` | core/control/subscriptions.go:323-342 | Marks the subscription and hands out its link exactly when it exists, is not being fetched and a fetcher is there |
| `SubscriptionBook.Keeper.RefreshEnd` | core/control/subscriptions.go:353-390 | Memory, vault and stored file after the second half of a refresh, for every answer of the fetch and of both writes, refused ones included |
| `SubscriptionBook.Keeper.ApplyUpdate` | core/control/subscriptions.go:394-434 | The update as one all-or-nothing change of record, list, vault and file |
| `SubscriptionBook.Keeper.Split` | core/control/subscriptions.go:409-413 | The chunk loop stores exactly the chunks of the specification under consecutive names |
| `SubscriptionBook.Keeper.CollectStale` | core/control/subscriptions.go:414-422 | The names to delete are those of dropped servers and of chunks past the new end |
| `Vault.Store.Apply` | core/secret/store.go:202-260 | All or nothing on heap buffers: success gives (old minus deletes) plus puts in memory and on disk, zeroes every replaced or dropped buffer and no live one; failure leaves every buffer, every byte and the file as they were; and exactly when it succeeds |
| `Vault.Store.Commit` | core/secret/store.go:226-260 | The swap, the size limit, the write and the undo of one change |
| `Vault.Store.Install` | core/secret/store.go:243-251 | New items in place with the file rewritten, or the old items back |
| `Vault.Store.Checks` | core/secret/store.go:203-220 | The argument checks accept exactly valid names to put and delete and sizes the vault can hold |
| `Vault.Store.WriteLocked` | core/secret/store.go:330-341 | After a successful write the file mirrors memory; after a failed one it is unchanged |
| `Vault.Store.Put` | core/secret/store.go:115-155 | One secret replaced with its old buffer zeroed, or nothing changed; and exactly when it succeeds |
| `Vault.Store.Delete` | core/secret/store.go:177-200 | One secret removed and zeroed, or nothing changed; a missing name succeeds without a write |
| `Vault.WipeReplaced` | core/secret/store.go:252-258 | Zeroes exactly the buffers the new items no longer hold |
| `Vault.Wipe` | core/secret/file.go:48-52 | Every byte of the buffer becomes zero |
| `KillSwitch.RunKeepsInv` | core/session/runner.go:187-340 | Every run of manager, sessions and guard, with SetKillSwitch calls and engine events between any two lock-protected steps and any calls failing, keeps the ownership invariant |
| `KillSwitch.NextKeepsInv` | core/session/runner.go:187-340 | Each single step keeps it |
| `KillSwitch.ArmedBlockHasAnOwner` | core/session/manager.go:78-184 | In every reachable state an armed firewall is owned by a session the manager holds as current or the running Connect is handling |
| `KillSwitch.AtMostOneOwner` | core/session/manager.go:78-184 | Two sessions never both own the guard |
| `KillSwitch.SuccessfulStopIsFinal` | core/session/runner.go:253-317 | A Stop that reports success leaves the firewall disarmed, and in every continuation no step of that session arms it |
| `KillSwitch.RetriedDisconnectSucceeds` | core/session/manager.go:159-184 | Whatever failed before, a Disconnect whose own calls succeed is under way or has reported success with the block lifted, whatever calls and engine events come between |
| `KillSwitch.ManagingAdvances` | core/session/runner.go:253-317 | Each of its steps comes nearer to the end except while it waits for a SetKillSwitch call that holds the guard |
| `KillSwitch.OnlyReleaseLiftsTheBlock` | core/session/runner.go:383-471 | Engine-down, restart, fatal and network-change steps never lift the block: only disabling it, stopping, or a failed Start does |
| `KillSwitch.StatesMoveLegally` | core/session/session.go:53-72 | The state field of every session follows only the allowed transitions |
| `KillSwitch.StoppedSessionStaysDown` | core/session/runner.go:625-674 | No later step moves a stopped session out of Disconnected |
| `KillSwitch.StartLeavesTheBlockAsAsked` | core/session/runner.go:187-246 | A Start that succeeds leaves the firewall exactly as the session's settings ask |
| `KillSwitch.StatusReportsTheGuard` | core/session/runner.go:319-340 | With no call in progress the running session owns the guard and its status shows the guard's setting |
| `KillSwitch.EnablingBlocksUnlessLapsed` | core/session/runner.go:319-340 | A successful enabling leaves traffic blocked if and only if no earlier Disarm failed after removing the block |
| `KillSwitch.OnlyAFailedDisarmLapses` | core/guard/guard.go:84-131 | Only a Disarm that fails after removing the block makes the guard want a block that is not there |
| `KillSwitch.LapseIsReachable` | core/guard/guard.go:84-113 | A concrete run where the switch is reported on, the enabling call succeeded, and nothing is blocked |
| `Guard.Keeper.Apply` | core/guard/guard.go:84-113 | The new setting, firewall state and result for every answer of the firewall, including the skip when the setting does not change |
| `Guard.Keeper.Restore` | core/guard/guard.go:116-131 | The block is lifted or the failure is kept for a retry |
| `Guard.EnableArmsExactlyWhenNotLapsed` | core/guard/guard.go:84-113 | Enabling that reports success arms the firewall if and only if a wanted block is in force before it |
| `Supervisor.OnlyALeakBreaksOneChild` | core/engine/supervise/supervisor.go:318-356 | Every step keeps 'at most one child, and it is the current one' if and only if it is not an Apply that fails to stop the child it replaces |
| `Supervisor.AtMostOneChildAlive` | core/engine/supervise/supervisor.go:318-452 | In every run without such an Apply at most one child is alive and it is `proc` |
| `Supervisor.ALeakMakesTwoChildren` | core/engine/supervise/supervisor.go:339-344 | A concrete run with a failed kill after which two children are alive |
| `Supervisor.StaleWatchersStartNothing` | core/engine/supervise/supervisor.go:532-630 | In every reachable state, failed kills included: watchers pending at a Stop that returned nil never start a process, not even after a later Apply resets `stopping` |
| `Supervisor.SupersededForever` | core/engine/supervise/supervisor.go:532-602 | A watcher whose child is no longer the current one never becomes relevant again |
| `Supervisor.SuccessfulStopStartsNothing` | core/engine/supervise/supervisor.go:605-630 | After a Stop that returned nil no child is current, routes are down and no child starts until the next Apply, from every state |
| `Supervisor.SuccessfulStopStaysQuiet` | core/engine/supervise/supervisor.go:605-630 | Without an earlier failed replacement no child is alive until then, either |
| `Supervisor.RestartsAreGrants` | core/engine/supervise/supervisor.go:566-576 | The automatic restarts of a run are exactly the grants of the budget over the calls the run makes |
| `Supervisor.RestartsStayWithinBudget` | core/engine/supervise/supervisor.go:566-576 | With a monotone clock at most `limit` automatic restarts are authorised in any window, over whole runs, and none when the limit is zero or less |
| `Supervisor.RestartRunsThePlanAtExit` | core/engine/supervise/supervisor.go:532-602 | In every reachable state, whatever happens during the delay: the child an automatic restart starts runs the plan in force at the exit, which is the plan in force at the restart if and only if the last admitted Apply during the delay, if any, brought that plan |
| `Supervisor.OldPlanIsRestarted` | core/engine/supervise/supervisor.go:318-602 | A concrete run where an Apply that starts no child is followed by a restart of the plan it replaced |
| `RestartBudget.Budget.Allow` | core/engine/backoff.go:95-114 | Filtering the slice in place while reading it gives the attempts the specification keeps, and grants exactly when fewer than `limit` are kept; a grant leaves at least one attempt, so the delay index is not negative |
| `RestartBudget.AtMostLimitPerWindow` | core/engine/backoff.go:95-121 | With a monotone clock every half-open interval of length `window` holds at most `limit` grants |
| `LineWriter.Splitter.Write` | core/engine/supervise/process.go:207-226 | One Write emits the terminated lines of buffer and input, keeps the rest, and never leaves more than the limit buffered |
| `LineWriter.Splitter.Flush` | core/engine/supervise/process.go:228-235 | The closing flush emits what is left |
| `LineWriter.CuttingNeverMatters` | core/engine/supervise/process.go:201-235 | All ways of cutting a stream into Writes emit the stream's own lines if and only if terminated lines stay within the limit and the unterminated end exceeds it by at most one byte |
| `LineWriter.OverlongLineIsTorn` | core/engine/supervise/process.go:220-223 | For every stream that does not fit, a cut that changes the emitted lines |
| `LineWriter.NoTextIsLost` | core/engine/supervise/process.go:201-235 | Whatever the lengths and cuts, every byte that is not a line end comes out once and in order |
| `GroupGraph.Search` | core/engine/validate.go:235-247 | Terminates on every graph, restores the shared marks, and is true if and only if some walk from the group returns to itself or to a marked group |
| `GroupGraph.FoundIsReachability` | core/engine/validate.go:234-247 | With no marks this is: a cycle of groups is reachable from the start |
| `GroupGraph.NothingFoundIsAcyclic` | core/engine/validate.go:181-214 | The search finds nothing from any group if and only if the whole graph has no cycle |
| `GroupGraph.WalksAreShort` | core/engine/xray/render.go:330-332 | In an acyclic graph no walk visits more groups than there are, which bounds the renderer's recursion depth |
| `PlanCheck.Validate` | core/engine/validate.go:143-231 | Accepts if and only if ids and names are distinct and disjoint, every member and rule target is known, rule values are good, limits hold, and the group graph has no cycle |
| `PlanCheck.CheckGroups` | core/engine/validate.go:194-215 | The group loop, run on names collected before it, decides exactly distinct names, good members and acyclicity |
| `PlanCheck.CheckOutbounds` | core/engine/validate.go:164-171 | The id loop decides exactly good and distinct ids |
| `PlanCheck.CheckRules` | core/engine/validate.go:217-228 | The rule loop decides exactly known types, values that are there, hold no control characters and are numbers for ports, and known targets |
| `Xray.Renderer.Target` | core/engine/xray/render.go:314-347 | The recursive method returns what target resolution says, failures included, and keeps one balancer per group |
| `Xray.Renderer.BalancerFor` | core/engine/xray/render.go:349-371 | A group gets one balancer however often it is asked for; earlier balancers keep their tags |
| `Xray.Renderer.Routing` | core/engine/xray/render.go:388-420 | Fails if and only if a rule up to the first catch-all cannot be carried over; otherwise one line per such rule, in order, and a closing line |
| `XrayMeaning.MatchKeepsMeaning` | core/engine/xray/render.go:422-451 | The text Xray is given for a rule is read back as the rule's condition |
| `XrayMeaning.SameRuleFires` | core/engine/xray/render.go:388-420 | For every connection that is not hijacked DNS the first matching line is that of the plan rule that fires, else the closing direct line |
| `XrayMeaning.TagsDoNotOverlap` | core/engine/xray/render.go:61-63 | No outbound tag is a prefix of another if and only if there are at most 9999 outbounds |
| `XrayMeaning.ServerExit` | core/engine/xray/render.go:156-156 | A tag leads to its own outbound alone |
| `XrayMeaning.BalancerExit` | core/engine/xray/render.go:349-371 | A balancer's prefixes select exactly the servers that are direct members of its group |
| `XrayMeaning.BalancerIsEmptyWithoutServers` | core/engine/xray/render.go:354-369 | It selects nothing if and only if no member is a server |
| `XrayMeaning.AutomaticGroupOfGroupsIsEmpty` | core/engine/xray/render.go:349-420 | A concrete validated plan that is rendered and sends every non-DNS connection to a balancer that selects nothing |
| `XrayMeaning.ResolvesWithin` | core/engine/xray/render.go:314-347 | Resolution ends at a member, a member's member, and so on, of the target |
| `XrayMeaning.NoCycleError` | core/engine/xray/render.go:330-335 | On a validated plan the depth guard and the empty-group error are unreachable |
| `XrayMeaning.ValidatedTargetsResolve` | core/engine/xray/render.go:314-347 | On a validated plan a known target fails only through `pass` or an unsupported group type |
| `XrayMeaning.SelectFollowsItsPin` | core/engine/xray/render.go:336-341 | A select group leads to exactly its pinned server, or to its first member when the pin is no member |
| `XrayMeaning.ExitStaysWithinMembers` | core/engine/xray/render.go:314-371 | Where Xray sends a target's connections stays within the target's members, through select pins and balancers |
| `SingBoxTags.Tagger.UniqueTag` | core/engine/singbox/render.go:129-139 | The counting loop terminates and returns the trimmed name, the fallback or the first free numbered fallback |
| `SingBoxTags.FreeFromIsFirst` | core/engine/singbox/render.go:134-136 | The numbered name is free and every smaller number is taken |
| `SingBoxTags.Tagger.AssignTags` | core/engine/singbox/render.go:128-150 | Tags outbounds, then groups; stops at a group named like an earlier id or group |
| `SingBoxTags.TagsAreInjective` | core/engine/singbox/render.go:128-150 | Succeeds if and only if group names are distinct and no outbound ids; then different ids have different tags and none is `direct` |
| `PlanNames.Invert` | core/engine/singbox/engine.go:43-53 | PlanNames is the exact inverse of the assigned tags, whatever order the map is visited in |
| `PlanNames.FindEngineName` | core/engine/clashapi/engine.go:90-97 | The search returns the assigned tag of a plan name and any other name unchanged |
| `PlanNames.NamesComeBack` | core/engine/clashapi/engine.go:41-97 | Translating a name to the engine and back changes nothing if and only if it is a plan name or no tag |
| `PlanNames.ReportsComeBack` | core/engine/clashapi/engine.go:41-97 | Translating an engine name to the plan and back changes nothing if and only if it is a tag or no plan name |
| `PlanNames.TranslateGroups` | core/engine/clashapi/engine.go:54-72 | Every entry of the report is rewritten in place: name, selection, members in order, and each delay under the name of a proxy it belongs to |
| `PlanNames.GroupsReportPlanNames` | core/engine/clashapi/engine.go:41-73 | A rendered group is reported back with the plan's own name, selection and member list |
| `SingBox.Renderer.RemoteRuleSet` | core/engine/singbox/render.go:445-458 | One entry per address; the returned tag leads to the address asked for, also after later additions |
| `SingBox.Renderer.MatchRule` | core/engine/singbox/render.go:405-443 | Succeeds exactly on supported rules, and the condition, read through the rule sets, is the rule's own |
| `SingBox.Renderer.Route` | core/engine/singbox/render.go:358-403 | Succeeds exactly when every rule that could decide can be carried over; one line per rule before the final outbound |
| `SingBox.SameRuleFires` | core/engine/singbox/render.go:358-403 | For every non-DNS connection the first matching line is that of the plan rule that fires, behind the two opening lines, and the final outbound answers otherwise; the action taken is that rule's, else the direct route |
| `SingBox.DecidesAsPlanned` | core/engine/singbox/render.go:358-403 | Read back through the plan names, that action is the plan's own target, at that position |
| `Mihomo.BuildRules` | core/engine/mihomo/rules.go:29-61 | Succeeds exactly when every type and target is known, and gives one line per rule plus a default when the last rule is no catch-all |
| `Mihomo.LineReadsBack` | core/engine/mihomo/rules.go:50-53 | Split at its commas a line gives back kind, value, target and flag if and only if value and target hold no comma |
| `Mihomo.CatchAllReadsBack` | core/engine/mihomo/rules.go:32-38 | The same for a catch-all line |
| `Mihomo.CommaInValueMisreads` | core/engine/mihomo/rules.go:50-53 | A concrete value with a comma whose tail is read as the target |
| `Mihomo.ListReadsBack` | core/engine/mihomo/rules.go:29-61 | A whole rendered list is read as it was meant if and only if no value and no target name holds a comma |
| `Mihomo.SameRuleFires` | core/engine/mihomo/rules.go:29-80 | The line that fires is the one of the plan rule that fires, with its target's name, else `DIRECT` |
| `Mihomo.BuiltInFate` | core/engine/mihomo/rules.go:64-80 | A connection the plan sends to a built-in target is treated so by mihomo |
| `MihomoNames.NamesAreSafe` | core/engine/mihomo/proxy.go:242-278 | The names mihomo gets for outbounds and groups hold no comma, and different outbounds get different names |
| `Engines.EnginesAgreeWithThePlan` | core/engine/xray/render.go:388-420 | For every plan all three renderers accept and every non-DNS connection the same plan rule fires, by position in all three; Xray leaves within the members of its target, sing-box through its tag, mihomo through its sanitized name |
| `Engines.SomePlanIsAccepted` | core/engine/xray/render.go:64-100 | A concrete plan and its three renderings that meet those conditions |
| `Presets.UserRulesKeepDeciding` | core/routing/presets.go:76-100 | No preset changes which rule decides a connection that a user rule decides |
| `Presets.OpenConnectionsFollowThePreset` | core/routing/presets.go:76-100 | A connection the user's rules leave open is rejected as an advertisement, sent direct by the preset, or sent to the proxy target, in that order, and never stays open |
| `Presets.WhenApplyFails` | core/routing/presets.go:76-100 | The two errors occur exactly in the stated cases, and the user's rules are always a prefix of the result |
| `Presets.AdIsRejectedUnlessAUserRuleTakesIt` | core/routing/presets.go:70-100 | With blocking on, an advertisement is rejected if and only if no user rule decides it or one that rejects does |
| `Presets.EveryAdIsRejectedExactly` | core/routing/presets.go:70-100 | All advertisements of real connections are rejected if and only if every user rule that can be the first to take one rejects |
| `Presets.AdMayPass` | core/routing/presets.go:70-100 | A concrete user rule and an advertisement it sends direct |
| `Presets.PresetMeaning` | core/routing/presets.go:22-50 | What each of the four presets sends direct, condition by condition |
| `Bridge.Split` | core/engine/xraytun/bridge.go:106-163 | The rules of the packet engine for both systems, and exactly when the split is refused |
| `Bridge.FirstStage` | core/engine/xraytun/bridge.go:139-153 | The packet engine decides built-in targets itself on Windows and hands everything else to Xray |
| `Bridge.SecondStage` | core/engine/xraytun/bridge.go:106-163 | Xray repeats the decision of every connection handed to it when no decision hangs on the source port |
| `Bridge.SplitKeepsOutcomes` | core/engine/xraytun/bridge.go:106-163 | Every real connection not opened by Xray gets its original outcome from the two stages if and only if no reachable source-port rule competes with a differing later outcome |
| `Bridge.DestinationRulesSurvive` | core/engine/xraytun/bridge.go:106-163 | Rule lists without source-port rules always meet that condition |
| `Bridge.SourcePortRuleIsLost` | core/engine/xraytun/bridge.go:106-163 | A concrete accepted plan and a real connection that gets another outcome from the two stages, on both systems |
| `PolicyRules.Unroute` | core/engine/tunroute/tunroute_linux.go:138-162 | The deletion loop against the changing kernel list leaves exactly the kept rules, for every pattern of failing deletions, and counts the failures |
| `PolicyRules.DeleteOwn` | core/engine/tunroute/tunroute_linux.go:155-160 | One deletion removes the rule it was meant for and none before it |
| `PolicyRules.ForeignRulesStay` | core/engine/tunroute/tunroute_linux.go:138-162 | All foreign rules stay, in order, whatever fails |
| `PolicyRules.NothingIsAdded` | core/engine/tunroute/tunroute_linux.go:138-162 | What is left was there before |
| `PolicyRules.TaggedRulesGo` | core/engine/tunroute/tunroute_linux.go:177-288 | When deletions succeed and only Sora uses protocol 242, no rule with that protocol is left |
| `PolicyRules.CleanupSettles` | core/engine/tunroute/tunroute_linux.go:138-162 | A second cleanup after a successful one changes nothing |
| `PolicyRules.OnlyReservedRulesAreOwned` | core/engine/tunroute/tunroute_linux.go:175-237 | Whatever is claimed has a reserved priority or the Sora device, Sora's, the main or (on that device) the older engine table, and no foreign protocol |
| `PolicyRules.LegacyRulesAreOwned` | core/engine/tunroute/tunroute_linux.go:205-237 | The rules of earlier versions are recognised at each reserved priority, and no longer once any attribute outside their own is selected, known ones such as `dst` or `oif` included |
| `PolicyRules.DeleteMatchesIsAFinder` | core/engine/tunroute/tunroute_linux.go:274-288 | The comparison the cleanup relies on is itself a lookup that meets the kernel assumption |
| `RouteLookup.InstalledRulesAreOwned` | core/engine/tunroute/tunroute_linux.go:177-272 | Every rule that is installed is recognised as owned, also with the marks the listing may add |
| `RouteLookup.CleanupRemovesEveryInstalledRule` | core/engine/tunroute/tunroute_linux.go:138-162 | A cleanup whose deletions succeed leaves no rule that this or any earlier session installed, whatever interfaces, addresses and user it had, when only Sora uses its protocol number |
| `RouteLookup.BypassesAre` | core/engine/tunroute/tunroute_linux.go:80-136 | The bypasses are exactly the bound sockets of foreign interfaces and the addresses of foreign point-to-point interfaces of the family |
| `RouteLookup.InstallGives` | core/engine/tunroute/tunroute_linux.go:36-78 | Installing into any list that keeps out of the reserved priorities gives a sorted list whose reserved part is Sora's |
| `RouteLookup.Visited` | core/engine/tunroute/tunroute_linux.go:23-34 | The walk over the rules with forward jumps terminates and only moves forward |
| `RouteLookup.DnsPassesNoBypass` | core/engine/tunroute/tunroute_linux.go:52-136 | A locally originated port-53 packet visits no priority-5337 rule, for any interfaces and addresses and any outcome of the table lookups |
| `RouteLookup.BoundTrafficReachesItsBypass` | core/engine/tunroute/tunroute_linux.go:122-136 | Other traffic bound to a foreign device comes to that device's rule or is answered by an earlier bypass, and is answered by a bypass when the lookup succeeds |
| `RouteLookup.BoundTrafficFromTheFirstRule` | core/engine/tunroute/tunroute_linux.go:122-136 | The same for the whole walk, unless a rule before the reserved ones answers or jumps |
| `LogCenter.RunKeepsInv` | core/logs/logs.go:142-210 | In every run the byte count is the sum of sizes, both bounds hold, numbers are contiguous up to the last issued one, and issued = retained + dropped + cleared |
| `LogCenter.StepKeepsInv` | core/logs/logs.go:142-210 | Each operation keeps that |
| `LogCenter.EvictionIsLeast` | core/logs/logs.go:188-201 | Eviction drops the fewest oldest entries that restore both bounds |
| `LogCenter.CursorContinues` | core/logs/logs.go:284-306 | The cursor of an entry lists exactly what follows it |
| `LogCenter.PagesListEverything` | core/logs/logs.go:284-319 | Following the cursors lists exactly the reversed export, no gap and no repeat |
| `LogCenter.PagesOfAnyRun` | core/logs/logs.go:142-319 | So it is for the log of every run and every page limit |
| `LogCenter.NoEmptyPageFollows` | core/logs/logs.go:284-306 | A page with a cursor is full and is followed by a page that is not empty |
| `LogPaging.PagesSurviveChanges` | core/logs/logs.go:142-319 | With writes, folds, evictions, resizing and clears between the pages, the pages together are a prefix of the listing at the first page, and at the end only entries the log no longer holds are missing |
| `LogCenter.WatcherSeesEverything` | core/logs/watch.go:26-73 | Over every run: what a watcher took plus its queue plus its losses accounts for the replay and every later match, and with no losses is exactly that, in order |
| `LogStore.Center.Write` | core/logs/logs.go:152-186 | Trim, cut, level, masking, folding and appending as specified |
| `LogStore.Center.Record` | core/logs/logs.go:171-186 | Folds into the latest entry or appends and evicts, then notifies with the recorded entry |
| `LogStore.Center.Evict` | core/logs/logs.go:188-201 | The eviction loop equals its specification |
| `LogStore.Center.SetSettings` | core/logs/logs.go:142-148 | Normalised settings, applied with immediate eviction |
| `LogStore.Center.Query` | core/logs/logs.go:284-306 | One page: the newest matches below the cursor, cut to the limit, with a cursor exactly when there is more |
| `LogStore.Center.Export` | core/logs/logs.go:309-319 | Every matching entry, oldest first |
| `LogStore.Center.Watch` | core/logs/watch.go:26-41 | A watcher starts with the matches after its cursor queued and room for 512 more |
| `LogStore.Center.Notify` | core/logs/watch.go:61-72 | Every watcher whose filter takes the entry gets it or counts it lost |
| `EventFeed.Journal.Stamp` | core/session/journal.go:97-111 | Numbers are consecutive and the history is the newest events that fit, without a gap |
| `EventFeed.Journal.Since` | core/session/journal.go:131-148 | The first retained events after the cursor, up to the limit |
| `EventFeed.Journal.Replay` | core/control/server.go:706-717 | The replay is exactly the retained numbers after the cursor up to the head |
| `EventFeed.NextKeepsInv` | core/session/journal.go:97-187 | Each step of the appending goroutines and the feed keeps every event since the subscription in exactly one place |
| `EventFeed.NoEventIsSentTwice` | core/control/server.go:651-725 | Under every interleaving no event goes out twice |
| `EventFeed.EveryEventIsAccountedFor` | core/control/server.go:651-725 | After the replay an event after the cursor has been sent if and only if it was not trimmed before the replay, lost to a full queue or still on its way; nothing else is sent |
| `EventFeed.DrainedFeedIsComplete` | core/control/server.go:689-725 | With history intact and no overflow a drained feed has sent exactly the events after the cursor, each once |

## Left out

- Sessions, manager and supervisor are values stepped by a transition function, not classes, because
  their lock-protected sections interleave; aliasing of session objects is not captured.
- Journal order of state events: transitions are claimed for the state field only, since a reconnecting
  state is journalled after the lock is released.
- The supervisor's own state field, readiness probing, and how a driver reloads in place.
- `Backoff.Delay`: floating-point jitter; only its index is modelled.
- PlanCheck.Validate: checks of single fields (names, URLs, DNS, TUN, protocols) are not modelled; address
  ranges are taken to hold only hexadecimal digits and separators.
- PlanCheck.CheckOutbounds: only ids are checked, not protocols, ports, headers or names.
- PlanCheck.CheckGroups: probe URLs, intervals and display names are not checked.
- PlanCheck.CheckRules: address ranges are not parsed, and port numbers have no 64-bit bound.
- Engines.EnginesAgreeWithThePlan: plans whose ids are built-in target names, DNS connections, IP-resolution
  strategies and `no-resolve` behaviour are outside it; mihomo names are compared as names, since groups
  with equal sanitized names are not told apart there.
- Mihomo.SameRuleFires: rule-set rules before the first catch-all are excluded, because a mihomo rule set
  names a provider and none is rendered, so what such a line matches is not determined by the plan; values
  with commas are excluded because their lines are misread (`Mihomo.ListReadsBack` is the exact condition).
- Mihomo.BuiltInFate: the same rule lists.
- LogStore.Center.Query: the per-level and per-source statistics of a page are not modelled.
- Lower-casing is ASCII only; text lengths count characters where the core counts bytes.
- Outbound, TLS, transport, inbound and DNS rendering; JSON and YAML; observatory and statistics sections;
  download routes of rule sets.
- Bridge.Split: the copied DNS, option and listener fields and the start and stop of the two engines.
- PolicyRules.Unroute: one address family, with no other program changing rules meanwhile; the text of the
  delete command and the flush of the table are not modelled.
- RouteLookup.DnsPassesNoBypass: other owners' rules keep out of priorities 5333 to 5339 and do not jump to 5337.
- RouteLookup.BoundTrafficReachesItsBypass: follows the walk from the first reserved rule on; the whole walk
  is in `RouteLookup.BoundTrafficFromTheFirstRule`.
- Sequence counters are unbounded where the core uses 64 bits; the 32-bit repeat counter does wrap.
- EventFeed.Journal.Stamp: the sending half of Append is a step of the feed's state machine; a subscriber is
  followed while subscribed; the shared count of dropped events is not kept.
- PlanNames.TranslateGroups: when two proxies share a plan name either delay may be kept.
- SubscriptionBook.Keeper.Save: a book whose stored records carry foreign ids or digests is loaded but not
  followed further, because the invariant asks for the ids and digests the book itself makes.
- SubscriptionBook.Keeper.Delete: the same books.
- SubscriptionBook.Keeper.RefreshEnd: the same books.
- Vault: sealing, file replacement and `Close` are an atomic write or no change; callers' slices arrive by value.
- Subscription scheduling, notifications, interval checks and link normalisation; fetching and parsing.
- `compositeGuard`, firewall rule texts, TUN network settings of the firewall, WFP.
- gRPC handlers, IPC, polkit, Windows service, packet capture, redaction, the parser package, probes.
