# travelmode: replication, rules, verdicts and wire formats

travelmode is a per-application network control daemon with a desktop client. The daemon polls the
kernel's connection tracking table, keeps a table of live flows, stores Block and Allow rules,
decides per packet, and broadcasts every change to its clients. A client subscribes, fetches a
snapshot, and folds the events it hears onto the snapshot.

This project models that path and proves what a user relies on: that a client shows the daemon's
flows and rules although it hears some events twice, that the derived numbers and flags mean what
they say, that no dropped packet goes unreported, and that the text and byte formats are read back
as they were written.

Objects whose methods update their fields in the program are classes here (`ClientState`, `Daemon`,
`RuleStore`, `RuleService`, `LogThrottle`, `QueueWorker`, `Attributor`, `Reader`, `Writer`). Each
method is proved against a function on the object's abstract value, and the theorems are about
those functions over whole runs. Iteration over hash maps is modelled as iteration in an arbitrary
order.

| file | module | what it covers |
|---|---|---|
| Types.dfy, Collections.dfy, Text.dfy | Types, Collections, Text | domain types, sums and sequences, Rust's text primitives |
| Client.dfy | Client | the client's state and its operations |
| ClientIndex.dfy | ClientIndex | the flow index, first in, first out |
| ClientRules.dfy | ClientRules | blocked flags |
| ClientApps.dfy | ClientApps | flows per app |
| ClientTotals.dfy | ClientTotals | session totals and speeds |
| ClientHistory.dfy | ClientHistory | fields as last said, names of apps |
| Replication.dfy | Replication | replaying flow events |
| Conntrack.dfy, AddressText.dfy | Conntrack, AddressText | conntrack lines, flow keys, address text |
| FlowTable.dfy | FlowTable | merging lines and polling |
| Convergence.dfy | Convergence | runs of polls, sessions, convergence |
| Rules.dfy | Rules | the rule store, its file, restarts |
| RuleRestarts.dfy | RuleRestarts | reaps and restarts over whole runs |
| RuleMirror.dfy | RuleMirror | publishing and mirroring rules |
| TopApps.dfy | TopApps | usage per application |
| Throttle.dfy, Verdicts.dfy | Throttle, Verdicts | log throttling and verdicts |
| Packet.dfy | Packet | the IP packet parser |
| Framing.dfy | Framing | length-prefixed frames |
| Attribution.dfy | Attribution | the inode cache |

Lemmas proved by induction switch the verifier's own induction off, so each such proof says what it
rests on; so do main results over whole runs for which it only costs time.

## Where the code and its claims differ

These are results: the code is modelled as it is, and for each there is an exact condition, a
failing case a user can reach, or both.

- The client's comment that overlapping events are applied idempotently
  (crates/gui/src/client.rs:155-157) holds for the flow map, up to what the client's own cap of 500
  throws out. `Replication.InStepIff` says on the stream alone when the client holds the replayed map
  at every moment: exactly if no report takes that map beyond the cap. `Convergence.ClientFollowsIff`
  says when it holds the daemon's map at every moment since its snapshot: exactly if it does once the
  overlap is over, which is certain if the overlap's reports leave room, and the daemon's table then
  fits under the cap after each report. `Convergence.ClientConvergesToPoll` and
  `Convergence.PollsInStepIff` say it of the tables between polls. `Convergence.CrowdOverflows` is a
  poll after which a client lacks flows.
- The same comment does not hold for the app counts: `TopApps.OverlapDropsLiveApp` is a run of three
  polls after which the app of a live flow is off the page. `ClientApps.InStepAndAccountedIff` says
  on the stream alone when flows and counts are right throughout, overlap included, and
  `ClientApps.AccountedThroughoutIff` when the counts are.
- Replacing a rule publishes only RuleAdded, so clients may keep the superseded rule
  (`RuleMirror.SupersededRuleStaysListed`). `RuleMirror.ListsEqualIff` says exactly when the lists
  stay equal; over plain paths a client always errs on the safe side
  (`RuleMirror.BlockedIsShownBlocked`).
- crates/core/src/types.rs:103-104 promises that persistent rules survive a restart, that others end
  at their expiry time, and without one when the daemon stops. The code looks at the expiry time only:
  a temporary rule without one survives, and a persistent rule with one ends. `Rules.RestartAsDocumentedIff`
  says for every path and later time when the verdict is the documented one, and
  `Rules.RestartIsNotAsDocumented` gives a rule of each kind for which it is not.
- An id that was handed out is due to be handed out again exactly if the daemon is restarted before
  any save has succeeded since (`Rules.IdForgottenIff`).
- A rule expires after the seconds asked for exactly if that instant is in the date library's calendar
  (`Rules.ExpiresAsAskedIff`). `Rules.OverlongTtl` says what becomes of the others: rules that never
  expire, rules that have expired before they are stored, and requests that make the handler panic.
- The daemon groups apps without an exe path by bare process name, the client by `name:` and the
  name. `TopApps.GroupingsAgreeIff` says exactly when the groupings agree, and
  `TopApps.NamesakesAreGroupedApart` gives two flows that they group differently.
- A body longer than the frame limit is written but not readable (`Framing.ReadWrittenIff`).

## Model

| member | source | states |
|---|---|---|
| Client.ClientState.Update | crates/gui/src/app.rs:233-265 | each UI message changes the state as the reducer function says |
| Client.ClientState.ApplySnapshot | crates/gui/src/state.rs:81-128 | a snapshot replaces flows, totals, apps, rules and samples, and nothing else |
| Client.ClientState.ApplyEvent | crates/gui/src/state.rs:131-149 | the whole new state after any event, in terms of the old |
| Client.ClientState.UpsertConn | crates/gui/src/state.rs:178-206 | totals and the app advance by the increase of the counters, the count by one for a newly opened flow, the index stores and caps |
| Client.ClientState.RemoveConn | crates/gui/src/state.rs:208-222 | a close removes the flow and its order entry and releases its app, dropping the app if idle |
| Client.ClientState.EnforceConnCap | crates/gui/src/state.rs:224-232 | the cap loop ends, in the state the index function describes |
| Client.ClientState.RefreshRuleFlags | crates/gui/src/state.rs:235-258 | blocked apps added, flags recomputed, idle apps dropped |
| Client.ClientState.Tick | crates/gui/src/state.rs:153-168 | speeds become growth since the last sample, samples and uptime move on |
| Client.ClientState.ActiveAppCount | crates/gui/src/state.rs:170-172 | going over the entries counts the apps with connections |
| Client.ClientState.BlockedAppCount | crates/gui/src/state.rs:174-176 | going over the entries counts the apps marked blocked |
| ClientIndex.CapDropsOldestSurplus | crates/gui/src/state.rs:224-232 | the cap evicts exactly the oldest surplus, in insertion order, and keeps the index coherent |
| ClientIndex.LoadedIsCoherentIffDistinct | crates/gui/src/state.rs:95-104 | a snapshot loads to a coherent index exactly if its keys are distinct |
| ClientIndex.UpsertIsFifo | crates/gui/src/state.rs:201-232 | after each report at most 500 flows, the survivors in order, a new flow never evicted |
| ClientIndex.IndexCoherentInEveryRun | crates/gui/src/state.rs:95-232 | the order is a duplicate-free enumeration of the flow keys in every run |
| ClientRules.FlagsExactInEveryRun | crates/gui/src/state.rs:235-270 | in every reachable state an app is blocked iff a Block rule names its exe, with the id of the first such rule |
| ClientRules.RefreshShowsBlockIffOwned | crates/gui/src/state.rs:235-258 | refreshing shows a block under its path exactly if no other executable owns that key |
| ClientRules.BlocksShownInEveryRun | crates/gui/src/state.rs:106-149 | over plain paths every Block rule's exe has its own blocked entry in every reachable state |
| ClientRules.BlockedCountIsExact | crates/gui/src/state.rs:174-176 | over plain paths the blocked count is the number of distinct paths with a Block rule |
| ClientApps.AccountedMeans | crates/gui/src/state.rs:213-221 | with right accounts every live flow's app is listed and every listed app has a live flow or a Block rule |
| ClientApps.ReportAccountsIff | crates/gui/src/state.rs:178-232 | the exact guard under which a flow report keeps every app's count equal to its live flows |
| ClientApps.AccountedThroughoutIff | crates/gui/src/state.rs:131-232 | for every stream the counts are right throughout iff every event passes that guard |
| ClientApps.InStepAndAccountedIff | crates/gui/src/state.rs:178-232 | for every stream, overlapping or not: flows and counts are right throughout iff every report leaves room under the cap and every update is of a known flow under the same app |
| ClientApps.WellFormedStreamAccountsIff | crates/gui/src/state.rs:178-222 | for every well-formed stream the counts are right throughout iff no report takes the table beyond the cap and no flow changes its app |
| ClientApps.PollsAccountIff | crates/daemon/src/conntrack.rs:80-125 | a client that hears all that is broadcast after a poll has right counts throughout iff every poll that reports a flow leaves a table that fits under the cap |
| ClientApps.ActiveAppsAreLive | crates/gui/src/state.rs:170-172 | with right counts the active apps are exactly, and as many as, those of the live flows |
| ClientTotals.TotalsBalance | crates/gui/src/state.rs:178-232 | totals are live bytes plus closed, evicted and regressed bytes, in every run |
| ClientTotals.SessionConservation | crates/gui/src/state.rs:97-104 | from a distinct-key snapshot totals are at least the live bytes, and live plus closed bytes exactly if nothing was evicted and no counter fell |
| ClientTotals.TotalsNeverFall | crates/gui/src/state.rs:183-185 | totals never decrease between snapshots |
| ClientTotals.SpeedsAccountForGrowth | crates/gui/src/state.rs:153-163 | speeds shown since a snapshot plus the next one are the growth of the total |
| ClientTotals.AppBytesBalance | crates/gui/src/state.rs:183-221 | between snapshots the total and the bytes of the listed and unlisted apps never drift apart |
| ClientTotals.AppSpeedsAccountForGrowth | crates/gui/src/state.rs:158-163 | while an app stays listed, its speeds add up to the growth of its counter |
| ClientTotals.SpeedIsOfLastTick | crates/gui/src/state.rs:153-157 | in every run the speed on show is that of the last tick |
| ClientTotals.StepMovesApp | crates/gui/src/state.rs:119-163 | what each input does to an app's speed and sample: a newcomer starts at zero, a snapshot samples, a tick shows the growth since the last sample, no event moves them |
| ClientTotals.AppSamplesInEveryRun | crates/gui/src/state.rs:122-163 | in every run an app's last sample is not above its counter |
| ClientHistory.FieldsAreLatest | crates/gui/src/state.rs:89-168 | in every run connected, paused and network are as last said, and the status is the last snapshot's with one more second for each tick since |
| ClientHistory.AppsAreKnown | crates/gui/src/state.rs:106-258 | in every run each listed app has the name and exe of a usage, flow or Block rule the client was told of |
| Replication.ReplayAt | crates/gui/src/state.rs:131-135 | the last event about a key decides what is under it |
| Replication.OverlapIsIdempotent | crates/gui/src/client.rs:155-157 | replaying part of a stream twice gives what replaying it once gives |
| Replication.ClientIsReplayMinusLost | crates/gui/src/state.rs:178-232 | for every stream the client's map is the replayed map without the keys its cap lost, so nothing in it is stale |
| Replication.InStepIff | crates/gui/src/state.rs:178-232 | for every stream the client holds the replayed map at every moment iff no report takes that map beyond the cap |
| Text.SpacesAre | crates/daemon/src/conntrack.rs:134-134 | words are split at Unicode's white space |
| Text.DigitsAre | crates/daemon/src/attrib.rs:59-60 | the decimal and hexadecimal digits, in either case, and no other character |
| Text.ParseUnsignedIff | crates/daemon/src/conntrack.rs:190-191 | what text is read as which number: digits, after at most one plus sign, of a value within range |
| Text.AfterLastAbsent | crates/daemon/src/attrib.rs:59-60 | without a separator all of the text stands after it |
| Conntrack.FlowKeyInjective | crates/daemon/src/conntrack.rs:193-198 | the flow key determines protocol and 5-tuple |
| Conntrack.KnownKey | crates/daemon/src/conntrack.rs:198-198 | how a key is written, on an example |
| Conntrack.ParseLine | crates/daemon/src/conntrack.rs:133-209 | the token loop computes the parse function of the line's tokens |
| Conntrack.ParseMeans | crates/daemon/src/conntrack.rs:133-209 | any line at all is parsed iff it is of TCP or UDP and the first src, dst, sport and dport before the second src are addresses and ports, and then to these and to the first byte count of each direction |
| Conntrack.OtherLinesAreSkipped | crates/daemon/src/conntrack.rs:136-146 | a line too short or of another protocol is skipped, whatever else is on it |
| Conntrack.ParseRendered | crates/daemon/src/conntrack.rs:5-9 | every rendering of a TCP or UDP flow in the documented format, with any texts of its addresses and either counter present or not, parses to exactly its tuple and counters |
| AddressText.DottedQuadInjective | crates/daemon/src/conntrack.rs:198-198 | the text of an IPv4 address stands for one address only |
| AddressText.KnownQuad | crates/daemon/src/conntrack.rs:198-198 | how an IPv4 address is written, on an example |
| AddressText.FaithfulFromV6 | crates/daemon/src/conntrack.rs:188-191 | with any clean IPv6 text that is parsed back the address printer is as the flow key needs it, whatever else the parser accepts |
| FlowTable.SeenIsMaximum | crates/daemon/src/conntrack.rs:68-78 | the merged table holds the pointwise maximum of the counters over the lines of a flow |
| FlowTable.SeenIgnoresOrder | crates/daemon/src/conntrack.rs:68-78 | the merged table depends only on which lines there are |
| FlowTable.Daemon.PollOnce | crates/daemon/src/conntrack.rs:59-126 | a poll leaves exactly the seen flows, each with the counters just read: a new one as the line and its attribution say, started now and announced opened; one with the same counters untouched and unannounced; any other with only counters and last-seen time changed, and announced updated; closes are published first |
| FlowTable.Daemon.ReadTable | crates/daemon/src/conntrack.rs:68-78 | the line loop computes the merged table |
| FlowTable.Daemon.CloseMissing | crates/daemon/src/conntrack.rs:82-91 | exactly the unseen flows are removed and announced closed |
| FlowTable.Daemon.ReportSeen | crates/daemon/src/conntrack.rs:93-125 | every seen flow is stored with the counters just read, and announced exactly if new or changed |
| Convergence.AnyOrderReplays | crates/daemon/src/conntrack.rs:80-125 | replaying a poll's events in any order on the old table gives the new one |
| Convergence.PollLoop | crates/daemon/src/conntrack.rs:30-48 | the polls of a daemon form a run whose stream is what was broadcast |
| Convergence.StreamReachesTable | crates/daemon/src/conntrack.rs:80-125 | replaying the stream of any number of polls from empty gives the daemon's table |
| Convergence.LifecycleOfEveryFlow | crates/daemon/src/conntrack.rs:82-125 | over every run each key's events are (Opened Updated* Closed)*, unfinished iff the flow is live |
| Convergence.Session | crates/gui/src/client.rs:149-198 | a session applies the snapshot and then the whole stream in order |
| Convergence.ClientConverges | crates/gui/src/client.rs:155-187 | subscribing at i, fetching at k and applying up to n gives the daemon's map at n but for what the cap lost; the client holds the replayed map throughout iff no report heard takes that map beyond the cap, and then it holds the daemon's map after every event from k on |
| Convergence.ClientFollowsIff | crates/gui/src/client.rs:155-187 | overlap included, the client's map is the daemon's after every event from k on iff it is at k and the daemon's table fits under the cap after every report since; it is at k if no report of the overlap takes the replayed map beyond the cap |
| Convergence.ClientConvergesIff | crates/gui/src/client.rs:155-187 | without overlap the maps are equal after every event iff the daemon's table fits under the cap after every report |
| Convergence.ClientConvergesToPoll | crates/gui/src/client.rs:155-187 | between any two polls of any run, whatever else is broadcast: the client's map is the later poll's table but for what the cap lost, and the daemon's map throughout since the snapshot iff it is at the snapshot and every poll since that reports a flow leaves a table that fits under the cap |
| Convergence.PollsInStepIff | crates/daemon/src/conntrack.rs:80-125 | hearing all that is broadcast after a poll, the client is in step iff every poll that reports a flow leaves a table that fits under the cap |
| Convergence.CrowdOverflows | crates/gui/src/state.rs:224-232 | a first poll of 501 flows, under the keys the daemon gives them, leaves a client that heard of all of them without some |
| Rules.RuleStore.Load | crates/daemon/src/rules.rs:35-65 | loading drops expired rules and continues the ids above all seen |
| Rules.LoadMeans | crates/daemon/src/rules.rs:50-65 | of any file the unexpired rules are loaded in order, and the next id is the file's or one above the largest of them, whichever is more |
| Rules.RuleStore.Add | crates/daemon/src/rules.rs:76-101 | the new rule gets the next id, replaces its competitor, goes to the end, and is saved; a time to live that no duration can hold stores nothing |
| Rules.RuleStore.Remove | crates/daemon/src/rules.rs:104-110 | the rule with the id is removed and returned iff there is one |
| Rules.RuleStore.ReapExpired | crates/daemon/src/rules.rs:113-128 | expired rules are removed and their ids returned, saving only on change |
| Rules.RuleStore.Blocked | crates/daemon/src/rules.rs:131-136 | the search answers whether an unexpired Block rule names the path |
| Rules.BlockedIsLookup | crates/daemon/src/rules.rs:131-136 | a verdict is a lookup of the path's one Block rule in the map, while it lasts |
| Rules.RuleStore.Save | crates/daemon/src/rules.rs:151-177 | if encoding, directory, temporary file and rename all succeed the file becomes the memory, else it stays as it was |
| Rules.AddRefines | crates/daemon/src/rules.rs:94-98 | add updates the map from (exe, action) at one key, unless its time to live is refused |
| Rules.RemoveRefines | crates/daemon/src/rules.rs:104-110 | remove takes exactly the rule with the id out of the map |
| Rules.ReapRefines | crates/daemon/src/rules.rs:123-123 | reaping takes exactly the expired rules out of the map |
| Rules.SoundInEveryRun | crates/daemon/src/rules.rs:35-177 | in every run with successful saves: one rule per key, rising ids below the next, a file that keeps up |
| Rules.DiskMatchesAfterMutation | crates/daemon/src/rules.rs:99-126 | after each mutation the file equals the memory |
| Rules.IdsNeverReused | crates/daemon/src/rules.rs:60-92 | ids handed out rise forever, across restarts |
| Rules.IdForgottenIff | crates/daemon/src/rules.rs:60-99 | over every run, saves failing or not, an id is due to be handed out again iff a restart comes before any save has succeeded since |
| Rules.IdReusedIffSaveFailed | crates/daemon/src/rules.rs:60-99 | restarting right after an add to a store whose file is up to date, its id comes back iff its save failed |
| Rules.ExpiresAsAskedIff | crates/daemon/src/rules.rs:84-86 | a rule is stored and expires when asked iff that instant is in the calendar |
| Rules.OverlongTtl | crates/daemon/src/rules.rs:84-86 | a longer time to live is for ever, has passed already, or is refused, by its size |
| Rules.ReportedIffRemoved | crates/daemon/src/rules.rs:117-127 | a rule's id is reported by reaping iff the rule was removed |
| Rules.ReapIsTransparent | crates/daemon/src/rules.rs:113-136 | reaping changes no verdict from then on |
| Rules.RestartIsTransparent | crates/daemon/src/rules.rs:53-55 | save and restart change no verdict from then on |
| RuleRestarts.OnlyRequestsMatter | crates/daemon/src/rules.rs:35-128 | over every run, the rules in force and the next id are those of the adds and removes alone |
| RuleRestarts.VerdictsIgnoreRestarts | crates/daemon/src/rules.rs:53-136 | over every run no verdict depends on reaps, saves or restarts |
| Rules.RestartAsDocumentedIff | crates/core/src/types.rs:103-105 | for every path and later time the verdict after a restart is the documented one iff the path's Block rule is neither temporary without an expiry time nor persistent with one that has passed |
| Rules.RestartIsNotAsDocumented | crates/daemon/src/rules.rs:53-55 | a reachable store of each kind for which the verdict is not the documented one |
| RuleMirror.RuleService.AddRule | crates/daemon/src/main.rs:195-198 | AddRule stores and publishes the stored rule, or neither |
| RuleMirror.RuleService.RemoveRule | crates/daemon/src/main.rs:206-215 | RemoveRule publishes iff there was such a rule |
| RuleMirror.RuleService.ReapRound | crates/daemon/src/main.rs:155-158 | a reaper round publishes one removal per reaped rule, in order |
| RuleMirror.PublishedIsAnnounced | crates/daemon/src/main.rs:155-215 | what an operation publishes is exactly the changes it made |
| RuleMirror.StepIsChanges | crates/daemon/src/rules.rs:76-128 | an operation is its published changes, one after the other |
| RuleMirror.DaemonRulesAreSubsequence | crates/gui/src/state.rs:136-144 | the daemon's list is a subsequence of the client's, overlap included |
| RuleMirror.StoreRulesAreSubsequence | crates/daemon/src/main.rs:155-215 | the same over every sequential run of AddRule, RemoveRule and reaping |
| RuleMirror.ListsEqualIff | crates/daemon/src/rules.rs:94-98 | the lists are equal iff no rule the client has or hears of was silently replaced |
| RuleMirror.SupersededRuleStaysListed | crates/daemon/src/main.rs:195-198 | adding two rules for one path and action leaves the daemon with one and the client with both |
| RuleMirror.BlockedIsShownBlocked | crates/gui/src/state.rs:136-144 | over plain paths an executable the daemon blocks is never shown as allowed, in every sequential run |
| TopApps.TopUsage | crates/daemon/src/main.rs:239-273 | one entry per group, blocked iff it has an exe and that is blocked, sorted by bytes sent and received descending |
| TopApps.TopConserves | crates/daemon/src/main.rs:242-263 | the report conserves bytes sent, bytes received and flow count |
| TopApps.GroupingsAgreeIff | crates/daemon/src/main.rs:243-248 | daemon and client group flows alike exactly if exe paths cannot be taken for names |
| TopApps.AggregationsAgree | crates/gui/src/state.rs:106-121 | loading the report and opening the flows one by one, in any order and past the cap, list the same apps with the same numbers |
| TopApps.SnapshotAccountedIff | crates/gui/src/state.rs:106-121 | a snapshot starts with right accounts iff its report and its flow list have as many flows of each app, as they have if they are of one table |
| TopApps.NamesakesAreGroupedApart | crates/daemon/src/main.rs:243-248 | a process without an exe path named like another's path shares its group in the daemon and not in the client |
| TopApps.SessionKeepsAccountsIff | crates/gui/src/client.rs:163-187 | from a report and a flow list on, hearing all that is broadcast keeps every app's count right iff report and list have as many flows of each app and every poll that reports a flow leaves a table that fits under the cap |
| TopApps.OverlappingSessionIff | crates/gui/src/client.rs:155-187 | a session with overlap holds the replayed flows, from the snapshot on the daemon's, and right counts throughout iff report and list have as many flows of each app, every report it hears leaves room and every update it hears is of a flow its replay knows under the same app |
| TopApps.OverlapDropsLiveApp | crates/gui/src/client.rs:155-157 | a run of three polls in which a client that subscribed after the first and asked after the last loses the app of a live flow |
| TopApps.SessionBytesBalance | crates/gui/src/state.rs:183-194 | in every run from a snapshot the session total and the bytes of the apps, listed or gone, differ by what flow list and report did: by nothing if they are of one table |
| Throttle.LogThrottle.ShouldLog | crates/daemon/src/firewall.rs:256-283 | one key's entry and the answer, as the throttle's law says, nothing else changes |
| Throttle.AnswerIs | crates/daemon/src/firewall.rs:256-283 | over every sequence of calls: First iff the key is new, Suppress iff less than a window has passed since its last line, else a summary of the calls since that line |
| Throttle.NothingGoesUnreported | crates/daemon/src/firewall.rs:256-283 | lines told plus pending repeats are the calls made, per key |
| Throttle.KeysAreIndependent | crates/daemon/src/firewall.rs:256-283 | each key is answered as if it had a throttle of its own |
| Throttle.LogTimesAreSpaced | crates/daemon/src/firewall.rs:268-280 | log times of a key are at least a window apart |
| Throttle.LogRateIsBounded | crates/daemon/src/firewall.rs:256-283 | at most 1 + floor(span / window) lines per key in any span |
| Verdicts.QueueWorker.Decide | crates/daemon/src/firewall.rs:162-210 | Drop iff not paused, parsed, attributed to a process with an exe, and that blocked; a drop is counted, touches the entry of that exe and destination only, and logs a line with them and the number of drops it stands for unless one was logged within the window; else nothing changes |
| Verdicts.DroppedIffRuleBlocks | crates/daemon/src/firewall.rs:162-210 | with the verdicts of a rule list: Drop iff some unexpired Block rule names the exe of the process that the packet's protocol and local port are attributed to |
| Verdicts.QueueLoop | crates/daemon/src/firewall.rs:153-158 | the worker's loop ends in the state of the run and gives a Drop for each packet the run drops |
| Verdicts.EveryDropIsAccounted | crates/daemon/src/firewall.rs:176-197 | the blocked count is the Drop verdicts, and is what the log tells plus what is pending |
| Verdicts.EveryKeyIsAccounted | crates/daemon/src/firewall.rs:183-195 | the same account for each executable and destination |
| Packet.ParseBuiltV4 | crates/daemon/src/firewall.rs:290-340 | any IPv4 packet with options parses to its endpoints, as Tcp if its protocol is 6, as Udp if 17, else not at all |
| Packet.ParseBuiltV6 | crates/daemon/src/firewall.rs:290-340 | the same for any IPv6 packet without extension headers |
| Packet.AcceptsExactly | crates/daemon/src/firewall.rs:290-340 | the parser accepts exactly what has an IPv4 or plain IPv6 header with protocol 6 or 17 and four more bytes, which it gives as the ports, later fragments included |
| Packet.KnownPacket | crates/daemon/src/firewall.rs:347-369 | one packet byte by byte |
| Framing.Writer.WriteFrame | crates/core/src/ipc.rs:82-93 | a frame is its 32-bit length and its body |
| Framing.Reader.ReadFrame | crates/core/src/ipc.rs:59-79 | the result and the position after a read |
| Framing.ReadWrittenIff | crates/core/src/ipc.rs:59-93 | a written frame is read back exactly if its body fits |
| Framing.HeaderIsBigEndian | crates/core/src/ipc.rs:82-93 | a header holds its length, most significant byte first |
| Framing.OversizeIsRefused | crates/core/src/ipc.rs:73-75 | a frame beyond the limit is refused by its length, and the stream left right after its header |
| Framing.DecodeEncodedIff | crates/core/src/ipc.rs:59-93 | a stream decodes to exactly the bodies written, then Closed, iff all fit |
| Framing.DecodePrefix | crates/core/src/ipc.rs:64-77 | a cut stream decodes to the whole frames in it, then Closed or an I/O error by where it was cut |
| Attribution.Attributor.Lookup | crates/daemon/src/attrib.rs:35-46 | whatever the cache, a pid found owns the first matching socket now, and none is found only if there is no such socket or no listed process owns it |
| Attribution.LookupRendered | crates/daemon/src/attrib.rs:35-46 | for the first row with a local port, as the kernel writes it, the pid found owns that row's inode, and none is found only if no listed process does |
| Attribution.ParseRendersRow | crates/daemon/src/attrib.rs:48-66 | every row, however laid out and padded, is read as its local port, remote port and inode, and skipped without an inode |
| Attribution.HeaderIsNoRow | crates/daemon/src/attrib.rs:48-54 | a line of fewer than ten words, or whose first does not end in a colon, is no row |
| Attribution.SocketInodeIff | crates/daemon/src/attrib.rs:119-124 | a link is to socket n iff it is written socket:[n] |
| Attribution.RowsInOrder | crates/daemon/src/attrib.rs:69-80 | the IPv4 table of the protocol is searched before its IPv6 table, unreadable ones are skipped |
| Attribution.Attributor.Refresh | crates/daemon/src/attrib.rs:29-31 | a fresh map is sound and complete |
| Attribution.RefreshedMapDecides | crates/daemon/src/attrib.rs:35-46 | a fresh map holds an inode iff some listed process owns it |
| Attribution.FindSocketRow | crates/daemon/src/attrib.rs:69-88 | the first row with the port over the protocol's tables in order |
| Attribution.ScanProcFds | crates/daemon/src/attrib.rs:91-103 | the scan finds every socket of every process and invents none |
| Attribution.CollectPidSockets | crates/daemon/src/attrib.rs:105-117 | exactly the directory's sockets are added, for the pid |
| Attribution.PidOwnsInode | crates/daemon/src/attrib.rs:127-140 | true iff the pid owns the inode now |

## Left out

- Counters, ids and connection counts are unbounded naturals; wrap-around of u64 and u32 is not modelled.
- Rules.RuleStore.Add: the calendar's bounds and the longest duration are the date library's (chrono 0.4.45); that a panic ends only the request's own task is taken from the runtime.
- Printing and parsing of IP addresses is library code: a pair of functions, of which the line parser needs nothing and the flow key a stated round trip. IPv4's dotted quad is concrete, its parser is not.
- Convergence.ClientConverges: takes the broadcast as lossless and ordered and the subscription as no later than the snapshot; lag and reconnection are not modelled.
- RuleMirror.StoreRulesAreSubsequence: takes each operation and its publication as one step; races between concurrent requests are not modelled.
- ClientApps.PollsAccountIff: starts from the snapshot itself, because with an overlap the counts can be wrong; overlaps are the subject of `InStepAndAccountedIff`.
- Paths are equal here if they are written alike. The program compares them by component, so that `/a//b` and `/a/b` are one path that prints in two ways; over such paths `BlockedCountIsExact` and `BlocksShownInEveryRun` say nothing about the program.
- Rules.RuleStore.Save: does not model what a failed write leaves in the temporary file, which is never read.
- ClientRules.BlocksShownInEveryRun: is about paths that print exactly and do not start with `name:`; what holds for others at each refresh is `RefreshShowsBlockIffOwned`.
- Throttle.LogRateIsBounded: is about a positive window, as the daemon's is.
- TopApps.SortByBytes: stands for the library's sort and is stable like it; stability is not stated.
- Process and kernel effects (nft, ss, conntrack, NFQUEUE, signals): packets, tables and process lists come in as values.
- Killing flows when a rule is added: commands to the kernel whose effect shows in the next poll.
- Pause and resume of the nftables chain: `paused` is a flag of the verdict path.
- JSON, TOML, and reading files: bodies are bytes, the rules file is its contents or absent; a file that cannot be parsed counts as absent.
- Process scanning, network information, tray, pages and command line: outside the replication path, or one-branch facts.
