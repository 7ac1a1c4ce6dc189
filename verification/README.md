# A load-balancer controller that survives crashes: model and proofs

The repository drives a remote load-balancer provider (CMP) towards the stacks that Kubernetes Services and Ingresses ask
for. This project models its reconciler (`pkg/deploy/lbaas`), the Service controller that drives it
(`cmd/svc-lb-bridge/main.go`) and the compiler that turns a group of Ingresses into one routing table (`pkg/ingress`), and
proves what they promise.

What makes the reconciler delicate: the provider works asynchronously, an answer can be lost although the call took effect,
the controller can stop between any two calls, and other owners' resources live on the same load balancer. Against this the
code sets persisted ids and a checkpoint before anything is created, recovery by deterministic name, delete-wait-recreate,
ownership by recorded id, digests of the desired configuration, and string keys that encode the resource tree.

How the model is laid out:

- **The world.** `Cluster` is the provider (load balancers, VIPs, listeners) together with the Service objects and their
  annotations, and `Evolves` what the provider does on its own. `Children` is the provider's pools, members, monitors and
  rules, behind a client class. `Observed` is the state that one pass works on.
- **The protocol.** `Protocol` says what each provider and Kubernetes call does, what a caller must know when it issues the
  call (`Guard`), and what a run is: calls of any Services' passes, each effective or not whatever the caller is told, with
  people, other programs and provider progress in between. A crash is a pass that ends after any of its calls. `Safety` proves
  the guards inductive; `Runs`, `OneAddress` and `Limits` prove theorems about all runs.
- **The code.** `Provider` is the client of one pass: any call may fail, with or without having taken effect, as long as the
  adversary has faults left, and each method requires the guard of its call. While a pass runs, the client lets only the
  provider make progress; edits by people and calls of other programs fall between passes, although the runs of the protocol
  allow them anywhere. The managers (`LBServices`, `VIPs`,
  `VirtualServers`, `Recovery`, `Members`, `Rules`, `Monitors`, `Pools`), the stack deployer (`Deployer`, `ListenerChildren`,
  `Obsolete`, `EnsureStack`, `StackPass`), cleanup (`Teardown`) and the controller (`Bridge`) are methods over these clients.
  Because they verify, every call the code makes is a legal step, so the theorems about runs are about every serial
  sequence of passes of the code.
- **Convergence.** `Convergence`, `Closure`, `StackPass` and `SecondPass` prove what a successful pass has achieved, that the
  record stays a tree of keys, and that a second pass finds nothing to do; `StackMeaning` says what is achieved of the stack and the
  provider alone, without the functions of the code.
- **Pure cores.** `GraphKeys` (the key codec), `DesiredHash` and `HashMeaning` (what a digest tells), `IngressShape`,
  `IngressGroup` and `RoutingTable` (the group compiler), over `Text` and `Sorting`; `GroupMeaning` says what is compiled, and what
  is accepted, of the Ingresses alone.

## Model

| member | source | states |
|---|---|---|
| Runs.RunKeepsInv | cmd/svc-lb-bridge/main.go:286-680 | The invariant of the protocol (names and frontends unique; every Service's annotations name its own parent and its own listeners; whoever made a listener has its load balancer on record; a Service without finalizer has nothing left) holds after every call of every run, in any interleaving of passes, crashes, lost answers, user edits and provider progress |
| Runs.RunsCompose | cmd/svc-lb-bridge/main.go:139-141 | Serial passes make up one run, so whatever is said of runs holds of any sequence of passes of any Services |
| Safety.LegalKeepsInv | cmd/svc-lb-bridge/main.go:973-995 | One step, by whomever, keeps the invariant; the checkpoint and the finalizer are what makes the creation of a listener keep it |
| Runs.SharedParentSafety | cmd/svc-lb-bridge/main.go:792-888 | Over all runs: whenever cleanup issues the deletion of a load balancer, no other Service that still has its finalizer owns a listener on it, recorded or not |
| Runs.NeverTwice | pkg/deploy/lbaas/virtual_server_manager.go:42-137 | Over all runs and at every moment: one load balancer per name, one listener per name on a load balancer, and no two listeners of a load balancer share VIP, protocol and port |
| Runs.OneListenerPerName | pkg/deploy/lbaas/virtual_server_manager.go:86-119 | Over all runs all listeners that a Service has made sit on its one recorded load balancer, and no two of them bear one name |
| Runs.OthersListenersAreSpared | pkg/deploy/lbaas/deployer.go:647-709 | Over all runs a deletion of a listener that takes effect never hits one that another Service made |
| Runs.NoRecordedListenerOutlivesItsService | cmd/svc-lb-bridge/main.go:298-316 | No Service object disappears while a listener on its record can still be read |
| Runs.ProvidedParentsAreNeverTouched | cmd/svc-lb-bridge/main.go:997-1033 | Once a Service has a provided load balancer (or VIP) on record, mode and id never change again, and none of its own steps creates or deletes a load balancer (or VIP); when others do is the subject of the next rows |
| Runs.ControllersDeleteExactly | pkg/deploy/lbaas/lb_service_manager.go:38-61 | A step of a Service's controller can have a load balancer deleted if and only if the annotations say so and it can be read: it is wanted, reaches the load balancer and does not treat it strictly (repair); or it goes away, has no other parent, was not given it, and nobody else holds it (cleanup). A repair moreover names the placement under which the load balancer reads as placed; that it read as failed, and that a failed one is indeed deleted, is stated by LBServices.Ensure |
| Runs.ProvidedIsDeletedExactly | pkg/deploy/lbaas/lb_service_manager.go:38-47 | A load balancer that a user provided to a Service, while that Service holds it, can be deleted if and only if another Service may repair it |
| Runs.ProvidedSurvivesAlone | cmd/svc-lb-bridge/main.go:807-814 | Over all runs a provided load balancer is only ever deleted by another Service that reaches it, by repair while it is held, and by cleanup only once nobody holds it |
| Runs.ControllersDeleteVIPsExactly | pkg/deploy/lbaas/vip_manager.go:25-34 | The same for VIPs: repair by a wanted Service that has the VIP's load balancer on record, does not treat its VIP strictly, and reaches the VIP by its own record, its graph, or its listeners; cleanup by one that goes away, whose VIP was not provided, that names the VIP in its annotations, and whose own pair of load balancer and VIP nobody else has on record |
| Runs.ProvidedVIPIsDeletedExactly | pkg/deploy/lbaas/vip_manager.go:25-34 | A VIP that a user provided to a Service, while that Service holds it, can be deleted if and only if another Service would repair it as its own, or goes away with the VIP in its graph but not on its record |
| Runs.ProvidedVIPSurvivesAlone | cmd/svc-lb-bridge/main.go:792-816 | Over all runs a provided VIP is only ever deleted by another Service, by repair, or by cleanup; and by cleanup while it is held only from a graph whose Service has not put it on record |
| Runs.SharedVIPSafety | cmd/svc-lb-bridge/main.go:890-908 | Over all runs: cleanup deletes only VIPs that the Service's annotations name, and never the one on its record while another Service with its finalizer has the same pair on record |
| OneAddress.OneVIPAcrossRuns | pkg/deploy/lbaas/deployer.go:309-340 | Over all runs, while the port set does not grow and the VIP of the Service stays listed, every listener of its names is on that one VIP at every moment, whatever is lost or crashes, and no other VIP gets on record |
| Limits.AnotherMemberRepairsAProvidedParent | pkg/deploy/lbaas/lb_service_manager.go:38-47 | From every state in which a Service lends a provided load balancer to its vip-group, a run in which another member joins and then deletes the failed load balancer, while the lender keeps it on record as provided |
| Limits.TheLastGroupMemberDeletesAProvidedParent | cmd/svc-lb-bridge/main.go:821-888 | From every such state without listeners on record, a run in which the lender's own cleanup spares the load balancer and the cleanup of the member that had joined deletes it |
| Limits.AnotherMemberRepairsAProvidedVIP | pkg/deploy/lbaas/vip_manager.go:25-34 | From every state in which a Service lends a provided VIP, a run in which another member joins, the VIP fails, and the member's pass deletes it, while the lender keeps it on record as provided |
| Limits.AnotherMemberCleansUpALentVIP | cmd/svc-lb-bridge/main.go:804-812 | From every such state, a run in which a member that joins and stops after its checkpoint goes away, and its cleanup deletes the VIP while the lender has it on record |
| Limits.APassLeavesSuchAState | cmd/svc-lb-bridge/main.go:632-666 | Such states, with load balancer and VIP provided, satisfy the invariant and are what the checkpoint and the final patch of a pass write |
| Deployer.CheckpointKeepsStrictVIP | cmd/svc-lb-bridge/main.go:973-1013 | After the checkpoint a VIP is treated strictly if and only if it was before and its own mode says so or the checkpoint does not turn the load balancer's mode into that of a provided one |
| Limits.ASuppliedVIPIsForgotten | cmd/svc-lb-bridge/main.go:973-1013 | From every state in which a user has supplied both parents to a Service not yet reconciled and the VIP is healthy, a run in which its first pass stops after the checkpoint, the VIP fails, and its next pass deletes the VIP |
| Runs.AnUnrecordedListenerCanStay | cmd/svc-lb-bridge/main.go:792-816 | A run in which a listener whose creation answer was lost outlives its Service |
| Bridge.IsLBServiceShared | cmd/svc-lb-bridge/main.go:856-888 | The loop tells exactly whether another Service with its finalizer holds the load balancer: by an own entry of its graph, or without a graph by its annotation |
| Bridge.IsVIPShared | cmd/svc-lb-bridge/main.go:890-908 | The loop tells exactly whether another Service with its finalizer has load balancer and VIP on record |
| Bridge.SharedParent | cmd/svc-lb-bridge/main.go:821-852 | A parent pair is returned only if some other member of the group offers it, and none only if no member offers any |
| Bridge.StrictPolicies | cmd/svc-lb-bridge/main.go:997-1033 | A parent is strict where its mode says so; where neither mode does, if its id is given and no entry of the Service itself explains it |
| Bridge.JoinersHoldAsManaged | cmd/svc-lb-bridge/main.go:997-1033 | A Service that joins a vip-group without annotations of its own holds the group's load balancer as managed, even one that a user provided to another member |
| Bridge.CleanupCMPResources | cmd/svc-lb-bridge/main.go:792-816 | The load balancer is given up exactly if nobody else holds it and it was not provided, and VIPs exactly if nobody else has the pair on record and the mode is not that of a provided one: otherwise no VIP deletion is issued. Success means that every recorded listener is gone, the load balancer if it was given up, and every VIP of the annotations if these were; exactly the unrecorded own listeners on a kept load balancer stay |
| Bridge.CleanupLeavesExactly | cmd/svc-lb-bridge/main.go:792-816 | After a finished cleanup a listener that the Service had made is still there if and only if it was not on record and the load balancer was kept |
| Bridge.Release | cmd/svc-lb-bridge/main.go:298-316 | The finalizer goes only after such a cleanup, and what stays of the Service's own listeners is exactly that |
| Bridge.Publish | cmd/svc-lb-bridge/main.go:613-666 | The final patch writes the returned state, keeps modes that are set, and is a legal step |
| Bridge.Reconcile | cmd/svc-lb-bridge/main.go:286-680 | Every call of a whole pass is a legal step of the protocol. By verdict: ignored or rejected exactly where there is nothing to do or the spec is not acceptable, and untouched; released with nothing readable on record; or ensured. Ensured means: finalizer and parent on record, modes kept or set by how strictly the parents were held, the load balancer in the VPC and region asked for, the VIP on it with the recorded address, the pair on offer to the group; and, if the record was in order, for every port a listener of its own on record under its name with the digest of its configuration and backends, which stands with port and protocol on the recorded load balancer and VIP. A pass works on the pair that it starts from (that of a sibling where the Service joins a group, or its own): as long as these last, it creates no other and records these. Without faults a Service that goes away and has nothing left to wait for is released; and a Service at rest is ensured without any provider call |
| Bridge.MembersCanJoin | cmd/svc-lb-bridge/main.go:821-852 | What an ensured Service announces is a pair that every other member of its group without a load balancer joins |
| Bridge.NothingLeftSucceeds | cmd/svc-lb-bridge/main.go:792-816 | A cleanup in which no call fails succeeds if what the Service has on record is gone and its only load balancer is gone or kept |
| Deployer.PersistLBCheckpoint | cmd/svc-lb-bridge/main.go:973-995 | Exactly one write, of the load balancer's id, mode and graph, or none without an id; it fails only on a failed call |
| Deployer.EnsureParents | pkg/deploy/lbaas/deployer.go:219-307 | The load balancer is ensured and its checkpoint written before the pass goes on; one that is pending or failed is put on record too; the graph changes under the own name only |
| Deployer.EnsureVIP | pkg/deploy/lbaas/deployer.go:335-341 | The VIP is kept, or replaced only when it is no longer listed, and put on record under its name with its address |
| LBServices.Ensure | pkg/deploy/lbaas/lb_service_manager.go:20-86 | At most one call; a deletion only of the recorded load balancer after it was read as placed as asked and failed, a creation only without a recorded one or after it was read as absent; a supplied one is left alone; a different one is answered only if the recorded one is empty; one that lasts is never replaced. Without faults and background activity the answer and the call are fixed, case by case, by place, status words and strictness of the recorded one, or by who bears the name; a new one is in the network and VPC asked for |
| LBServices.ReadinessMeans | pkg/deploy/lbaas/lb_service_manager.go:114-200 | A load balancer is ready, failed or pending exactly by the words in its two statuses, a failure going first |
| LBServices.WellPlacedMeans | pkg/deploy/lbaas/lb_service_manager.go:153-182 | It is well placed exactly if VPC, network and region are those asked for, as far as they are asked for |
| VIPs.Ensure | pkg/deploy/lbaas/vip_manager.go:15-78 | At most one call, none in strict mode; a deletion only of the recorded VIP after it was listed as failed, a creation only without a recorded one or after it was missing from the list; one that lasts is never replaced; success means the recorded VIP, listed, in the subnet, with a serving status, or a fresh one in the subnet. Without faults and background activity the answer and the call are fixed, case by case, by subnet, IP version, status words and strictness, and a new VIP comes with its address |
| VIPs.ValidateMeans | pkg/deploy/lbaas/vip_manager.go:80-99 | A listed VIP is healthy, failed or refused exactly by its subnet, its IP version and the words in its status |
| VirtualServers.Ensure | pkg/deploy/lbaas/virtual_server_manager.go:36-137 | Never a creation after a deletion; a creation only while neither the recorded id nor the name is on the load balancer; a deletion only of the recorded listener or the one of the desired name, after it was read as failed or as serving under another digest, or of one just created; what is kept serves the desired frontend, by its status word, under a matching digest or was found by name. Where no call fails and the other listeners can be read and leave the frontend alone, the verdict on the readable listener that is recorded, or found by name, is fixed: refused on another frontend, deleted if failed or serving under another digest, kept if serving, waited for without any call otherwise; and one is created if there is none |
| VirtualServers.ValidateMeans | pkg/deploy/lbaas/virtual_server_manager.go:146-165 | A listener is serving, failed, pending or refused exactly by VIP, port, protocol and the words in its status |
| Recovery.Recover | pkg/deploy/lbaas/deployer.go:484-567 | Reads only; finds, for every wanted name, the one listener that bears it; where all found listeners answer on one listed VIP the result is that VIP or an error, in whatever order they are looked at |
| Members.Ensure | pkg/deploy/lbaas/backend_member_manager.go:20-80 | With distinct keys the pool ends with exactly the desired members, one each, of the weight and resource type asked for and with the same key, which without bars means the same resource, address and ports; the calls are exactly the needed ones, each once; on an error no desired member was lost; nothing outside the pool changes; a pool at rest causes no call, and a run fails only on a failed call, a missing parent id, or a member without resource, address or port |
| Members.PlanIsExact | pkg/deploy/lbaas/backend_member_manager.go:36-66 | The calls planned are exactly a creation per missing key and an update per kept key whose stored weight, or resource type (compute if none is given), differs, without repetition |
| Members.SecondRunIsQuiet | pkg/deploy/lbaas/backend_member_manager.go:20-80 | A second run over the result makes no call |
| Members.KeyReadsBack | pkg/deploy/lbaas/backend_member_manager.go:82-88 | Member keys are equal exactly for the same port of the same backend |
| Members.ABarConfusesMembers | pkg/deploy/lbaas/backend_member_manager.go:82-88 | With a bar in an id a stored member of one backend counts as a desired member of another |
| Rules.Ensure | pkg/deploy/lbaas/routing_rule_manager.go:52-107 | On success or failure only owned rules with undesired keys disappear, and nothing is added under a key that a foreign rule holds; on success with distinct keys the owned rules' keys are exactly the desired ones, with exactly the needed calls, and without bars every desired route (host, path, match type, pool) has an owned or new rule, beside which there are only foreign ones; at rest there is no call, and only a failed listing or a missing parent id makes the run fail |
| Rules.KeyReadsBack | pkg/deploy/lbaas/routing_rule_manager.go:116-122 | Where only paths contain bars, keys are equal exactly for one host up to case, one path, one match type up to case (prefix if none is given) and one pool |
| Rules.SecondRunIsQuiet | pkg/deploy/lbaas/routing_rule_manager.go:52-107 | With the reported rules on record as owned, a second run makes no call |
| Rules.SecondRunTellsTheSame | pkg/deploy/lbaas/routing_rule_manager.go:52-107 | and reports the same rules |
| Rules.KeyNamesThePool | pkg/deploy/lbaas/routing_rule_manager.go:116-122 | Rules with equal keys select the same pool |
| Monitors.Ensure | pkg/deploy/lbaas/monitor_manager.go:37-104 | The pool ends with exactly one monitor, as desired, the first of its name if there was one, or with none; a pool that is right already causes no call |
| Pools.Ensure | pkg/deploy/lbaas/pool_manager.go:81-142 | By record only: the recorded pool if it is still there, else a new one of a free name; its members converge, it is the default if asked; no other pool changes |
| ListenerChildren.EnsureChildren | pkg/deploy/lbaas/deployer.go:388-463 | The pools that the listener needs, their members, monitors and the rules are as desired and exactly on record; only recorded pools and owned rules of this listener are touched; children at rest cause no call and leave the graph equal, whether the run succeeds or not, and it fails only on a failed listing |
| ListenerChildren.PoolsForMeans | pkg/deploy/lbaas/deployer.go:738-753 | A listener needs exactly the pools of the stack whose name is its default pool's, if it has one, or that of some routing rule |
| StackDeployer.DeleteObsoleteVirtualServers | pkg/deploy/lbaas/deployer.go:647-709 | Exactly the recorded listeners under undesired names are deleted, after what hangs on them; the graph loses exactly their entries |
| StackDeployer.EnsuredAreNotObsolete | pkg/deploy/lbaas/deployer.go:357-370 | No id that the listener loop has ensured is deleted afterwards, as an alias or under an obsolete name |
| Obsolete.DeleteObsoletePools | pkg/deploy/lbaas/deployer.go:574-623 | Exactly the recorded pools under undesired keys go, with their members and monitors |
| Obsolete.DeleteListenerTree | pkg/deploy/lbaas/deployer.go:660-702 | Rules, members, monitors and pools recorded under a listener are gone before the listener is touched, and only these |
| StackPass.Complete | pkg/deploy/lbaas/deployer.go:343-482 | The listener loop and the deletions after it: what they achieve, and that they do nothing where nothing is to be done |
| StackPass.EnsureStack | pkg/deploy/lbaas/deployer.go:202-482 | A whole pass, full or aggregate; a full one begins in order: keys and ids on record are unambiguous, as are member keys in the pools of listeners that are on record, bear the stack's names, or are new (other listeners' pools may hold anything). On success and on failure: foreign pools and rules are untouched, listeners stay on the VIP their Service is on, and no load balancer or VIP is created beside one that it starts from and that lasts. On success: load balancer and VIP are those that it started from, if they last, placed as asked, the address being the provider's; the state may be published; and if the record was in order, everything is achieved that Achieved says (what that means is the subject of the rows of StackMeaning). From a state at rest there is no provider call and no change, success returns the state as it was, with the scalar id of an only listener filled in, and reports no change, and without faults and with answered lookups the pass succeeds |
| StackPass.PassAchieves | pkg/deploy/lbaas/deployer.go:343-482 | After a successful pass every listener of the stack stands under its own name and id on load balancer and VIP, with its digest on record; its children are as desired; all other recorded listeners and pools are gone or going; and the record is in order for the next pass. The next rows say this of the stack and the provider alone |
| StackMeaning.NeededPoolsStand | pkg/deploy/lbaas/deployer.go:394-432 | After a successful full pass every pool of the stack that is named as the listener's default or by a routing rule is on record under its own key with its owner, and at the provider under the listener, with exactly the desired members, each on record, and the monitor asked for; and it is the default if it is named so |
| StackMeaning.OnlyNeededPoolsStand | pkg/deploy/lbaas/deployer.go:574-623 | and over a tree of keys no other pool is on record |
| StackMeaning.DefaultsMean | pkg/deploy/lbaas/deployer.go:394-401 | Where the stack has the pool that a listener names as its default, a needed pool is the provider's default if and only if it is named so; where it names none, the provider's default is what it was |
| StackMeaning.ADefaultOutlivesItsName | pkg/deploy/lbaas/pool_manager.go:81-142 | A pool that is as desired both as the default and where the listener names no default, and is the provider's default either way |
| StackMeaning.RoutesStand | pkg/deploy/lbaas/deployer.go:433-461 | and every routing rule of the stack, where rules can be told apart, is on record and stands under every listener: host, path and match type as asked, and the pool on record under its name |
| StackMeaning.ListenersStand | pkg/deploy/lbaas/deployer.go:343-376 | and every listener is on record with its owner and the digest of its configuration and backends, and stands on load balancer and VIP |
| Deployer.BackendsMean | pkg/deploy/lbaas/deployer.go:724-736 | These backends are the members of the first pool of the default name, or else those of the first port of the listener's number, or none |
| Deployer.RequestMeans | pkg/deploy/lbaas/deployer.go:357-363 | What is asked for a listener: the id on record under its name, or else the scalar one if it is the only listener; the digest on record; and the digest of its configuration and those backends |
| StackPass.PassKeepsClosed | pkg/deploy/lbaas/deployer.go:343-482 | A record that is a tree of keys stays one, and then has exactly the stack's listener and pool keys; and a monitor's key exactly if its pool is desired and asks for a monitor or had one on record |
| StackPass.MemberKeysAreExact | pkg/deploy/lbaas/deployer.go:405-416 | and after a full pass exactly the desired members' keys |
| StackPass.RuleKeysAreExact | pkg/deploy/lbaas/deployer.go:453-461 | and, with distinct rule keys, exactly the desired rules' keys |
| StackPass.MonitorKeysAreExact | pkg/deploy/lbaas/deployer.go:419-427 | After a full pass over a tree of keys a desired pool's monitor is on record if and only if the pool asks for one or had one on record, and an entry has no monitor at the provider if and only if its pool asks for none and had one on record |
| StackPass.AnEntryOutlivesItsMonitor | pkg/deploy/lbaas/deployer.go:419-427 | A pool that is as desired with its monitor, and as desired without it, on one and the same record, which names the monitor |
| StackPass.LostAliasIsObsolete | pkg/deploy/lbaas/deployer.go:647-659 | A scalar listener id that no listener of a stack of several has is mirrored and found obsolete, so the pass reports a change |
| StackPass.TakenKeepsVIP | pkg/deploy/lbaas/deployer.go:309-341 | The VIP that a pass takes (the recorded one while listed, or the one that all recovered listeners prove) is the one its Service is on, so the guard of every later creation is met |
| StackPass.DropUndoesMirror | pkg/model/model.go:206-220 | Mirroring a scalar id that is on record anyway is undone when aliases are dropped |
| SecondPass.EnsureTwice | pkg/deploy/lbaas/deployer.go:202-482 | Two passes with publication and time in between: if the provider has settled, the second pass makes no provider call, whether it succeeds or not; a success reports no change and returns an equal graph, load balancer, VIP, address and scalar; and it does succeed if no call fails and it can find out what it has to (placement, default pools, and that the readable other listeners leave its frontends alone) |
| SecondPass.FindableAnswers | pkg/deploy/lbaas/virtual_server_manager.go:42-67 | That condition answers every lookup and conflict check of a pass |
| SecondPass.EnsureAndWait | pkg/deploy/lbaas/deployer.go:202-482 | After one pass, its publication and any wait, the same pass may begin again, in order, and is at rest where the provider has settled |
| SecondPass.FirstPassRests | pkg/deploy/lbaas/deployer.go:202-482 | What a first pass has achieved is a state at rest once the provider has settled |
| SecondPass.BeginsAgain | cmd/svc-lb-bridge/main.go:613-666 | What a pass publishes meets every condition under which a pass may begin |
| Convergence.LoopSteps | pkg/deploy/lbaas/deployer.go:343-464 | One round of the listener loop finishes its listener's children, keeps those of all earlier listeners finished, and touches nothing that is not recorded, whatever other pools hold |
| Closure.LoopKeepsClosed | pkg/deploy/lbaas/deployer.go:394-461 | The listener loop keeps every entry under its logical id and every child's parents on record |
| Closure.DropKeepsClosed | pkg/deploy/lbaas/deployer.go:625-641 | So does the dropping of aliases |
| Closure.WithoutPoolsKeepsClosed | pkg/deploy/lbaas/deployer.go:574-623 | and the deletion of any pools |
| Closure.WithoutListenersKeepsClosed | pkg/deploy/lbaas/deployer.go:647-709 | and the deletion of any listeners |
| Observed.DropKeepsIds | pkg/deploy/lbaas/deployer.go:625-641 | Dropping an alias loses no id and no entry but the alias, and an alias that stays shares its id with no other key |
| Observed.State.EnsureGraph | pkg/model/model.go:178-221 | Scalar ids are mirrored under their legacy keys unless these are taken; nothing else changes |
| Observed.State.DropMigratedLegacyAliases | pkg/deploy/lbaas/deployer.go:625-641 | Exactly the aliases whose id another key holds are dropped |
| GraphKeys.PoolKeyMeans | pkg/deploy/lbaas/deployer.go:716-722 | A key is read as a pool's exactly if it is the pool's key or one of a child of it |
| GraphKeys.VSNameMeans | pkg/deploy/lbaas/deployer.go:711-714 | A key is read as a listener's exactly if it is its name or has its name and a slash in front |
| GraphKeys.ParentsAreRecorded | pkg/deploy/lbaas/cleanup.go:158-176 | For slash-free names the parent lookups return the parents that the child was recorded under |
| GraphKeys.SlashesConfuseParents | pkg/deploy/lbaas/deployer.go:711-714 | With a slash in a listener's name its pools are read as another listener's |
| GraphKeys.DifferentPoolsDifferentKeys | pkg/deploy/lbaas/deployer.go:394-401 | Different pools of slash-free names have different keys |
| Text.SafeNamesAreSafe | pkg/ingress/builder.go:121-139 | A safe name is never empty and has only lower-case letters, digits and dashes, so never the separator of graph keys |
| Text.SafeNameMeans | pkg/ingress/builder.go:121-139 | It is the lower-case text from its first letter or digit to its last, with a dash for everything that is neither; without any it is an x |
| Text.BuildSafeName | pkg/ingress/builder.go:121-139 | The loop that writes the name letter by letter computes the safe name of the row above |
| Text.FoldMeans | pkg/deploy/lbaas/virtual_server_manager.go:153-155 | Two ASCII texts are equal up to case exactly if they have one length and at every place one letter, in either case, or one other character |
| Text.LessMeans | pkg/deploy/lbaas/cleanup.go:143-156 | Keys and group members are ordered by their first difference: the smaller character goes first, and a text before its continuations |
| Teardown.LBServiceID | pkg/deploy/lbaas/cleanup.go:122-141 | The one recorded parent, none without any, and no answer with several |
| Teardown.SortedResources | pkg/deploy/lbaas/cleanup.go:143-156 | Exactly the entries with an id, once each, in the order of their keys |
| Teardown.CleanupStack | pkg/deploy/lbaas/cleanup.go:35-116 | The calls are a prefix of the script that the record fixes (rules, members, monitors, pools, listeners, VIPs, load balancer), nothing unrecorded is deleted, no listener before all its children; several parents: no call; success means that all recorded listeners, and the load balancer if asked for, read as gone |
| Teardown.RunsGetDone | pkg/deploy/lbaas/cleanup.go:85-113 | A run that does not succeed, followed by what it waits for, strictly lowers a measure: recorded listeners still readable, the load balancer to be deleted, and the calls that can still fail |
| Teardown.NothingToWaitFor | pkg/deploy/lbaas/cleanup.go:85-113 | A run in which no call fails succeeds where the recorded listeners are gone, and so is the load balancer that is to be deleted |
| Teardown.CleanupUntilDone | pkg/deploy/lbaas/cleanup.go:35-116 | Cleanup restarted after any failure and any wait succeeds within one more run than the measure says, with everything recorded gone |
| Teardown.FinishedDooms | pkg/deploy/lbaas/cleanup.go:85-113 | A finished cleanup has had only recorded listeners deleted, and the load balancer only if it was asked to |
| HashMeaning.ServerHashMeaning | pkg/deploy/lbaas/deployer.go:139-150 | For separator-free fields and an injective digest, the recorded digests of two configurations agree exactly when their fields agree and their source ranges and targets agree as multisets |
| HashMeaning.BackendHashMeaning | pkg/deploy/lbaas/deployer.go:115-134 | The digest of backends agrees exactly on both ports and the multiset of (IP, port, weight) targets |
| HashMeaning.AnEmptyRangePrintsLikeNone | pkg/deploy/lbaas/deployer.go:139-150 | A configuration with one empty source range has the digest of one without ranges |
| DesiredHash.AnySortPrintsTheSame | pkg/deploy/lbaas/deployer.go:118-126 | However the unstable sort breaks ties, the printed targets are the same |
| DesiredHash.DesiredBackendHash | pkg/deploy/lbaas/deployer.go:115-134 | The sort and the printing loop compute the digest whose meaning is stated above |
| DesiredHash.DesiredVirtualServerHash | pkg/deploy/lbaas/deployer.go:139-150 | The same for the whole configuration |
| RoutingTable.CompilationIsExact | pkg/ingress/group_builder.go:81-163 | For well-shaped members compilation succeeds exactly if every backend resolves and no two routes ask for different pools under one key; then the rules are exactly those of the routes, functional, with priorities from 1 on, the pools are exactly those of the requested backends, and the default pool that of the default backend or none; a reported conflict is a real one. What the routes are is the subject of the next rows |
| GroupMeaning.CompilationMeans | pkg/ingress/group_builder.go:81-163 | The same said of the Ingresses alone, where hosts contain no bar and names of Services and ports no colon: compilation succeeds exactly if every backend in use has a node port and no host, match and path goes to two pools; then an entry (host, match, path, pool) is in the table if and only if some path of some rule of some member asks for it: the rule's host lower-cased and trimmed, exact for the path type Exact and prefix otherwise, the path, and the pool of its backend in the anchor's namespace. Pools have a member per node on the node port and the configured monitor; the listeners are those for HTTP and, with TLS, HTTPS, their default pool is that of the default backend or none, and there is a certificate per TLS entry |
| GroupMeaning.OutcomeMeans | pkg/ingress/group_builder.go:37-164 | The same of the whole function, in whatever order the sort leaves the members: a stack if and only if the members are of one namespace and group and each acceptable, and the above holds; otherwise an error of the right kind |
| GroupMeaning.ShapeMeans | pkg/ingress/validation.go:41-106 | Where hosts contain no bar, validation accepts an Ingress exactly if its fields are acceptable, said of the fields: no host, path and type goes to two backends, and nothing that the compiler dereferences is missing |
| GroupMeaning.StacksAreOwned | pkg/ingress/group_builder.go:72-163 | Load balancer, VIP, listeners, pools and rules of a compiled stack all belong to the group, or without a group to the first Ingress |
| GroupMeaning.GroupsKeepTheirNames | pkg/ingress/group_builder.go:72-163 | Whichever Ingresses make up a group and whatever they ask for, its load balancer, VIP and listeners keep their names |
| RoutingTable.SameResultInAnyOrder | pkg/ingress/group_builder.go:51-70 | The same stack or the same error for every permutation of distinctly named members and every way the sort may break ties |
| RoutingTable.PoolNamesCollide | pkg/ingress/group_builder.go:103-103 | Different backends can get one pool name |
| RoutingTable.ConflictsAreFoundByPoolName | pkg/ingress/group_builder.go:117-119 | Two backends for one route are rejected exactly if their pool names differ |
| RoutingTable.ABarInAHostConfusesKeys | pkg/ingress/group_builder.go:116-116 | With a bar in a host two different routes share a key |
| IngressGroup.BuildGroupLoadBalancerStack | pkg/ingress/group_builder.go:37-164 | The nested loops over shared tables compute the compiled stack or the first error for some order in which the sort may leave the members; what either is, is the subject of GroupMeaning.OutcomeMeans |
| IngressShape.AcceptsExactlyWellShaped | pkg/ingress/validation.go:41-106 | Validation succeeds exactly on well-shaped Ingresses: no backend, path type or HTTP rule that the compiler dereferences is nil, and no host, path and type goes to two backends |
| IngressShape.ValidateIngressShape | pkg/ingress/validation.go:41-106 | The loops report the first error in the order of the checks, if any |

## Findings

Properties that do not hold of the code as one might expect, each with its condition:

- **A provided load balancer can be deleted.** Its own Service never deletes it, but a Service that joins the vip-group holds it
  as managed (`Bridge.JoinersHoldAsManaged`). When it fails, that member's repair deletes it
  (`Limits.AnotherMemberRepairsAProvidedParent`), and when its own Service has gone, the last member's cleanup does
  (`Limits.TheLastGroupMemberDeletesAProvidedParent`). Exactly when: `Runs.ControllersDeleteExactly`,
  `Runs.ProvidedIsDeletedExactly`; without a Service that reaches it, never: `Runs.ProvidedSurvivesAlone`.
- **A provided VIP can be deleted.** In the same way, another member's repair deletes it when it fails
  (`Limits.AnotherMemberRepairsAProvidedVIP`). Moreover cleanup deletes every VIP of the Service's graph, while the sharing check
  only asks about the VIP on its record, which the checkpoint does not write: a member that joins, stops after its checkpoint and goes
  away deletes the VIP that its lender still has on record (`Limits.AnotherMemberCleansUpALentVIP`). Exactly when:
  `Runs.ControllersDeleteVIPsExactly`, `Runs.ProvidedVIPIsDeletedExactly`; over runs: `Runs.ProvidedVIPSurvivesAlone`,
  `Runs.SharedVIPSafety`.
- **A supplied VIP can be forgotten.** Without modes, a supplied VIP is treated strictly. The checkpoint of the first pass writes the mode
  of the load balancer only, and beside a provided load balancer a VIP without a mode is not treated strictly. If that pass goes no further, the
  next one may delete the user's VIP when it fails (`Limits.ASuppliedVIPIsForgotten`). Exactly when:
  `Deployer.CheckpointKeepsStrictVIP`.
- **A listener can outlive its Service.** If the answer to its creation was lost, it is on no record, and cleanup does not look
  for it. It stays exactly if it is not on record and the load balancer is kept (`Bridge.CleanupLeavesExactly`,
  `Bridge.Release`; an instance is `Runs.AnUnrecordedListenerCanStay`).
- **A route conflict can go unnoticed.** Pool names join service and port names with dashes, so two backends can get one name
  (`RoutingTable.PoolNamesCollide`), and a conflict is noticed exactly if the names differ
  (`RoutingTable.ConflictsAreFoundByPoolName`). The check for two default backends never fires: a route conflict is reported
  first.
- **One empty source range digests like none** (`HashMeaning.AnEmptyRangePrintsLikeNone`). The digest tells exactly what it should
  where ranges are not empty and contain neither comma nor semicolon. The Service controller never passes an empty range: the parser
  of annotations drops them (`pkg/annotations/lb.go`, line 142), and the Kubernetes API refuses one in the Service itself; so this is a
  limit of the function only.
- **A stale scalar listener id keeps a stack of several listeners from coming to rest.** It is mirrored and deleted as obsolete
  again in every pass. A pass that succeeds reports a change (the clause of `StackPass.EnsureStack` about `AliasLost`, and
  `StackPass.LostAliasIsObsolete`); where the provider answers the deletion of an absent listener with not-found, the pass fails
  instead, since that error is not told apart (deployer.go, lines 702-704). `SecondPass.EnsureTwice` asks for none; the Service
  controller never passes one.
- **A default pool is never taken back.** Ensuring a pool makes it the default where it is named so, and does nothing about it where it is
  not: when a listener no longer names a default pool, the old one stays the provider's default (`StackMeaning.ADefaultOutlivesItsName`).
  Exactly when, after a full pass, a needed pool is the default: `StackMeaning.DefaultsMean`.
- **A bar in an id confuses members.** Member keys join their fields with bars, so with a bar in a resource id or an address the stored
  member of one backend counts as the desired member of another (`Members.ABarConfusesMembers`). Without bars keys are equal exactly for
  the same backend port (`Members.KeyReadsBack`), and a converged pool holds the desired members field for field.
- **A monitor entry can outlive its monitor.** When a pool that stays loses its monitor, its entry stays on record
  (deployer.go, line 423): an instance is `StackPass.AnEntryOutlivesItsMonitor`, and `StackPass.MonitorKeysAreExact` tells exactly
  which entries those are.

## Left out

- HTTP transport, authentication, rate limits and JSON parsing: the typed client is the boundary, and only the kinds of its results are modelled.
- Certificates: the deployer is one without certificate manager, which refuses stacks that carry certificates.
- Ingress reconciliation end to end: only the group compiler and the validation before it.
- The lookups of compute ports and of an explicit subnet, the backend resolver of Ingresses and SHA-256: parameters; their verdicts are arbitrary, the digest is injective and not empty where a theorem says so.
- Trimming and case folding: ids are taken as trimmed; folding is that of ASCII letters.
- Integer widths: ports, weights and priorities are unbounded integers.
- Truncated SHA-256 names: two Services are taken not to collide; two protocols on one port number share a listener name, as in the code.
- Lists are complete, and a failed Kubernetes list (which makes a load balancer look unshared) is taken not to happen.
- Services are reconciled one at a time, reads are current, and annotation patches are atomic; users are trusted not to forge annotations that the controller has written.
- People and other programs act between passes; they add nothing to the load balancers of a pass while it runs; they do not take a name or frontend in use.
- Other reconciliation entry points (`Deployer.Ensure`, `Deployer.Cleanup`), recovery by name switched off, a pass without checkpoint hook, and missing managers.
- The manager's own default VPC and the controller's: taken to be the one in the stack.
- The per-port annotation and the legacy backend digest, which no modelled code reads.
- The counter of repair attempts, requeue delays, events, metrics, network policies and Service status.
- Pools, members, monitors and rules are kept apart from listeners: they do not disappear by themselves when their listener does.
- Distinct keys: convergence is stated for provider pools, of the listeners that a pass may come to work on, in which no two members share a key, and for stacks and records whose rules have distinct keys; equal ones are not merged by the code.
- Adoption: a listener recovered by name is put on record with the desired digest without a look at its configuration, so nothing is said of the backends of adopted listeners.
- StackPass.EnsureStack: a full pass is asked to begin in order, its own pools' member keys being distinct, because with equal keys the code updates one of the members and leaves the others; an aggregate pass is not.
- SecondPass.EnsureTwice: promises success of the second pass only where reads answer and no other listener holds a frontend of the stack, because the code refuses to go on otherwise.
- Runs.ControllersDeleteExactly: does not ask a load balancer under repair to be failed at the moment of the call, since its status may change after it was read; `LBServices.Ensure` says that it was read as failed, and that one that reads so is deleted.
- Runs.ControllersDeleteVIPsExactly: nor a VIP, for which `VIPs.Ensure` says the same.
- Runs.ProvidedVIPSurvivesAlone: does not exclude cleanup by a Service that has the VIP in its graph only, because the code does not (see Findings).
