# Bambuk topology distribution: a verified model

Bambuk keeps a small key/value store on every VM of a hybrid cloud in step with Neutron. A
server reacts to update logs: it computes what a port or a router can reach, builds batches of
`(table, key, value)` entries and sends them to the VMs as `apply`, `update` or `delete`. The
VMs execute them on one of two database drivers, and the messages travel over ZeroMQ or over a
framed TCP stream, with retries.

The model follows these three layers and proves properties of each, and of the three together.

* **Agent store.** `Batches` says what a list of entries means; `TinyDb` and `BsdDb` are the
  two drivers as classes, each method proved against functions on values; `Drivers` compares
  them, over every run of commands, and shows that executing a command again changes nothing.
* **Transport.** `AsyncTcp` holds the two endpoints as classes, `TcpExchange` one request as two
  machines joined by byte streams, `Json` and `JsonReading` the texts that are sent. `ZeroMq` is the pool of shared
  senders with any number of concurrent threads. `Retry` is the bounded retry loop.
* **Server.** `Neutron` holds what the server reads and the reachability it computes; `PortInfo`
  and `PortInfoBuilder` build batches; `Actions` says what each action sends, `UpdateActions` is
  the code that does it, loop by loop. `ServerBatches`, `Views` and `RouterLogs` say exactly what
  the batches contain, and `Effects` what every VM holds at every location after each action.
* **The whole.** `Cluster` is Neutron and all VMs as one state machine, with ledgers of what the
  messages sent so far have left undone. `Completeness`, `Soundness` and `Groups` are invariants
  over all its runs; `Agreement` says which pending log will settle each entry of the ledgers, and
  what holds when no log is pending. `Deployment` puts the real drivers and retries under it.
  `History` splits every action into single reads and sends, interleaved without any lock;
  `Atomic` shows that these make up the actions.
  `Limits` shows where the guarantees end. `Example` gives two runs: one that meets all
  assumptions, and one in which the server ignores a log and a VM keeps a port for good;
  `Stranded` gives one in which a VM loses a port for good.

## Assumptions of the cluster results

They are the predicates `Sane` and `Step` of `Cluster`, and hold of every state of a run:

* Neutron's own integrity: unique ids, ports on known networks, interface ports on known routers,
  ports owned by a router are interface ports (`WellFormed`).
* One router per network at most, which the server's code states as its own assumption
  (`networking_bambuk/common/update_actions.py:327-328`). `Neutron.TwoRoutersBreakSymmetry`
  shows what happens without it.
* A host has one provider address; the ports of one VM reach each other; provider ports are VM ports.
* A log is processed after its change, any number of times, an action runs to its end (not in `History`), and its
  messages are delivered. A detachment removes the router's last interface on the network.

Nothing else is assumed of the order in which changes are made and logs are processed, and the logs
of routers that are disabled or not distributed are consumed without effect, as the code does.
The three ledgers say what that order may cost:

* `untold`: two ports that a new interface joined. A port update of either, or a push of the router,
  settles it. In every run such a pair waits for a pending log of its router, or its router is
  disabled (`Agreement.UntoldIsOwed`).
* `struck`: two ports that reach each other, and a detachment's delete took away what one VM knew of
  the other. `Completeness.DetachTakesIff` says exactly when that happens.
* `lost`: two ports that were separated, and no processed log has made the one VM forget the other.

`Agreement.QuietAgreement`, the statement about clusters with no log pending, adds that the run was
`Orderly`. The parts of that predicate, and what goes wrong without them:

* a detachment on a distributed router is processed while the router is enabled, since the server
  drops the log otherwise and never returns to it (`Limits.DetachmentForgetsIff`,
  `Example.IgnoredLogLeavesPort`);
* no second interface of a router is removed while a removal is pending
  (`Limits.DoubleDetachmentIsMissed`);
* an interface that is back before its detachment is processed still has a push to come, which
  repairs the damage (`Limits.DetachmentSeparatesIff`, `Limits.ReattachmentRepairs`);
* no interface is removed from a network while a VM there still lacks a port of that same network
  that a delete took away, since the push would not reach the network any more
  (`Stranded.RemovalStrandsPort`);
* the provider ports of one host reach each other when a detachment is processed, since its delete
  also removes chassis.

## Where code and documentation differ

* The drivers' docstrings say a missing key raises. On TinyDB nothing raises; on BSD only a delete
  does. The model follows the code.
* A port update computes reachability without looking at the router's administrative state, an
  attachment does look at it; `UpdateActions.BaseReachesIff` says when the two reach the same.
* `to_db` reads as if switches, chassis and router were always part of the batch. They are dropped
  when the list is still empty at that point (`Limits.EmptyBatchIff`).

## Model

| member | source | states |
|---|---|---|
| Batches.MapOfConsistent | networking_bambuk/agent/df/df_agent_db.py:61-76 | a batch that gives equal locations equal values denotes exactly the map of its entries |
| Batches.MapOfOrderFree | networking_bambuk/common/update_actions.py:410-417 | for a consistent batch neither the order in which networks were listed nor repetition matters |
| TinyDb.GetAfterCreateAll | networking_bambuk/agent/df/df_tiny_db.py:114-128 | after appending a batch a key reads as its first value, since get takes the first matching document |
| TinyDb.GetAfterSetAll | networking_bambuk/agent/df/df_tiny_db.py:94-112 | after updates a key reads as the batch's last value, whatever duplicates the table held |
| TinyDb.GetAfterRemoveAll | networking_bambuk/agent/df/df_tiny_db.py:130-143 | after deletes exactly the listed keys are absent |
| TinyDb.RemoveAllKeepsTheRest | networking_bambuk/agent/df/df_tiny_db.py:130-143 | every document of a listed key is gone, duplicates included, and every other document is kept as often as it was |
| TinyDb.AgreeingAfterCreateAll | networking_bambuk/agent/df/df_tiny_db.py:114-128 | a consistent apply establishes that documents with equal keys have equal values |
| TinyDb.SetAllTwice | networking_bambuk/agent/df/df_tiny_db.py:94-112 | running an update batch again leaves every table, document by document, as it was |
| TinyDb.RemoveAllTwice | networking_bambuk/agent/df/df_tiny_db.py:130-143 | so does running a delete batch again |
| TinyDb.TinyDbDriver.GetKey | networking_bambuk/agent/df/df_tiny_db.py:75-92 | the value of the first document with the key, or none |
| TinyDb.TinyDbDriver.SetKey | networking_bambuk/agent/df/df_tiny_db.py:94-112 | replaces every matching document, or creates one |
| TinyDb.TinyDbDriver.DeleteKey | networking_bambuk/agent/df/df_tiny_db.py:130-143 | removes every matching document |
| TinyDb.TinyDbDriver.GetAllKeys | networking_bambuk/agent/df/df_tiny_db.py:161-175 | lists the key of every document in order; a key is listed exactly if it can be read |
| TinyDb.TinyDbDriver.GetAllEntries | networking_bambuk/agent/df/df_tiny_db.py:145-159 | lists the value of every document in order, duplicates included |
| TinyDb.TinyDbDriver.Apply | networking_bambuk/agent/df/df_agent_db.py:61-76 | clears, appends every entry, succeeds; every location then reads as the batch's first value for it |
| TinyDb.TinyDbDriver.Update | networking_bambuk/agent/df/df_agent_db.py:79-96 | sets every entry in turn, succeeds; named locations read as the last value, others as before |
| TinyDb.TinyDbDriver.Delete | networking_bambuk/agent/df/df_agent_db.py:98-114 | removes every listed key, never fails on TinyDB, touches no other |
| BsdDb.GetAfterApply | networking_bambuk/agent/df/df_bsd_db.py:127-143 | after an apply a location reads as its last value, since put overwrites |
| BsdDb.GetAfterUpdate | networking_bambuk/agent/df/df_bsd_db.py:108-125 | after an update named locations read as the last value, others as before |
| BsdDb.GetAfterDelete | networking_bambuk/agent/df/df_bsd_db.py:145-160 | a delete removes exactly the keys before the first absent or repeated one |
| BsdDb.DeleteSucceedsIff | networking_bambuk/agent/df/df_bsd_db.py:145-160 | it runs to its end exactly when all keys are distinct and present |
| BsdDb.ApplyLeavesBatchTables | networking_bambuk/agent/df/df_bsd_db.py:259-265 | after an apply the directory holds exactly the tables named in the batch and every open table is on disk |
| BsdDb.OneSyncIsEnough | networking_bambuk/agent/df/df_agent_db.py:66-72 | one sync at the end of a batch leaves memory and files as a sync after every entry would |
| BsdDb.SyncedSurvivesCrash | networking_bambuk/agent/df/df_bsd_db.py:57-66 | a synced store reads the same after its handles are lost and its files reopened |
| BsdDb.FailedDeleteIsNotDurable | networking_bambuk/agent/df/df_agent_db.py:98-114 | whatever a delete removed before it failed is gone at once and back after a crash, on every synced store |
| BsdDb.BsdDbDriver.GetDb | networking_bambuk/agent/df/df_bsd_db.py:57-66 | opens a table once, creating its file |
| BsdDb.BsdDbDriver.GetKey | networking_bambuk/agent/df/df_bsd_db.py:90-106 | reads a key, opening its table as a side effect |
| BsdDb.BsdDbDriver.DeleteTable | networking_bambuk/agent/df/df_bsd_db.py:77-88 | drops handle and file; fails exactly when there was no file |
| BsdDb.BsdDbDriver.DeleteKey | networking_bambuk/agent/df/df_bsd_db.py:145-160 | fails exactly on an absent key, having changed nothing but opened the table |
| BsdDb.BsdDbDriver.GetAllKeys | networking_bambuk/agent/df/df_bsd_db.py:175-186 | lists each readable key of the table exactly once |
| BsdDb.BsdDbDriver.Sync | networking_bambuk/agent/df/df_bsd_db.py:259-261 | writes every open table to its file and no other |
| BsdDb.BsdDbDriver.ClearAll | networking_bambuk/agent/df/df_bsd_db.py:263-265 | removes every file of the directory with its handle |
| BsdDb.BsdDbDriver.Apply | networking_bambuk/agent/df/df_agent_db.py:61-76 | always succeeds, ends synced, and every location reads as the batch's last value |
| BsdDb.BsdDbDriver.Update | networking_bambuk/agent/df/df_agent_db.py:79-96 | always succeeds and ends synced |
| BsdDb.BsdDbDriver.Delete | networking_bambuk/agent/df/df_agent_db.py:98-114 | reports success exactly when the keys were distinct and present; otherwise stops there, unsynced |
| Drivers.TinyRefines | networking_bambuk/agent/df/df_agent_db.py:61-114 | TinyDB implements the abstract map for a command if and only if an apply reads the same from both ends |
| Drivers.BsdRefines | networking_bambuk/agent/df/df_agent_db.py:61-114 | BSD does if and only if a delete that stops early skips no key that was still present |
| Drivers.ApplyDivergesIff | networking_bambuk/agent/df/df_agent_db.py:61-76 | from any two stores, the drivers agree after an apply if and only if first and last value coincide everywhere |
| Drivers.DeleteDivergesIff | networking_bambuk/agent/df/df_agent_db.py:98-114 | agreeing stores still agree after a delete if and only if BSD skips nothing |
| Drivers.DriversEquivalent | networking_bambuk/agent/df/df_agent_db.py:61-114 | over every run of consistent applies, any updates, and deletes of distinct present keys, both drivers show the same map, TinyDB's duplicates agree, BSD is on disk |
| Drivers.BsdIdempotent | networking_bambuk/agent/df/df_agent_db.py:61-114 | executing a command again changes neither memory nor files; a repeated delete stops at its first key |
| Drivers.TinyIdempotent | networking_bambuk/agent/df/df_agent_db.py:61-114 | executing a command again changes no document |
| Drivers.RetryIsHarmless | networking_bambuk/rpc/bambuk_rpc.py:155-178 | runs in which each command is executed one or more times in a row end in the state of executing each once, on both drivers |
| Retry.CallMethod | networking_bambuk/rpc/bambuk_rpc.py:155-178 | on either driver: the first answered of ten sends ends the call, which returns exactly if there is one; it has then had the effect of one execution, otherwise none or that of one; exactly when the report is wrong |
| Retry.SecondReport | networking_bambuk/rpc/bambuk_rpc.py:155-178 | what an agent on either driver reports for a command it had already executed |
| AsyncTcp.ReceiverHandler.HandleRead | networking_bambuk/rpc/asynctcp_rpc.py:27-35 | collects data; at a complete frame calls the agent and replaces the output by the framed answer; an answer that cannot be framed closes, as does an empty read |
| AsyncTcp.ReceiverHandler.HandleWrite | networking_bambuk/rpc/asynctcp_rpc.py:40-45 | drops exactly what was sent |
| AsyncTcp.ReceiverHandler.Writable | networking_bambuk/rpc/asynctcp_rpc.py:47-48 | a connected handler is offered for writing exactly while output is pending |
| AsyncTcp.TCPClient.Writable | networking_bambuk/rpc/asynctcp_rpc.py:121-122 | so is the client |
| AsyncTcp.TCPClient.HandleRead | networking_bambuk/rpc/asynctcp_rpc.py:114-119 | collects data; at a complete frame, or when the peer has closed, sets the result and closes |
| AsyncTcp.TCPClient.HandleClose | networking_bambuk/rpc/asynctcp_rpc.py:109-112 | the result is what was received less three characters, with Python's negative slice bounds |
| AsyncTcp.FramedIff | networking_bambuk/rpc/asynctcp_rpc.py:16-34 | a message neither containing the separator nor running into it is exactly one no proper prefix of whose frame looks complete |
| AsyncTcp.FramingExact | networking_bambuk/rpc/asynctcp_rpc.py:27-34 | the receiver hands over exactly the message, once, under every fragmentation, if and only if the message is framed |
| TcpExchange.StepConserves | networking_bambuk/rpc/asynctcp_rpc.py:27-48 | every step of either side keeps every byte of request and response in exactly one place |
| TcpExchange.ExchangeIsExact | networking_bambuk/rpc/asynctcp_rpc.py:156-161 | in every run the agent is called at most once, with the sent message, and the client returns exactly the response unless the server went away |
| TcpExchange.EarlyCloseTruncates | networking_bambuk/rpc/asynctcp_rpc.py:109-112 | whenever the client closes, its result is a prefix of the response, and the whole response exactly when all had arrived; the exceptions, for responses of at most one character, are listed exactly |
| TcpExchange.StepDecreases | networking_bambuk/rpc/asynctcp_rpc.py:114-127 | every step decreases a measure over the bytes unsent, in flight and unproduced |
| TcpExchange.NeverStuck | networking_bambuk/rpc/asynctcp_rpc.py:114-127 | while the client waits, a byte can be moved that the event loop offers to move, or a close observed |
| TcpExchange.ExchangeCompletes | networking_bambuk/rpc/asynctcp_rpc.py:156-161 | a maximal run without early closes is bounded, calls the agent once and returns exactly its response |
| Json.PrintedIsPlain | networking_bambuk/rpc/bambuk_rpc.py:156-159 | no JSON text contains a newline, whatever its strings contain |
| Json.JsonExchangeCompletes | networking_bambuk/rpc/bambuk_rpc.py:107-119 | so every exchange of JSON texts over the framed stream is exact and terminates |
| JsonReading.PrintedUniquely | networking_bambuk/rpc/bambuk_rpc.py:155-178 | a value, and where its text ends, can be told from the text, whatever follows it |
| JsonReading.PrintedInjective | networking_bambuk/rpc/bambuk_rpc.py:155-178 | no two values have one JSON text |
| ZeroMq.ZeroMQSenderPool.GetSender | networking_bambuk/rpc/zeromq_rpc.py:55-61 | one sender per connection, made on first use and kept |
| ZeroMq.ZeroMQSenderPool.SendInBulk | networking_bambuk/rpc/zeromq_rpc.py:109-115 | notes the connection and starts the thread |
| ZeroMq.ZeroMQSenderPool.SocketSend | networking_bambuk/rpc/zeromq_rpc.py:96-101 | a socket that still waits for a reply refuses to send |
| ZeroMq.ZeroMQSenderPool.SocketRecv | networking_bambuk/rpc/zeromq_rpc.py:96-101 | takes the awaited reply, or raises and keeps waiting |
| ZeroMq.ZeroMQSenderPool.ReleaseLock | networking_bambuk/rpc/zeromq_rpc.py:102-103 | the lock is released on success and on failure alike |
| ZeroMq.ZeroMQSenderPool.RemoveFromCur | networking_bambuk/rpc/zeromq_rpc.py:104-107 | removes the connection from the bulk's set, failing exactly if it is not there |
| ZeroMq.ZeroMQSenderPool.LoopBulk | networking_bambuk/rpc/zeromq_rpc.py:70-76 | drops the bulk once all its threads have finished |
| ZeroMq.StepKeepsInv | networking_bambuk/rpc/zeromq_rpc.py:55-119 | every step of every thread keeps locks, replies and bulk sets exact |
| ZeroMq.SendsAreExclusive | networking_bambuk/rpc/zeromq_rpc.py:96-107 | in every interleaving one thread at a time is inside a sender, a reply answers its own thread's message, the removal finds its connection |
| ZeroMq.BulkLeavesFailures | networking_bambuk/rpc/zeromq_rpc.py:63-76 | when a bulk's threads have finished its set is exactly the connections whose send or receive raised |
| ZeroMq.SendsStart | networking_bambuk/rpc/zeromq_rpc.py:109-119 | every bulk or single send starts a thread for its connection, which is never dropped or redirected |
| ZeroMq.OutcomesAreEarned | networking_bambuk/rpc/zeromq_rpc.py:91-107 | a thread that succeeded has sent its message and received a reply, in that order; one that failed had its send or receive raise |
| ZeroMq.BulkReachesAll | networking_bambuk/rpc/zeromq_rpc.py:63-119 | when a bulk can be waited for, each of its connections has had exactly one thread, and has left the set exactly if that thread exchanged its message for its own reply |
| ZeroMq.SomeThreadMoves | networking_bambuk/rpc/zeromq_rpc.py:91-107 | threads never block each other for good |
| ZeroMq.LostReplyDisablesSender | networking_bambuk/rpc/zeromq_rpc.py:81-107 | after a receive that raised, no later send on that connection reaches the wire and no reply comes back, in every continuation |
| Neutron.DomainIsLinked | networking_bambuk/common/update_actions.py:395-444 | a network is found reachable exactly when a distributed router joins it to the port's network |
| Neutron.DomainIsEquivalence | networking_bambuk/common/update_actions.py:395-444 | reachability is an equivalence relation on networks |
| Neutron.TwoRoutersBreakSymmetry | networking_bambuk/common/update_actions.py:404-408 | with two routers on a network it is not even symmetric |
| Neutron.PortsOnNoDup | networking_bambuk/common/update_actions.py:414-417 | each port of the listed networks is returned exactly once |
| PortInfo.ToDbMembers | networking_bambuk/common/port_infos.py:268-297 | the exact content of a batch, table by table, and when it is empty |
| PortInfo.ComputeLportsMembers | networking_bambuk/common/port_infos.py:185-189 | exactly the compute ports are recorded, and a record determines its port |
| PortInfoBuilder.BambukPortInfo.constructor | networking_bambuk/common/port_infos.py:159-208 | the loops compute, field by field, the own and other ports, groups, one switch per network, chassis, and the router with one entry for each of its ports |
| PortInfoBuilder.BambukPortInfo.PortDb | networking_bambuk/common/port_infos.py:210-222 | appends in place to a list that is not empty, otherwise to a new one |
| PortInfoBuilder.BambukPortInfo.ChassisDb | networking_bambuk/common/port_infos.py:224-238 | likewise for the chassis, or those of one host |
| PortInfoBuilder.BambukPortInfo.LswitchDb | networking_bambuk/common/port_infos.py:240-252 | likewise for the switches |
| PortInfoBuilder.BambukPortInfo.LrouterDb | networking_bambuk/common/port_infos.py:254-266 | likewise for the router |
| PortInfoBuilder.BambukPortInfo.ToDbList | networking_bambuk/common/port_infos.py:268-297 | the batch, with the tail lost when the list was empty |
| Actions.EndpointsAreChassis | networking_bambuk/common/port_infos.py:199-208 | the chassis of a batch are those of the provider ports its endpoints were collected from |
| UpdateActions.GetVms | networking_bambuk/common/update_actions.py:128-147 | exactly the management addresses of the ports not excluded |
| UpdateActions.GetEndpoints | networking_bambuk/common/update_actions.py:167-209 | one endpoint with every provider port's tunnel, and the special port if it is there |
| UpdateActions.GetRoutersForNet | networking_bambuk/common/update_actions.py:422-434 | the first router found is that of the first interface port |
| UpdateActions.GetRouterAndPortsFromNet | networking_bambuk/common/update_actions.py:395-420 | the router, its ports, and every port of the domain exactly once |
| UpdateActions.BaseGetRouterAndPortsFromNet | networking_bambuk/common/update_actions.py:212-248 | the inherited version, which wants the router enabled |
| UpdateActions.BaseReachesIff | networking_bambuk/common/update_actions.py:212-248 | the inherited version reaches no more, and the same networks exactly if there is no distributed router, or it is enabled, or all its ports are on that network |
| UpdateActions.BambukAgentClient.SendToAll | networking_bambuk/rpc/bambuk_rpc.py:48-60 | every VM of the set executes the command, no other does |
| UpdateActions.PortUpdate | networking_bambuk/common/update_actions.py:305-377 | what all stores hold after a port log, for a missing port, one without provider, a silent VM and one that answers |
| UpdateActions.SecurityGroupUpdate | networking_bambuk/common/update_actions.py:464-476 | what all stores hold after a group log |
| UpdateActions.RouterIfaceAttach | networking_bambuk/common/update_actions.py:541-574 | what all stores hold after an attach log |
| UpdateActions.RouterUpdate | networking_bambuk/common/update_actions.py:494-531 | an enabled router is handled as an attachment; a disabled one sends nothing, and raises exactly if one of its ports is on a subnet that another one is not on |
| UpdateActions.RouterIfaceDetach | networking_bambuk/common/update_actions.py:584-635 | what all stores hold after a detach log |
| ServerBatches.ServerBatchesConsistent | networking_bambuk/common/port_infos.py:159-297 | every batch the server applies or updates with gives equal locations equal values |
| ServerBatches.SnapshotsClosed | networking_bambuk/common/port_infos.py:159-208 | every switch and every host a batch refers to is in the batch |
| Views.ViewExact | networking_bambuk/common/update_actions.py:330-346 | an entry is in a port's view exactly if it describes, field by field, an object of Neutron that the port reaches |
| Views.AppliedStoreExact | networking_bambuk/common/update_actions.py:375-376 | the store of a VM that answered is, location by location, exactly that view |
| RouterLogs.AttachmentBatchExact | networking_bambuk/common/update_actions.py:554-574 | the batch of an attachment is exactly the entries that describe what the router joins, or empty without a compute port |
| RouterLogs.AttachmentExact | networking_bambuk/common/update_actions.py:541-574 | afterwards every VM on the router's networks holds the current record of every compute port on them, and of others what it held |
| RouterLogs.DetachmentExact | networking_bambuk/common/update_actions.py:584-635 | afterwards neither side holds a port of the other, and each side's own ports are unchanged |
| Effects.PortEffect | networking_bambuk/common/update_actions.py:305-377 | after a port log, on every VM and for every location: the answering VM holds exactly the view, every other VM the port reaches learns the port and its chassis, nothing else changes |
| Effects.GroupEffect | networking_bambuk/common/update_actions.py:464-476 | after a group log exactly the VMs of its ports hold the group, nothing else changes |
| Effects.AttachEffect | networking_bambuk/common/update_actions.py:541-574 | after an attach log every VM on the router holds everything the router joins, switches and router record included, if the router is distributed and enabled and a compute port is there; nothing else changes |
| Effects.DetachEffect | networking_bambuk/common/update_actions.py:584-635 | after a detach log of an enabled distributed router, one side holds no port or chassis of the other, and the detached side no switch of the others and not the router; nothing else changes |
| RouterLogs.AppliesAgree | networking_bambuk/agent/df/df_agent_db.py:61-76 | on what the server applies the two drivers cannot be told apart |
| Completeness.DetachTakesIff | networking_bambuk/common/update_actions.py:604-635 | a processed detachment takes from a VM what it knows of a port exactly if one of its two deletes goes to the VM and names the port or its host |
| Completeness.StepKeepsComplete | networking_bambuk/common/update_actions.py:305-635 | every change and every action keeps every due pair known |
| Completeness.Convergence | networking_bambuk/common/update_actions.py:305-377 | in every run of changes and their actions, the VM of each processed port holds the current record and chassis of each processed port it reaches, unless the two are in the ledgers `untold` or `struck` |
| Soundness.StepKeepsSound | networking_bambuk/common/update_actions.py:305-635 | every change and every action keeps every held port explained |
| Soundness.NothingLeftOver | networking_bambuk/common/update_actions.py:584-635 | in every run, a VM holds only ports it reaches, deleted ports, and ports it was separated from without a processed log having removed them, an ignored log included (the ledger `lost`) |
| Agreement.UntoldIsOwed | networking_bambuk/common/update_actions.py:541-574 | in every run, two joined ports not yet told of each other wait for a pending log of their router, or their router is disabled |
| Agreement.StruckOnRouter | networking_bambuk/common/update_actions.py:604-635 | a delete hits ports that reach each other only if the interface is back, and then both are on the router that will be pushed |
| Agreement.LedgersAwaitLogs | networking_bambuk/common/update_actions.py:541-635 | in every orderly run, what a VM was robbed of waits for a push or belongs to a disabled router, and what it holds too much is joined again or waits for a pending detachment |
| Agreement.QuietAgreement | networking_bambuk/common/update_actions.py:305-377 | after an orderly run with no log pending, a VM holds only ports it reaches (deleted ports aside), and of the provider ports exactly those it reaches, with current record and chassis, unless its network's router is disabled |
| Agreement.FixedConvergence | networking_bambuk/common/update_actions.py:305-377 | in every run in which no interface is added, every VM of a processed port knows every processed port it reaches, whatever the state of the router and whatever is pending; detachments are processed with the interface gone and a host's ports together |
| Groups.GroupConvergence | networking_bambuk/common/update_actions.py:464-476 | with one port per VM, once a group and a member port are processed in either order, the member's VM holds the current group |
| Deployment.ReceivedIsTheStep | networking_bambuk/rpc/bambuk_rpc.py:43-60 | a step changes each VM's store by exactly the commands that VM receives |
| Deployment.TinyAgentIsTheStore | networking_bambuk/agent/df/df_tiny_db.py:75-143 | end to end with retries, whatever the tables held before: the VM of a processed port answers every get_key exactly as its store in the cluster does |
| Deployment.BsdAgentIsTheStore | networking_bambuk/agent/df/df_bsd_db.py:90-160 | so does a BSD agent, in runs in which no delete after the last apply is cut short |
| Deployment.TinyAgentConverges | networking_bambuk/agent/df/df_tiny_db.py:75-143 | end to end with retries: get_key on a TinyDB agent returns the current records of every due port |
| Deployment.BsdAgentConverges | networking_bambuk/agent/df/df_bsd_db.py:90-160 | the same on BSD in every run and from every directory, deletes that are cut short included |
| Deployment.TinyAgentAgrees | networking_bambuk/agent/df/df_tiny_db.py:75-143 | after an orderly run with no log pending, get_key on a TinyDB agent finds only ports that are reached, deleted ones aside, and every provider port in service that is |
| Deployment.BsdAgentAgrees | networking_bambuk/agent/df/df_bsd_db.py:90-160 | the same on BSD, in runs in which no delete after the last apply is cut short |
| History.StepKeepsHonest | networking_bambuk/common/update_actions.py:305-635 | any single read or send of any action keeps every store honest |
| History.NothingFabricated | networking_bambuk/cmd/log_agent.py:31-44 | without the lock, in every interleaving of single steps, each port, chassis and group in a store is one Neutron held for that key |
| Atomic.PortUpdateIsUninterrupted | networking_bambuk/common/update_actions.py:305-377 | the single reads and sends of a port update, uninterrupted, do to the stores what the whole action does |
| Atomic.GroupUpdateIsUninterrupted | networking_bambuk/common/update_actions.py:464-476 | so do those of a group update |
| Atomic.AttachIsUninterrupted | networking_bambuk/common/update_actions.py:541-574 | so do those of an attachment |
| Atomic.DetachIsUninterrupted | networking_bambuk/common/update_actions.py:584-635 | so do those of a detachment |
| Limits.EmptyBatchIff | networking_bambuk/common/port_infos.py:240-297 | a batch is empty exactly without own port, compute port and group |
| Limits.AttachSilentIff | networking_bambuk/common/update_actions.py:566-574 | an attachment sends nothing exactly when its networks have no compute port |
| Limits.DetachmentForgetsIff | networking_bambuk/common/update_actions.py:594-596 | processing a detachment makes the two sides forget each other if and only if the router is enabled and distributed |
| Limits.DetachmentSeparatesIff | networking_bambuk/common/update_actions.py:604-635 | it takes from some VM a port that it reaches if and only if it acts at all, the interface is back, and there is a VM on one side and a compute port on the other |
| Limits.ReattachmentRepairs | networking_bambuk/common/update_actions.py:541-574 | an attachment processed after such a detachment leaves no damage, and every VM of the router knows every provider port of the router |
| Limits.DoubleDetachmentIsMissed | networking_bambuk/common/update_actions.py:604-635 | two networks detached before either log is processed keep each other's ports |
| Limits.SharedVmForgetsGroups | networking_bambuk/common/port_infos.py:191-197 | after a port update a VM holds a group exactly if that port is a member, whatever its other ports need |
| Limits.SharedHostFailsOnBsd | networking_bambuk/common/update_actions.py:617-635 | a delete batch with two chassis of one host fails on BSD, on every store |
| Example.QuietRunExists | networking_bambuk/common/update_actions.py:541-574 | the assumptions are met by a run that joins two networks: nothing is pending, and a VM knows a port of the other network |
| Example.IgnoredLogLeavesPort | networking_bambuk/common/update_actions.py:594-596 | a run with no log pending in which a VM holds a port that exists and that it cannot reach, because the detachment was processed while the router was disabled |
| Stranded.RemovalStrandsPort | networking_bambuk/common/update_actions.py:604-635 | a run, orderly but for one removal from a damaged network, after which no log is pending and a VM lacks a port of its own network |

## Left out

- UpdateActions.RouterUpdate: the subnet of a port is a parameter, since ports carry no addresses here; what a disabled router would send if `_get_endpoints` were called with its context argument (networking_bambuk/common/update_actions.py:527) is not modelled.
- Deployment.BsdAgentIsTheStore: assumes that no delete after the last apply is cut short on a key still present, because what such a delete skips stays in the store (`Drivers.BsdRefines`); `Limits.SharedHostFailsOnBsd` gives a kind of batch for which it always is. `Deployment.BsdAgentAgrees` assumes the same.
- Completeness.Convergence: pairs in the ledgers `untold` and `struck` are exempt, because the property is false of them (`Completeness.DetachTakesIff`, `Limits.DetachmentSeparatesIff`); `Agreement.UntoldIsOwed` and `Agreement.LedgersAwaitLogs` say when they are settled.
- Soundness.NothingLeftOver: pairs in the ledger `lost` are exempt, because the property is false of them (`Limits.DetachmentForgetsIff`, `Limits.DoubleDetachmentIsMissed`, `Example.IgnoredLogLeavesPort`); nothing removes deleted ports, because no action handles a port's deletion.
- Agreement.QuietAgreement: assumes an orderly run, because the property is false otherwise, as listed under the assumptions; security groups are the subject of `Groups.GroupConvergence`.
- Groups.GroupConvergence: one port per VM, because the property is false otherwise (`Limits.SharedVmForgetsGroups`).
- History.NothingFabricated: covers ports, chassis and groups; a switch or a router record is put together from several reads and may mix moments.
- ZeroMq.BulkLeavesFailures: the bound of 600 threads per pool only delays a start and is not modelled.
- Bulk sends over AsyncTCP: the client does not pass the bulk's id to `get_sender` (networking_bambuk/rpc/bambuk_rpc.py:51-58), so their sockets land in a map nobody loops over; the TCP results are about single sends.
- The objects behind `_tables`: a table handle is modelled by the contents it holds, so two names for one handle are not captured.
- TinyDB, Berkeley DB, asyncore, ZeroMQ and eventlet internals: represented by a document list, put/get/delete with a missing-key failure, byte streams, and a socket that strictly alternates.
- Neutron, its database and the log queue: represented by the changes they make; queries return what the state holds. A port's host binding is taken to be present, as the port-binding extension supplies it.
- Record fields that are only copied, address formatting of router ports, subnets, logging, timing, agent registration and tunnel notifications: they carry no decision of the protocol.
- The JSON decoder: it is taken to undo encoding, which is possible by `JsonReading.PrintedInjective`.
- `AgentDbDriver.state`, process start-up, shell tools, the provider-port service plugin and its extension: no part of the replicated store.
