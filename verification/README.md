# PureWRT: a verified model

A Dafny model of the parts of PureWRT that decide where traffic goes, and proofs
of what they promise. `dafny verify dfyconfig.toml` checks all of it.

PureWRT compiles a configuration of *sections* into an nftables chain, a mihomo
outbound graph and zapret queue rules, and carries tools that predict what the
compiled router will do. The model follows the source file by file:

- `Cidr`, `AddressBytes`, `Ipdb` (with `Powers`): IP ranges to CIDR blocks and
  AS lookups. One greedy walk over numbers is proved exact and minimal; the
  uint32 loop and the byte-array loop are both proved to emit it.
- `Ports` (with `Text`): destination-port lists, from their text to an aliased
  in-place merge, intersection and back to text.
- `Config`, `Zapret`, `Desync`, `Firewall`, `Policy`, `Checker`, `Routing`, `Tracing` (with
  `Lists`, `StableSort`): the firewall compiler and its independent checker. A rule is a
  selector, a protocol with a port list, and a verdict; the first match decides.
  Each writer is proved against what its stretch of the chain decides for every
  packet, and `Policy` says what the whole chain means, layer by layer, without the
  writers; `Desync` follows the packets of a connection through the queue rules.
  `Routing` proves that compiler and checker agree, and that the
  router's own packets come back to the section that marked them; `Tracing`
  proves that the two predictors agree with each other.
- `OperationLock`: the global lock with request coalescing, as a step relation
  over any number of processes.
- `ZapretCompiler`, `Marks` (with `Bits`): application lists into zapret
  instances, and the owners of the packet mark.
- `MeshSync`, `Mihomo`: the mesh peer table over any run of rounds, and the
  outbound graph.
- `GeoWire`, `RuleIndex`, `Uci`: the GeoSite/GeoIP reader against a Protocol
  Buffers encoder, the lazy provider index against an eager scan, and the UCI
  text round trip.

What the proofs assume of a configuration is stated in each theorem. The
assumptions that no validator of the source checks are these, each with a lemma
that shows what happens without it:

- the routing mark is apart from the fields of other owners
  (`Marks.SpillingMarkInterferes`, exact by `Marks.UndisturbedExactly`); to read
  back it must also fit its mask, and the packet must arrive with no other bit
  in the routing field (`Marks.ForeignBitMisreads`, exact by
  `Marks.RoutingReadsBackExactly`);
- no proxy group is named like an outbound and, while there are friends, no
  `_local` pool is named like an outbound or a proxy group
  (`Mihomo.LocalPoolShadowsTunnel`); `Mihomo.GroupNamesDistinct` proves this
  condition exact for names, `Mihomo.FriendsKeptOutExactly` a weaker one for
  friend traffic, and `Mihomo.GroupInItself` shows a group that leads to itself;
- no process exits inside `fn` (`OperationLock.EarlyExitLosesARequest`;
  `OperationLock.ServedExactly` says when a waiting caller is safe), and all
  coalesced callers bring the same `fn` (`OperationLock.OtherJobServes`, exact by
  `OperationLock.OwnJobExactly`);
- the router knows its own mesh id before its first round and does not hold it
  (`MeshSync.LateIdentityMeetsItself`, exact by `MeshSync.NeverItselfExactly`),
  and a peer lifetime is at most 106751 days (`MeshSync.HugeLifetimeWraps`, exact
  by `MeshSync.LifetimesThatHold`); a round is not repeated when a lifetime
  ends with the midnight of the first (`MeshSync.MidnightRoundRepeats`, exact by
  `MeshSync.RepeatingIsQuiet`);
- an IPv6 address that a reject section lists is not traced while IPv6 is not
  routed (`Tracing.UnroutedRejectDiverges`, exact by
  `Tracing.AddressesAgreeExactly`);
- values are clean to come back from the UCI text: the reader does not undo the
  escaping of a single quote (exact by `Uci.ComesBackExactly` and
  `Uci.OptionComesBackExactly`);
- a provider index is asked once, or no later list outranks an earlier answer
  (`RuleIndex.HistoryMatters`, exact by `RuleIndex.DepartsExactly`);
- port lists can be read (`Routing.UnreadablePortsDiverge`); the section
  validator does check this one.

The agreement of chain and checker also assumes that zapret protocols are spelled
exactly `tcp` or `udp`: the generator folds case and spaces, the checker does not
(`Routing.SpellingDecides`, exact for a section by
`Routing.SectionForetoldExactly`).

Where code and comments disagree the model follows the code: the holder of the
operation lock is said to run `fn` again on a newer caller's behalf
(cmd/purewrt/main.go:1631-1637), but it runs its own, and eleven commands with
different closures share the flag (cmd/purewrt/main.go:308, 418, 485, 648 and
1042-1139), so a returned caller's own work may not have been done; `Lookup` answers
for IPv6 although its comment says otherwise (internal/ipdb/db.go:233-235), and
a peer is dropped at any instant after midnight of its last day, not only after
more than the configured number of days (internal/manager/mesh_sync.go:186-192).

## Model

| member | source | states |
|---|---|---|
| Cidr.GreedyExact | internal/ipdb/db.go:331-354 | The blocks of a range are aligned, ascending, pairwise disjoint and cover exactly start..end |
| Cidr.GreedyMinimal | internal/ipdb/db.go:331-354 | No set of CIDR blocks with the same addresses has fewer members |
| Cidr.GreedyBounded | internal/ipdb/db.go:331-354 | A range of w-bit addresses never needs more than 2w-2 blocks |
| Cidr.BoundIsMet | internal/ipdb/db.go:331-354 | 1 .. 2^w-2 needs exactly 2w-2, so the bound cannot be lowered |
| Cidr.Laminar | internal/ipdb/db.go:331-354 | Two CIDR blocks that meet are nested |
| AddressBytes.Compare | internal/ipdb/db.go:275-281 | Byte-wise comparison orders addresses as numbers |
| AddressBytes.Aligned6 | internal/ipdb/db.go:405-412 | The bit loop decides whether the number is a multiple of the block size |
| AddressBytes.LastInBlock6 | internal/ipdb/db.go:415-421 | Setting the host bits adds the block size minus one |
| AddressBytes.Inc6 | internal/ipdb/db.go:424-432 | The byte carry loop adds one, and overflows exactly on all-ones |
| Ipdb.ShortestPlen4 | internal/ipdb/db.go:334-345 | The IPv4 inner loop finds the widest block that is aligned and fits |
| Ipdb.ShortestPlen6 | internal/ipdb/db.go:379-389 | The byte-array inner loop finds the same block |
| Ipdb.RangeToPrefixes4 | internal/ipdb/db.go:331-354 | The uint32/uint64 loop emits exactly the greedy blocks, at most 62, also when the range ends at all-ones |
| Ipdb.RangeToPrefixes6 | internal/ipdb/db.go:375-401 | The byte-array loop emits exactly the greedy blocks, at most 254 |
| Ipdb.PrefixesForASN | internal/ipdb/db.go:315-370 | The report lists the blocks of every range of the AS, IPv4 then IPv6, with first non-empty name and country and the range count |
| Ipdb.Search | internal/ipdb/db.go:245-247 | sort.Search finds the first index of a monotone predicate |
| Ipdb.Lookup | internal/ipdb/db.go:236-262 | The answer is that of the last range starting at or below the address; nothing at all with an empty IPv4 table |
| Ipdb.Lookup6 | internal/ipdb/db.go:267-286 | The same over the IPv6 table |
| Ipdb.SearchIsScan | internal/ipdb/db.go:243-254 | For sorted non-empty ranges the binary search equals a linear scan everywhere exactly when the ranges are disjoint |
| Ipdb.AnswerIsOwnership | internal/ipdb/db.go:243-261 | With disjoint ranges the answer is an AS exactly when a range of that AS holds the address |
| Ipdb.LookupMatchesPrefixes | internal/ipdb/db.go:236-286 | Lookup names an AS exactly when the address lies in one of the prefixes reported for it, both families, provided the IPv4 table is not empty |
| Ipdb.EntryIsTold | internal/ipdb/db.go:236-262 | With disjoint ranges the answer bears AS, country and organisation of the range that holds the address |
| Ipdb.EntryIsTold6 | internal/ipdb/db.go:267-286 | The same over the IPv6 table |
| Ipdb.MappedIsIPv4 | internal/ipdb/db.go:236-247 | An IPv4-mapped IPv6 address is looked up as its last four octets |
| Ipdb.FirstsAreGiven | internal/ipdb/db.go:315-330 | The report's name and country are those of the first range that has one |
| Ports.ParseTokens | internal/config/section_match.go:17-34 | Every token reads as a range within 1..65535 or the whole list is refused |
| Ports.TokenMeans | internal/config/section_match.go:18-33 | A token reads as a range exactly when, trimmed, it is a number or two with one dash between them, ascending within 1..65535 |
| Ports.ListMeans | internal/config/section_match.go:12-34 | A list is valid exactly when it is blank or all its pieces denote ranges, and names exactly the ports of those |
| Ports.SortSlice | internal/config/section_match.go:35 | The sort promises order by first port and a rearrangement, not stability |
| Ports.MergeInPlace | internal/config/section_match.go:36-46 | Merging through the slice's own backing array gives what merging into a copy would |
| Ports.ParsePortRanges | internal/config/section_match.go:12-47 | Reads, sorts and merges to the one normal form whatever order the sort gives ties |
| Ports.MergeIgnoresTies | internal/config/section_match.go:35-46 | Any two sorted rearrangements merge to the same list, with the ports unchanged |
| Ports.NormalFormUnique | internal/config/section_match.go:36-46 | A port set has one list with gaps between its ranges |
| Ports.FormatPortRanges | internal/config/section_match.go:49-59 | Prints the ranges |
| Ports.ExampleText | internal/config/section_match.go:49-59 | A port and a range are written as 8, 80-90 and read back from that text |
| Ports.ParseUndoesPrint | internal/config/section_match.go:49-59 | Parsing undoes printing for every list in normal form |
| Ports.NormalizeDestinationPorts | internal/config/section_match.go:62-68 | The normal text, or the error of the first bad token |
| Ports.NormalizationIsCanonical | internal/config/section_match.go:61-68 | Two valid lists print identically exactly when they name the same ports |
| Ports.NormalizationKeepsPorts | internal/config/section_match.go:61-68 | Normalising keeps the ports and the restriction, and twice is once |
| Ports.IntersectDestinationPorts | internal/config/section_match.go:99-124 | Refuses bad operands and empty overlaps, treats a blank operand as unrestricted |
| Ports.IntersectionMeets | internal/config/section_match.go:97-124 | The result admits exactly the common ports and is already in normal form without a merge |
| Ports.PortProbe | internal/checker/routing_trace.go:61-65 | Intersecting with one port tells whether the list admits it |
| OperationLock.MutualExclusion | cmd/purewrt/main.go:1590-1614 | At most one process is inside the lock, for any number of processes |
| OperationLock.EveryReturnIsServed | cmd/purewrt/main.go:1643-1660 | After a coalesced caller wrote the flag, some caller's fn ran from start to end before it returned, unless a holder exited with the flag removed and fn unfinished; a caller that ran at all ran its own fn |
| OperationLock.OtherJobServes | cmd/purewrt/main.go:1626-1642 | For any two different jobs, a run without an exit in which a caller returns although its own job never ran |
| OperationLock.OwnJobExactly | cmd/purewrt/main.go:1637-1642 | Over all runs without an exit in which the callers bring jobs of a set, every return had its own job run after it asked, exactly when the set has at most one job |
| OperationLock.EarlyExitLosesARequest | cmd/purewrt/main.go:1597-1603 | A concrete run in which such an exit lets a waiting caller return unserved |
| OperationLock.ServedExactly | cmd/purewrt/main.go:1643-1660 | In every reachable state, a waiting caller is served in every continuation without an exit in which it returns, exactly when the flag is set, a run has served it or one is under way |
| OperationLock.CapHolds | cmd/purewrt/main.go:1651-1659 | No process completes fn more than ten times |
| OperationLock.QuietMeansClean | cmd/purewrt/main.go:1643-1660 | When all processes are done and none was killed, no request is left in the flag |
| OperationLock.SomeoneCanMove | cmd/purewrt/main.go:1590-1660 | While a process is not done, some process can move: no deadlock |
| StableSort.SliceStable | internal/generator/nftables.go:26 | A stable sort by key |
| StableSort.FilterCommutesWithSort | internal/checker/iproute.go:64-70 | Filtering before or after a stable sort is the same |
| StableSort.StableSortUnique | internal/generator/nftables.go:18-28 | Ordered, with the elements of each key in input order, has one answer |
| Zapret.Union | internal/generator/nftables.go:724-736 | The claim text grows to a list that admits the old ports and the new |
| Zapret.ClaimTable.Add | internal/generator/nftables.go:712-737 | Adding a list to a protocol's claim adds exactly its ports; a blank list claims them all |
| Zapret.ZapretSectionPortClaims | internal/generator/nftables.go:709-752 | A section claims a (protocol, port) exactly when one of its enabled strategies, narrowed to the section, covers it |
| Zapret.WriteZapretPostroutingRules | internal/generator/nftables.go:603-638 | Some queue rule takes (set, protocol, port, device) exactly when a strategy covers the pair and its profile takes the device; every rule carries the selector, windows, profile mark, devices and narrowed ports of one strategy of the section, and each strategy has a rule for every set, protocol and window it wants |
| Zapret.WritePostrouting | internal/generator/nftables.go:286-293 | Over all enabled sections, behind the test that a profile and a strategy exist: a flow is queued exactly when a zapret section queues it, every rule is one of some strategy of a zapret section, with that strategy's selector, mark, devices and window, and no strategy lacks one |
| Zapret.ClaimedIsQueued | internal/generator/section_match.go:33-50 | A queued flow is always claimed; with every profile resolving, claimed and queued are the same |
| Zapret.ClaimsAndQueues | internal/generator/nftables.go:669-752 | The two writers agree on every set of every routed family |
| Zapret.JoinedNames | internal/generator/nftables.go:724-736 | Joined tokens are a valid list that admits what the tokens name |
| Desync.WriteQueueChain | internal/generator/nftables.go:286-293 | Every packet is handed to the first strategy that takes it, by section priority and then by the section's list, and to none exactly when none takes it: in its sets, ports, device and first packets or close, on a connection that is free or its own |
| Desync.NamedTakes | internal/generator/nftables.go:625-638 | The rules of one strategy take a packet exactly when the strategy does |
| Desync.StaysWithOne | internal/generator/nftables.go:625-638 | Over any run of packets of a compiled configuration: once a strategy took a packet of a connection, each later packet is taken by that strategy exactly when the strategy wants it, and by no other |
| Firewall.SectionsByPriority | internal/generator/nftables.go:19-28 | The enabled sections, stably by priority |
| Firewall.WriteExclusionRules | internal/generator/nftables.go:472-499 | Excluded sources and devices leave the chain |
| Firewall.WriteSectionDeviceRules | internal/generator/nftables.go:510-542 | What a device assignment does, for every packet |
| Firewall.WriteSectionSourceRules | internal/generator/nftables.go:544-587 | What a source assignment does, for every packet |
| Firewall.WriteZapretClaimReturns | internal/generator/nftables.go:675-695 | Returns exactly the claimed packets of the section's sets |
| Firewall.WriteSectionRules | internal/generator/nftables.go:191-254 | What a section's destination rules do, for every packet: QUIC refusal first, then the proxied protocols of both sets |
| Firewall.NFTablesPrerouting | internal/generator/nftables.go:133-281 | For every packet the first matching rule of the written chain is the verdict by guards, bypass, clients, global sets, sections in priority order, tail; what that order means is `Policy.ObedientPrerouting` |
| Firewall.WriteOutputChain | internal/generator/nftables.go:385-470 | The same for the router's own packets |
| Policy.ObedientPrerouting | internal/generator/nftables.go:133-281 | For every packet, in terms of the configuration alone: guards and bypasses let it out, else the least-priority section that names its device and has a rule for it decides, else the one that lists its source, else the reject and direct sets, else the least-priority section whose set holds the destination, else the tail |
| Policy.PreroutingObeys | internal/generator/nftables.go:133-281 | The order of the chain's stretches is that policy |
| Policy.DeviceDecides | internal/generator/nftables.go:510-542 | Past guards and bypasses, the verdict for a packet of an assigned device is that of the first section that names the device and acts: refuse, pass, or its own TPROXY port |
| Policy.DeviceBeatsDestination | internal/generator/nftables.go:154-170 | No change of the destination's sets outside the bypass sets then changes the verdict |
| Policy.DeviceBeatsSource | internal/generator/nftables.go:154-170 | Nor does a change of the source networks outside the bypass sources: a MAC beats a network |
| Policy.SourceDecides | internal/generator/nftables.go:544-587 | When no device rule acts, the first section whose networks hold the source and that acts decides |
| Policy.SourceBeatsDestination | internal/generator/nftables.go:154-170 | Whatever the destination is listed in |
| Policy.LeaderDecides | internal/generator/nftables.go:19-28 | In chain order the first hit is that of the enabled section of least priority, the earlier in the file among equals |
| Policy.DesyncedIsCovered | internal/generator/section_match.go:33-50 | A zapret section covers a pair exactly when a strategy of it names the protocol and both port lists can be read and admit the port |
| Policy.ObedientOutput | internal/generator/nftables.go:385-470 | The same for the router's own packets; exempt traffic is never marked |
| Checker.SectionFlowScope | internal/checker/routing_trace.go:48-115 | The nested loops decide the scope of a section for a partial flow |
| Checker.ClassifySections | internal/checker/iproute.go:64-93 | Section by section in priority order until one answers, with the steps taken |
| Checker.ClassifyIPFlow | internal/checker/iproute.go:35-94 | The route for an address by the sets it is in |
| Checker.TraceDestination | internal/checker/routing_trace.go:194-235 | The decision loop over the sections with matching providers |
| Checker.ScopeSettles | internal/checker/routing_trace.go:48-115 | A section's definite status survives every refinement of the flow |
| Checker.SkippedExactly | internal/checker/routing_trace.go:48-115 | With readable ports and protocols spelled tcp or udp, a partial flow skips a section exactly when no full flow that it may become reaches the section, but for a section for UDP that proxies TCP alone, which stays undecided in vain without a protocol |
| Checker.ProxyDecides | internal/checker/routing_trace.go:66-75 | A proxied section never waits for the device, nor for the port unless it restricts ports or refuses QUIC |
| Checker.RefiningKeepsTheAnswer | internal/checker/routing_trace.go:46-47 | A trace's definite action and section survive every refinement of the flow |
| Checker.FullFlowIsNeverConditional | internal/checker/routing_trace.go:208-233 | A full flow is conditional exactly when there are warnings |
| Routing.ClaimAgrees | internal/checker/routing_trace.go:76-109 | What the checker calls possible is what the section claims |
| Routing.MatchIsQueued | internal/checker/routing_trace.go:103-114 | For a full flow: match is a queue rule for that device, direct is a claim without one, skip is no claim |
| Routing.SectionAgrees | internal/checker/routing_trace.go:48-115 | A section's rules do what its predicted scope says |
| Routing.UnreadablePortsDiverge | internal/generator/section_match.go:9 | With ports that cannot be read the chain proxies what the checker skips |
| Routing.SpellingDecides | internal/checker/routing_trace.go:82-85 | A covered flow is possible to the checker exactly when its protocol is spelled exactly, while the generator folds case and spaces |
| Routing.SectionForetoldExactly | internal/checker/routing_trace.go:76-114 | Whatever the spelling, a section's rules do what its scope predicts of the flow exactly when no zapret strategy covers it or one that does spells the protocol exactly |
| Routing.SameOrder | internal/generator/nftables.go:19-28 | Generator (filter, then sort) and checker (sort, then filter) take the sections in the same order |
| Routing.ChainIsForetold | internal/checker/iproute.go:24-94 | For every fully described flow that no guard or client rule takes, the first matching prerouting rule is what ClassifyIPFlow foretells, section included |
| Routing.CompileAndClassify | internal/generator/nftables.go:133-281 | The same of the rules written and the route returned |
| Routing.OutputComesBack | internal/generator/nftables.go:125-133 | The loop-breakers let a re-injected packet through, and it meets the verdict the output chain foretold |
| Routing.MarkingSectionProxies | internal/generator/nftables.go:360-384 | Away from bypass, direct and reject sets, the section that marks a router packet is the one that proxies it or refuses its QUIC on re-entry |
| Tracing.TraceIsFirst | internal/checker/routing_trace.go:194-233 | A trace is settled, definitely or not, by the first section that is in scope |
| Tracing.SameFirst | internal/checker/routing_trace.go:125-141 | Outside the global sets the two-level order and the priority order find the same first section |
| Tracing.TraceAgreesWithClassifier | internal/checker/iproute.go:24-94 | For every flow, full or partial, and an address or a name with an address of the family: when the sets hold what the providers list, tracing and classifying give the same action exactly when no bypass set holds the address and the family is routed or the trace leads direct; a definite answer outside the global sets names the same section |
| Tracing.AddressesAgreeExactly | internal/checker/routing_trace.go:201-205 | For an address they agree exactly when no bypass set holds it and the family is routed or no enabled reject section lists it |
| Tracing.UnroutedRejectDiverges | internal/generator/nftables.go:99-103 | Without IPv6 an address that a reject section lists is traced to a refusal and classified as in no set |
| Tracing.TraceSteps | internal/checker/routing_trace.go:194-235 | A trace has one step for each matching section in order: skipped exactly when out of scope, matched only by the section that settles the trace, shadowed only behind it |
| Tracing.ScanSteps | internal/checker/iproute.go:64-93 | The classifier has one step for each section whose sets hold the address, up to the one it chooses, which alone is not skipped |
| ZapretCompiler.InstanceNamesDiffer | internal/config/zapret_applications.go:59 | An instance name gives back its application and number |
| ZapretCompiler.Compiler.CompileApplication | internal/config/zapret_applications.go:37-63 | Succeeds exactly on acceptable assignments within the limit; groups the devices of one application by candidate |
| ZapretCompiler.Compiler.CompileApplications | internal/config/zapret_applications.go:20-64 | Succeeds exactly when names, assignments and the 255 limit are met |
| ZapretCompiler.Compiler.CompileSections | internal/config/zapret_applications.go:65-78 | Succeeds exactly when every zapret section's applications exist and are enabled as demanded, and sections get the instances of their applications in listing order, or the error of the first missing one |
| ZapretCompiler.Compiler.CompileZapretApplications | internal/config/zapret_applications.go:20-79 | Succeeds exactly on compilable configurations; every instance has its candidate's library values, and every section's strategies are the instances of each enabled application it listed, in listing order and within an application in instance order |
| ZapretCompiler.SelectorsAreDistinct | internal/config/zapret_applications.go:54-62 | Selectors are non-zero, inside the selector byte and pairwise distinct |
| ZapretCompiler.SelectorsAreWrites | internal/config/zapret_applications.go:62 | Every compiled selector is a selector write of the rules, and a packet and its connection marked with it carry it and no other strategy's selector, whatever the other owners write afterwards that spares the selector byte |
| ZapretCompiler.InstanceNamesAreDistinct | internal/config/zapret_applications.go:59-60 | No two instances share a name, across applications |
| ZapretCompiler.AssignedOnce | internal/config/zapret_applications.go:41-62 | Each assigned device is on exactly one instance of its application, and that instance has the assigned candidate |
| ZapretCompiler.PartnersFound | internal/config/model.go:753-769 | Looking up a compiled strategy finds it with its selector, and its profile name finds its own partner with its own devices |
| ZapretCompiler.SectionHasExactly | internal/config/zapret_applications.go:65-78 | After compiling, an instance is among a section's strategies exactly when the application that owns it is enabled and the section listed it before, in its own list or, having none, among its old strategies |
| ZapretCompiler.DevicesServed | internal/config/zapret_applications.go:41-77 | Each assigned device of each listed application is on the profile of a strategy of that section that runs the assigned candidate: its protocols, ports and packet counts |
| ZapretCompiler.QueueCompiled | internal/generator/nftables.go:603-638 | In the queue rules of a compiled configuration, a rule that takes a flow in a window carries instance k's selector exactly when instance k takes the flow and watches the window |
| Marks.ValidateZapretProfileMarks | internal/manager/manager.go:1441-1463 | Accepts exactly the layouts whose profile marks, selector byte and routing mask are apart |
| Marks.ResolveProxyWANs | internal/manager/proxy_wan.go:85-125 | Accepts exactly distinct WAN marks whose masks are apart from the routing mask and the profile marks |
| Marks.ForeignWrite | internal/generator/nftables.go:928-932 | A write of another owner leaves a field alone, the routing mark if it is apart from the field |
| Marks.NonInterference | internal/generator/nftables.go:295-310 | After any sequence of writes every field reads as if the other owners had written nothing, when the routing mark is apart from the other fields |
| Marks.UndisturbedExactly | internal/generator/nftables.go:133 | Of an accepted layout that holds for all runs, owners and fields exactly when the routing mark is apart from every other owner's field |
| Marks.LastWriteReadsBack | internal/manager/ooni_run.go:304-316 | What an owner wrote, the WAN mark of the OONI output chain included, reads back after any further writes of the others that spare its field; a routing mark exactly when it fits its mask and the field held nothing else to begin with |
| Marks.ConnHoldsLastSelect | internal/generator/nftables.go:928-932 | Over any run the connection mark changes in the selector byte alone, and there it holds the selector of the last write that sets it |
| Marks.SelectorTellsStrategy | internal/generator/nftables.go:295-297 | After a selector write and any writes of other owners that spare the selector byte, packet and connection mark show exactly that selector, so the reply rules match one strategy |
| Marks.SelectorsFit | internal/config/zapret_applications.go:62 | A byte shifted by sixteen lies in the selector byte and is that multiple of 65536 |
| Marks.RoutingReadsBackExactly | internal/generator/nftables.go:133 | The routing mark reads back from any packet exactly when it fits its mask, which no validator checks, and the field held no bit outside it |
| Marks.SpillingMarkInterferes | internal/manager/manager.go:1152-1157 | An accepted layout whose routing mark changes the selector byte |
| Marks.ForeignBitMisreads | internal/manager/manager.go:1152-1157 | An accepted layout and a packet with another bit in the routing field, from which a fitting mark does not read back |
| MeshSync.Router.MeshSync | internal/manager/mesh_sync.go:108-177 | One round leaves the table and the report that the overlay and the probes determine |
| MeshSync.MeshGCPeers | internal/manager/mesh_sync.go:193-218 | Aging over the slice's own backing array; reports a change exactly when there is one |
| MeshSync.IdentitiesHold | internal/manager/mesh_sync.go:114-162 | Over any run ids stay distinct, never the router's own, which it keeps |
| MeshSync.LateIdentityMeetsItself | internal/manager/mesh_sync.go:108-113 | Whatever its table holds, a router without an id can by two rounds learn its id and hold itself as a peer |
| MeshSync.NeverItselfExactly | internal/manager/mesh_sync.go:108-162 | Over every run the router never holds its own id, exactly when it knows its id and does not hold it to begin with |
| MeshSync.AbsentRun | internal/manager/mesh_sync.go:198-216 | Through a run of absence a peer stays untouched until the first round past its age, and is gone from then on |
| MeshSync.ExpiryIsMidnight | internal/manager/mesh_sync.go:207-212 | Expiry is any instant after midnight of stamp day plus lifetime |
| MeshSync.HugeLifetimeWraps | internal/manager/mesh_sync.go:208 | For every lifetime above 106751 days and every stamped peer there is an instant since the stamp at which the peer is dropped or kept wrongly |
| MeshSync.LifetimesThatHold | internal/manager/mesh_sync.go:207-212 | Every stamped peer expires past the midnight that ends its lifetime, at every instant, exactly when the lifetime is at most 106751 days |
| MeshSync.DroppedAtOnce | internal/manager/mesh_sync.go:208 | A lifetime of 106752 days drops a peer the moment it is absent |
| MeshSync.PeerLifetime | internal/manager/mesh_sync.go:186-218 | A peer present in a round and absent after it is still there exactly while rounds come no later than that midnight |
| MeshSync.RepeatingIsQuiet | internal/manager/mesh_sync.go:147-216 | For every lifetime: repeating a round on the same day reports nothing exactly when each id was heard with one story and no absent peer has expired by then; the table then stays |
| MeshSync.LapseIsMidnight | internal/manager/mesh_sync.go:207-212 | Later that day an absent peer lapses exactly when the midnight that ends its lifetime is the instant of the first round |
| MeshSync.MidnightRoundRepeats | internal/manager/mesh_sync.go:207-212 | A round at such a midnight keeps a peer that its repetition drops |
| MeshSync.UnchangedIsUnsaved | internal/manager/mesh_sync.go:172-177 | A round that reports no change leaves the table as it was |
| MeshSync.RoundRecords | internal/manager/mesh_sync.go:130-162 | After a round every router that answered with one story is in the table as it described itself, stamped that day |
| MeshSync.RoundKeepsSwitch | internal/manager/mesh_sync.go:149-162 | A peer first heard of is enabled; one already held keeps its switch |
| MeshSync.SwitchSurvives | internal/manager/mesh_sync.go:149-162 | Over any run that holds the peer throughout its switch stays as it was |
| MeshSync.OnlyWellFormed | internal/manager/mesh_sync.go:28-30 | No run brings in an id that is not purewrt- and 24 lower-case hexadecimal digits |
| MeshSync.ReportBalances | internal/manager/mesh_sync.go:127-166 | The peers after a round are those before, the reported additions and less the dropped |
| Mihomo.ExpandProviders | internal/generator/mihomo.go:70-91 | The enabled pools, one for each WAN when WANs are selected |
| Mihomo.VariantsDistinct | internal/generator/mihomo.go:82 | Names of pools for each WAN are pairwise distinct whatever the provider and WAN names |
| Mihomo.ReferencedVPNs | internal/generator/mihomo.go:405-426 | The eligible tunnels of DNS and the enabled sections, each once |
| Mihomo.MeshFriends | internal/generator/mesh.go:31-66 | The consumable friends, by proxy name |
| Mihomo.FriendsDistinct | internal/generator/mesh.go:56-60 | One proxy for each friend |
| Mihomo.RenderMihomoBase | internal/generator/mihomo.go:276-316 | The groups and rules in order |
| Mihomo.SectionTarget | internal/generator/mihomo.go:300-305 | Traffic of a proxied section's own listener, the first of that name, goes to that section's group |
| Mihomo.DnsHostsFirst | internal/generator/mihomo.go:300-311 | Whatever the listener, the DNS hosts go to DNSProxy |
| Mihomo.OtherTargets | internal/generator/mihomo.go:300-316 | Any other listener: the probe's to NetCheckProbe when a section is proxied, friends' to MeshExit when the exit is viable, the rest to Common exactly when a proxied section has that group, else DIRECT |
| Mihomo.SectionGroupReaches | internal/generator/mihomo.go:276-292 | A proxied section's group is there, behind its local pool when there are friends |
| Mihomo.SectionOffers | internal/generator/mihomo.go:276-292 | Under that name the group offers exactly the existing pools and the section's own eligible tunnels; with friends, its local pool does, and the group leads to it and the friends alone |
| Mihomo.FixedOffers | internal/generator/mihomo.go:276-298 | The same exact contents for the DNS, probe, friends' and mesh exit groups |
| Mihomo.ExitExactly | internal/generator/mesh.go:99-121 | Friend traffic goes to MeshExit exactly when the exit is active, enabled, keyed and has a pool or tunnel of the router's own to leave by |
| Mihomo.ReferencesResolve | internal/generator/mihomo.go:276-316 | Every member is a group, an outbound or DIRECT, and every pool used exists |
| Mihomo.RulesResolve | internal/generator/mihomo.go:300-316 | So does every rule's target |
| Mihomo.MembersRankLower | internal/generator/mihomo.go:276-316 | When no section's group or local pool has an outbound's name, members rank below their group, so the group graph is acyclic |
| Mihomo.GroupInItself | internal/generator/mihomo.go:276-292 | A group or local pool named like a tunnel of its own section is its own member |
| Mihomo.GroupNamesDistinct | internal/manager/manager.go:1197-1213 | In a validated configuration group names are pairwise distinct and no outbound has one, exactly when no section's group has an outbound's name and, with friends, no local pool has an outbound's or a section group's name; no group is called DIRECT |
| Mihomo.MeshInTarget | internal/generator/mihomo.go:300-311 | Friend traffic goes to MeshExit, or to DNSProxy for the DNS hosts |
| Mihomo.FriendsNeverPassThrough | internal/generator/mesh.go:99-121 | When with friends no section's group has a tunnel's name, every path from the mesh listener stays inside the router's own tunnels |
| Mihomo.FriendsKeptOutExactly | internal/generator/mesh.go:99-121 | No path from the mesh listener ends with a friend or DIRECT exactly under that condition |
| Mihomo.LocalPoolShadowsTunnel | internal/generator/mihomo.go:279-285 | A group called vpn takes the name of a tunnel called local: why names must stay apart |
| GeoWire.ReadVarint | internal/geodb/v2dat.go:66-84 | Reads up to ten groups and 64 bits, in bounds, or says that there is no end within ten bytes |
| GeoWire.OrIsSum | internal/geodb/v2dat.go:75 | The group or-ed in on 64 bits shares no bit with those already there, so the wrapped sum is the same |
| GeoWire.VarintReadsBack | internal/geodb/v2dat.go:66-84 | An encoded number is read back whatever follows it |
| GeoWire.EndInBounds | internal/geodb/v2dat.go:94-97 | With 64-bit wrapping the signed end test is the unsigned length test |
| GeoWire.ReadBytesField | internal/geodb/v2dat.go:89-99 | Succeeds exactly when the length fits what is left, and advances |
| GeoWire.SkipField | internal/geodb/v2dat.go:104-132 | Fixed-width bodies are skipped when they fit, other wire types are refused |
| GeoWire.GroupIsRefused | internal/geodb/v2dat.go:104-132 | The start or end of a group is a tag without a reader |
| GeoWire.ReadRecord | internal/geodb/v2dat.go:140-165 | One tag and body: advances within bounds, and an encoded record is read as what it is |
| GeoWire.ParseDomain | internal/geodb/v2dat.go:305-354 | The last type and the last value decide |
| GeoWire.DomainFromMeans | internal/geodb/v2dat.go:340-352 | A host matches the rule kept for a domain exactly when it matches the domain in the format's sense: type 0 contained, 2 at a dot boundary, 3 equal; exactly the non-empty domains of other types are skipped |
| GeoWire.EntryName | internal/geodb/v2dat.go:170-192 | The first name field names the entry |
| GeoWire.SiteEntry | internal/geodb/v2dat.go:259-290 | The kept rules in order and the exact skip count |
| GeoWire.ExtractGeoSiteRules | internal/geodb/v2dat.go:240-300 | From any well-formed list: the rules of every entry of that name in file order, the skip count, or not found; malformed when a tag without a reader follows such a list |
| GeoWire.ParseCIDR | internal/geodb/v2dat.go:419-475 | The last address and the last prefix decide |
| GeoWire.ExtractGeoIPRules | internal/geodb/v2dat.go:360-415 | From any well-formed list: the networks of that country in order; refused exactly for an address of another length; malformed when a tag without a reader follows such a list |
| GeoWire.RecordsIgnoreUnknown | internal/geodb/v2dat.go:329-333 | Unknown fields in a domain or a network change nothing |
| GeoWire.EntriesIgnoreUnknown | internal/geodb/v2dat.go:285-288 | Nor in an entry |
| GeoWire.ListsIgnoreUnknown | internal/geodb/v2dat.go:158-162 | Nor in a list |
| GeoWire.AnswersIgnoreUnknown | internal/geodb/v2dat.go:158-162 | A list stays well-formed with an unknown field in it, and both extractions give the same answer, refusals included |
| GeoWire.InEntryIgnored | internal/geodb/v2dat.go:285-288 | An unknown field in any entry of a list leaves both extractions as they were |
| GeoWire.InRecordIgnored | internal/geodb/v2dat.go:329-333 | So does one in any domain or network record of any entry |
| GeoWire.ListRead | internal/geodb/v2dat.go:7-15 | The encoding of a written GeoSite list means that list |
| GeoWire.ExtractWritten | internal/geodb/v2dat.go:228-300 | Extracting from the encoding of a list gives the domains asked for |
| GeoWire.ExtractCovering | internal/geodb/v2dat.go:228-300 | Over every written list, wanted name and host: an extracted rule matches the host exactly when a domain of type 0, 2 or 3 of an entry of that name, equal up to ASCII case, does; the skip count is the number of other non-empty domains |
| GeoWire.AskedMeans | internal/geodb/v2dat.go:240-300 | The specification of the extraction has that meaning |
| GeoWire.SitesInOrder | internal/geodb/v2dat.go:240-300 | Rules stand in the order of the entries |
| GeoWire.FormatExamples | internal/geodb/v2dat.go:66-99 | The encoder writes the bytes that the Protocol Buffers encoding prescribes for its own examples |
| GeoWire.CountriesRead | internal/geodb/v2dat.go:7-15 | The encoding of a written GeoIP list answers as that list |
| GeoWire.ExtractWrittenNetworks | internal/geodb/v2dat.go:360-415 | Extracting from the encoding of a GeoIP list gives the networks asked for, or refuses an address of another length |
| GeoWire.ExtractNetworks | internal/geodb/v2dat.go:360-415 | Over every written list and country: exactly the networks of its entries, a 4-byte address as IPv4 and a 16-byte one as IPv6, each with its own prefix length, or the refusal of another length |
| RuleIndex.SortByName | internal/checker/rules.go:112-121 | The usable providers in name order |
| RuleIndex.RuleProviderIndex.constructor | internal/checker/rules.go:111-134 | A fresh index has parsed nothing |
| RuleIndex.RuleProviderIndex.LookupParsed | internal/checker/rules.go:142-170 | Exact entries, then suffixes from the longest, then the binary sets, of the lists parsed so far |
| RuleIndex.RuleProviderIndex.ParseNext | internal/checker/rules.go:174-250 | Folds the next provider in, keeping the first entry of each value |
| RuleIndex.RuleProviderIndex.Match | internal/checker/rules.go:255-273 | Unless what was parsed before answers, the eager answer, as on a fresh index; otherwise that of the merged lists; an answer exactly when there is an eager one |
| RuleIndex.ProviderPicksBest | internal/checker/rules.go:142-156 | A text provider answers with an exact entry, else its longest dot-boundary suffix, else not |
| RuleIndex.ScanTakesFirst | internal/checker/rules.go:63-79 | The first provider by name with an answer of its own |
| RuleIndex.TailsAreDotSuffixes | internal/checker/rules.go:149-157 | The loop over dots tries exactly the dot-boundary suffixes |
| RuleIndex.HistoryMatters | internal/checker/rules.go:142-150 | On a used index a later exact entry can replace an earlier suffix |
| RuleIndex.DepartsExactly | internal/checker/rules.go:142-170 | What was parsed answers as the eager scan exactly when no entry behind the first answering provider outranks its answer, or the entry that does repeats it word for word, which needs a later provider of the same name |
| RuleIndex.ListsPickBest | internal/checker/rules.go:142-157 | Merged text lists answer with an exact entry, else the longest dot-boundary suffix, else not |
| RuleIndex.AnswersAreUsable | internal/checker/rules.go:111-134 | No answer, fresh or of a used index, names a disabled provider or one without a file |
| RuleIndex.KeywordMeans | internal/checker/rules.go:265-272 | The keyword answer is the first entry whose text occurs in the query, and none exactly when none does |
| Uci.Parse | internal/config/uci.go:43-84 | The line loop gathers the sections |
| Uci.WriteBlocks | internal/config/write.go:35-88 | The writers render the sections in order |
| Uci.SectionText | internal/config/write.go:35-88 | The lines of a section with an option and a list, quotes and indentation included |
| Uci.ParseRereads | internal/config/uci.go:25-84 | Parsing what was serialised gives every section back in order, each one-line value as its quoted text is read |
| Uci.ParseUndoesSerialize | internal/config/uci.go:25-84 | With clean values, every section, option and list comes back |
| Uci.ComesBackExactly | internal/config/write.go:249 | Any value comes back exactly when it has no single quote, no double quote at its ends and only single blanks |
| Uci.OptionComesBackExactly | internal/config/write.go:249 | In a file, a section with an option comes back exactly when the option's value is such, line breaks included |
| Uci.ParsedShaped | internal/config/uci.go:43-84 | No text at all is parsed to a value of another shape |
| Uci.NoiseIsIgnored | internal/config/uci.go:43-83 | A comment, a blank line, a lone word or an unknown directive anywhere in any file changes nothing that is read |
| Uci.NextItem | internal/config/uci.go:63-77 | A further option replaces, a further list value is appended, other keys stay |
| Uci.IdTable.SectionHeader | internal/config/write.go:279-289 | Hands out an id that was not in use, or none |
| Uci.IdsAreDistinct | internal/config/write.go:257-289 | Ids handed out are fresh and pairwise distinct across types |
| Uci.IdGivenExactly | internal/config/write.go:279-289 | An id is prefix and name, given exactly when the name is an identifier and no earlier section asked for the same |
| Uci.PrefixesApart | internal/config/write.go:255-268 | Types never share an id |
| Uci.NamesComeBack | internal/config/uci.go:107-121 | Every name is recovered from its section: duplicates, non-identifiers and names that carry a prefix already |
| Uci.BareIdIsName | internal/config/uci.go:107-121 | Without a name option, an id without its type's prefix, or that is the prefix alone, is the name |
| Uci.FilesGiveNamesBack | internal/config/write.go:269-289 | A whole file written with the ids handed out and parsed again gives its sections in order, each with its type and its clean name |

## Left out

- Rendering to nftables and YAML text: rules and groups are values. Port lists are the exception, they stay text because claims are joined as text.
- Native nftables expressions, counters, set declarations' types and the mesh rate limiter.
- The reply, clear and predefrag chains, except for their mark writes in `Marks`.
- nft itself: whether a set holds an address is an input, and overlapping ranges in one anonymous set are read as their union.
- The exemptions of the output chain (cgroups, the probe's user, zapret's own marks) are one condition of the packet.
- A packet of the queue chain carries no profile mark and is of the original direction: what zapret itself sends and replies are not followed there.
- Reasons and provider names in routing steps, and which providers match a query: matching is an input to the trace, and that the sets hold what the matching providers list is an assumption of `Tracing.TraceAgreesWithClassifier`.
- OUTPUT against PREROUTING for destinations in the direct or reject sets: the output chain has no global pass, so they need not agree.
- Failures of the dirty file's own write, removal and stat, and time: a step may take any time.
- UTF-8 case folding in GeoSite names, trimming and lowering of the requested name, and the text of an address: names are ASCII bytes and addresses stay bytes.
- Marks wider than 32 bits and the hexadecimal parser in front of the validators.
- Kernel rules and UCI output that resolveProxyWANs parses: the marks it finds are inputs. The test that a mark fits its mask and is not zero (internal/manager/proxy_wan.go:81) is the assumption `WansFit`.
- Parsing of ipdb files, rule lists, MRS sets and geo files from disk: contents are inputs, a binary domain set is a function.
- MatchIP and warnings of the provider index; the section's action in an answer.
- mihomo listeners, health checks, filters, the proxy guard overlay and the mixin: only names and references are modelled. Whether a peer's credentials derive is an input.
- The option sets of each UCI section type: a section is a list of options and lists. Lines beyond the scanner's limit.
- Varints padded with empty groups inside a well-formed list: the encoder writes the shortest form. The tag that ends a list in a refusal may be padded.
- Go's len of a provider name in Mihomo.VariantsDistinct counts characters, which are bytes for the names the validator accepts.
- The probe's HTTP exchange and the status file of a mesh round; its error list.
- Integer overflow of counters and lengths that memory bounds.
