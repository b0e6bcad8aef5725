# VibeDPN: verified models of its protocols

A Dafny project about the parts of VibeDPN in which a mistake sends traffic the wrong way, loses an owner's change or
hands out an address twice. Each module models one component and proves what its code or its comments promise; where a
promise is not kept by the code as written, the model keeps the code, a lemma names an input that shows it, and the
exact condition is proved instead.

- **The LAN router kill switch** (`Configuration`, `Ordering`, `Slots`, `Uplinks`, `Networks`, `Ruleset`, `Commands`, `RuleTable`,
  `KillSwitch`, `NamedExits`, `LateExits`, `DockerUser`, `Writes`, `BoxState`). The host is a list of `ip rule`s, the routes of
  the uplink tables, the marks of the loaded ruleset and Docker's chain DOCKER-USER. `RouterHost` runs `apply_router` and
  `remove_router` one command at a time. Which of the coming commands the host refuses, the watcher rounds before each one and
  the programs it has are fields of it, so that a run is determined: it fails exactly when one of its commands is refused, and
  completes where none is. A ghost field records every state the host goes through, so what is proved holds at every instant
  and not only when a call returns. `BoxState` puts file, memory and rollback on top, with every write of the file failing
  before or behind its rename (`Writes`).
- **Routing mode smart** (`Names`, `Dicts`, `RuleIndex`, `ChannelSets`, `SetHistory`, `Replay`, `Resolver`, `Learner`,
  `QueryLog`, `SmartLoop`, `Steering`). Names are label sequences, time is in integers. Beside the kernel's timed sets a
  ghost record keeps every fill, rebuild and replay, every answer ever given under a rule, and the last one of each name;
  what holds of an answer is said of that record. Which fills nft refuses, which requests for the log and which accesses to
  the store fail are fields of the state too, and every step of a run is given exactly. The learner is compared with the
  whole history of events, the query log reader with the whole log, the loop ties resolver, learner and store together, and
  `Steering` follows a name over its set and its mark to its uplink, which is said by the owner's own words and in numbers.
- **The WireGuard server** (`WgRegistry`, `TunnelFiles`). The address allocator with its capacity, and the two-file
  transaction with every write failing before or behind its rename.
- **The TLS relay** (`Octets`, `ClientHello`, `Greeting`, `Relay`). The parser against an encoder of ClientHello records, and the
  record splitter against a record reader (RFC 8446, sections 4.1.2 and 5.1; RFC 6066, section 3).
- **Smaller protocols** (`ApplyHandshake`, `Shutdown`, `Probe`). Panel and host over two files, dependency-ordered
  teardown, the Internet checksum (RFC 1071, section 1).

`dafny verify dfyconfig.toml` checks the whole project.

What the code promises and does not keep, each with its exact condition in the model:

- `plan_rules` leaves exactly the wanted rule at a priority if and only if no rule with fewer attributes is listed behind
  an exact one; its selector would match the wanted rule too (`RuleTable.PlanConverges`,
  `RuleTable.PartialRuleTakesTheExactOne`).
- Nothing limits `upstreams.wg` to eight names. An exit has a slot if and only if it is among the first eight in sorted
  order (`Uplinks.TakenIsSlotIff`); the plan gives it a rule if and only if it is one of those or the eleventh
  (`NamedExits.ExitRuleIff`), and the eleventh, which counts into Tor's table, takes the rule of Tor with it
  (`NamedExits.EleventhTakesTorsRule`). What is marked for an exit at any other place leaves by the main table
  (`LateExits.LateMarkLeaks`; the seventeenth has the mark of Tor), and a valid configuration with eleven exits comes to
  both (`LateExits.NinthExitLeaks`).
- The network set of exit `x` is the domain set of exit `x-net`, and no other two sets meet (`Uplinks.NetworkSetCollides`).
- A set element outlives the cached answer if and only if the last fill of its address does (`SetHistories.KeptExactly`),
  and one fill breaks that if and only if it shares an address and ends sooner (`ChannelSets.FillKeepsIff`). After a rebuild
  exactly the answers the replay brings back hold (`Replays.ReplayRestoresIff`, `Replays.ReplayCovers`): the name is
  remembered, is under the same rule, and a whole second of its TTL is left, because `int(expires - now)` cuts the rest off.
  `Replays.AnswerOutlivesCache` is what every run keeps of it. A second name with the same address and a smaller TTL breaks
  it (`Resolvers.NeighbourShortens`, a run from the constructor). An older answer of a name holds while the table is not
  rebuilt and nothing takes time away (`Replays.ToldIsKept`); a rebuilt table does not get it back unless what is
  remembered has its addresses (`Replays.OlderAnswerIsLost`).
- After a reload a CNAME target or a learned name goes with its site even where the owner wrote a rule for that very name;
  such a name keeps its own rule if and only if the last follower that carries it to a rule carries it to that one
  (`Resolvers.OwnerKeepsIff`, over a whole run `Resolvers.OwnersChoiceHolds`, and a run that loses it in
  `Resolvers.OwnerLosesTheName`).
- Several log records in one microsecond: behind the first of them as the cursor the others are never handed out, and every
  record behind a cursor is handed out if and only if none shares the cursor's microsecond (`QueryLogs.NothingLostIff`);
  behind an earlier cursor they are all handed out, newest first, so the order is that of the log if and only if no two of
  them share a microsecond (`QueryLogs.TimeOrderIff`, `QueryLogs.OneMicrosecond`).
- A refused fill, or a failed write, while a name is learned leaves it out of the store for good: such a name is `torn`
  (`SmartLoops.SmartLoop.Follow` says exactly when), its record is read again, and the learner, which knows it by then, says
  nothing more. After a round a name the learner had decided on and the store had not is in the store if and only if it is
  a CNAME target of a site under a rule (`SmartLoops.SmartLoop.Round`); over any run of steps that do not forget it, it
  enters only as a CNAME target (`SmartLoops.SmartLoop.Run`). `SmartLoops.RefusedFillStaysOut` is a run that comes to it.
- `wg0.conf` and the registry stay in step under a failing write, except when it fails behind the rename, by the fsync of
  the directory, or the old text cannot be put back (`Tunnels.TunnelFiles.Commit` says exactly when).
- The default zone is cut in the ClientHello if and only if the name has at most 32 characters; in a longer one it stands
  whole in the second record (`Relays.ZoneIsCutIff`).
- `server_name` fails with an index error if and only if the first server_name extension of a ClientHello claims at least
  three bytes more than a list of entries without a host that reaches the end of the record
  (`Relays.OutOfRangeIff`; a whole record of 55 bytes in `Relays.IndexErrorHappens`).
- While the panel rewrites its request a reader finds none, and an answer to an older one passes for the newest
  (`ApplyHandshakes.Handshake.RewritingHidesARequest`, from the start of the box). What is shown covers every request
  written if and only if it covers the last one, and it does when it answers the last one
  (`ApplyHandshakes.Handshake.ApplyState`).
- An error behind the rename of config.yaml that is not the router's, or an old text that cannot be put back, leaves the
  file ahead of memory; behind an error the two agree if and only if the file says what it said before
  (`BoxStates.BoxState.Edit`), and `BoxStates.BoxState.Live` keeps them together over every run without those faults.

Preconditions the code does not check itself: `failopen` is false in the running and the edited configuration, and the
mode and the rules name no exit behind the eighth place (`KillSwitch.Promised`; what becomes of those is said above); the host starts in a safe state, in which no rule of others at or below a
slot's priority leads a marked packet away (`KillSwitch.Safe`); the query log has one record per microsecond
(`QueryLogs.Log`; what happens without that is said above); events reach the learner in time order; no rule of
DOCKER-USER carries the comments of both of our groups (`KillSwitch.Apart`).

## Model

| member | source | states |
|---|---|---|
| Slots.SlotsListed | core/vibedpn/engine/router.py:357-367 | `ALL_SLOTS` holds exactly the fixed uplinks, eight countries and eight exits |
| Slots.SlotsDistinct | core/vibedpn/engine/router.py:296-367 | two slots share neither mark, table nor gateway |
| Commands.RanExactly | core/vibedpn/engine/router.py:629-645 | a run of commands fails exactly when one it gave was refused, and that was its last |
| Commands.RanCalm | core/vibedpn/engine/router.py:629-645 | where nothing is refused every command goes through |
| Ordering.AscendingIsUnique | core/vibedpn/engine/router.py:310-325 | the sorted list a numbering follows is determined by its set |
| Uplinks.UsedUplinks | core/vibedpn/engine/router.py:436-458 | the keys in use are exactly those LAN traffic may take, in the order of the table: the default of mode full, in smart what each `via` of a rule asks for, and what a device policy asks for, each said by its own word |
| Uplinks.TakenInWords | core/vibedpn/engine/router.py:436-458 | so says the specification of the keys in use: mode, `via`, country, exit and policy written out |
| Uplinks.TakenAreListed | core/vibedpn/engine/router.py:386-458 | in a valid configuration every key that may be taken is in the table |
| Uplinks.TakenIsSlotIff | core/vibedpn/engine/router.py:343-392 | a taken key lies in the fixed slots if and only if it is no exit behind the eighth place |
| Uplinks.NumberedDistinct | core/vibedpn/engine/router.py:316-392 | with at most eight countries and exits, two keys never share an uplink |
| Uplinks.TableIsSlots | core/vibedpn/engine/router.py:386-392 | with at most eight exits the whole table lies in the slots |
| Uplinks.TableInNumbers | core/vibedpn/engine/router.py:296-392 | what is in the table, and the mark, the table and the gateway of each key as numbers: vps 0x10, dpn 0x20, tor 0x60, a country or an exit by its place among all in sorted order |
| Uplinks.ViaDecides | core/vibedpn/engine/router.py:496-504 | the uplink of a channel is the one its `via` names: vps, dpn, tor, the country of dpn, the exit of wg, none for direct |
| Uplinks.ChannelsAreEnabled | core/vibedpn/config.py:912-943 | in a valid configuration every channel goes through an uplink that is enabled |
| Uplinks.MarksAreUsed | core/vibedpn/engine/router.py:436-590 | a mark is set by the ruleset if and only if it belongs to an uplink in use (the block mark aside) |
| Uplinks.ChannelSetInjective | core/vibedpn/engine/resolver.py:56-66 | two channels never share a set |
| Uplinks.SetNames | core/vibedpn/engine/resolver.py:56-66 | how the sets are called, direct, a country and an exit with a hyphen among them |
| Uplinks.NetworkSetCollides | core/vibedpn/engine/router.py:521-546 | a network set is a domain set exactly for exits `x` and `x-net` |
| Uplinks.SmartMarks | core/vibedpn/engine/router.py:496-518 | every channel finds under its set the mark, as a number, of the uplink its `via` names, and no other set has a mark |
| Uplinks.UnmarkedIsDirect | core/vibedpn/engine/router.py:496-504 | a channel without an uplink is the direct set, and the reverse |
| Networks.SmartNetworks | core/vibedpn/engine/router.py:531-546 | every network is in the one set of its channel with that channel's mark; direct sets come first, and the direct and the marked ones are each in the order of their names, their networks in the order of the text |
| Rulesets.RouterRuleset | core/vibedpn/engine/router.py:549-590 | none exactly without a network; the marks its chains can set, those of device sets with an element, of `smart_marks`, of `smart_networks`, of the mode and of AdGuard, are exactly those of the uplinks in use and block where a device is blocked |
| Rulesets.DeviceSets | core/vibedpn/engine/router.py:468-487 | two sets per policy: the MACs, and the addresses of devices without one |
| Rulesets.SmartMarksAre | core/vibedpn/engine/router.py:507-518 | the values of `smart_marks` are exactly the marks of the channels' uplinks |
| Rulesets.NetworkMarksAre | core/vibedpn/engine/router.py:531-546 | a network set brings no mark its channel's uplink does not have |
| Rulesets.OnlyTheseMarks | core/vibedpn/templates/lan-router.nft.j2:34-62 | no packet leaves the chain with a mark outside those the ruleset can set |
| Rulesets.SmartMarkIs | core/vibedpn/templates/lan-router.nft.j2:56-58 | a domain set marks a packet exactly when a marked set holds its address; of several the first name decides |
| Rulesets.PolicyWins | core/vibedpn/templates/lan-router.nft.j2:41-48 | a device with a MAC goes by its own policy, whatever the mode and the rules say, with the mark of that policy as a number and none for bypass; from the address of a device without one, by whichever of the two policies the chain asks first |
| Rulesets.NoPolicy | core/vibedpn/templates/lan-router.nft.j2:41-48 | who asks from no device of the configuration is under no policy |
| Rulesets.NetworkOfRules | core/vibedpn/templates/lan-router.nft.j2:49-55 | a packet is about a network set exactly when a network of a rule is around its destination |
| Rulesets.NetworkOfChannel | core/vibedpn/templates/lan-router.nft.j2:49-55 | of the networks around an address a direct one decides, and the mark of their channel where all are of one |
| RuleTable.PlanRules | core/vibedpn/engine/router.py:659-684 | the loop computes the planned deletes and adds |
| RuleTable.WantedSlot | core/vibedpn/engine/router.py:659-699 | a wanted uplink has its rule after the adds and after every delete, unless a partial rule is listed behind it |
| RuleTable.PlanConverges | core/vibedpn/engine/router.py:659-699 | after the plan one exact rule per wanted uplink stands at its priority, exactly when no partial rule overtakes it, none at other slots, and foreign rules are unchanged in order |
| RuleTable.ReplanIsEmpty | core/vibedpn/engine/router.py:659-684 | a settled listing is planned into nothing |
| RuleTable.PartialRuleTakesTheExactOne | core/vibedpn/engine/router.py:648-656 | a rule with fewer attributes behind the exact one takes it away |
| RuleTable.SurvivorIsExact | core/vibedpn/engine/router.py:648-699 | which of the rules at one priority is left by the deletes, and when it is the exact one |
| KillSwitch.SafeIsHeld | core/vibedpn/engine/router.py:702-747 | in a safe state every mark the ruleset can set leads to its own gateway or to unreachable |
| KillSwitch.LookupFindsOwn | core/vibedpn/engine/router.py:702-717 | the kernel's walk over the rules ends at the packet's own table |
| KillSwitch.RouterHost.SetGatewayRoute | core/vibedpn/engine/router.py:710-717 | a watcher's step keeps every state safe and changes only its uplink's route: it appears while the gateway answers and goes when it does not, unless the command is refused |
| KillSwitch.RouterHost.Watch | core/vibedpn/api/uplink.py:66-96 | the watcher rounds of that moment keep every state safe and do to the gateway routes exactly what they say |
| KillSwitch.RouterHost.ReplaceLastResort | core/vibedpn/engine/router.py:702-703 | a refused command changes nothing but what watchers did; a done one adds exactly this last resort |
| KillSwitch.RouterHost.ReplaceLastResorts | core/vibedpn/engine/router.py:731-733 | the last resorts of all uplinks in use exist when the loop completes |
| KillSwitch.RouterHost.AddRule | core/vibedpn/engine/router.py:687-694 | one rule is inserted behind those of its priority, and every state stays safe |
| KillSwitch.RouterHost.AddRules | core/vibedpn/engine/router.py:687-694 | the new rules are added; every state on the way is safe |
| KillSwitch.RouterHost.LoadRuleset | core/vibedpn/engine/router.py:740-740 | new marks are loaded only when each has its rule and last resort |
| KillSwitch.RouterHost.DeleteRule | core/vibedpn/engine/router.py:697-699 | the first rule the selector matches goes, and only when nothing loaded needs it |
| KillSwitch.RouterHost.DeleteRules | core/vibedpn/engine/router.py:697-699 | no delete of the plan takes a rule a loaded mark needs |
| KillSwitch.RouterHost.FlushTable | core/vibedpn/engine/router.py:745-745 | a table no loaded mark needs loses its routes |
| KillSwitch.RouterHost.FlushUnused | core/vibedpn/engine/router.py:742-745 | exactly the tables in use keep their last resort |
| KillSwitch.RouterHost.Replan | core/vibedpn/engine/router.py:736-741 | never a moment when a mark has no rule |
| KillSwitch.RouterHost.Steer | core/vibedpn/engine/router.py:731-745 | the steering commands in their order end settled, and are safe at every step |
| KillSwitch.RouterHost.ApplyRouter | core/vibedpn/engine/router.py:720-747 | with any command refused and watchers between any two, every state is safe; a run fails exactly when a command of it is refused or a program is missing, and where none is it completes; a complete run leaves exactly what the configuration asks for, the transit of DOCKER-USER included; foreign rules of both kinds stay, in order |
| KillSwitch.RouterHost.Start | core/vibedpn/engine/router.py:724-745 | the part of it that steers ends settled for exactly the uplinks in use, unless one of its commands is refused |
| KillSwitch.RouterHost.SyncTransit | core/vibedpn/engine/router.py:746-746 | our transit group is in place or on top, the other group stays in place; without the chain nothing happens |
| KillSwitch.RouterHost.RemoveRouter | core/vibedpn/engine/router.py:750-758 | marks go first; every state on the way is safe; it succeeds unless a command is refused, and then no mark is left, where there is `ip` no rule and no last resort of ours, and where there is an iptables no transit |
| NamedExits.ExitRuleIff | core/vibedpn/engine/router.py:343-392 | the plan adds the rule of a taken exit that has none if and only if its place is below eight or is ten |
| NamedExits.EleventhTakesTorsRule | core/vibedpn/engine/router.py:659-684 | with the eleventh exit in use Tor's rule is never added, and one that is there is planned to go |
| NamedExits.AddsIff | core/vibedpn/engine/router.py:671-683 | the plan adds exactly what `by_table` keeps at a slot and the listing has not |
| NamedExits.DeletesHas | core/vibedpn/engine/router.py:671-683 | the plan deletes every rule at a slot but the one kept there |
| KillSwitch.OutsideSlotsGetsNoRule | core/vibedpn/engine/router.py:671-683 | the plan adds no rule for an uplink outside the slots |
| KillSwitch.TakenHasSlot | core/vibedpn/engine/router.py:343-458 | under the promise every key that traffic may take has a slot |
| LateExits.LateMarkLeaks | core/vibedpn/engine/router.py:659-717 | the plan for a host with nothing but its main table ends settled, and a packet marked for an exit at place eight or later, ten and sixteen aside, leaves by the main table |
| LateExits.NinthExitLeaks | core/vibedpn/engine/router.py:343-392 | a valid configuration with eleven exits: the mark of its ninth leaks so, and Tor, in use, gets no rule |
| LateExits.OwnMark | core/vibedpn/engine/router.py:343-392 | no other key that may be taken has the mark of an exit behind the eighth place, the seventeenth aside |
| DockerUser.Sync | core/vibedpn/engine/router.py:250-269 | an in-place group is untouched, else it ends on top in its order, unless a command is refused, and that alone makes it fail; others keep their order and another group in place stays in place |
| DockerUser.InPlaceIs | core/vibedpn/engine/router.py:198-216 | in place is: the rules with the comment are the wanted ones, each as often, and none but rules of ours stand above them |
| DockerUser.CommentedIs | core/vibedpn/engine/router.py:191-195 | a rule is ours when the word behind its first `--comment` starts with `vibedpn-` |
| DockerUser.SyncConverges | core/vibedpn/engine/router.py:198-216 | after a sync, planning again gives nothing |
| DockerUser.DeleteGroup | core/vibedpn/engine/router.py:258-268 | the deletes take the whole group and nothing else |
| DockerUser.InsertGroup | core/vibedpn/engine/router.py:260-268 | inserting in reverse at the top keeps the wanted order |
| BoxStates.BoxState.Save | core/vibedpn/api/state.py:57-62 | a network change goes to the file and waits for a restart; file and memory agree unless the write failed behind its rename |
| BoxStates.BoxState.Edit | core/vibedpn/api/state.py:64-87 | how an edit ends and what the file says then, as functions of the faults of both writes and of the apply steps; a host that refuses nothing takes it, and one that refuses a single command routes by the old configuration again; done means the host is settled for it; behind an error file and memory agree if and only if the file says what it said |
| BoxStates.BoxState.PutBack | core/vibedpn/api/state.py:76-80 | the old text is in the file again unless its write failed before the rename, and a host that refuses nothing routes by it again |
| BoxStates.EditAgrees | core/vibedpn/api/state.py:64-87 | an edit that goes through keeps file and memory in agreement, one that ends behind the write breaks it |
| BoxStates.BoxState.Live | core/vibedpn/api/state.py:48-87 | over any edits and saves with any faults, each step of it given exactly, the kill switch holds in every state, no state is taken from the record and the running network never changes; without the faults that tear them, file and memory agree |
| Names.NormalIsNormal | core/vibedpn/engine/resolver.py:99-107 | normalizing a name is idempotent |
| Names.NormalIs | core/vibedpn/engine/resolver.py:99-107 | what is left of a name: every label up to the last that is not empty, in lower case |
| Names.LowerIs | core/vibedpn/engine/resolver.py:99-107 | lower case is of the letters A to Z only |
| RuleIndexes.RuleIndex.FromConfig | core/vibedpn/engine/resolver.py:83-97 | the built index is the specified one, which RuleIndexes.IndexHas says in words |
| RuleIndexes.IndexHas | core/vibedpn/engine/resolver.py:83-97 | a name is in the index exactly when a rule or a fetched list has it: with the set of the last such rule, and without one with that of the last such list in the order of routing.lists |
| RuleIndexes.RuleIndex.AddEach | core/vibedpn/engine/resolver.py:91-96 | names are stored one after the other, the last one wins |
| RuleIndexes.RuleIndex.Match | core/vibedpn/engine/resolver.py:105-111 | the loop finds the longest stored suffix of at least two labels |
| RuleIndexes.LongestWins | core/vibedpn/engine/resolver.py:105-111 | nothing is found exactly when no such suffix is stored; else the value of the longest |
| RuleIndexes.OwnerDecides | core/vibedpn/engine/resolver.py:94-96 | a rule of the owner decides for its names whatever was stored before |
| RuleIndexes.OwnerIsStored | core/vibedpn/engine/resolver.py:94-96 | what the owner wrote is stored under its own name, whatever the lists say |
| RuleIndexes.OwnerBeatsLists | core/vibedpn/engine/resolver.py:83-97 | an owner's rule beats a list for the same name |
| RuleIndexes.LookupsAgree | core/vibedpn/api/smart.py:65-78 | without lists the resolver and `rule_of` find a rule for the same names, and the same rule |
| RuleIndexes.ConfigIndexDeclared | core/vibedpn/engine/resolver.py:69-97 | every set of the index is declared by the router of the same configuration |
| ChannelSets.AnswerFacts | core/vibedpn/engine/resolver.py:123-133 | the loop collects the addresses of all A records, the normalized targets of all CNAME records and the lowest TTL |
| ChannelSets.FactsAre | core/vibedpn/engine/resolver.py:123-133 | an address or a target is collected exactly when a record of the answer has it |
| ChannelSets.SteerableByOctets | core/vibedpn/engine/resolver.py:137-153 | the addresses that are never steered, by octets |
| ChannelSets.CapTtl | core/vibedpn/engine/resolver.py:156-162 | data and order stay, no TTL is above the cap, and the lowest left is the lowest of the answer, capped |
| ChannelSets.FillScriptRenews | core/vibedpn/engine/resolver.py:165-175 | add, delete, add is never refused and renews every timeout |
| ChannelSets.FillKeepsIff | core/vibedpn/engine/resolver.py:165-175 | a fill keeps a promise if and only if it does not shorten it |
| SetHistories.KeptExactly | core/vibedpn/engine/resolver.py:165-175 | after any fills and rebuilds a promise holds exactly when the last fill of each of its addresses since the last rebuild lasts long enough |
| SetHistories.KeptSince | core/vibedpn/engine/resolver.py:165-175 | a fill that is long enough keeps its promise while the table stays and nothing shortens it |
| SetHistories.OwnFillKeeps | core/vibedpn/engine/resolver.py:165-175 | an answer holds when its own last fill is behind the last rebuild and undisturbed since |
| Resolvers.Resolver.Resolve | core/vibedpn/engine/resolver.py:223-247 | nothing is answered exactly to an IPv6 query for a steered name, a failure exactly where upstream or a due fill failed, and else what upstream said record for record, under a rule with no TTL above 300; an answer under a rule is given after its addresses are in that rule's set, with the TTL it is remembered with, and goes on record, exactly unless nft refuses; records of other names stay; nobody changes rule |
| Resolvers.Resolver.ResolveAnswer | core/vibedpn/engine/resolver.py:230-247 | the answer that is given, what is remembered, filled and recorded of it, and which names join the rule of its site |
| Resolvers.Resolver.FillAnswer | core/vibedpn/engine/resolver.py:244-246 | a filled answer is recorded as given, with its set, addresses and end; a refused fill changes nothing |
| Resolvers.FillIs | core/vibedpn/engine/resolver.py:156-175 | the fill of an answer in numbers: every address of its A records that can be steered, until 60 seconds behind the lowest TTL, which counts for 300 at most |
| Resolvers.Resolver.AnswerUnderRule | core/vibedpn/engine/resolver.py:237-247 | CNAME targets join the rule, the set is filled, and only then the capped answer goes out |
| Resolvers.Resolver.JoinTargets | core/vibedpn/engine/resolver.py:237-241 | unmatched CNAME targets join exactly the site's rule; every other name keeps its own |
| Resolvers.JoinedExactly | core/vibedpn/engine/resolver.py:237-241 | behind an answer everybody who was under a rule is under that one, and of the others exactly the CNAME targets and the names below them are under the rule of the site |
| Resolvers.JoinedFollow | core/vibedpn/engine/resolver.py:237-241 | exactly the targets nobody matched when their turn came follow the site from then on |
| Resolvers.Resolver.Remember | core/vibedpn/engine/resolver.py:294-301 | the newest answer comes last and the last 4096 are kept |
| Replays.RemembersLast | core/vibedpn/engine/resolver.py:294-301 | the newest answer is the last one, until its TTL, of 300 seconds at most, and of more than 4096 the oldest goes |
| Resolvers.Resolver.Fill | core/vibedpn/engine/resolver.py:303-311 | refills from a remembered answer with at least a second left |
| Resolvers.Resolver.Learn | core/vibedpn/engine/resolver.py:249-258 | a name follows its parent if and only if the parent is under a rule |
| Resolvers.Resolver.Unlearn | core/vibedpn/engine/resolver.py:260-264 | a learned name leaves index and dictionary; its elements run out |
| Resolvers.Resolver.Replay | core/vibedpn/engine/resolver.py:287-292 | the loop refills every remembered name under a rule, oldest answer first |
| Resolvers.Resolver.RejoinTargets | core/vibedpn/engine/resolver.py:275-278 | CNAME targets of sites still under a rule join it again |
| Resolvers.Resolver.RejoinLearned | core/vibedpn/engine/resolver.py:279-284 | learned names whose site is still under a rule stay, exactly those |
| Resolvers.StillLearnedExactly | core/vibedpn/engine/resolver.py:279-284 | a learned name stays exactly when its site is under a rule when its turn comes |
| Replays.ReplayKeepsIff | core/vibedpn/engine/resolver.py:287-311 | a promise that held survives a replay if and only if the last refill of each of its addresses spares it |
| Replays.MarginCovers | core/vibedpn/engine/resolver.py:303-311 | a refill outlives what is remembered, by 60 seconds at most, and happens exactly from one second on |
| Replays.ReplayRestoresIff | core/vibedpn/engine/resolver.py:287-311 | after a rebuild exactly the promises all of whose addresses the replay brings back hold |
| Replays.ReplayCovers | core/vibedpn/engine/resolver.py:287-311 | after a rebuild the answer of a name that is refilled holds if and only if no name replayed behind it shortens it |
| Replays.ReplayRecorded | core/vibedpn/engine/resolver.py:287-292 | a replay over all remembered names reaches every one that is still under its rule with a second left |
| Replays.AnswerOutlivesCache | core/vibedpn/engine/resolver.py:237-311 | an answer given under a rule has its addresses in the set until it may no longer be cached, while the name is remembered, the last rebuild was followed by a replay that reached it, and no other fill took time away since |
| Replays.ToldIsKept | core/vibedpn/engine/resolver.py:237-247 | every answer ever given holds while no rebuild and no fill that takes time away followed its own fill |
| Replays.OlderAnswerIsLost | core/vibedpn/engine/resolver.py:287-311 | behind a rebuild and a replay an answer is not in its set when it has an address no remembered answer of a name under that rule has |
| Resolvers.NeighbourShortens | core/vibedpn/engine/resolver.py:165-175 | a run from the constructor in which a second name of a rule with the same address and a smaller TTL takes it out of the set before the first answer leaves the caches |
| Resolvers.Resolver.Reload | core/vibedpn/engine/resolver.py:271-285 | the new index holds the rules and everybody who still follows a site; learned names without one are forgotten; then the sets are refilled |
| Resolvers.Resolver.SetLists | core/vibedpn/engine/resolver.py:266-269 | new lists rebuild the index and refill the sets |
| Resolvers.RejoinedAt | core/vibedpn/engine/resolver.py:275-285 | a reload leaves the rule of every name no follower carries |
| Resolvers.TakerDecides | core/vibedpn/engine/resolver.py:275-285 | after any followers a name is in the index exactly when it was before or a follower took it to a rule, and the last one that did decides |
| Resolvers.OwnerKeepsIff | core/vibedpn/engine/resolver.py:271-285 | an owner's name keeps its rule across a reload if and only if the last follower that carries it to a rule carries it to that one |
| Resolvers.OwnersChoiceHolds | core/vibedpn/engine/resolver.py:223-285 | from a reload on and over any run in which the name itself is not learned or unlearned and no rules change, an owner's name is under the owner's rule if and only if the reload gave it to that rule |
| Resolvers.OwnerLosesTheName | core/vibedpn/engine/resolver.py:249-285 | a run that gives the name of an owner's rule to the rule of its site |
| Resolvers.FollowerTakesTheName | core/vibedpn/engine/resolver.py:275-285 | a follower's name goes with its site even over an owner's rule for it |
| Resolvers.RejoinedDeclared | core/vibedpn/engine/resolver.py:271-285 | after a reload every set of the index is still a declared one |
| Resolvers.Resolver.Live | core/vibedpn/engine/resolver.py:211-311 | over any run, each step of it given exactly: every answer the run gives under a rule is on record and none is dropped; each answer on record is in its set until it may no longer be cached, while no rebuild and no shorter fill followed, and the last answer of a remembered name even over rebuilds and refused fills while it is replenished and undisturbed |
| Resolvers.Resolver.Do | core/vibedpn/engine/resolver.py:211-311 | one step does what its call says to index, followers, clock and records, takes nothing off the record, and leaves the last answer of a name it does not renew |
| Resolvers.EveryAnswerIsTold | core/vibedpn/engine/resolver.py:223-247 | on record at the end of a run is exactly what was there before and what its queries were answered under a rule without a refused fill |
| Learning.Learner.Observe | core/vibedpn/engine/learning.py:64-90 | the deque is the client's learning sites inside the window, the verdict follows from them alone, and a name is learned exactly when the same client asked sites of one learning rule, and of no other, at most ten seconds before, and it is under no rule, unknown, and followed few sites |
| Learning.ShownExactly | core/vibedpn/engine/learning.py:64-76 | what a query shows, over the events themselves: the learning rules of the sites the same client asked at most ten seconds before |
| Learning.EvidenceExactly | core/vibedpn/engine/learning.py:75-90 | the evidence about a name, over the events themselves |
| Learning.JudgedExactly | core/vibedpn/engine/learning.py:64-90 | when a query makes the learner learn or unlearn a name, over the events themselves |
| Learning.WitnessedNext | core/vibedpn/engine/learning.py:75-90 | `seenAfter` of a name is the evidence from before the rules changed joined with every site that was inside the window of whoever asked for it since; generic is exactly where that is more than three |
| Learning.TracksNext | core/vibedpn/engine/learning.py:64-74 | one more event keeps every window what the history shows of its client |
| Learning.WitnessedForgets | core/vibedpn/engine/learning.py:103-107 | a forgotten name starts over without evidence |
| Learning.VerdictExactly | core/vibedpn/engine/learning.py:75-90 | exactly when a name is learned, and when unlearned |
| Learning.Learner.Expire | core/vibedpn/engine/learning.py:66-68 | popping from the front of the deque is filtering the whole history by the window |
| Learning.WindowMovesOn | core/vibedpn/engine/learning.py:66-68 | what left the window never comes back |
| Learning.Learner.Weigh | core/vibedpn/engine/learning.py:77-90 | generic is exactly what followed more than three sites, and is never learned |
| Learning.LearnsOnce | core/vibedpn/engine/learning.py:86-90 | between two forgets a name is learned at most once |
| Learning.UnlearnsOnce | core/vibedpn/engine/learning.py:80-85 | and then unlearned at most once |
| Learning.Learner.Adopt | core/vibedpn/engine/learning.py:96-101 | evidence is kept, windows are dropped |
| Learning.Learner.Remember | core/vibedpn/engine/learning.py:92-94 | a stored name is learned again, a generic one too; what is learned and generic stays apart unless it is one |
| Learning.Learner.Forget | core/vibedpn/engine/learning.py:103-107 | nothing about the name is left |
| QueryLogs.NewRecords | core/vibedpn/api/smart.py:157-169 | the records of a round are everything after the cursor, at most five pages, whatever arrives between the pages; it fails exactly when one of its requests does |
| QueryLogs.NewerThanIsSuffix | core/vibedpn/engine/querylog.py:79-86 | filtering and sorting a fetched stretch gives its part behind the cursor in time order |
| QueryLogs.PageBehind | core/vibedpn/api/smart.py:161-168 | the page behind a stretch of the log is the stretch before it |
| QueryLogs.OlderPage | core/vibedpn/api/smart.py:167-167 | one more page prolongs the fetched stretch without a gap or a repetition |
| QueryLogs.EverythingNew | core/vibedpn/api/smart.py:161-169 | where the loop stops, nothing new within its pages is missed |
| QueryLogs.HandedOutIff | core/vibedpn/engine/querylog.py:36-86 | behind the cursor at a record, a later one is handed out if and only if it does not share its microsecond |
| QueryLogs.NothingLostIff | core/vibedpn/engine/querylog.py:36-86 | every record behind a cursor is handed out if and only if none shares the cursor's microsecond |
| QueryLogs.TimeOrderIff | core/vibedpn/engine/querylog.py:79-86 | what is handed out is in the order of the log if and only if no two of its records share a microsecond; those that do come newest first |
| QueryLogs.OneMicrosecond | core/vibedpn/engine/querylog.py:36-86 | two records that show both: lost behind the first, handed out newest first behind an earlier cursor |
| QueryLogs.LogReader.Fetch | core/vibedpn/api/smart.py:157-169 | a round takes all of the log behind the cursor as its first page finds it, or leaves a gap when it does not fit; it fails exactly when a request does |
| QueryLogs.LogReader.Done | core/vibedpn/api/smart.py:136-136 | the cursor moves behind the record; what was handled stays one stretch of the log |
| QueryLogs.CursorMoves | core/vibedpn/api/smart.py:104-138 | exactly-once and time order are kept by every record |
| QueryLogs.LogGrows | core/vibedpn/api/smart.py:157-169 | arrivals change neither what was handled nor the order |
| SmartLoops.SmartLoop.Start | core/vibedpn/api/smart.py:96-102 | stored names whose site is under a rule come back to resolver and learner, and the loop is ready for any run |
| SmartLoops.SmartLoop.BringBack | core/vibedpn/api/smart.py:100-102 | one stored name comes back without losing another |
| SmartLoops.SmartLoop.Handle | core/vibedpn/api/smart.py:108-123 | resolver, learner and store agree after each record; what the learner says of it, from the history alone, is carried into resolver and store, exactly unless a due fill is refused or the store fails |
| SmartLoops.SmartLoop.Carry | core/vibedpn/api/smart.py:113-122 | a learned name whose site is under a rule is in resolver and store with it, an unlearned one in neither; when the change fails, which is exactly when a due fill is refused or the store fails, the store is as before |
| SmartLoops.SmartLoop.Follow | core/vibedpn/api/smart.py:114-119 | when a learned name reaches the store: exactly when its site is under a rule, no due fill is refused and the write goes through; under a rule and cut short it is torn and the store as before |
| SmartLoops.SmartLoop.Unfollow | core/vibedpn/api/smart.py:120-122 | a generic name leaves the resolver, and the store exactly when the write goes through |
| SmartLoops.SmartLoop.Round | core/vibedpn/api/smart.py:104-138 | a round that went through: the learner heard the new records of the log in order, and exactly what it concluded from them, and the CNAME targets, changed who follows whom in resolver and store; without faults it goes through; a name the learner had decided on enters the store exactly as a CNAME target; a successful round leaves nothing that was in the log when it began; a record is skipped only by a backlog over five pages |
| SmartLoops.SmartLoop.Do | core/vibedpn/api/smart.py:81-177 | one step of a run, and what it does to resolver, learner, store and cursor, exactly; without faults it goes through; no record is skipped unless the backlog, measured exactly, does not fit; nothing the learner decided on enters the store but CNAME targets |
| SmartLoops.SmartLoop.Run | core/vibedpn/api/smart.py:104-177 | the same over any steps, each following from the state before it, and for every name none of them forgets |
| SmartLoops.RefusedFillStaysOut | core/vibedpn/api/smart.py:113-119 | a run from the constructors: the fill of a learned name is refused, its record is read again, and resolver and learner have the name while the store never gets it |
| SmartLoops.SmartLoop.Forget | core/vibedpn/api/smart.py:140-146 | the name is gone from learner, resolver and store |
| SmartLoops.SmartLoop.StoreCnames | core/vibedpn/api/smart.py:171-177 | CNAME targets of sites under a rule are stored, no stored name changes |
| SmartLoops.SmartLoop.Refresh | core/vibedpn/api/smart.py:148-155 | a new configuration keeps what was learned and drops the windows |
| SmartLoops.StillAgree | core/vibedpn/engine/resolver.py:279-284 | a reload keeps the three stores in agreement |
| SmartLoops.SmartLoop.Live | core/vibedpn/api/smart.py:81-177 | over the start and any rounds, forgets, answers, new rules and lists, each step given exactly: while every change could be carried out, and without a refused fill or a failed access or request every step goes through, the three stores agree about every learned name; while no backlog was over a thousand records, the records handled are one unbroken stretch of the log, each once and in order |
| Steering.SetHasItsMark | core/vibedpn/engine/router.py:496-518 | the mark the ruleset has for a declared set is that of the one channel it belongs to, and none exactly for direct |
| Steering.SetDecidesMark | core/vibedpn/templates/lan-router.nft.j2:34-62 | a packet to an address of one set only gets the mark of that set's uplink |
| Steering.TunnelBeatsDirect | core/vibedpn/templates/lan-router.nft.j2:56-58 | an address that is also in the direct set still leaves through a tunnel |
| Steering.MarkLeadsToUplink | core/vibedpn/engine/router.py:702-747 | on a host that holds the kill switch the mark of a taken key leads to its own gateway or to unreachable |
| Steering.NameLeavesByItsUplink | core/vibedpn/engine/resolver.py:223-247 | while the answer of a name under a rule may be cached, packets to its addresses leave by the uplink the `via` of the rule names, its mark, table and gateway as numbers, or not at all, and go direct exactly for direct |
| Steering.OwnersNameLeavesAsChosen | core/vibedpn/engine/resolver.py:223-311 | the same from the state of a resolver: a name is under an owner's rule and an answer for it is on record and left alone, or its last one and replenished; then packets to its addresses carry the mark and reach the gateway of what the owner wrote, vps 0x10 and 10, dpn 0x20 and 20, tor 0x60 and 60, a country or an exit those of its place, or do not leave at all, and go direct exactly when the owner wrote direct |
| Steering.FullLeavesByDefault | core/vibedpn/templates/lan-router.nft.j2:34-62 | in routing.mode full what no device policy is about leaves by the default uplink, in numbers, or not at all |
| Steering.DeviceLeavesByItsPolicy | core/vibedpn/templates/lan-router.nft.j2:41-48 | a device with a policy leaves by the uplink of that policy, in numbers, or not at all; bypass has no mark and block the one that is dropped |
| Steering.NetworkLeavesByItsUplink | core/vibedpn/templates/lan-router.nft.j2:49-55 | in mode smart an address inside a network of a rule leaves by the uplink that rule names, in numbers, or not at all, whatever the domain sets hold; a direct network always wins |
| WgRegistry.LowestFree | core/vibedpn/engine/wg.py:253-262 | the loop finds the specified address |
| WgRegistry.NextAddressIsLowest | core/vibedpn/engine/wg.py:253-262 | an address is found exactly when one is left, and it is the lowest |
| WgRegistry.RoomSize | core/vibedpn/engine/wg.py:51-51 | a subnet has room for its addresses but three |
| WgRegistry.RoomIs | core/vibedpn/engine/wg.py:51-51 | which addresses a peer may have, in numbers |
| WgRegistry.FitsExactly | core/vibedpn/engine/wg.py:265-302 | fitting succeeds exactly when the peers are at most the addresses but three; order, names, keys and fitting addresses stay, all are distinct, and a second call moves nothing |
| WgRegistry.PlacedExactly | core/vibedpn/engine/wg.py:286-301 | pigeonhole over the addresses taken so far |
| WgRegistry.PlacedUnique | core/vibedpn/engine/wg.py:286-301 | nobody who moves takes an address in use |
| WgRegistry.FittedLowest | core/vibedpn/engine/wg.py:286-301 | who moves gets the lowest address that neither a peer who stays nor one who moved before has |
| WgRegistry.RenumberingHas | core/vibedpn/engine/wg.py:286-302 | exactly who moved is told, with the address before and the new one |
| WgRegistry.KeepFitting | core/vibedpn/engine/wg.py:278-281 | exactly the peers whose address fits are kept, in order |
| WgRegistry.Fit | core/vibedpn/engine/wg.py:265-302 | the loops place everybody as specified and report exactly who moved |
| Tunnels.TunnelFiles.LoadOrCreateKey | core/vibedpn/engine/wg.py:213-226 | a key that is there, even a damaged one, is never replaced; the call succeeds exactly when the write does and the key can be read |
| Tunnels.TunnelFiles.Commit | core/vibedpn/engine/wg.py:427-451 | it succeeds exactly when no write fails, the key can be read and there is room; success brings both files in step; a failure changes neither, exactly but for the named faults |
| Tunnels.TunnelFiles.WriteBoth | core/vibedpn/engine/wg.py:438-448 | configuration first, registry second, configuration back when that fails |
| Tunnels.TunnelFiles.Ensure | core/vibedpn/engine/wg.py:305-311 | after a start both files are in step with every peer of the registry; exactly when it fails |
| Tunnels.TunnelFiles.AddPeer | core/vibedpn/engine/wg.py:326-351 | the peer returned is the one in the registry, at the lowest free address, whoever else is renumbered; exactly when a call ends in which error |
| Tunnels.TunnelFiles.RemovePeer | core/vibedpn/engine/wg.py:354-362 | exactly that name goes; exactly when a call ends in which error |
| Tunnels.NewPeerStays | core/vibedpn/engine/wg.py:339-350 | the address a new peer got is kept by the fitting of the same call |
| Tunnels.TunnelFiles.Live | core/vibedpn/engine/wg.py:305-362 | over any calls and faults, each step of it given exactly, the key never changes, and without tearing faults the files stay in step |
| ClientHellos.ServerName | core/vibedpn/relay.py:88-121 | the loops compute the specified parse, error kinds included |
| ClientHellos.NameInList | core/vibedpn/relay.py:110-120 | the inner loop finds the entry the specification finds |
| ClientHellos.ParserInvertsEncoder | core/vibedpn/relay.py:88-121 | in a record that carries a well-formed ClientHello the parser finds the lower-cased first host name at its exact offset, or refuses |
| ClientHellos.EncodingCarries | core/vibedpn/relay.py:88-121 | the encoder's record carries its hello |
| Greetings.GreetingNames | core/vibedpn/relay.py:88-121 | a record of 73 bytes written out as the two standards say, and its name, in lower case, at byte 70 |
| ClientHellos.ScansExtensions | core/vibedpn/relay.py:104-120 | the first server_name extension decides, whatever stands before it |
| ClientHellos.ScansEntries | core/vibedpn/relay.py:111-119 | the first host_name entry of the list decides |
| ClientHellos.PassesFields | core/vibedpn/relay.py:98-103 | the fields before the extensions are passed whatever they hold |
| Relays.SplitKeepsTheHello | core/vibedpn/relay.py:124-138 | the split works exactly inside the payload, and a reader finds two non-empty records of the same version with the same bytes |
| Relays.ServedNameIsCut | core/vibedpn/relay.py:300-305 | for a served name the split never fails and divides that occurrence of the name |
| Relays.ServesIs | core/vibedpn/relay.py:228-229 | exactly mysterium.network and the names below it are served |
| Relays.ZoneIsCutIff | core/vibedpn/relay.py:228-229 | the zone is itself divided exactly for names of at most 32 characters |
| Relays.NameInsideHello | core/vibedpn/relay.py:111-118 | a found name is lower-cased bytes of the record, at its offset |
| Relays.OutOfRangeIff | core/vibedpn/relay.py:88-121 | the parse of a record ends in an index error if and only if the record is a ClientHello whose first server_name extension claims too much: all the record holds of its list are entries that name no host, up to its end, and three bytes more are claimed |
| Relays.FindsClaim | core/vibedpn/relay.py:104-113 | behind an index error stand whole extensions of other kinds and the header of a server_name extension |
| Relays.RunsOutFails | core/vibedpn/relay.py:111-119 | a list that runs out in this way does end in an index error |
| Relays.IndexErrorHappens | core/vibedpn/relay.py:112-113 | a whole handshake record of 55 bytes, its lengths right, does raise it |
| ApplyHandshakes.Handshake.Apply | core/vibedpn/cli.py:745-767 | every request answered is newer than the last; ending well means every request seen was answered by an `up` that read a config at least as new; how each turn ends and what it leaves, given what the panel does meanwhile and which `up` fails |
| ApplyHandshakes.Handshake.Iterate | core/vibedpn/cli.py:749-766 | one turn ends the loop well exactly when the request it reads is answered already; else it answers that request, newer than all before, and ends badly exactly when its `up` fails |
| ApplyHandshakes.RestingPanel | core/vibedpn/cli.py:749-767 | while the panel rests, what is pending is answered once, by an `up` that read the config as it is, and the next turn ends |
| ApplyHandshakes.Handshake.Up | core/vibedpn/cli.py:754-764 | the answer names the request it was begun for, and its `up` read a config at least as new as every request up to that one |
| ApplyHandshakes.Handshake.ApplyState | core/vibedpn/engine/apply.py:87-93 | whatever panel and host do between its two reads, a result of the host among it: not pending and ok, with a request read, means the `up` behind it read a config at least as new as every request written; without one exactly when it covers the last request |
| ApplyHandshakes.NextKeeps | core/vibedpn/cli.py:745-767 | every step of panel and host keeps the requests later and later, the answers newer and newer, and the last answer covering every request up to its own |
| ApplyHandshakes.RunKeeps | core/vibedpn/cli.py:745-767 | so does every interleaving of them, the host dying anywhere included |
| ApplyHandshakes.CoveredIff | core/vibedpn/engine/apply.py:87-93 | a config read covers all requests exactly when it covers the last one |
| ApplyHandshakes.AskedNext | core/vibedpn/engine/apply.py:49-55 | a request is written with a later time and the edits it stands for, and takes nothing from what older answers cover |
| ApplyHandshakes.Handshake.Panel | core/vibedpn/engine/apply.py:49-55 | the panel alone moves neither the host nor its answers |
| ApplyHandshakes.Handshake.RewritingHidesARequest | core/vibedpn/engine/apply.py:51-63 | from the start of the box a run in which a request being rewritten makes an older answer pass for the newest |
| Shutdowns.Process.Shutdown | ui/src/lib/shutdown.ts:86-135 | each callback starts at most once and after all that depend on it; without the timeout exactly those not blocked by a cycle finish, and the timeout comes exactly where something still could |
| Shutdowns.RunAll | ui/src/lib/shutdown.ts:110-124 | in every interleaving the gates keep that order, and the run goes on exactly while something can start or end |
| Shutdowns.Process.OnShutdown | ui/src/lib/shutdown.ts:53-63 | callbacks are kept in the order they were registered |
| Shutdowns.StuckIsBlocked | ui/src/lib/shutdown.ts:106-122 | who waits forever is on a cycle or depended on by one |
| Shutdowns.BlockedWaits | ui/src/lib/shutdown.ts:106-122 | who is blocked waits for somebody who is |
| Probes.Checksum | core/vibedpn/engine/probe.py:25-32 | the fold ends, keeps the sum modulo 65535, and the sum with the checksum is zero modulo 65535 |
| Probes.Sum | core/vibedpn/engine/probe.py:27-29 | padding an odd byte and adding the words is the specified sum |
| Probes.FoldOnce | core/vibedpn/engine/probe.py:30-31 | one fold keeps the sum modulo 65535 and makes it smaller |
| Probes.EchoRequest | core/vibedpn/engine/probe.py:35-40 | the packet is an echo request of 22 bytes with its id, its sequence and the text of the probe, and carries the checksum of itself with a zero field |
| Probes.RequestChecks | core/vibedpn/engine/probe.py:35-40 | summed with its own checksum a request has checksum 0, for every id and sequence |
| Probes.ReplyBehindAnyHeader | core/vibedpn/engine/probe.py:43-51 | behind any IP header exactly the reply with its id and sequence is accepted |

## Left out

- `failopen: true`: falling through to the main table is the chosen outcome there.
- Rules of others are kept with priority, fwmark and table only; a mask of a foreign fwmark, a source or an interface selector is not part of the model.
- KillSwitch.RouterHost.ApplyRouter: the rules of our transit group are given per network as `router_docker_user_rules` builds them, not spelled out.
- DockerUser.Sync: a group of rules is compared as a multiset; the two iptables backends are one, whose listing is one command. A program that is missing behind the start, such as nft, is a refused command.
- The text of the nftables ruleset and of wg0.conf: a ruleset is its sets, its marks and the chain that marks LAN packets, a configuration file its rendering as a value; restrict-to-private-range rules, NAT and the match on the AdGuard user are not modelled.
- Rulesets.PolicyWins: how a packet of a device without a MAC is matched, by its address alone, is said by the chain (`Rulesets.PolicyOf`) and not by the lemma.
- Which networks of routing.networks hold an address is a parameter (`around`) of the chain, not computed.
- BoxStates.BoxState.Edit: an edit changes a valid configuration into a valid one with the same network, and nobody else writes the file; parsing is not modelled. The watchers are the rounds RouterHost.Watch is given, not their task table.
- ChannelSets.FillScriptRenews: an address twice in one answer is one element.
- Resolvers.Resolver.Resolve: a call takes no time and calls do not overlap; the DoH exchange is an arbitrary answer or an error.
- The list reader (core/vibedpn/api/lists.py) appears only as the lists given to Resolvers.Resolver.SetLists, with the current configuration.
- Names are ASCII; other case folding is not modelled.
- Learning.Learner.Observe: the evidence from before the rules changed is inherited as it was, not derived from the history of the earlier rules.
- The journal of the panel, the source, times and hits of a stored name, and log items that `parse_page` skips.
- SmartLoops.SmartLoop.Round: configuration objects that are equal may be the same or not, as the caller says; resolver, loop and owner act one after the other.
- WgRegistry.FitsExactly: subnets have at least four addresses, as the configuration demands; key pairs are opaque texts.
- Tunnels.TunnelFiles.Commit: a power cut between the two files is not a fault of the model; the next `ensure_server` brings them in step from any state.
- ClientHellos.ParserInvertsEncoder: a ClientHello spread over several records; the relay reads one record.
- The ways of the relay (`Relay.routes`, SOCKS, sockets and timeouts).
- ApplyHandshakes.Handshake.Apply: files are read and written whole except for the request, which is empty while it is rewritten; request times strictly increase; one `apply` command at a time; systemd starting it is not modelled, and the loop is cut after any number of rounds.
- Shutdowns.Process.Shutdown: exit codes, signals and the length of the timeout.
- doctor, compose, bootstrap, backup, detect, the FastAPI routes, the other commands of the CLI and the pages of the panel: reports, wrappers and presentation.
