# dualnet in Dafny

dualnet is a mesh VPN. A compiler turns one schema of the whole network into a routing table per node, and
a runtime carries packets between nodes with a stateful cipher, batched input and output and a stamped peer
protocol. This project models both and proves what they promise. Check it with
`dafny verify dfyconfig.toml`.

## The parts

| modules | what they model |
|---|---|
| `Schema`, `Compile`, `NetworkCompiler` | links, branches and paths; gateway inference; rule derivation, condition restating, deduplication, the own-tun sort; the compiler as a whole |
| `Routing`, `Tables`, `Mesh`, `UpPath`, `DownPath`, `Orientation`, `Concrete`, `Example`, `Limits`, `Loops` | what a table means, packets crossing compiled tables hop by hop, and the theorems that the schema's meaning survives; networks that meet their demands, and networks that break one each |
| `KernelPlan`, `KernelApply`, `KernelRouting`, `KernelReturn`, `KernelOverlap`, `KernelPath` | an ordered forwarding policy lowered to policy routing and applied to the kernel's tables, against a model of Linux rules, tables and longest-prefix match |
| `Router`, `MatchCache`, `Deployed`, `Trips` | the packet router, its cached matchers, the router on compiled tables, and packets over any tables it accepts |
| `ChaChaRounds`, `Buffers`, `ChaCha4`, `ChaChaVectors`, `BlockCounter`, `Octets` | the four-round ChaCha keystream and its buffered, in-place use |
| `Framing`, `Packets`, `Transport` | frames, datagrams, envelopes, and a stream link end to end |
| `WriteBuffer`, `ReadAhead`, `Batches` | the batching writer and flush group, the prefetching reader, packet batches |
| `Peers`, `Stamps` | the peer registry, freshness, control datagrams |
| `Health`, `Finalizer`, `Dialing` | the healthcheck driver, the egress finalizer, the reconnecting stream sender |
| `UnionFind` | union-find with path halving |

`Common` holds Option, Result and facts about sequences.

## The main results

- **Up-path** (`UpPath.UpPathPreserved`): a packet that enters at the origin tun and is run through the
  compiled tables crosses exactly the up-links of the first branch whose condition held at the origin and is
  finalized at that branch's gateway through its egress, however health changes on the way.
- **Replies** (`DownPath.RepliesComeHome`): from any gateway the processed packet reaches the origin tun,
  even where branches share and then split down-links.
- **Dead rules** (`Orientation.OrientedExactly`, `Trips.DeadRulesExactly`): a network that compiles has a row
  whose target cannot send exactly if some gateway branch has no down-links and its gateway does not send on
  a connection named as the origin's tun.
- **Kernel paths** (`KernelPath.KernelPathPreserved`): a kernel path, compiled and lowered, sends a packet by
  the egress of its first branch that holds. `KernelReturn.LegsReturnToLan`: replies to a source prefix go
  back to the LAN whatever the policy says.
- **Kernel policy** (`KernelRouting.PolicyPreserved`): for default-bound traffic the lowered plan picks the
  egress of the first branch that holds, for any overlapping prefix sets. `KernelApply.Apply` shows that the
  tables the theorem speaks of are what the flushes and loads leave in the kernel. Where egress and geo tables
  meet the theorem is false, because loading a geo set flushes the default route of the egress whose table it
  takes, and `KernelOverlap.OverlapExactly` says for which packets.
- **Routing refines the raw table** (`Router.RouteAll`): over any packets and table reloads the compiled
  lists and caches choose what a first-match walk of the raw rules would. On compiled tables that is one hop of
  the mesh (`Deployed.Handle`), so the theorems above speak of the running router.
- **Whose reply** (`Trips.ReplyOwner`): over every run of many packets, a reply goes to the owner of the
  packet it answers exactly if nobody else has used that address at that finalizer since.
- **One keystream** (`ChaCha4.Cipher.XORKeyStream`): whatever the split into calls, in place or not, byte i
  is XORed with byte i of the keystream of RFC 8439 at two double rounds. `ChaChaVectors` holds the functions
  behind it to the examples of sections 2.1.1 and 2.3.2.
- **End to end** (`Transport.EndToEnd`): messages through envelope, batching writer in any interleaving and
  framing with any head length arrive in order, as far as they were flushed.
- **Concurrent protocols** (`ReadAhead.ReaderSafe`, `WriteBuffer.WriterConserves`, `Peers.RegistrySafe`,
  `Stamps.StampsRise`, `Dialing.DialSafe`, `Finalizer.TracksLastWriter`, the `Health` theorems): safety over
  every run of the step relation.

## What the mesh theorems ask of a schema

`Mesh.Sound` collects it, and each theorem asks only for what its own direction needs: `Mesh.UpClear` of the branch
taken, `Mesh.DownClear` of the path the reply belongs to. Beyond what loading and compiling check there are five
demands, and for each but the first `Limits` or `Loops` has a network that loads, compiles and loses packets
because it breaks it.

- A branch has at most one condition, which is all the route syntax can write
  (internal/netschema/dsl.go:153-155). `Tables.RestatesInFull` shows what happens to a longer list: a
  downstream rule keeps only its dst_in conditions.
- A branch with a gateway has down-links (`Limits.NoDownLinksStrand`).
- A branch does not use a link twice, upwards (`Loops.RepeatedLinkLoops`) or downwards
  (`Loops.RepeatedDownLinkLoops`).
- Two different paths do not relay one link differently (`Limits.CrossedPathsMislead`).
- Links, tuns, egresses and conditions have no bar in their names (`Limits.BarLosesTraffic`), and egresses have no
  arrow (`Limits.ArrowHidesDivergence`). Node names are free.

`Example.SplitApplies` and `Example.ForkApplies` are networks that meet all of this, the second with a condition
restated at its gateway. `World` also fixes what is outside: tun identities are distinct, a prefix set is the
same on every node that holds its condition, and every sending link currently accepts.

## Model

| member | source | states |
|---|---|---|
| Schema.BuildLinkMap | internal/netschema/schema.go:276-282 | indexes the links by name, the last of equal names winning |
| Schema.LinkMapExact | internal/netschema/schema.go:276-282 | with unique names the index holds exactly the declared links, each under its own name |
| Schema.FindOriginTun | internal/netschema/schema.go:641-660 | the capturing tun, else the only tun, else none |
| Schema.OriginTunIsTun | internal/netschema/schema.go:641-660 | an origin tun, when there is one, is a tun connection of the node |
| Schema.OriginTunExactly | internal/netschema/schema.go:641-660 | with a capturing tun the origin tun is one that captures, and otherwise it is the only tun, if there is just one |
| Schema.InferBranchGateways | internal/netschema/schema.go:236-258 | every branch of a path gets the terminus of its last up-link, or the whole path is refused |
| Schema.InferGateways | internal/netschema/schema.go:262-273 | succeeds exactly if every branch has a gateway its down-path starts at, and then every branch carries it |
| Schema.GatewayExactly | internal/netschema/schema.go:236-258 | a branch has a gateway exactly if it is local or its up-path ends where its down-path starts |
| Schema.ValidatePath | internal/netschema/schema.go:492-524 | accepts exactly the userspace paths with known non-src conditions, an egress, known links and a default that comes last |
| Schema.ValidateKernelPath | internal/netschema/schema.go:712-753 | accepts exactly local src_in branches, then dst_in branches, then one default, each by an egress of the node |
| Compile.NodeTuns | internal/netschema/compile.go:34-50 | one connection per tun of a userspace node, none on a kernel node |
| Compile.NodeConnections | internal/netschema/compile.go:92-133 | a node's connections are its tuns, then its end of every link it takes part in, in link order |
| Compile.DeriveUp | internal/netschema/compile.go:229-251 | the up rules of a branch relay each link to the next and finalize at the gateway; refused exactly if two consecutive links do not meet |
| Compile.DeriveDown | internal/netschema/compile.go:252-274 | the down rules relay each link to the next and deliver at the origin tun; refused exactly if they do not chain home |
| Compile.DeriveBranch | internal/netschema/compile.go:206-274 | the rules of one branch, or refusal exactly if the branch is not oriented |
| Compile.DerivePath | internal/netschema/compile.go:193-276 | the rules of one path in branch order |
| Compile.DerivePending | internal/netschema/compile.go:172-276 | all pending rules in path order, or refusal exactly if some path is not oriented |
| Compile.CollectActions | internal/netschema/compile.go:316-361 | the set of actions each arrival has among the relay rules |
| Compile.RestateConditions | internal/netschema/compile.go:332-343 | the dst_in conditions of a branch, in order |
| Compile.QualifyRules | internal/netschema/compile.go:316-361 | relay rules carry their branch's dst_in conditions exactly where arrivals diverge; refused exactly if a diverging branch cannot be told apart or follows a catch-all |
| Compile.EmitRules | internal/netschema/compile.go:367-394 | each node gets its rules in derivation order without duplicates; refused exactly if one match finalizes two ways |
| Compile.SortTunFirst | internal/netschema/compile.go:289-300 | the stable sort is the own-tun reply rows followed by the others, each in their order |
| NetworkCompiler.FindHealthHome | internal/netschema/compile.go:507-523 | the node whose path has the probed gateway branch |
| NetworkCompiler.HealthHomeExactly | internal/netschema/compile.go:507-523 | a healthcheck probes from the node of the first path of its name, exactly if just one branch of it leads to the gateway |
| NetworkCompiler.OriginConditions | internal/netschema/compile.go:183-211 | each origin refers to the conditions of its branches |
| KernelPath.KernelPathPreserved | internal/netschema/compile.go:193-204 | the kernel path theorem: the compiled node, lowered, sends traffic outside the main table by the egress of the first branch of the path that holds |
| KernelPath.OfficeApplies | internal/netschema/compile.go:193-204 | a network with one kernel node and two uplinks loads and meets what the theorem asks: its legs leave by one uplink and everybody else by the other |
| KernelPath.KernelBranchChosen | internal/netschema/schema.go:712-753 | a kernel path always has a first branch that holds |
| KernelPath.ValidatorsAgree | internal/config/validate.go:415-456 | a kernel path that loads compiles to a forwarding policy that the check of generated configurations accepts |
| NetworkCompiler.EmitConditions | internal/netschema/compile.go:414-487 | each node is given exactly the conditions it refers to and the healthchecks it hosts; refused exactly if a healthcheck is used away from its tun node |
| NetworkCompiler.PlaceRules | internal/netschema/compile.go:278-283 | derivation, restating and deduplication together |
| NetworkCompiler.AssembleNode | internal/netschema/compile.go:15-54 | one node's connections, sorted routes, forwarding policy and conditions |
| NetworkCompiler.CompileNetwork | internal/netschema/compile.go:15-79 | succeeds exactly on compilable schemas, and then gives each node its compiled configuration |
| NetworkCompiler.RuleKinds | internal/netschema/compile.go:172-276 | every derived rule is an origin, up-relay, gateway, down-relay or delivery rule of one branch |
| Tables.RouteKeyInjective | internal/netschema/compile.go:367-394 | rows with bar-free names, one condition at most and one key are one row |
| Tables.ActionKeyInjective | internal/netschema/compile.go:319-331 | rules with one action key and no arrow in their egresses share egress and target |
| Tables.RestatesInFull | internal/netschema/compile.go:332-343 | restating keeps a condition list whole exactly if all of it is dst_in |
| Tables.EmittedSound | internal/netschema/compile.go:367-394 | every emitted row comes from a pending rule of that node |
| Tables.EmittedComplete | internal/netschema/compile.go:367-394 | every pending rule's row is emitted on its node |
| Tables.SortInvisible | internal/netschema/compile.go:289-300 | where no own-tun row is eligible the sort changes no choice |
| Tables.SortPrefersTun | internal/netschema/compile.go:289-300 | where an own-tun row is eligible it is chosen |
| Tables.TableWalk | internal/netschema/compile.go:367-394 | if the eligible rules of a prefix agree on an action, the deduplicated table takes it |
| Mesh.SomeBranchChosen | internal/netschema/schema.go:497-524 | a loaded userspace path always has a first branch that holds |
| UpPath.GuardRejects | internal/netschema/compile.go:316-361 | a restated rule of a branch not chosen rejects the packet |
| UpPath.GuardPasses | internal/netschema/compile.go:316-361 | the chosen branch's rule lets the packet pass, whatever health does later |
| UpPath.OriginHop | internal/netschema/compile.go:212-232 | the origin sends the packet down the first branch that holds |
| UpPath.UpArrival | internal/netschema/compile.go:229-251 | a packet of the chosen branch arriving over an up-link goes to the next one, or is finalized at the gateway |
| UpPath.UpPathPreserved | internal/netschema/compile.go:172-251 | the up-path theorem, for any branch that is clear on the way up |
| DownPath.HomeArrival | internal/netschema/compile.go:289-300 | a reply arriving over a link that ends at the origin is delivered to its tun |
| DownPath.RelayArrival | internal/netschema/compile.go:252-274 | elsewhere the reply follows the lowest branch that holds the link |
| DownPath.ReplyRun | internal/netschema/compile.go:252-274 | the run home ends, by the measure (lowest branch holding the link, links left in it) |
| DownPath.RepliesComeHome | internal/netschema/compile.go:252-300 | the reply theorem, for any path that is clear on the way down |
| Orientation.RowsOriented | internal/netschema/compile.go:92-153 | in any network that compiles and whose gateways without down-links send on the tun name, every row's target can send and its source can receive |
| Orientation.OrientedExactly | internal/netschema/compile.go:244-251 | with bar-free names that condition is exact |
| Orientation.ConditionsExactly | internal/netschema/compile.go:414-487 | a node is given a condition exactly if a branch that starts there or a rule placed there names it, or it is a healthcheck probed from there |
| Orientation.ConditionsEvaluable | internal/netschema/schema.go:504-512 | every condition given to a userspace node is known and not about sources |
| Orientation.RoundTrip | internal/netschema/compile.go:172-300 | some branch is chosen, the packet takes it, and its reply comes home |
| Example.SplitApplies | internal/netschema/compile.go:15-79 | a network with a local branch and a gateway branch loads, compiles and meets what the theorems ask: its packets take the chosen branch and replies come home |
| Example.ForkApplies | internal/netschema/compile.go:302-364 | so does a network whose branches share an up-link: the gateway rule is restated with the condition |
| Concrete.SendsExactly | internal/netschema/compile.go:92-153 | a node sends on its tuns and on the links it is the sender of, and on nothing else |
| Concrete.IdSettersServed | internal/netschema/compile.go:92-133 | in a network that compiles, a connection that sets the id of a tun receives from a listener that mints ids, and the tun is one of its node |
| Concrete.FitCompiles | internal/netschema/compile.go:15-79 | a tidy network whose accepted rules fit their nodes compiles |
| Concrete.NoConflict | internal/netschema/compile.go:367-394 | the running check accepts exactly the rules of which any two that finalize on one node and match alike act alike |
| Limits.NoDownLinksStrand | internal/netschema/compile.go:244-251 | a network without down-links compiles; its gateway row is dead and every packet is lost there |
| Limits.BarLosesTraffic | internal/netschema/compile.go:367-394 | a network with a bar in two names compiles; two origin rows share a key, one is dropped, and unmatched traffic is lost |
| Limits.CrossedPathsMislead | internal/netschema/compile.go:306-364 | a network with two paths over one link compiles; the rule derived first finalizes the other path's packets |
| Limits.ArrowHidesDivergence | internal/netschema/compile.go:319-331 | a network with an arrow in an egress compiles; two different actions share a key, nothing is restated, and the default branch is not taken |
| Loops.RepeatedLinkLoops | internal/netschema/compile.go:233-242 | a network whose branch uses an up-link twice compiles; the run of a packet that has crossed the first link never ends, and the chosen branch is not taken |
| Loops.RepeatedDownLinkLoops | internal/netschema/compile.go:252-274 | a network whose branch uses a down-link twice compiles; the run of a reply, from where its first down-link ends, never ends |
| KernelPlan.ValidateForward | internal/config/validate.go:415-456 | accepts exactly src_in branches, then dst_in branches, then one default, each with a known egress |
| KernelPlan.PinsAgreePairwise | internal/kernelnode/kernelnode.go:138-149 | the running check for pinned endpoints accepts exactly pairwise agreement |
| KernelPlan.LowerEgresses | internal/kernelnode/kernelnode.go:128-150 | one default table per egress and one pin per endpoint; refused exactly on a pin conflict |
| KernelPlan.LowerSources | internal/kernelnode/kernelnode.go:179-192 | the plan with one rule per source prefix at consecutive priorities and one return route per new prefix |
| KernelPlan.Lower | internal/kernelnode/kernelnode.go:126-203 | the plan of a policy; refused exactly on a pin conflict or an unknown condition |
| KernelApply.LoadGeo | internal/kernelnode/run_linux.go:189-214 | the table is flushed, then holds the prefixes up to the first one repeated; fails exactly if the set cannot be read or repeats a prefix, and then what the table held before is gone |
| KernelApply.Apply | internal/kernelnode/run_linux.go:118-185 | succeeds exactly if no table is given a prefix twice, and then every table of the plan holds what the routing theorems take it to hold |
| KernelApply.LoweredAddsOnce | internal/kernelnode/kernelnode.go:126-203 | in a lowered plan only a geo set that repeats a prefix can be refused, and no two sets share a table |
| KernelApply.ReloadGeo | internal/kernelnode/run_linux.go:218-231 | a reload leaves the kernel with the plan whose set is the new one, or after a failure the part of it that was accepted, never the previous one |
| KernelRouting.BestIsLongest | internal/kernelnode/kernelnode.go:206-237 | the table lookup finds a longest covering prefix, and nothing exactly if none covers |
| KernelRouting.InstallKeepsOrder | internal/kernelnode/kernelnode.go:241-258 | rules added in ascending priority stay in the order they were added |
| KernelRouting.EgressTableContents | internal/kernelnode/kernelnode.go:132-136 | an egress's table holds its default route and nothing else |
| KernelRouting.GeoTableContents | internal/kernelnode/run_linux.go:187-214 | a destination branch's table holds its prefixes, all by its egress, and nothing else |
| KernelRouting.BranchAnswers | internal/kernelnode/kernelnode.go:171-199 | the rules of a branch answer exactly if the branch holds, and then with its egress |
| KernelRouting.PlanInOrder | internal/kernelnode/kernelnode.go:38-45 | the kernel walks the main table and then the branches in policy order |
| KernelRouting.PolicyPreserved | internal/kernelnode/kernelnode.go:126-203 | the policy theorem, for up to 50 egresses beside destination branches, 1001 source prefixes and 1001 destination branches |
| KernelRouting.PinnedEndpointLeavesByUnderlay | internal/kernelnode/kernelnode.go:84-96 | traffic to a pinned endpoint leaves by its underlay whatever its source and whatever the policy |
| KernelRouting.MainFirst | internal/kernelnode/kernelnode.go:38-45 | the main-table rule is walked first, whatever the policy |
| KernelReturn.MainRoutesExactly | internal/kernelnode/kernelnode.go:138-192 | the main routes of a plan are exactly the pinned endpoints and, with a LAN, an on-link route for every source prefix, none twice |
| KernelReturn.MainDecides | internal/kernelnode/kernelnode.go:152-158 | whatever the main table covers with more than its default it decides, for every source and policy |
| KernelReturn.LegsReturnToLan | internal/kernelnode/kernelnode.go:187-190 | traffic to a source prefix that no host route, pin or other source prefix covers better goes to the LAN, whatever its source |
| KernelOverlap.TablesMeet | internal/kernelnode/kernelnode.go:38-45 | egress and geo tables meet exactly with more than 50 egresses and a destination branch |
| KernelOverlap.TableAnswers | internal/kernelnode/run_linux.go:131-214 | an egress table that no geo set takes sends everything by its egress; one that a set takes answers only inside the set's prefixes, by the set's egress |
| KernelOverlap.OverlapExactly | internal/kernelnode/run_linux.go:131-214 | where the tables meet, a packet leaves as the policy says exactly if the branch that decides keeps its table or is a destination branch, or a source branch lost it and the captor of the table, or failing that the first later branch that answers, has the same next hop |
| KernelOverlap.CrowdedFails | internal/kernelnode/kernelnode.go:38-45 | a configuration with 51 egresses: one packet leaves by the wrong egress, one is left to a later branch, and with a default by the 51st egress one has no next hop |
| ChaChaRounds.FastRounds | internal/cipher/chacha4.go:127-155 | the rounds from cached words equal the reference rounds, for any quarter round |
| ChaChaRounds.DoubleRound | internal/cipher/chacha4.go:145-155 | one double round on named words is a column round and a diagonal round on the state |
| ChaChaRounds.ColumnWords | internal/cipher/chacha4.go:145-150 | a column round word by word |
| ChaChaRounds.DiagonalWords | internal/cipher/chacha4.go:151-155 | a diagonal round word by word |
| ChaCha4.XorWord | internal/cipher/chacha4.go:81-86 | XORing a little-endian word XORs its four bytes |
| ChaCha4.AddXor | internal/cipher/chacha4.go:81-86 | four bytes are XORed with a sum of words and nothing else is touched |
| ChaCha4.Precompute | internal/cipher/chacha4.go:127-134 | the cached words are right for every counter |
| ChaChaVectors.QuarterIsHalfSteps | internal/cipher/chacha4.go:66-79 | the quarter round is four add-xor-rotate half steps by 16, 12, 8 and 7, each rotation as two shifts |
| ChaChaVectors.ShiftsRotate | internal/cipher/chacha4.go:66-79 | two shifts rotate a number: x * 2^k modulo 2^32 plus x / 2^(32-k), for all words |
| ChaChaVectors.QuarterVector | internal/cipher/chacha4.go:66-79 | the example of section 2.1.1 of RFC 8439 |
| ChaChaVectors.BlockVector | internal/cipher/chacha4.go:119-155 | key, counter and nonce of section 2.3.2 of RFC 8439 make its initial state, and ten double rounds lead to its final one |
| ChaChaVectors.SumVector | internal/cipher/chacha4.go:156-171 | the two states of the example add up to its output words |
| ChaChaVectors.SerializedVector | internal/cipher/chacha4.go:81-86 | the output words serialize to the bytes of the example |
| ChaChaVectors.FourRounds | internal/cipher/chacha4.go:119-177 | byte i of block b of the keystream comes from two column and two diagonal rounds of the state with counter b |
| ChaCha4.StreamGenuine | internal/cipher/chacha4.go:106-115 | the keystream is the key blocks in counter order |
| BlockCounter.CounterWraps | internal/cipher/chacha4.go:119-177 | block n has counter n modulo 2^32 |
| ChaCha4.XorTwice | internal/cipher/chacha4.go:179-212 | the same stretch of keystream twice gives the data back |
| ChaCha4.Cipher.constructor | internal/cipher/chacha4.go:106-115 | a new cipher stands at position 0 of the keystream of its key and nonce |
| ChaCha4.Cipher.Block | internal/cipher/chacha4.go:119-177 | whole blocks are XORed with the next blocks of the keystream |
| ChaCha4.Cipher.Leftover | internal/cipher/chacha4.go:185-195 | leftover bytes are the next bytes of the keystream |
| ChaCha4.Cipher.Tail | internal/cipher/chacha4.go:206-211 | a partial block leaves the unread rest of its keystream in the buffer |
| ChaCha4.Cipher.XORKeyStream | internal/cipher/chacha4.go:179-212 | the keystream theorem: continues from the previous call, touches only its range, in place or not |
| Buffers.MasksFurther | internal/cipher/chacha4.go:179-212 | two consecutive stretches are one, in place or not |
| Framing.HeaderRoundTrip | internal/wire/framing.go:38-40 | exactly the lengths up to 65535 survive their two bytes |
| Framing.HeaderLayout | internal/wire/framing.go:38-40 | the high byte of the length comes first |
| Framing.FrameByte | internal/cipher/chacha4.go:258-310 | payload byte i of a frame is XORed with its keystream byte if there is no head limit or i is below it, and in clear otherwise |
| Framing.FrameHeader | internal/cipher/chacha4.go:293-310 | the two length bytes are always XORed |
| Framing.FrameAdvances | internal/cipher/chacha4.go:293-310 | a frame takes two bytes of the keystream and one for each hidden byte |
| Framing.FrameRoundTrip | internal/cipher/chacha4.go:293-349 | one frame is read back whatever follows it, unless the buffer cannot hold it, and both ends have used the same keystream |
| Framing.StreamRoundTrip | internal/cipher/chacha4.go:258-349 | any frames arrive in order for every head length, and nothing else does |
| Framing.StreamJoin | internal/cipher/chacha4.go:286-310 | frames written in two batches are the frames written in one |
| Framing.HeadZeroIsPlain | internal/cipher/chacha4.go:252-263 | with no head limit a frame is the keystream over header and payload |
| Framing.FrameWriter.WriteFrame | internal/cipher/chacha4.go:293-310 | emits the frame through the scratch buffer and fails exactly on a short write |
| Framing.FrameWriter.Write | internal/cipher/chacha4.go:272-284 | emits the bytes XORed, as many as the writer below takes, and fails exactly on a short write |
| Framing.SendFrame | internal/wire/framing.go:31-37 | refuses exactly the packets the length cannot hold, changing nothing, and otherwise fails exactly on a short write |
| Framing.SendPlain | internal/wire/framing.go:38-45 | header and payload as two writes emit the frame with head 0, or a beginning of it on a short write |
| Framing.FrameReader.ReadFull | internal/cipher/chacha4.go:335-345 | fills the front of the buffer, or fails exactly if the input runs out |
| Framing.FrameReader.ReadFrame | internal/cipher/chacha4.go:331-349 | gives the payload, or fails exactly on a short buffer or the end of input |
| Packets.OpenSealed | internal/cipher/chacha4.go:384-425 | opening a sealed datagram gives the payload back for any nonce and head |
| Packets.SealedByte | internal/cipher/chacha4.go:377-397 | a datagram is the nonce and then the payload, byte i XORed with keystream byte i if there is no head limit or i is below it, and in clear otherwise |
| Packets.Seal | internal/cipher/chacha4.go:384-397 | nonce, obfuscated head, clear tail, in the given buffer if it is large enough |
| Packets.SealInPlace | internal/cipher/chacha4.go:403-413 | the same bytes as Seal, in place; refuses exactly a region shorter than a nonce |
| Packets.Open | internal/cipher/chacha4.go:415-425 | de-obfuscates in place; refuses exactly a datagram shorter than a nonce |
| Packets.EnvelopeRoundTrip | internal/wire/envelope.go:50-66 | a parsed envelope is the one put |
| Packets.EnvelopeLayout | internal/wire/envelope.go:43-55 | the owner, a byte that is one exactly for a processed packet, and the packet |
| Packets.EnvelopeCanonical | internal/wire/envelope.go:57-66 | putting a parsed blob back gives it exactly if its flag byte has no other bit |
| WriteBuffer.Writer.constructor | internal/pktbuf/writer.go:32-38 | an empty buffer of the given capacity |
| WriteBuffer.Writer.FlushLocked | internal/pktbuf/writer.go:88-97 | hands over the buffered packets and rewinds; nothing if there are none |
| WriteBuffer.Writer.Reserve | internal/pktbuf/writer.go:45-53 | takes the lock and leaves room at the tail, flushing first if it must |
| WriteBuffer.Writer.Put | internal/pktbuf/writer.go:40-45 | building a packet changes nothing committed |
| WriteBuffer.Writer.Commit | internal/pktbuf/writer.go:56-64 | records the built bytes, flushes a full batch, releases the lock |
| WriteBuffer.Writer.Flush | internal/pktbuf/writer.go:68-74 | leaves the buffer empty |
| WriteBuffer.Writer.TryFlush | internal/pktbuf/writer.go:78-83 | flushes unless the lock is held |
| WriteBuffer.FlushGroup.FlushAll | internal/pktbuf/flushgroup.go:53-66 | a tick flushes every registered writer whose lock is free and leaves the others alone |
| WriteBuffer.StepKeeps | internal/pktbuf/writer.go:45-97 | every step keeps conservation, tiling and bounds |
| WriteBuffer.FlushesExactly | internal/pktbuf/writer.go:45-83 | a batch is handed over exactly when a reservation finds no room, a commit fills it, or a flush finds the writer not held |
| WriteBuffer.CommitsDraft | internal/pktbuf/writer.go:45-64 | after any run a commit adds one packet of the given length, whose bytes are those written last since the reservation |
| WriteBuffer.EnabledRuns | internal/pktbuf/writer.go:45-97 | every sequence of enabled events is a run |
| WriteBuffer.WriterConserves | internal/pktbuf/writer.go:45-97 | in every interleaving: flushed then buffered is committed, in order and byte for byte; views tile the arena within its bounds |
| WriteBuffer.CommittedGrows | internal/pktbuf/writer.go:56-97 | commits and flushes are never taken back |
| WriteBuffer.TilesTotal | internal/pktbuf/writer.go:56-61 | a batch holds exactly the used bytes |
| Transport.FlushViews | internal/conn/tcp.go:130-143 | frames every view in order; fails exactly on a view that is too large or written short, with the frames before it and the part taken of its own on the wire |
| Transport.BatchingInvisible | internal/pktbuf/writer.go:45-97 | how packets were batched does not show on the wire |
| Transport.EndToEnd | internal/conn/tcp.go:111-143 | the end-to-end theorem |
| Transport.ParsedBlobs | internal/wire/envelope.go:50-66 | enveloped messages parse back in order |
| ReadAhead.OneOwner | internal/pktbuf/reader.go:70-112 | where a batch is held it is nowhere else, and a drained batch can always go back |
| ReadAhead.StepKeeps | internal/pktbuf/reader.go:70-112 | every step keeps ownership, the flags and conservation |
| ReadAhead.ReaderSafe | internal/pktbuf/reader.go:47-112 | the reader theorem: one owner per batch, giving back never blocks, delivered is a prefix of what the good fills published, and all of it at the end of a source that failed or was never closed |
| ReadAhead.NeverStuck | internal/pktbuf/reader.go:70-112 | only a running fill can hold the reader up |
| ReadAhead.DrainedIsStable | internal/pktbuf/batch.go:3-7 | the batch being drained does not change under the consumer |
| Batches.SplitGRO | internal/conn/udp.go:314-326 | the new views tile the read; all but the last have the segment size; there are as many as segments are needed |
| Batches.TileJoins | internal/conn/udp.go:311-326 | tiling views put together are the bytes read |
| Batches.FitsExactly | internal/pktbuf/batch.go:49-51 | the views of a read stay within the room of a batch exactly if the read is at most that many segments long |
| Peers.Registry.constructor | internal/peers/peers.go:54-64 | an empty registry |
| Peers.Registry.Register | internal/peers/peers.go:74-117 | adopts, finds or mints the id, refuses exactly a stale stamp or a new peer over the cap, rebinds key and sink |
| Peers.Registry.SinkFor | internal/peers/peers.go:152-166 | the sink of the owner's peer, or of the single peer; none exactly if not accepted |
| Peers.Registry.GC | internal/peers/peers.go:170-193 | drops exactly the idle peers and the keys that led to them, and counts them |
| Peers.RegisterConsistent | internal/peers/peers.go:74-117 | every key leads to a live peer that carries it, still |
| Peers.RegisterCapped | internal/peers/peers.go:93-99 | a positive cap holds, still |
| Peers.CollectConsistent | internal/peers/peers.go:170-193 | collection keeps both |
| Peers.FindableStep | internal/peers/peers.go:108-112 | an accepted register keeps every peer findable by its key exactly if it takes nobody's key |
| Peers.CollectFindable | internal/peers/peers.go:170-193 | a collection keeps every live peer findable |
| Peers.SilentPeersDropped | internal/peers/peers.go:170-193 | after any run a collection keeps a live peer exactly if a message of it was accepted within the ttl |
| Peers.ClaimAdopted | internal/peers/peers.go:84-116 | a claimed id is adopted whatever the key, and no other peer is touched |
| Peers.MintIdempotent | internal/peers/peers.go:84-112 | a register without an id that is sent again gets the same id exactly if it has a key or the empty key led somewhere |
| Peers.LostKey | internal/peers/peers.go:108-112 | a run from the empty registry that leaves a live peer without its key |
| Peers.RegistrySafe | internal/peers/peers.go:74-117 | the registry theorem over any arrivals and collections, in both modes: consistent, capped, stamps rise, and the sink is the newest's |
| Peers.NoReplay | internal/peers/peers.go:77-107 | after any run, a message for a peer heard of since its last eviction is accepted exactly if its stamp is zero or newer than every stamp accepted since the last zero, and one for a new peer exactly if there is room |
| Stamps.StampsRise | internal/conn/udp.go:194-206 | concurrent callers get strictly increasing stamps exactly as long as none is drawn after the largest with the clock not ahead, and each stamp is its clock reading whenever that is ahead |
| Stamps.ControlRoundTrip | internal/conn/control.go:28-53 | a control datagram is decoded as it was encoded, for any tag |
| Stamps.ControlLayout | internal/conn/control.go:28-37 | kind, id, flags, the stamp with its high byte first, and the tag over all of it |
| Stamps.OnlyEncodings | internal/conn/control.go:38-53 | only encodings are decoded |
| Health.Driver.Init | internal/healthcheck/healthcheck.go:106-113 | the run-loop baseline at the start time |
| Health.Driver.Step | internal/healthcheck/healthcheck.go:118-165 | one tick up to its reconnects: reconnect, edge, probe and new state |
| Health.LateReturnForgotten | internal/healthcheck/healthcheck.go:141-145 | a run in which a return during the reconnects is overwritten, and the path is failed again although it answered within the timeout |
| Health.Driver.SetHealthy | internal/healthcheck/healthcheck.go:167-174 | an edge exactly on a change |
| Health.UpEdgeEarned | internal/healthcheck/healthcheck.go:148-163 | after any run a tick fires an up edge exactly if the path is down, it does not reconnect, something new has returned, and the unbroken row of ticks that each saw a new return spans the grace period |
| Health.DownOnlyAfterSilence | internal/healthcheck/healthcheck.go:119-147 | reconnects and down edges need more than the timeout of probed silence, except for a return during the last reconnects, are more than the timeout apart, and in lazy mode come after more than the timeout of probing |
| Health.SilenceReconnects | internal/healthcheck/healthcheck.go:119-147 | in every mode and every run, also with returns during reconnects, a tick reconnects exactly if it probes and its window has been silent longer than the timeout, and goes down exactly if it was up then |
| Health.TickProbes | internal/healthcheck/healthcheck.go:164-164 | after any run a tick probes exactly if it does not reconnect and the cadence is fixed or data was sent since the last tick that did not reconnect |
| Health.ResumedWindowSurvives | internal/healthcheck/healthcheck.go:120-135 | a resumed lazy window does not fail on its first tick |
| Health.EdgesAlternate | internal/healthcheck/healthcheck.go:167-174 | edges alternate and the last one is the state |
| Finalizer.Tracker.Submit | internal/finalizer/finalizer.go:100-133 | reflects a ping; otherwise egresses and remembers the reply path, the read-locked path changing nothing |
| Finalizer.Tracker.Reply | internal/finalizer/finalizer.go:163-184 | a reply goes to the remembered target as a processed packet, and keeps its flow alive |
| Finalizer.Tracker.GC | internal/finalizer/finalizer.go:188-201 | drops exactly the flows idle beyond the ttl |
| Finalizer.TracksLastWriter | internal/finalizer/finalizer.go:100-201 | every entry is its address's most recent non-ping Submit, and a positive cap holds |
| Finalizer.EstablishedSurvive | internal/finalizer/finalizer.go:117-127 | only a brand-new flow is refused, and exactly when the table is full |
| Finalizer.SilentFlowsDropped | internal/finalizer/finalizer.go:163-201 | after any run, collection drops exactly the flows whose address was last heard of longer than the ttl ago, in either direction |
| Dialing.Sender.Flush | internal/conn/tcp.go:123-143 | never dials itself; kicks a dial when disconnected; drops the connection on a failed write or a failed final flush |
| Dialing.Sender.KickDial | internal/conn/tcp.go:147-153 | starts a dial exactly if none runs, the sender is open and the backoff is over |
| Dialing.Sender.DialDone | internal/conn/tcp.go:157-181 | installs the socket, or closes it if closed meanwhile or unusable |
| Dialing.Sender.ResetLocked | internal/conn/tcp.go:183-188 | closes the installed socket, if any |
| Dialing.Sender.Reconnect | internal/conn/tcp.go:190-196 | drops the connection and the backoff |
| Dialing.Sender.Close | internal/conn/tcp.go:198-205 | closed and disconnected |
| Dialing.DialSafe | internal/conn/tcp.go:123-205 | the dial theorem: one dial at most, never while connected, nothing connected once closed, every dialed socket installed or closed once |
| Dialing.FlushDials | internal/conn/tcp.go:123-153 | after any run a flush starts a dial exactly if the sender is open and disconnected, no dial runs, and a backoff has passed since the last failure since the last reconnect |
| Dialing.DialInstalls | internal/conn/tcp.go:157-205 | after any run a finished dial is installed exactly if it got a socket and a cipher and the sender is open, and a connection lasts until a broken write, a reconnect or a close |
| Dialing.StaysClosed | internal/conn/tcp.go:157-205 | a late dial installs nothing after Close |
| MatchCache.Unpack | internal/ipmatch/ipmatch.go:34-41 | a packed word gives back its address, valid bit and result |
| MatchCache.Matcher.Contains | internal/ipmatch/ipmatch.go:52-69 | the cached answer is the table's |
| MatchCache.Matcher.Reload | internal/ipmatch/ipmatch.go:176-183 | a good load brings a fresh cache, a failed one keeps the table |
| MatchCache.Run | internal/ipmatch/ipmatch.go:52-183 | any sequence of lookups and reloads answers as uncached membership would |
| Router.CompileTable | internal/router/router.go:110-176 | refuses exactly the tables with a bad rule; each list is the matching rows in table order; a warning for exactly the targets that cannot send |
| Router.CheckRule | internal/router/router.go:116-145 | a finalize rule must match unprocessed packets and know its egress; target, source and conditions must exist |
| Router.BuildList | internal/router/router.go:163-174 | the rows for one flag and source, wildcards merged in place |
| Router.PassAll | internal/router/router.go:247-254 | passes exactly if every guard does, with uncached membership |
| Router.Dispatch | internal/router/router.go:207-245 | the first eligible target, the destination parsed only when needed |
| Router.ListSelects | internal/router/router.go:155-245 | the first eligible target of a compiled list is the row a first-match walk of the raw table selects |
| Router.RoutePacket | internal/router/router.go:178-183 | routing one packet refines the naive walk for every compiled source and drops for any other |
| Router.RouteAll | internal/router/router.go:178-254 | over any interleaving of packets and reloads of any condition every packet gets the raw table's choice with the tables of that moment |
| Router.SourceRouter | internal/router/router.go:188-202 | binds a compiled source to its two lists; refused only where the raw table drops every packet of the source |
| Router.RouteBound | internal/router/router.go:188-202 | a bound intake does with every packet what the raw table selects |
| Deployed.CompiledAccepted | internal/router/router.go:110-145 | the router accepts every table the compiler makes |
| Deployed.RuntimeAgrees | internal/router/router.go:207-254 | connections, destination sets and probes of a configured node answer as the conditions and identities of the schema |
| Deployed.Handle | internal/router/router.go:178-254 | a router on the compiled table of a node does with every packet what one hop of the mesh does |
| Trips.NoDeadRules | internal/router/router.go:131-134 | no router of a compiled network whose gateways without down-links send on the tun name reports a dead rule |
| Trips.DeadRulesExactly | internal/router/router.go:131-134 | with bar-free names that condition is exact |
| Trips.FinalizeNeedsUnprocessed | internal/router/router.go:116-123 | a finalize row is chosen only for an unprocessed packet |
| Trips.FinalizedAtMostOnce | internal/router/router.go:207-245 | over any accepted tables and any run of many packets each is finalized at most once, is processed only after that, and keeps its owner and its flag |
| Trips.ReplyOwner | internal/finalizer/finalizer.go:100-184 | after any run a reply goes to the owner of the packet it answers exactly if that owner's last submission from the address was not followed by somebody else's |
| Trips.TwoOwnersOneAddress | internal/finalizer/finalizer.go:117-121 | a run in which two owners use one inner address and a reply goes to the wrong one |
| UnionFind.Sets.Add | internal/netsim/plan.go:622-626 | a new element is its own class |
| UnionFind.Sets.Find | internal/netsim/plan.go:628-635 | ends at the class root and changes no class |
| UnionFind.Sets.Union | internal/netsim/plan.go:637-642 | moves one class into the other and touches no third |
| UnionFind.Sets.Components | internal/netsim/plan.go:644-651 | every element once, under its class |
| UnionFind.Halved | internal/netsim/plan.go:630-633 | halving keeps the climb to the root and every class |
| UnionFind.ClassIsRoot | internal/netsim/plan.go:628-635 | an element's class is the root its parents lead to |
| UnionFind.MovedMerges | internal/netsim/plan.go:637-642 | two elements share a class afterwards exactly if they did or were in the two merged |
| UnionFind.ClassesAreConnectivity | internal/netsim/plan.go:637-642 | one class exactly if union calls connect |
| UnionFind.ComponentsAreConnectivity | internal/netsim/plan.go:644-651 | one group exactly if union calls connect |

## Left out

- Schema.FindOriginTun: takes a node's connections in a fixed order; the source walks a map, so with several capturing tuns its pick is not determined.
- NetworkCompiler.CompileNetwork: covers routing, conditions and forwarding policies; keys, MTU, stats, deployment fields and the generic validation of generated configurations are not modelled.
- Mesh theorems: senders accept and deliver at every hop; retries, loss and peers that come and go are not modelled there.
- KernelPath.KernelPathPreserved: the prefixes of a condition, the resolved next hops and the LAN interface are given; file formats and the resolution of next hops are not modelled.
- Deployed.Handle: a connection that can send accepts and delivers, except a tun that is not the packet's own.
- KernelOverlap.OverlapExactly: covers policies within the priority ranges; more than 1001 source prefixes or destination branches are not analysed.
- Orientation.OrientedExactly: needs bar-free names for the converse, since a merged key can drop the dead row.
- KernelRouting.PolicyPreserved: takes the host's own non-default main routes out; NAT rules and the commands themselves are not modelled.
- KernelApply.Apply: covers the plan's own tables; leaked rules and return routes that are deleted first, and the teardown, are not modelled.
- KernelApply.ReloadGeo: follows the code; the log line of a failed reload says the previous set is kept (internal/kernelnode/run_linux.go:225), but it was flushed before the set was read.
- ChaCha4.Cipher.XORKeyStream: makes no secrecy claim; the nonce is an arbitrary input.
- Packets.EnvelopeRoundTrip: puts and parses values; the reuse of the caller's buffer is not modelled.
- Framing.FrameWriter.Write: a writer below either takes all or reports an error with what it took, as io.Writer demands.
- Framing.FrameReader.ReadFrame: after an error nothing is said about the state, since the stream is given up.
- WriteBuffer.WriterConserves: the flush function takes every batch it is given; a batch a dead link drops still counts as handed over.
- WriteBuffer.Writer.Reserve: asks for no more than the arena holds, as the source demands of its callers; the source panics otherwise.
- Transport.EndToEnd: one connected stream; reconnects start a new stream and lose what was dropped meanwhile.
- Peers.RegistrySafe: collection forgets a peer's stamps, as the source does.
- Peers.Registry.Register: the minted id is an argument that is non-zero and unused, which is what the minting loop looks for.
- Stamps.ControlRoundTrip: the tag is an arbitrary keyed function of fixed length; nothing is claimed about forging it.
- Health.Driver.Step: a tick is one step up to the reconnects and another after them; a return between two reads within one of these steps counts as before or after it.
- Finalizer.Tracker.Reply: the look-up and the refresh are one step; in the source a Submit between them may have its time overwritten by the older clock reading (internal/finalizer/finalizer.go:165-184).
- Dialing.Sender.Flush: a time is a number and the backoff one unit; the dial itself and its timeout are outside.
- Router.Dispatch: what a connection accepts and delivers is fixed while one packet is dispatched; stats recording is not modelled.
- MatchCache.Matcher.Contains: the prefix tree is a membership function; parsing prefix files is not modelled.
- Trips.ReplyOwner: replies carry no identity but their address; a flow the table refused or dropped gets no reply.
- The HTTP carrier, the UDP receive path with id adoption, YAML and the route syntax, deployment, statistics and the simulator's container plans are not modelled: plumbing, or easy.
