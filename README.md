# Helix knowledge graph: a verified Dafny model

This project models the core of a question-and-objective knowledge tool
that draws its records as a rotating double helix. Questions run up
strand A, objectives up strand B, and a link between two records is a
synapse across the helix. Around the helix sit the tool's
smaller services:
- an in-memory repository and the "sedimentation" of a failure into a question;
- a session table with heartbeat expiry;
- a TTL cache;
- a retry/backoff loop;
- a streaming AI client;
- a KV storage adapter;
- a log-level filter;
- the UI logic of the question feed, the creation form, the search box, the dashboard and the application shell.

Each core file is one Dafny module, in the file's own form:
- Code that computes a value becomes functions and lemmas.
- A class whose methods update fields becomes a Dafny `class`. Its methods have `modifies` clauses, and each `ensures` states the whole new state.
- A loop stays a `while` or `for` loop. It is proved against a specification function.

The shared modules are:
- `Wrappers` (Option, Result);
- `Strings` (JS string operations: `includes`, `toLowerCase`, `trim`, `split`, lexicographic `<`);
- `Seqs` (`filter`, `slice`, `findIndex`);
- `Sorting` (a stable sort by a real key, used for every JS `sort`);
- `Domain` (the record types the code reads).

Numbers are `real`. `Math.sin`, `Math.cos` and `Math.sqrt` are passed in as a `Trig` value that only has to respect their bounds.

Two renderer generations coexist in the repository, and they are kept apart:
- `GraphRenderer` is the controller that `GraphView.tsx` wires up.
- `NodeSystem` and `StructureSystem` are the newer layered systems. They share only the helix geometry (`Helix`) and a few curve helpers (`RenderCommon`).

## Model

| member | source | states |
|---|---|---|
| GraphAssembly.Assemble | components/GraphView.tsx:24-72 | The arrays are read, not reordered. Both lists are sorted newest first. There are max(\|questions\|, \|objectives\|, 12) steps, and step i carries index i. It holds the i-th question (strand A, index i) iff i < \|questions\|, and the i-th objective (strand B) iff i < \|objectives\|. The flat node list has exactly \|questions\| + \|objectives\| entries in step order. The node map and the links are built from it. The recent set is the ids of its first three entries. |
| GraphAssembly.BuildLadder | components/GraphView.tsx:34-52 | The for loop yields the step sequence, the flat nodes (at each step the question before the objective) and the id map, all equal to their specification functions. |
| GraphAssembly.BuildLinks | components/GraphView.tsx:54-63 | The nested loops yield exactly the structural links of the specification. |
| GraphAssembly.NewestFirstOrder | components/GraphView.tsx:26-27 | Each sorted list is a permutation of its input, with createdAt non-increasing. |
| GraphAssembly.StepNodesMembership | components/GraphView.tsx:42-48 | A step contributes exactly its question and its objective node. |
| GraphAssembly.IdsOf | components/GraphView.tsx:66-69 | An id is in the set iff some node carries it; there are no more ids than nodes. |
| GraphAssembly.FlatNodesSnoc | components/GraphView.tsx:42-48 | Adding a step appends that step's nodes to the flat list. |
| GraphAssembly.NodeMapSnoc | components/GraphView.tsx:43-49 | Adding a node sets its id in the map; a later node with the same id wins. |
| GraphAssembly.FlatNodesCount | components/GraphView.tsx:35-50 | The flat list counts min(steps, \|q\|) questions plus min(steps, \|o\|) objectives. |
| GraphAssembly.FlatNodesMembership | components/GraphView.tsx:35-50 | A node is flat iff it is the question or objective node of some step. |
| GraphAssembly.NodeMapFacts | components/GraphView.tsx:43-49 | The map's keys are exactly the node ids; each entry is a node with that id. |
| GraphAssembly.NodeMapOfDistinct | components/GraphView.tsx:43-49 | With distinct ids, every node is found under its own id. |
| GraphAssembly.LinksFromMembership | components/GraphView.tsx:56-62 | A link from one source exists iff its target id is a candidate, is in the map, and is lexicographically after the source id. |
| GraphAssembly.LinkMembership | components/GraphView.tsx:54-63 | A structural link exists iff its source is some node and its target qualifies as above. |
| GraphAssembly.LinksWellFormed | components/GraphView.tsx:56-62 | Every link's endpoints are nodes. Its target is the map entry of one of the source's linked ids. source.id < target.id, so there are no self-links. |
| GraphAssembly.NoOppositeLinks | components/GraphView.tsx:59 | No two links connect the same pair in opposite directions. |
| GraphAssembly.MutualPairOneLink | components/GraphView.tsx:56-62 | A mutually linked pair yields exactly one link, from the smaller id. |
| GraphAssembly.RecentIsPrefix | components/GraphView.tsx:40-69 | Every node's sort key reads the absent `rawEntity`, so the recent set is the ids of the first three flat nodes: at most 3 ids, all of nodes. |
| Sorting.SortByKeySorted | components/GraphView.tsx:26-27 | The sort yields an ordering by the key (besides the permutation in `SortByKey`'s contract). |
| Sorting.SortByKey | components/GraphView.tsx:26-27 | The result is a permutation of the input. |
| Sorting.SortByConstantKeyIsIdentity | components/GraphView.tsx:66-68 | When every key is equal (as with the absent `rawEntity`), the stable sort leaves the list unchanged. |
| Strings.LexLessIrreflexive | components/GraphView.tsx:59 | No id is `<` itself. |
| Strings.LexLessAsymmetric | components/GraphView.tsx:59 | `a < b` and `b < a` never both hold. |
| Strings.LexLessTotal | components/GraphView.tsx:59 | Distinct ids are always ordered one way or the other. |
| Helix.Amplitude | utils/helixMath.ts:11-31 | amp = min(0.2·width, 140). |
| Helix.AmplitudeBounds | utils/helixMath.ts:31 | amp ≤ 140, and amp ≥ 0 for a non-negative width. |
| Helix.Point | utils/helixMath.ts:22-44 | It needs helixHeight ≠ 0. The angle is the model's angle; z = cos(angle), x = width/2 + amp·sin(angle), y = yBase + z·amp·0.3. Hence z lies in [-1, 1], x within width/2 ± \|amp\|, and y within 0.3·\|amp\| of yBase. |
| Helix.OffsetsBounded | utils/helixMath.ts:37-41 | A swing of amp·sin stays within \|amp\| of the centre line, and a tilt of z·amp·0.3 within 0.3·\|amp\| of the base height. |
| Helix.Angle | utils/helixMath.ts:30-34 | It is (yBase − startY)·5π/height + rotation, plus π on strand B; its meaning is stated by Helix.AntiPhase and Helix.TwistsPerHelix. |
| Helix.AntiPhase | utils/helixMath.ts:34 | Strand B's angle is strand A's plus π. |
| Helix.TwistsPerHelix | utils/helixMath.ts:30-34 | Across the full height the angle advances by 5π. |
| Helix.HelixDimensions | utils/helixMath.ts:49-56 | The height is the larger of 0.8·container and 60·count, and it is positive when either input is. startY + height/2 = container/2, and startY ≤ 0.1·container. |
| GraphRenderer.StepSpacing | logic/GraphRenderer.ts:250 | With steps, spacing·steps = helixHeight; with no steps, the spacing is the height. It is positive for a positive height. |
| GraphRenderer.LayoutOf | logic/GraphRenderer.ts:249-250 | For a positive container height, the helix height and the spacing are positive. |
| GraphRenderer.LadderSpansHelix | logic/GraphRenderer.ts:249-253 | Step 0 sits at startY, and the rung count times the spacing is the helix height. |
| GraphRenderer.NodeScale | logic/GraphRenderer.ts:299 | For z in [-1, 1] the scale lies in [0.5, 1.2]. |
| GraphRenderer.NodeOpacity | logic/GraphRenderer.ts:302-311 | A selected or recent node has opacity 1; otherwise it lies in [0.2, 0.7]. |
| GraphRenderer.NodeDepthCues | logic/GraphRenderer.ts:299-311 | Scale and opacity never decrease with depth. A highlighted node is always more opaque than a plain one. |
| GraphRenderer.IntervalStroke | logic/GraphRenderer.ts:277-281 | Gold iff either end of the step is recent; else "#333344". |
| GraphRenderer.IntervalOf | logic/GraphRenderer.ts:258-292 | The rung runs from strand A's point to strand B's at its index. Its width lies in [0.5, 2] and its opacity in [0.3, 0.7]. |
| GraphRenderer.Intervals | logic/GraphRenderer.ts:258 | There is one rung per step, in step order. |
| GraphRenderer.NodeViewOf | logic/GraphRenderer.ts:295-311 | The node is placed at its helix point, scaled and faded by its own depth, selection and recency. |
| GraphRenderer.NodeViews | logic/GraphRenderer.ts:295 | There is one view per node, in node order. |
| GraphRenderer.SynapseOpacity | logic/GraphRenderer.ts:329-336 | 0 iff there is no focus. 0.6 iff the focus is an endpoint. Otherwise 0.05. |
| GraphRenderer.SynapseOf | logic/GraphRenderer.ts:316-336 | The link is a straight quadratic between its endpoints' helix points; an unknown endpoint counts as step 0. It is gated by the active-or-selected focus. |
| GraphRenderer.Synapses | logic/GraphRenderer.ts:316 | There is one synapse per link, in link order. |
| GraphRenderer.StaticStyleOf | logic/GraphRenderer.ts:200-213 | The halo radius is 8. The fill is dark iff the node is not recent. A recent node is gold on strand A and purple on B, with a white stroke and core. |
| GraphRenderer.StaticStyles | logic/GraphRenderer.ts:150-213 | There is one static style per node. |
| GraphRenderer.ComposeFrame | logic/GraphRenderer.ts:249-361 | The frame holds rungs, nodes sorted back to front, synapses, and 4n+1 strand points per strand at opacity 0.9 in front and 0.15 behind, with no strands when there are no steps. |
| GraphRenderer.StrandsSpanHelix | logic/GraphRenderer.ts:341-349 | The strand samples run from startY to startY + helixHeight. |
| GraphRenderer.Renderer.constructor | logic/GraphRenderer.ts:51-71 | The renderer starts at 800×600 with rotation 0 and velocity 0.005. It is not dragging or paused, has no timer and no data, and no hover or selection. |
| GraphRenderer.Renderer.MouseDown | logic/GraphRenderer.ts:103-107 | A drag starts at the pointer's x; nothing else changes. |
| GraphRenderer.Renderer.MouseMove | logic/GraphRenderer.ts:108-114 | Outside a drag nothing changes. During a drag, rotation grows by 0.005·Δx, velocity becomes 0.001·Δx, and lastX follows the pointer. |
| GraphRenderer.Renderer.MouseUp | logic/GraphRenderer.ts:115-119 | The drag ends and the velocity returns to the ambient 0.005. |
| GraphRenderer.Renderer.MouseLeave | logic/GraphRenderer.ts:120-123 | Same as mouse-up. |
| GraphRenderer.Renderer.ContainerClick | logic/GraphRenderer.ts:124-130 | A click on the container itself clears the selection; any other target changes nothing. |
| GraphRenderer.Renderer.NodeMouseEnter | logic/GraphRenderer.ts:176-181 | Ignored while dragging. Otherwise it pauses and makes the node active. |
| GraphRenderer.Renderer.NodeMouseLeave | logic/GraphRenderer.ts:182-186 | It unpauses and clears the active node. |
| GraphRenderer.Renderer.NodeClick | logic/GraphRenderer.ts:187-191 | It toggles the selection: clicking the selected node clears it. It reports Delete with shift held, else Select, for that node. |
| GraphRenderer.Renderer.UpdateDimensions | logic/GraphRenderer.ts:133-136 | Only the width and height change. |
| GraphRenderer.Renderer.UpdateData | logic/GraphRenderer.ts:138-144 | The data is replaced and every node is restyled statically. Interaction state is kept. |
| GraphRenderer.Renderer.SetSelected | logic/GraphRenderer.ts:146-148 | Only the selection changes. |
| GraphRenderer.Renderer.Start | logic/GraphRenderer.ts:235-238 | Any running timer is stopped, so exactly one fresh timer runs. |
| GraphRenderer.Renderer.Stop | logic/GraphRenderer.ts:240-242 | No timer runs afterwards; with no timer it is a no-op. |
| GraphRenderer.Renderer.Tick | logic/GraphRenderer.ts:244-362 | Rotation advances by the velocity unless paused or dragging. The frame drawn is the specified frame for the current data, hover, selection and layout. |
| RenderCommon.BowedCurve | logic/systems/StructureSystem.ts:85-91 | The bow runs from end to end. Its control point sits at the midpoint's x, raised by 0.3·distance. |
| RenderCommon.StraightCurve | logic/GraphRenderer.ts:321-325 | The control point is the midpoint of the endpoints. |
| RenderCommon.ZNorm | logic/systems/StructureSystem.ts:101-107 | (z+1)/2 maps [-1, 1] onto [0, 1], hitting 0 and 1 exactly at the ends. |
| RenderCommon.FocusId | logic/systems/StructureSystem.ts:149 | The focus is the active id if it is truthy, else the selected id if truthy, else none. |
| RenderCommon.EndpointStep | logic/systems/StructureSystem.ts:129-130 | The step of the first node with the id, or 0 when no node has it. |
| NodeSystem.HaloRadius | logic/systems/NodeSystem.ts:95-99 | 3 for ghosts; otherwise 14 iff hovered, else 8. |
| NodeSystem.HaloFill | logic/systems/NodeSystem.ts:100-109 | None iff a ghost. Crystallized nodes are gold. Hovered or recent nodes are gold (A) or purple (B). All others are dark. |
| NodeSystem.HaloStroke | logic/systems/NodeSystem.ts:110-114 | Ghosts "#333", crystallized gold. Otherwise white iff recent or hovered, else "#555". |
| NodeSystem.HaloStrokeWidth | logic/systems/NodeSystem.ts:115-118 | Ghosts 1. Otherwise 1.5 iff crystallized, recent or hovered, else 0.5. |
| NodeSystem.HaloOpacity | logic/systems/NodeSystem.ts:119-123 | Ghosts 0.2. Otherwise 1 iff crystallized or hovered, else 0.9 when recent, else 0.5. |
| NodeSystem.CoreRadius | logic/systems/NodeSystem.ts:127 | 0 iff a ghost; otherwise 4 when hovered, else 2.5. |
| NodeSystem.CoreFill | logic/systems/NodeSystem.ts:128-132 | Gold when crystallized; otherwise white on A, pale violet on B. |
| NodeSystem.LabelText | logic/systems/NodeSystem.ts:136 | Empty for ghosts. A caption over 15 characters becomes its first 12 plus "...". Otherwise it is the caption itself. It is never longer than 15. |
| NodeSystem.LabelOpacity | logic/systems/NodeSystem.ts:137-151 | 1 if hovered or selected. Else 0.9 iff crystallized with z > -0.2. Else 0.8 iff recent with z > -0.5. Else 0. |
| NodeSystem.GroupScale | logic/systems/NodeSystem.ts:159 | For z in [-1, 1] the scale lies in [0.4, 1.2]. |
| NodeSystem.EntropyFactor | logic/systems/NodeSystem.ts:167-172 | 1 without updatedAt; otherwise exactly `calculateEntropy`'s decay. Always in [0.3, 1]. |
| NodeSystem.GroupOpacity | logic/systems/NodeSystem.ts:162-181 | Ghosts 0.1, even when hovered. Hovered, selected or crystallized nodes 1. Otherwise (0.1 + 0.9·zNorm)·entropy. Always in [0.03, 1]. |
| NodeSystem.PlainOpacity | logic/systems/NodeSystem.ts:174-180 | A plain node's opacity is its depth fade times its entropy factor. |
| NodeSystem.EntropyFactorDecays | logic/systems/NodeSystem.ts:167-172 | An older update never gives a larger factor. |
| NodeSystem.PlainOpacityDecays | logic/systems/NodeSystem.ts:162-181 | An older plain node is never more opaque. |
| NodeSystem.GroupOpacityDecays | logic/systems/NodeSystem.ts:162-181 | No node becomes more opaque by being older; non-plain nodes do not depend on age. |
| NodeSystem.NodeLayer.constructor | logic/systems/NodeSystem.ts:22-33 | The layer starts with no groups. |
| NodeSystem.NodeLayer.Render | logic/systems/NodeSystem.ts:22-61 | After the join there is one group per datum; groups of absent ids are gone; each sits at its projected point. The groups are a permutation (as multisets) of the joined groups, sorted by ascending z, and equal the stable sort of them, so ties keep data order. |
| NodeSystem.Join | logic/systems/NodeSystem.ts:30-54 | The join loop turns datum k into group k, with its position and style. |
| StructureSystem.IntervalPath | logic/systems/StructureSystem.ts:81-91 | No path iff both ends are missing or ghosts. Otherwise the bowed curve from strand A's point to B's. |
| StructureSystem.IntervalStroke | logic/systems/StructureSystem.ts:93-98 | Gold iff either end is crystallized or recent; else "#555566". |
| StructureSystem.IntervalWidth | logic/systems/StructureSystem.ts:100-105 | It lies in [0.5, 2.5] and reaches the ends exactly at z = ±1. |
| StructureSystem.IntervalOpacity | logic/systems/StructureSystem.ts:106-111 | It lies in [0.2, 1] and reaches the ends exactly at z = ±1. |
| StructureSystem.Intervals | logic/systems/StructureSystem.ts:72-112 | There is one interval view per step, in step order. |
| StructureSystem.IntervalDepthCue | logic/systems/StructureSystem.ts:100-111 | A rung deeper on strand A is never wider or more opaque. |
| StructureSystem.SynapseDash | logic/systems/StructureSystem.ts:145 | "1 4" iff a MUTATION link, else "2 4". |
| StructureSystem.SynapseStroke | logic/systems/StructureSystem.ts:146 | Red iff a MUTATION link, else light blue. |
| StructureSystem.SynapseOpacity | logic/systems/StructureSystem.ts:147-155 | Mutations get 0.6 regardless of focus. Other links get 0 iff there is no focus, 0.9 iff the focus is an endpoint, else 0.1. |
| StructureSystem.SynapseCurve | logic/systems/StructureSystem.ts:126-143 | It runs between the endpoints' projected points. A non-mutation link is straight. A mutation bends sideways by an amount set by the random input. |
| StructureSystem.Synapses | logic/systems/StructureSystem.ts:114-156 | There is one synapse per link, in link order, each with its own random draw. |
| StructureSystem.FocusLightsIncidentLinks | logic/systems/StructureSystem.ts:147-155 | A truthy active id beats the selection. A non-mutation link touching it is lit at 0.9, the others at 0.1. Mutations stay at 0.6. |
| StructureSystem.RenderStrands | logic/systems/StructureSystem.ts:158-189 | No strands iff there are no steps. Otherwise 4n+1 sampled points per strand, with front opacity 1 and back opacity 0.2. |
| StructureSystem.Render | logic/systems/StructureSystem.ts:57-70 | The intervals and synapses of one render, each equal to its renderer's output. No strands iff no steps; otherwise 4n+1 points per strand, point i being the helix sample i, with front opacity 1 and back opacity 0.2. |
| StrandSampling.SampleStrands | logic/systems/StructureSystem.ts:158-170 | The for loop yields 4n+1 points per strand, point i being the helix point at sample height i. |
| StrandSampling.SampleSpan | logic/systems/StructureSystem.ts:162-166 | Sample heights start at startY, end at startY + n·spacing, and never decrease. |
| StrandSampling.StrandPoint | logic/systems/StructureSystem.ts:162-168 | The x and y of the helix point at sample height i; stated by StrandSampling.SampleStrands. |
| DomainRules.CognitiveCostMonotone | services/DomainRules.ts:18-24 | Content that passes still passes with text added on either side. |
| DomainRules.CognitiveCostExamples | services/DomainRules.ts:18-24 | A short plain question fails; "@" and a "[[" link pass. |
| DomainRules.ValidateCognitiveCost | services/DomainRules.ts:18-24 | "[[" or "@" occurs, or the content is longer than 20; stated by DomainRules.CognitiveCostMonotone and DomainRules.CognitiveCostExamples. |
| DomainRules.CalculateEntropy | services/DomainRules.ts:31-41 | It lies in [0.3, 1]. It is 1 up to 14 days of age and 0.3 from 14 + 0.7·60 days on. |
| DomainRules.EntropyMonotone | services/DomainRules.ts:28-40 | An older update never yields a larger entropy. |
| DomainRules.EntropyDecayWindow | services/DomainRules.ts:40 | Between the bounds it is exactly 1 − (days − 14)/60, strictly inside (0.3, 1). |
| DomainRules.EntropyMilestones | services/DomainRules.ts:40 | 0.5 at 44 days and 0.3 at 74 days. |
| DomainRules.ValidateObjectiveConfig | services/DomainRules.ts:47-49 | A title longer than 5 and at least one key result; related to the OKR gate by CreationModal.GatesMatchDomainRules. |
| MemoryRepository.Store.constructor | repositories/MemoryRepository.ts:6-8 | The module lists start as given. |
| MemoryRepository.Store.GetQuestions | repositories/MemoryRepository.ts:12-16 | Returns the current question list. |
| MemoryRepository.Store.AddQuestion | repositories/MemoryRepository.ts:18-21 | The question goes to the front, and it is returned. Everything else is unchanged. |
| MemoryRepository.Store.DeleteQuestion | repositories/MemoryRepository.ts:23-27 | Every question with the id is removed and the rest keep their order. It returns true iff one existed. |
| MemoryRepository.Store.GetFailures | repositories/MemoryRepository.ts:30-32 | Returns the current failure list. |
| MemoryRepository.Store.UpdateFailure | repositories/MemoryRepository.ts:34-40 | An unknown id returns nothing and changes nothing. Otherwise the first match is overlaid and stamped in place, and returned; no other failure changes. |
| MemoryRepository.Store.FindFailure | repositories/MemoryRepository.ts:42-44 | The first failure with the id, or nothing. |
| MemoryRepository.Store.GetObjectives | repositories/MemoryRepository.ts:47-49 | Returns the current objective list. |
| MemoryRepository.Store.DeleteObjective | repositories/MemoryRepository.ts:51-55 | Every objective with the id is removed, the rest keep their order, and it returns true iff one existed. |
| MemoryRepository.Overlay | repositories/MemoryRepository.ts:38 | Each supplied field replaces the old one; the others are kept; updatedAt is now. |
| MemoryRepository.OverlayFacts | repositories/MemoryRepository.ts:38 | An empty overlay only restamps. Overlaying the same updates twice equals overlaying once. |
| MemoryRepository.FirstFailure | repositories/MemoryRepository.ts:42-44 | Some iff a failure has the id, and then it is the first such. |
| MemoryRepository.DeleteLeavesNoMatch | repositories/MemoryRepository.ts:25 | After the delete, the list holds exactly the old entries with other ids. |
| MemoryRepository.DeleteIdempotent | repositories/MemoryRepository.ts:25 | A second delete of the same id changes nothing. |
| MemoryRepository.UpdateThenFind | repositories/MemoryRepository.ts:34-44 | After an update that keeps the id, finding it returns the updated record. |
| Sedimentation.SedimentQuestion | services/SedimentationService.ts:15-28 | It is titled "Analysis: " + the first 40 characters of the description + "...". Level 0, tags [Sediment, Auto-Generated], no linked questions, Draft. It links the failure's key result iff it has one. |
| Sedimentation.SedimentFailure | services/SedimentationService.ts:10-38 | An unknown id is an error and changes nothing. Otherwise the question heads the list, and the failure becomes Sedimented and points to it. The new question is returned. |
| Sedimentation.SedimentLinksBack | services/SedimentationService.ts:31-35 | The updated failure keeps its id, is Sedimented, and names exactly the new question's id. |
| SessionLogic.ThresholdGap | workers/src/logic/sessionLogic.ts:48-81 | A heartbeat exactly five minutes old is neither active nor stale. Every other session is exactly one of the two. |
| SessionLogic.Lookup | workers/src/logic/sessionLogic.ts:32-41 | Some iff an entry has the id, and then it is that entry. |
| SessionLogic.Upsert | workers/src/logic/sessionLogic.ts:27 | The new session is present and every entry with another id survives. |
| SessionLogic.UpsertLookup | workers/src/logic/sessionLogic.ts:27 | Ids stay distinct. The new id finds the new session; other ids find what they found before. |
| SessionLogic.LookupUnique | workers/src/logic/sessionLogic.ts:32-41 | With distinct ids, each entry is found under its own id. |
| SessionLogic.Touch | workers/src/logic/sessionLogic.ts:58-71 | Only the entry with the id gets the new status and heartbeat. |
| SessionLogic.TouchAbsent | workers/src/logic/sessionLogic.ts:58-67 | Touching an absent id leaves the table unchanged. |
| SessionLogic.SessionTable.constructor | workers/src/logic/sessionLogic.ts:13-19 | The table starts empty. |
| SessionLogic.SessionTable.Heartbeat | workers/src/logic/sessionLogic.ts:21-30 | The session is stored stamped with now, replacing any entry with its id, and returned. |
| SessionLogic.SessionTable.GetSession | workers/src/logic/sessionLogic.ts:32-41 | The cached entry whenever one exists, stale or not; nothing only when absent. |
| SessionLogic.SessionTable.ListActiveSessions | workers/src/logic/sessionLogic.ts:43-54 | Exactly the sessions beating within the last five minutes, in table order. |
| SessionLogic.SessionTable.CloseSession | workers/src/logic/sessionLogic.ts:56-62 | A present session becomes completed and stamped with now. An absent id changes nothing. |
| SessionLogic.SessionTable.UpdateSessionStatus | workers/src/logic/sessionLogic.ts:64-74 | An absent id returns nothing and changes nothing. Otherwise status and heartbeat are set and the updated session is returned. |
| SessionLogic.SessionTable.ClearInactiveSessions | workers/src/logic/sessionLogic.ts:76-88 | Exactly the stale sessions are deleted and counted; the count is the size drop. |
| SessionLogic.FilterKeepsDistinct | workers/src/logic/sessionLogic.ts:76-88 | Clearing keeps ids distinct. |
| SessionLogic.ClearedTableIsRecent | workers/src/logic/sessionLogic.ts:81 | A survivor of clearing is active or exactly at the threshold. |
| CacheService.TtlOr | workers/src/services/cacheService.ts:42 | `ttl \|\| fallback`: 0 or absent falls back. |
| CacheService.PrefixOr | workers/src/services/cacheService.ts:15 | `keyPrefix \|\| 'qa'`: never empty. |
| CacheService.FullKey | workers/src/services/cacheService.ts:19 | "prefix:key". |
| CacheService.FullKeyInjective | workers/src/services/cacheService.ts:19 | Different keys never share an entry. |
| CacheService.CacheLookup | workers/src/services/cacheService.ts:18-38 | A live memory entry wins. Otherwise only a truthy KV value answers: a missing key, a falsy stored value or no KV store misses. |
| CacheService.SetThenLookup | workers/src/services/cacheService.ts:40-51 | After a set, the data is found until its expiry. With no KV it is gone afterwards. |
| CacheService.DeleteThenLookup | workers/src/services/cacheService.ts:53-60 | After delete, the key misses. |
| CacheService.Cache.constructor | workers/src/services/cacheService.ts:12-16 | An empty memory, the given KV, ttl `\|\| 3600`, prefix `\|\| 'qa'`, and the truthiness test on stored values. |
| CacheService.Cache.Get | workers/src/services/cacheService.ts:18-38 | Returns the lookup. A truthy KV hit refills memory for the default ttl; a falsy one, a miss or a live entry leave memory unchanged. |
| CacheService.Cache.Set | workers/src/services/cacheService.ts:40-51 | Memory gets the data expiring at now + (ttl \|\| defaultTTL)·1000, and the KV store (if any) gets the data. |
| CacheService.Cache.Delete | workers/src/services/cacheService.ts:53-60 | The key leaves memory and the KV store. |
| CacheService.Cache.Clear | workers/src/services/cacheService.ts:62-64 | Memory is emptied; KV and ttl are kept. |
| CacheService.Cache.SetTTL | workers/src/services/cacheService.ts:66-68 | Only the default ttl changes; existing entries keep their expiry. |
| Retry.Resolve | workers/src/utils/retry.ts:9-26 | Each absent option takes its default: 3 attempts, 1000 ms, ×2. |
| Retry.Backoff | workers/src/utils/retry.ts:38 | delay·backoff^(attempt−1); its values over a run are stated by Retry.RunTrace and Retry.DefaultSchedule. |
| Retry.WithRetry | workers/src/utils/retry.ts:21-43 | The loop's calls, onRetry calls, sleeps and result equal the specified run. |
| Retry.RunShape | workers/src/utils/retry.ts:28-42 | No call iff no attempt is allowed, and then the last error (undefined) is thrown. At most maxAttempts calls, with one retry and one sleep between consecutive calls. The result is the last call's outcome. |
| Retry.RunTrace | workers/src/utils/retry.ts:35-38 | The i-th onRetry reports attempt i+1 with its error, which shouldRetry accepted. The i-th sleep is delay·backoff^i. |
| Retry.AttemptBound | workers/src/utils/retry.ts:28 | fn runs at most maxAttempts times. |
| Retry.FirstSuccessReturned | workers/src/utils/retry.ts:29-30 | The first success is returned at once, after exactly the calls up to it. |
| Retry.RejectedErrorThrownAtOnce | workers/src/utils/retry.ts:35 | An error shouldRetry rejects is thrown at once, with no onRetry and no sleep. |
| Retry.FinalErrorThrown | workers/src/utils/retry.ts:34-42 | The final attempt's error is thrown without consulting shouldRetry. |
| Retry.DefaultSchedule | workers/src/utils/retry.ts:10-12 | Under the defaults a failing fn runs 3 times, sleeping 1000 and 2000 ms. |
| Retry.SomeMarkerInMeans | workers/src/utils/retry.ts:56-57 | The `some` test is "some lowercased marker occurs in the message". |
| Retry.IsRetryableError | workers/src/utils/retry.ts:45-58 | True iff the lowercased message contains one of the seven markers, lowercased. |
| Retry.RetryableIgnoresCase | workers/src/utils/retry.ts:55 | The verdict does not depend on the message's letter case. |
| Retry.ConnectionResetIsRetryable | workers/src/utils/retry.ts:47 | A reset connection is retryable. |
| Retry.GitHubOptions | workers/src/utils/retry.ts:62-70 | The caller's counts are kept; the test is retryable-and-caller's-test. |
| Retry.WithGitHubRetry | workers/src/utils/retry.ts:60-71 | The run is withRetry's under those options. |
| Retry.GitHubRetriesOnlyRetryable | workers/src/utils/retry.ts:66-69 | Every error that was retried was retryable. A non-retryable error on a non-final first attempt ends the run at once. |
| UseAI.MaxTokensOr | workers/src/hooks/useAI.ts:47 | `maxTokens \|\| 1000`. |
| UseAI.RequestFor | workers/src/hooks/useAI.ts:26-48 | POST to base + "/api/ai" with a bearer header iff the token is truthy, and the resolved max tokens. |
| UseAI.FailureMessage | workers/src/hooks/useAI.ts:86-89 | The server's error if truthy, else "AI request failed". |
| UseAI.Payload | workers/src/hooks/useAI.ts:106-107 | Some iff the line starts with "data: ", and the payload is the rest. |
| UseAI.ChunkOf | workers/src/hooks/useAI.ts:109-115 | onChunk receives the response iff the payload parsed and its response is truthy. |
| UseAI.FeedLines | workers/src/hooks/useAI.ts:105-117 | The line loop's output and stop flag equal the specified feed. |
| UseAI.Feed | workers/src/hooks/useAI.ts:105-117 | The for-of loop as a function of the lines; its meaning is stated by UseAI.FeedAppend, UseAI.FeedEmitsTruthy and UseAI.DoneStops. |
| UseAI.FeedAppend | workers/src/hooks/useAI.ts:101-117 | Feeding more lines appends their output, unless "[DONE]" has already stopped it. |
| UseAI.FeedEmitsTruthy | workers/src/hooks/useAI.ts:110-112 | No emitted chunk is empty. |
| UseAI.DoneStops | workers/src/hooks/useAI.ts:108 | After "data: [DONE]" no further chunk is emitted. |
| UseAI.UnterminatedTailIgnored | workers/src/hooks/useAI.ts:97-103 | Text after the last newline when the stream ends is never emitted. |
| UseAI.StreamStopsAt | workers/src/hooks/useAI.ts:97-118 | Once "[DONE]" is seen in chunk i, the rest of the stream adds nothing. |
| Strings.LinesAppend | workers/src/hooks/useAI.ts:101-103 | Buffering one chunk at a time gives the complete lines and the tail of the whole text. |
| UseAI.AIClient.constructor | workers/src/hooks/useAI.ts:20-24 | The client is not loading and has no error. |
| UseAI.AIClient.Chat | workers/src/hooks/useAI.ts:33-64 | A body that is not JSON sets the parse error's message, whatever the status, and returns nothing. A non-ok reply sets `data.error \|\| 'AI request failed'` and returns nothing. An ok reply leaves no error and returns the response when it is truthy, else nothing. Loading is false afterwards. |
| UseAI.AIClient.ChatStream | workers/src/hooks/useAI.ts:66-124 | A non-ok reply sets the error (the parse error's message when its body is not JSON) and emits nothing. A missing body is "No response body". Otherwise the emitted chunks are those of the whole stream. Loading is false afterwards. |
| KVAdapter.PrefixOr | workers/src/storage/kv-adapter.ts:11 | `owner \|\| 'qa'`. |
| KVAdapter.KeysDistinct | workers/src/storage/kv-adapter.ts:18-24 | Node keys identify their id, and no node key is a list key. |
| KVAdapter.PageOr | workers/src/storage/kv-adapter.ts:33 | `page \|\| 1`. |
| KVAdapter.PerPageOr | workers/src/storage/kv-adapter.ts:34 | min(100, perPage \|\| 20). |
| KVAdapter.EmptyQueryKeepsAll | workers/src/storage/kv-adapter.ts:83-93 | A query with no filter keeps every item. |
| KVAdapter.SearchKeepsExactlyMatches | workers/src/storage/kv-adapter.ts:83-99 | An item survives iff it passes every supplied filter. |
| KVAdapter.Matches | workers/src/storage/kv-adapter.ts:83-99 | The conjunction of the type, tag and text filters; KVAdapter.SearchKeepsExactlyMatches proves the successive filters keep exactly these items. |
| KVAdapter.Adapter.constructor | workers/src/storage/kv-adapter.ts:9-13 | The given store, prefix `\|\| 'qa'`, the list ttl 3600. |
| KVAdapter.Adapter.GetNode | workers/src/storage/kv-adapter.ts:26-30 | The node under its key, or nothing. |
| KVAdapter.Adapter.ListNodes | workers/src/storage/kv-adapter.ts:32-58 | On a cached page: its data and total, with hasMore ⟺ page·perPage < total. On a miss: empty data, total 0, no more. |
| KVAdapter.Adapter.UpsertNode | workers/src/storage/kv-adapter.ts:60-72 | The node, stamped with now, is stored under its key and returned. |
| KVAdapter.Adapter.DeleteNode | workers/src/storage/kv-adapter.ts:74-77 | The key leaves the store. |
| KVAdapter.Adapter.SearchNodes | workers/src/storage/kv-adapter.ts:79-102 | The first cached page of 100, filtered in order by every supplied filter. |
| KVAdapter.UpsertThenGet | workers/src/storage/kv-adapter.ts:60-72 | After an upsert the stamped node is found. Other nodes and cached pages are unchanged. |
| KVAdapter.DeleteThenGet | workers/src/storage/kv-adapter.ts:74-77 | After delete the node is not found. Other nodes and cached pages are unchanged. |
| LogService.Rank | workers/src/services/logService.ts:1-6 | DEBUG < INFO < WARN < ERROR as 0..3. |
| LogService.NameAndRank | workers/src/services/logService.ts:1-6 | Names and ranks both identify the level. |
| LogService.RemoteGate | workers/src/services/logService.ts:58-72 | Remote sending needs enableRemote, a URL and ERROR. An entry passes iff its rank is not below the threshold's. ERROR always passes. |
| LogService.Passes | workers/src/services/logService.ts:58 | The level's rank is not below the threshold's; stated by LogService.RemoteGate and LogService.DefaultThreshold. |
| LogService.SendsRemotely | workers/src/services/logService.ts:70-72 | Remote enabled, a truthy URL and ERROR level; stated by LogService.RemoteGate. |
| LogService.DefaultThreshold | workers/src/services/logService.ts:29 | At the default INFO, exactly DEBUG is dropped. |
| LogService.ErrorContext | workers/src/services/logService.ts:46-52 | The context plus the error's message and stack (undefined when absent). |
| LogService.Logger.constructor | workers/src/services/logService.ts:22-32 | Level defaults to INFO, remote off; nothing logged. |
| LogService.Logger.Log | workers/src/services/logService.ts:54-73 | An entry below the level is dropped completely. Otherwise it is written with its level's name, and sent on only when remote gating allows. |
| LogService.Logger.Debug | workers/src/services/logService.ts:34-36 | A DEBUG entry when the level allows; never remote. |
| LogService.Logger.Info | workers/src/services/logService.ts:38-40 | An INFO entry when the level allows. |
| LogService.Logger.Warn | workers/src/services/logService.ts:42-44 | A WARN entry when the level allows. |
| LogService.Logger.Error | workers/src/services/logService.ts:46-52 | An ERROR entry with the merged context, sent remotely iff remote is enabled with a URL. |
| LogService.Logger.SetLevel | workers/src/services/logService.ts:86-88 | Only the threshold changes; past entries stay. |
| QAView.SubmitGateIsPaidCost | components/QAView.tsx:36-37 | canSubmit ⟺ hasPaidCost, since anchored content is never blank. Paying the cost passes the domain rule. |
| QAView.LongPlainTextBlocked | components/QAView.tsx:36-37 | Long text without an anchor passes the domain rule but not this gate. |
| QAView.HasPaidCost | components/QAView.tsx:36 | "[[" or "@" occurs in the content; stated by QAView.SubmitGateIsPaidCost. |
| QAView.CanSubmit | components/QAView.tsx:37 | Non-blank and paid; QAView.SubmitGateIsPaidCost proves it equals the paid cost. |
| QAView.IsCrystallized | components/QAView.tsx:95 | A card is crystallized iff its question links to an objective. |
| QAView.Filtered | components/QAView.tsx:39-41 | 'ALL' keeps every question. A level gives exactly `Filter` by that level, so order and multiplicity are kept; a question is in it iff it is in the list at that level. |
| QAView.StripSuffix | components/QAView.tsx:53-54 | One trailing occurrence is removed, if present. |
| QAView.StripKeepsOtherAnchor | components/QAView.tsx:53-54 | Stripping one trigger never removes the other anchor. |
| QAView.AssetInserted | components/QAView.tsx:53 | The new text contains "@", and an earlier "[[" survives. |
| QAView.LinkInserted | components/QAView.tsx:54 | The new text contains "[[", and an earlier "@" survives. |
| QAView.Composer.constructor | components/QAView.tsx:29-32 | Empty input and both menus closed. |
| QAView.Composer.HandleInput | components/QAView.tsx:44-50 | A trailing "@" opens the asset menu and closes the link menu. Else a trailing "[[" does the reverse. Else a menu only closes when its anchor is gone. |
| QAView.Composer.InsertToken | components/QAView.tsx:52-56 | The trailing trigger is replaced by the whole token and its menu closes. The other menu is kept. The text has paid the cost. |
| CreationModal.TrimAll | components/CreationModal.tsx:41 | Each comma piece is trimmed. |
| CreationModal.TrimmedKept | components/CreationModal.tsx:41 | A tag is present iff it is a non-empty trimmed piece. |
| CreationModal.TrimClean | components/CreationModal.tsx:41 | Trimming adds no character and leaves no edge whitespace. |
| CreationModal.TagOfIsClean | components/CreationModal.tsx:41 | A kept tag is non-empty, unpadded, and free of any character absent from the pieces. |
| CreationModal.TagsAreClean | components/CreationModal.tsx:41 | No tag is empty, padded or contains a comma. |
| CreationModal.ParseTags | components/CreationModal.tsx:41 | `split(',').map(trim).filter(t => t)`; stated by CreationModal.TrimmedKept and CreationModal.TagsAreClean. |
| Strings.SplitPiecesHaveNoSeparator | components/CreationModal.tsx:41 | No piece of `split(',')` contains a comma. |
| CreationModal.NewQuestion | components/CreationModal.tsx:35-47 | The record has id "q-"+now, the parsed tags and no links. It is Draft, with createdAt = updatedAt = now. |
| CreationModal.MetricOr | components/CreationModal.tsx:60 | `metric \|\| 'Boolean'`: never empty. |
| CreationModal.NewKeyResults | components/CreationModal.tsx:56-65 | One key result per titled draft, in order. Each is Pending with id "kr-now-i" and a defaulted metric. |
| CreationModal.TitledHaveTitles | components/CreationModal.tsx:56 | Every surviving draft has a title. |
| CreationModal.SomeTitledMeansKept | components/CreationModal.tsx:57-79 | Some draft has a title iff some key result is created. |
| CreationModal.NewObjective | components/CreationModal.tsx:50-68 | The record has id "o-"+now, the filtered key results and no links, with createdAt = updatedAt = now. |
| CreationModal.GatesMatchDomainRules | components/CreationModal.tsx:77-79 | The QA gate is validateCognitiveCost. The OKR gate is validateObjectiveConfig on the created key results. |
| CreationModal.HasLinks | components/CreationModal.tsx:77-79 | The QA and OKR submit gates; related to the domain rules by CreationModal.GatesMatchDomainRules. |
| CreationModal.Form.constructor | components/CreationModal.tsx:16-27 | The QA tab, empty fields, level 0, one empty key result. |
| CreationModal.Form.AddKeyResult | components/CreationModal.tsx:212 | One empty draft is appended; nothing else changes. |
| CreationModal.Form.RemoveKeyResult | components/CreationModal.tsx:204 | Exactly the idx-th draft is removed; an out-of-range idx changes nothing. |
| CreationModal.Form.EditKeyResultTitle | components/CreationModal.tsx:185-189 | Only draft idx's title changes. |
| CreationModal.Form.EditKeyResultMetric | components/CreationModal.tsx:195-199 | Only draft idx's metric changes. |
| CreationModal.Form.Submit | components/CreationModal.tsx:31-74 | The active tab's record is created from the old fields. When the create callback settles, titles, texts and key results are reset; when it rejects, they are kept. The tab, level and tag text are always kept. |
| SearchModal.Search | components/SearchModal.tsx:25-45 | A blank query finds nothing; at most five per kind. |
| SearchModal.Blank | components/SearchModal.tsx:26 | The trimmed query is empty, with the full ECMAScript whitespace set; stated by SearchModal.LowerKeepsBlank and SearchModal.BlankQueryTotalsZero. |
| SearchModal.Total | components/SearchModal.tsx:47 | The sum of the three lengths, at most 15. |
| SearchModal.BlankQueryTotalsZero | components/SearchModal.tsx:26-47 | A blank query totals 0. |
| SearchModal.FirstMatches | components/SearchModal.tsx:35-43 | `filter(...).slice(0, n)` holds only matches, in order, the first ones. With fewer than n kept, every match is kept. |
| SearchModal.QuestionResults | components/SearchModal.tsx:31-35 | Question results are the first matches on title, content or any tag. |
| SearchModal.ObjectiveResults | components/SearchModal.tsx:36-39 | Objective results are the first matches on title or description. |
| SearchModal.FailureResults | components/SearchModal.tsx:40-43 | Failure results are the first matches on description or 5W2H analysis. |
| SearchModal.LowerKeepsBlank | components/SearchModal.tsx:26-28 | Lowercasing neither creates nor removes blankness. |
| SearchModal.CaseIgnored | components/SearchModal.tsx:28 | The search ignores the query's letter case. |
| SearchModal.QueryNotTrimmed | components/SearchModal.tsx:28 | The query is not trimmed: " ab" misses what "ab" finds. |
| Dashboard.Summarize | components/DashboardView.tsx:19-35 | Totals are the list lengths; answered, verified, sedimented and pending are the counts of their status filters; completed objectives count those with a completed key result; the key-result figures are the two reduces. Answered + verified ≤ total. Completed objectives ≤ completed key results ≤ total key results. Sedimented + pending ≤ failures. |
| Dashboard.CompletedMeansSome | components/DashboardView.tsx:24-30 | An objective has a completed key result iff its completed count is positive. |
| Dashboard.KRCountsBounded | components/DashboardView.tsx:23-31 | Completed key results ≤ all key results, and at least one per completed objective. |
| Dashboard.KRCountsAppend | components/DashboardView.tsx:28-31 | The sums add an objective's counts. |
| Dashboard.Percent | components/DashboardView.tsx:67-68 | 0 for an empty bar. Otherwise in [0, 100] for 0 ≤ value ≤ max, full iff value = max, empty iff value = 0. |
| Dashboard.ObjectiveProgressInRange | components/DashboardView.tsx:126-135 | Each objective's bar lies in [0, 100]. |
| Dashboard.FirstFive | components/DashboardView.tsx:126-151 | At most five entries, the first ones in order. |
| App.SelectView | App.tsx:42-50 | QA_FIRST iff a question node, OKR_FIRST iff an objective. |
| App.SearchView | App.tsx:54-59 | QUESTION → QA_FIRST, OBJECTIVE → OKR_FIRST, anything else → FAILURE_QUEUE. |
| App.DashboardView | App.tsx:70-75 | A dashboard card never yields `undefined`, the value of both ViewMode.DASHBOARD and ViewMode.SETTINGS. |
| App.EntryPointsAgree | App.tsx:42-59 | Search and graph selection open the same view. Different result kinds open different views. |
| App.Render | App.tsx:61-103 | Loading iff data is loading. Otherwise each declared view's screen, and the dashboard for `undefined`: ViewMode.SETTINGS equals ViewMode.DASHBOARD, so its case is never reached. QA and OKR highlight the active node. |
| App.SearchSelectHighlights | App.tsx:54-103 | A question or objective picked by search is shown highlighted. |
| App.Shell.constructor | App.tsx:19-25 | ViewMode.DASHBOARD (that is, `undefined`), no active node, no deletions. |
| App.Shell.HandleSediment | App.tsx:30-35 | Success opens QA_FIRST; failure changes nothing. |
| App.Shell.HandleGraphAction | App.tsx:37-52 | A confirmed DELETE is handed on; view and active node never change. SELECT activates the node and opens its kind's view. |
| App.Shell.HandleSearchSelect | App.tsx:54-59 | The result becomes active and its kind's view opens. |
| App.Shell.ChangeView | App.tsx:108 | The view changes and no node stays active. |
| App.Shell.NavigateFromDashboard | App.tsx:70-75 | The card's view opens; the active node is kept. |

## Left out

- logic/systems/SceneSystem.ts: it only builds d3 layer groups, CSS, filters and gradients in a fixed order.
- d3, DOM and SVG: joins, path strings, `curveCardinal` and DOM re-sorting are shown as what they receive: curves, point sequences, depth keys, colour and gradient ids.
- Floating point: numbers are exact reals. `sin`, `cos` and `sqrt` are parameters bounded as the real functions are, so no claim concerns IEEE rounding.
- Randomness: the `Math.random` draw of a mutation synapse's bend is a parameter of `StructureSystem.SynapseCurve`.
- Clocks: `Date.now()` and `new Date()` are a `now` parameter in integer milliseconds. ISO timestamps are integer milliseconds, so an unparsable date (NaN in JavaScript) is not modelled.
- Zero rungs: strand sampling then divides 0 by 0. The model draws no strands in that case rather than a NaN path.
- The `d3.timer` loop itself: `GraphRenderer.Renderer.Tick` is one frame. Start and Stop are modelled by which timers run.
- Asynchrony: awaits are sequential. `setTimeout` in the repository's getters is dropped. `withRetry`'s sleeps are recorded in the run, not performed.
- The network: `fetch`, the AI endpoint and the KV store's I/O become parameters. A reply, a stream of chunks and an in-memory map stand in for them. Network exceptions from `fetch`, as opposed to non-ok replies and bodies that are not JSON, are not modelled.
- `TextDecoder` and `JSON.parse` are parameters: the chunks come already decoded, and `parse` yields the `response` field or a parse failure.
- KV expiry (`expirationTtl`) is not modelled: stored values do not expire. The cache's TTL for its memory entries is modelled.
- KVAdapter.Adapter.UpsertNode: the list-cache invalidation in kv-adapter.ts is an empty method, so cached pages stay as they are. The model has no separate member for it.
- KVAdapter.Adapter.GetNode: a value of another shape stored under a node key counts as a miss.
- Aliasing: value records replace objects that the source mutates in place: session objects in `SessionLogic`, the node written by `upsertNode`, and the key-result drafts in `CreationModal`. The model does not show a caller's reference changing.
- Strings.Lower: `toLowerCase` is modelled on ASCII letters only.
- Strings: a string is a sequence of Unicode code points, while JavaScript's `length`, indices and `substring` count UTF-16 code units. Text with characters outside the Basic Multilingual Plane (emoji, say) therefore has a smaller length in the model. This shifts the length tests of `validateCognitiveCost` and `hasLinks`, the 15/12 label cut of `NodeSystem.LabelText` and the 40-character title cut of sedimentation for such text. `trim` uses the full ECMAScript whitespace set.
- Resolve: the spread `{ ...DEFAULT_RETRY_OPTIONS, ...options }` lets an option passed explicitly as `undefined` replace its default (with `maxAttempts: undefined` no attempt runs and `undefined` is thrown; an `undefined` `shouldRetry` or `onRetry` throws a TypeError when called). The model treats such an option as absent and gives the default.
- MemoryRepository.Overlay: a supplied field overwrites the old one. A spread of an explicit `undefined` value is treated like an absent field.
- CreationModal.NewKeyResults: the `'Untitled'` title fallback cannot be reached, because drafts without a title are filtered out first. It is not modelled.
- QAView: `getLevelBadge` is styling only and is not modelled. The submit gate is modelled as the predicate the button reads.
- CreationModal.Form.Submit: the form is described as resetting all its fields. It resets titles, texts and key results, but keeps qTags, qLevel and activeTab. The model follows the code. Whether the awaited create callback settles or rejects is a parameter; closing the dialog is not modelled.
- App: the modal open flags (creation, version control and search dialogs) only show or hide components and are not modelled. The `ViewMode` enum in types.ts has no DASHBOARD or SETTINGS member, so both evaluate to `undefined`; the model follows that, so the SettingsView branch is never reached and the settings screen is not part of the model. The `default` branch of `renderContent` cannot be reached either, since every value the view takes has its own case.
- App.Shell.HandleGraphAction: the `confirm` dialog's answer is a parameter. The delete is recorded as a request to the data hook instead of performed.
- App.Shell.HandleSediment: whether the sedimentation succeeded is a parameter.
- SearchModal: the optional chaining on a failure's 5W2H analysis is modelled as a plain string field.
- Ghost nodes, crystallization of graph nodes and MUTATION links are inputs only. The repository has no code that produces them.
- The network and storage clients, the crypto wrappers, the rendering-only components, `useQASystem` (it duplicates the sedimentation modelled here), the fixtures and the type declarations are not part of this model.
