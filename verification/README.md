# Pids in skip lists, and the SPU scheduler: a verified model

A kernel tree in which the radix tree behind process identifiers is replaced by a skip list, or by
a skip list whose searches are seeded by a red-black tree, is modelled here, together with the
allocator built on top of it and the SPU scheduler beside it. `dafny verify dfyconfig.toml` checks
the whole project.

| file | module | what it holds |
|---|---|---|
| `options.dfy`, `counting.dfy` | Options, Counting | a pointer or NULL, the larger of two; sizes of finite sets |
| `random_level.dfy` | RandomLevel | the height of a new node |
| `towers.dfy` | Towers | the shape of a skip list while one writer is at work on it: invariant, single writes, searches |
| `ranks.dfy` | Ranks | two places in the order for every number: that of a tree node and that of an ordinary one |
| `pid_skiplist.dfy` | PidSkiplist | the list on the heap, refining a finite map |
| `concurrent_list.dfy` | ConcurrentList | one writer and one lock-free lookup, interleaved access by access |
| `concurrent_writer.dfy` | ConcurrentWriter | what becomes of the writer's insertions and removals |
| `concurrent_iteration.dfy` | ConcurrentIteration | the iterator's loop against the same writer |
| `concurrent_find.dfy` | ConcurrentFind | find_ge against the same writer |
| `rb_skiplist.dfy` | RbSkiplist | the list seeded by a search tree |
| `variants.dfy` | Variants | the two lists side by side |
| `pid_model.dfy`, `pid_steps.dfy` | PidModel, PidSteps | pids, namespaces and the operations on them as steps |
| `pid_alloc.dfy`, `pid_references.dfy`, `pid_runs.dfy` | PidAlloc, PidReferences, PidRuns | what every step keeps, and what follows for all runs |
| `pid_laws.dfy` | PidLaws | the same in terms of numbers, pids seen and references held |
| `pid_system.dfy` | PidSystem | the allocator as a class, each method one step |
| `reservation.dfy` | Reservation | the allocator's scan and publication on the skip list itself |
| `zap_wakeup.dfy` | ZapWakeup | the reaper's wait and free_pid's wake-up, interleaved |
| `spu_runqueue.dfy`, `spu_model.dfy`, `spu_scheduler.dfy` | SpuRunqueue, SpuModel, SpuScheduler | run queue, binding and counters, scheduler operations |
| `spu_runs.dfy` | SpuRuns | sequences of scheduler operations |
| `spu_laws.dfy` | SpuLaws | who gets an SPU, who loses one, who waits, and in which order |

How things are represented. A node of the list is an object with an array of forward pointers, and
`Towers` describes the same list as a value, for any type of node identity; a ghost field of the
list holds that value, so that one invariant serves the heap and the interleaving. A tower is linked
at an interval of levels, which is what it is while it is being linked or unlinked. The seeded list
can hold two nodes of one number, so the entries of a list are kept by rank: number k has rank 2k as
a tree node and 2k + 1 otherwise, and the plain list uses the latter only. A NULL pid is `None`.
Namespaces, struct pids, SPUs and contexts are referred to by identity and kept in maps; a freed one
is no longer in its map. The index of a namespace is the map that its list refines
(`Reservation` connects the two). Integers that can wrap in the original, the counter
`pid_allocated` among them, are reduced modulo 2^32 where they are written. What the kernel decides
elsewhere is a parameter: random draws, whether memory is there, whether proc can be prepared,
pending signals, the local node, the place
that gang affinity wants.

## What was found

Each of these is a theorem here, with the exact condition; where something fails, a run reaches it.

- A lookup reads `forward[0]` of its last node twice (lines 136 and 141 of
  `skiplist/pid_skiplist.c`). If a smaller number is linked behind that node in between, the lookup
  gives NULL for a number that is in use all along. Without that, every lookup is linearizable.
- The tree search compares with `<=`, the walk with `<`, so an operation on a number whose node is in
  the tree steps past that node. `alloc_pid` inserts every number twice, first reserved and then with
  its pid. If the reservation draws 0, which one in 2^32 does, the reserved node goes into the tree for
  good: publication links a second node behind it, which lookups find and removal takes out, but every
  later enumeration from below, that of `zap_pid_ns_processes` too, ends at the reserved one.
  Publication then needs memory, and fails without. Apart from that insertions, removals and lookups
  cannot tell the variants apart, and without a draw of 0 nothing can. An enumeration or `find_ge` that
  starts at such a number before its publication steps past it, which the plain list does not.
- `spu_activate`, coming back from `spu_prio_wait`, does not look whether the context has been bound
  by a tick meanwhile. If it has, no signal is pending and there is an SPU to be had, the context is on
  two SPUs.
- `__spu_deactivate` keeps the SPU marked as used when the waiting context it finds is NOSCHED, and
  only wakes that context; no search finds the SPU, then or in any later state of a run whose links are
  right.
- The comment above `spu_set_timeslice` gives 800 ms as the longest slice; realtime priorities get
  more, up to 2800 ms, as soon as the excess does not round to nothing.
- An enumeration under way while others insert and remove meets every number in use all along, unless
  it ends before: at a smaller number that was reserved at some instant, or at once, if a node below
  its start is linked behind the node its search has stopped at. `find_ge` reads that pointer twice,
  too, and then gives the pid of the smaller number.
- The repository's README gives 32 levels and a probability of 50%; the code has 16 levels and
  one in sixteen. The code is followed.

## Model

| member | source | states |
|---|---|---|
| RandomLevel.PidSlRandomLevel | skiplist/pid_skiplist.c:7-18 | the nibble-shifting loop gives one more than the number of low zero nibbles of the draw, and 16 for the draw 0 |
| RandomLevel.LevelRange | skiplist/pid_skiplist.c:7-18 | 16 exactly for the draw 0, otherwise between 1 and 8: levels 9 to 15 never occur |
| RandomLevel.LevelMeaning | skiplist/pid_skiplist.c:12-16 | a node reaches level n exactly if its draw is a multiple of 16 to the n-1: one in sixteen climbs each level |
| Towers.LinkInv | skiplist/pid_skiplist.c:114-118 | the level-i write that links a node keeps every chain sorted and complete, with the node linked at its lowest levels only |
| Towers.LinkContents | skiplist/pid_skiplist.c:117 | linking at level 0 adds the entry, linking above adds nothing: the insertion takes effect at one write |
| Towers.CopyStep | skiplist/pid_skiplist.c:115 | setting the new node's own pointer first changes no chain, and makes the following write one that may be done |
| Towers.UnlinkInv | skiplist/pid_skiplist.c:177-181 | the level-i write that unlinks a node keeps every chain sorted and complete, though the node is gone from the lowest levels only |
| Towers.UnlinkContents | skiplist/pid_skiplist.c:180 | unlinking at level 0 removes the entry, unlinking above removes nothing |
| Towers.StillPointedTo | skiplist/pid_skiplist.c:178-179 | update[i]->forward[i] is the node to be removed exactly on the levels the node has, so the break is taken at its height |
| Towers.LowerKeeps | skiplist/pid_skiplist.c:183-187 | levels the header leads nowhere on can be given up without losing an entry |
| Towers.RaiseKeeps | skiplist/pid_skiplist.c:100-105 | raising sl->level, even if the insertion then fails, changes no entry |
| Towers.PredFinds | skiplist/pid_skiplist.c:93-94 | the node behind the last predecessor carries the target key exactly if the key is an entry |
| Towers.DescendSame | skiplist/pid_skiplist.c:87-91 | two starting points below the target give the same update[] array |
| Towers.VisitsEverything | skiplist/pid_namespace.c:247-252 | the iteration meets every entry from the start number on if and only if none of them is reserved |
| Towers.VisitsUnique | skiplist/pid_namespace.c:247-252 | there is one possible outcome of the iteration for given entries |
| Towers.RekeyContents | rb-skiplist/pid_rb_skiplist.c:179-182 | giving a node its place as a tree node moves its entry in the order, and no other |
| Towers.FirstVisited | skiplist/pid_skiplist.c:194-258 | the first result of the iteration is what find_ge gives |
| PidSkiplist.SkipList.constructor | skiplist/pid_skiplist.c:45-59 | an empty list of level 1 behind a header of 16 levels at INT_MIN |
| PidSkiplist.SkipList.Search | skiplist/pid_skiplist.c:83-91 | the two nested loops fill update[] with the last node before the key on every level |
| PidSkiplist.SkipList.Splice | skiplist/pid_skiplist.c:114-118 | the linking loop adds exactly one entry and moves no other node |
| PidSkiplist.SkipList.Unsplice | skiplist/pid_skiplist.c:177-181 | the unlinking loop, with its early break, removes exactly one entry |
| PidSkiplist.SkipList.LowerLevel | skiplist/pid_skiplist.c:183-187 | the level ends as the highest the header still leads somewhere on, or 1 |
| PidSkiplist.SkipList.Insert | skiplist/pid_skiplist.c:80-121 | map update: replaces the value of a number in use without allocating, adds a new one unless memory fails; a failed insertion keeps map and invariant and may raise the level |
| PidSkiplist.SkipList.Remove | skiplist/pid_skiplist.c:156-191 | map removal, with the level tight afterwards; removing an absent number changes nothing |
| PidSkiplist.SkipList.Lookup | skiplist/pid_skiplist.c:124-146 | map lookup; a reserved number gives NULL like an absent one |
| PidSkiplist.SkipList.FindGe | skiplist/pid_skiplist.c:237-258 | the value of the least number from the key on, NULL if there is none |
| PidSkiplist.SkipList.IterNext | skiplist/pid_skiplist.c:194-234 | the least entry from the start number, then from the cursor on; the cursor stays where it is at the end |
| PidSkiplist.SkipList.Enumerate | skiplist/pid_namespace.c:247-252 | the loop over the iterator gives exactly the pids, in rising order of number, up to the first reserved number |
| ConcurrentList.WriterStep | skiplist/pid_skiplist.c:80-191 | every single shared write of the writer keeps the structure invariant, leads every old pointer only to larger keys, and changes the map only at a first link, a first unlink or a replacement, by what the node written holds; that this is what was asked for is InsertionTakesEffect |
| ConcurrentList.StepKeeps | skiplist/pid_skiplist.c:114-146 | the invariant over list, writer and reader holds after every step of either |
| ConcurrentList.RunInv | skiplist/pid_skiplist.c:114-146 | the invariant holds in every state of every interleaving |
| ConcurrentList.SeenIsHistory | skiplist/pid_skiplist.c:124-146 | the recorded values are exactly those the number stood for while the lookup was under way |
| ConcurrentList.LookupLinearizes | skiplist/pid_skiplist.c:124-146 | a lookup returns a value the number had during it, if and only if it was not squeezed: no smaller number linked behind its node between its last two reads while the number was in use throughout |
| ConcurrentList.SqueezedHow | skiplist/pid_skiplist.c:136-142 | the exceptional case arises only from a level-0 link of a smaller number behind the node the reader has stopped at |
| ConcurrentList.LookupWithoutSmallerInserts | skiplist/pid_skiplist.c:124-146 | without insertions of smaller numbers meanwhile: a number in use throughout is found, one absent throughout gives NULL |
| ConcurrentList.MissedLookup | skiplist/pid_skiplist.c:140-145 | a run of the machine in which a number in use all along is not found |
| ConcurrentList.ReaderNeverStuck | skiplist/pid_skiplist.c:130-145 | the reader can always take its next read, even on a removed node: no tower is indexed beyond its height |
| ConcurrentList.RankFalls | skiplist/pid_skiplist.c:135-142 | a read lowers (level, distance to the key), and no write raises it |
| ConcurrentList.ReadsBounded | skiplist/pid_skiplist.c:130-145 | no interleaving makes a lookup take more than a fixed number of reads |
| ConcurrentIteration.SceneKeeps | skiplist/pid_skiplist.c:194-234 | the invariant over list, writer and iterating reader holds after every step of either |
| ConcurrentIteration.IterationInv | skiplist/pid_skiplist.c:194-234 | it holds in every state of every interleaving |
| ConcurrentIteration.HeldIsRecord | skiplist/pid_skiplist.c:194-234 | the recorded numbers are exactly those that were reserved at some instant of the loop |
| ConcurrentIteration.IterationComplete | skiplist/pid_skiplist.c:194-234 | the loop meets rising numbers, none twice, each with a value it had meanwhile; one that stands for a pid all along is met if and only if the loop does not end before it, at a number that was reserved meanwhile or at once |
| ConcurrentIteration.BelowStartHow | skiplist/pid_skiplist.c:207-221 | the loop ends at once only if a number below the start was linked behind the node its search had stopped at |
| ConcurrentIteration.IterationWithoutSmallerInserts | skiplist/pid_skiplist.c:194-234 | without such a link a number that stands for a pid all along is met, unless one from the start on and below it was reserved at some instant of the loop |
| ConcurrentIteration.CutOff | skiplist/pid_skiplist.c:219-221 | a run in which the loop is given nothing, though a number from its start on stands for a pid all along |
| ConcurrentIteration.CutAtReserved | skiplist/pid_skiplist.c:223-234 | a run in which a reserved number keeps it from one that stands for a pid all along |
| ConcurrentIteration.CursorNeverStuck | skiplist/pid_skiplist.c:194-234 | the loop can always take its next read, even from a removed node |
| ConcurrentFind.SearchInv | skiplist/pid_skiplist.c:237-258 | the invariant over list, writer and find_ge holds in every state of every interleaving |
| ConcurrentFind.FindGeResult | skiplist/pid_skiplist.c:237-258 | the number find_ge takes was the first in use from the one asked for on at some instant, if and only if it is not below that one; the pid is one the number had meanwhile |
| ConcurrentFind.SmallerHow | skiplist/pid_skiplist.c:243-257 | a number below the one asked for is taken only if it was linked behind the node the search had stopped at |
| ConcurrentFind.FoundSmaller | skiplist/pid_skiplist.c:252-257 | a run in which find_ge of a number in use all along gives the pid of a smaller one |
| ConcurrentFind.FinderNeverStuck | skiplist/pid_skiplist.c:237-258 | find_ge can always take its next read |
| ConcurrentWriter.InsertionTakesEffect | skiplist/pid_skiplist.c:80-121 | in every interleaving an insertion changes the entries at its level-0 link, and then by the number and the pid it was begun with, for every height; nothing is seen of it before, or if memory fails |
| ConcurrentWriter.InsertionEnds | skiplist/pid_skiplist.c:114-118 | from there on the entries stay, and when the writer is idle again the node has the height asked for and is linked on all its levels |
| ConcurrentWriter.RemovalTakesEffect | skiplist/pid_skiplist.c:172-181 | the first write of a removal is an unlink on level 0, and the entries are those before it without the number asked for |
| ConcurrentWriter.RemovalEnds | skiplist/pid_skiplist.c:177-187 | the rest of it changes no entry, and gives up the levels that have become empty |
| ConcurrentWriter.ReplacementTakesEffect | skiplist/pid_skiplist.c:94-98 | storing a pid under a number in use changes that entry at once |
| ConcurrentWriter.CanInsert | skiplist/pid_skiplist.c:80-121 | an insertion of a number not in use can begin, with any pid and any height |
| ConcurrentWriter.CanRemove | skiplist/pid_skiplist.c:156-175 | a removal or a replacement of a number in use can begin |
| ConcurrentWriter.WriterNeverStuck | skiplist/pid_skiplist.c:80-191 | whatever has begun, its next write can be made |
| ConcurrentWriter.WritesFall | skiplist/pid_skiplist.c:80-191 | each write brings an operation nearer to its end |
| RbSkiplist.AttachKeeps | rb-skiplist/pid_rb_skiplist.c:86-106 | inserting a node keeps the tree ordered and adds exactly that node, unless its key is there |
| RbSkiplist.RbSkipList.RbInsertNode | rb-skiplist/pid_rb_skiplist.c:86-106 | the search loop ends at the place where the node belongs, or finds its key |
| RbSkiplist.RbSkipList.FindLe | rb-skiplist/pid_rb_skiplist.c:109-126 | gives the node of the greatest tree key not above the target, or the header |
| RbSkiplist.RbSkipList.constructor | rb-skiplist/pid_rb_skiplist.c:46-60 | an empty list with an empty tree |
| RbSkiplist.RbSkipList.StartGood | rb-skiplist/pid_rb_skiplist.c:117-118 | the tree node found is linked on all sixteen levels, a non-empty tree implies level 16, and the node stands on the target exactly if the target is a tree key |
| RbSkiplist.TreeKeysAreTop | rb-skiplist/pid_rb_skiplist.c:179-182 | the tree keys are exactly the numbers of the nodes of full height |
| RbSkiplist.RbSkipList.KeysAreSeeds | rb-skiplist/pid_rb_skiplist.c:179-182 | the tree keys are the numbers with a tree entry |
| RbSkiplist.RbSkipList.SeededSearch | rb-skiplist/pid_rb_skiplist.c:135-148 | the seeded search fills update[] like a search from the header, if and only if the target is not a tree key |
| RbSkiplist.RbSkipList.InsertStart | rb-skiplist/pid_rb_skiplist.c:135-141 | consulting the tree only at level 16 gives a start before the ordinary node of the target and not before a tree node of it |
| RbSkiplist.RbSkipList.Insert | rb-skiplist/pid_rb_skiplist.c:128-185 | for every number: the value of its ordinary node is replaced; otherwise a new entry, a tree entry exactly if the draw is 0 and the number is no tree key yet, even where there is a tree entry of the number already; nothing without memory |
| RbSkiplist.RbSkipList.ReserveAndPublish | rb-skiplist/pid_rb_skiplist.c:128-267 | a new number reserved with the draw 0, published and removed: the lookups give NULL, the pid and NULL, and the reservation stays in the tree |
| RbSkiplist.RbSkipList.Lookup | rb-skiplist/pid_rb_skiplist.c:187-211 | the value of the ordinary entry, NULL without one; a tree entry is stepped past |
| RbSkiplist.RbSkipList.Remove | rb-skiplist/pid_rb_skiplist.c:220-267 | removes the ordinary entry and no tree entry; the branch that would erase from the tree is never taken |
| RbSkiplist.RbSkipList.FindGe | rb-skiplist/pid_rb_skiplist.c:309-334 | the value of the first entry from the ordinary one of the key on, tree entries further on included |
| RbSkiplist.RbSkipList.IterNext | rb-skiplist/pid_rb_skiplist.c:269-307 | the first entry from there, then the one behind the cursor, tree entries included |
| RbSkiplist.RbSkipList.Enumerate | rb-skiplist/pid_namespace.c:247-252 | the pids up to the first reserved entry, of the tree or not |
| Ranks.CutAtSeed | rb-skiplist/pid_namespace.c:247-252 | no enumeration from below a tree entry that is reserved gets to its number |
| Variants.StepBoth | rb-skiplist/pid_rb_skiplist.c:128-334 | one operation, the enumeration included, gives both lists the same reply and keeps them related, if it names no tree key, or if it keeps to reserving first |
| Variants.RunBoth | rb-skiplist/pid_rb_skiplist.c:128-334 | any sequence of such operations: equal replies step for step |
| Variants.NoZeroDrawFollows | rb-skiplist/pid_rb_skiplist.c:8-20 | without a draw of 0 there never is a tree entry |
| Variants.RunWithoutZeroDraw | rb-skiplist/pid_rb_skiplist.c:8-20 | without a draw of 0 the two variants cannot be told apart by insertions, removals, lookups, find_ge and enumerations, from their creation on |
| Variants.RunReservingFirst | rb-skiplist/pid.c:243-307 | whatever the draws: insertions, removals and lookups have equal replies if a pid is stored only under a number in use, as alloc_pid does, and memory does not fail there |
| Variants.PublicationsAgree | rb-skiplist/pid.c:303-309 | publishing a reserved number succeeds in both lists, and the pid is found, if and only if memory is there or the reservation is not in the tree |
| Variants.PublicationFails | rb-skiplist/pid.c:303-309 | a run in which the publication of a number reserved with the draw 0 fails, and the number is not found |
| Variants.TreeEntryStays | rb-skiplist/pid_rb_skiplist.c:117-118 | a tree entry is there for good and keeps its value, through all later operations |
| Variants.IterationCut | rb-skiplist/pid_namespace.c:247-252 | after any operations, an enumeration from below a number whose reservation is in the tree meets smaller numbers only |
| Variants.EnumerationCut | rb-skiplist/pid_namespace.c:247-252 | with numbers reserved first, the seeded enumeration is an initial part of the plain one, and all of it if and only if no tree key beyond the start comes before a number met; a start whose reservation is in the tree and not published is stepped past |
| Variants.EnumerationPassed | rb-skiplist/pid_namespace.c:247-252 | from such a start the plain list gives nothing |
| Variants.PassedOver | rb-skiplist/pid_namespace.c:234-252 | a run of that kind: the loop and find_ge give nothing in the plain list and a pid in the seeded one |
| Variants.FindGeAgrees | rb-skiplist/pid_rb_skiplist.c:309-334 | with numbers reserved first, what find_ge gives in the seeded list, and when the two replies agree, in both directions |
| Variants.CutShort | rb-skiplist/pid_namespace.c:234-252 | a run: a number reserved with the draw 0 and published is enumerated from 2 in the plain list and missed in the seeded one |
| Variants.LookupsAgree | rb-skiplist/pid_rb_skiplist.c:187-211 | in lists so related the lookups of a number agree if and only if its only node is not a tree node with a pid |
| PidModel.FindAfterNr | skiplist/pid.c:354-367 | find_pid_ns of pid_nr_ns gives the pid back, for every published pid and every ancestor of its namespace |
| PidModel.NrAfterFind | skiplist/pid.c:508-519 | the pid a number finds has that number there, and no other published pid has |
| PidModel.CountIsVisible | skiplist/pid.c:148-165 | pid_allocated without its top bit is the number of published pids seen from the namespace, below 2^22 |
| PidModel.ChainIsAncestors | skiplist/pid.c:508-519 | the namespaces of a pid's numbers are the ancestors of its leaf, level by level |
| PidSteps.ReservedOne | skiplist/pid.c:209-286 | one more level reserved extends the chain of first free numbers by the parent namespace |
| PidSteps.ChosenCan | skiplist/pid.c:209-300 | with a number at every level an allocation succeeds exactly if ns accepts pids and proc does not fail for number 1 |
| PidSteps.FirstIsUnique | skiplist/pid.c:227-268 | the first free number in cyclic order is determined |
| PidSteps.PutUndoesGet | skiplist/pid.c:317-319 | taking and putting back the reference of a namespace leaves everything as it was |
| PidAlloc.AllocConsistent | skiplist/pid.c:209-315 | publishing at every level keeps indexes, counters, chains and references right |
| PidAlloc.FreeKeeps | skiplist/pid.c:138-176 | a release keeps them right too |
| PidAlloc.FreeUndoesAlloc | skiplist/pid.c:138-176 | a release right after an allocation restores every index, and every counter but that of a namespace that was open and empty, which is closed |
| PidReferences.PutKeeps | skiplist/pid_namespace.c:186-196 | put_pid_ns leaves every remaining count equal to outside holders plus children plus pids, and a forest |
| PidReferences.PutDestroys | skiplist/pid_namespace.c:186-196 | it destroys exactly the longest chain of ancestors that hold their last reference, and takes one reference from the one above |
| PidReferences.PayLast | skiplist/pid_namespace.c:178-184 | a namespace that is destroyed has no child, no pid and an empty index |
| PidReferences.DropKeeps | skiplist/pid.c:115-127 | the last put of a pid drops its hold on its namespace, and all counts stay right |
| PidReferences.CreateKeeps | skiplist/pid_namespace.c:83-144 | a new namespace is a leaf of the forest and counts for its parent |
| PidLaws.FirstFitIsNext | skiplist/pid.c:218-271 | the number chosen is the least that can be had above the last one given out, otherwise the least up to it; from 1 on if the last one plus 1 is no number below pid_max |
| PidLaws.AllocTakesNext | skiplist/pid.c:206-312 | an allocation takes that number in every namespace from the first down to ns, where it finds the pid, is the last number and is counted; no other namespace changes, and ns has one reference more |
| PidLaws.FailGivesBack | skiplist/pid.c:321-338 | after a failure every number taken is free again and is the last one of its namespace, but for an open and empty ns, whose last number is 0; in the namespace it failed in no number could be had |
| PidLaws.FreeForgets | skiplist/pid.c:138-176 | after a release the pid is seen from no namespace; counters are those of the pids left, without the adding bit where none is; reapers of closed namespaces with one or two left are woken, and proc is told where none is |
| PidLaws.NewIsOpen | skiplist/pid_namespace.c:100-144 | a new namespace accepts pids, has none, is one level down and held once; nothing else changes but a reference to the parent |
| PidLaws.FirstIsOne | skiplist/pid_namespace.c:108-128 | whoever allocates in it first gets number 1 there, if that has memory |
| PidLaws.FirstCanBe | skiplist/pid.c:209-300 | that allocation can be made if every ancestor has a number left |
| PidLaws.NumberWhereSeen | skiplist/pid.c:508-519 | a pid has numbers exactly in its namespace and the ancestors of that; seen from anywhere else its number is 0 |
| PidLaws.CountStep | skiplist/pid.c:115-134 | every operation changes the count of a pid by the references it takes and drops, and the pid is there exactly while the count is positive |
| PidLaws.CountInRuns | skiplist/pid.c:115-134 | along every sequence of operations the count is the number of references taken less those dropped |
| PidLaws.HeldInRuns | skiplist/pid_namespace.c:186-196 | so is the number of outside references to a namespace, for as long as it is there |
| PidRuns.BootSound | skiplist/pid.c:82-96 | the initial state is consistent |
| PidRuns.FirstAllocation | skiplist/pid.c:181-344 | from the initial state an allocation can be made, and takes number 1 |
| PidRuns.StepKeeps | skiplist/pid.c:115-344 | every operation keeps consistency |
| PidRuns.RunSound | skiplist/pid.c:115-344 | consistency holds in every state of every sequence of operations |
| PidRuns.IdentityInRuns | skiplist/pid.c:354-367 | in every such state nothing is left reserved, and pids and numbers find each other |
| PidRuns.FoundUntilFreed | skiplist/pid.c:354-367 | from its publication until a step frees it, a pid is found under each of its numbers |
| PidRuns.ClosedForever | skiplist/pid.c:302-304 | once a namespace accepts no pids it never does again, and no later allocation in it succeeds |
| PidRuns.ReleaseOne | skiplist/pid.c:145-172 | releasing level by level adds up to the release of the whole pid |
| PidRuns.ThoseGrow | skiplist/pid.c:148-165 | a level once released is not counted again by later ones |
| PidSystem.PidAllocator.constructor | skiplist/pid.c:76-96 | init_pid_ns: open, empty, two references |
| PidSystem.PidAllocator.Scan | skiplist/pid.c:229-247 | the first number of the range that looks up NULL and whose insertion succeeds is reserved, or there is none and nothing changes |
| PidSystem.PidAllocator.Reserve | skiplist/pid.c:218-271 | the least number above last_pid that can be had, otherwise the least up to it, by the index before the call; failure means no number in [1, pid_max) can be |
| PidSystem.PidAllocator.ReserveAll | skiplist/pid.c:206-286 | a first-fit number in every namespace from the leaf up, or the level that has none |
| PidSystem.PidAllocator.RollBack | skiplist/pid.c:321-330 | every reserved number is given back |
| PidSystem.PidAllocator.Unwind | skiplist/pid.c:321-338 | every number reserved is free again and left as the last one of its namespace; an open, empty ns starts over |
| PidSystem.PidAllocator.Publish | skiplist/pid.c:300-312 | the pid replaces the reservation and is counted at every level |
| PidSystem.PidAllocator.Commit | skiplist/pid.c:293-319 | publishes and keeps the reference exactly if ns accepts pids, otherwise puts it back |
| PidSystem.PidAllocator.AllocPid | skiplist/pid.c:181-344 | succeeds exactly if it can; on success the new pid has the next number after the last one at every level, on failure the last numbers are those given back, and nothing else has changed |
| PidSystem.PidAllocator.ReleaseLevel | skiplist/pid.c:148-171 | who is told after a decrement: the reaper at 1 or 2, proc at 0 or at the bare adding bit, which is cleared |
| PidSystem.PidAllocator.FreePid | skiplist/pid.c:138-176 | the pid leaves every index, counters go down, and exactly the reapers of closed namespaces with one or two pids left are woken, and proc works queued where none is left |
| PidSystem.PidAllocator.PutPid | skiplist/pid.c:115-127 | one reference less, the pid and its hold on its leaf with the last |
| PidSystem.PidAllocator.DelayedPutPid | skiplist/pid.c:130-134 | the table's own reference, after the grace period |
| PidSystem.PidAllocator.GetPid | skiplist/pid.h:83-88 | one reference more |
| PidSystem.PidAllocator.PutPidNs | skiplist/pid_namespace.c:186-196 | the climbing loop destroys what the recursive specification destroys, and ends |
| PidSystem.PidAllocator.CreatePidNamespace | skiplist/pid_namespace.c:83-144 | succeeds exactly if allowed, with memory, at level 32 at most; the new namespace accepts pids and has none |
| PidSystem.PidAllocator.HoldNs | skiplist/pid_namespace.h:69-74 | one outside reference more |
| PidSystem.PidAllocator.ReleaseNs | skiplist/pid_namespace.c:186-196 | one outside reference less, with what that destroys |
| PidSystem.PidAllocator.DisablePidAllocation | skiplist/pid.c:346-351 | the counter is the number of pids seen, without the adding bit, and the namespace closed |
| PidSystem.PidAllocator.SetLastPid | skiplist/pid_namespace.c:299-335 | last_pid is the number written, if within 0 to pid_max, and nothing else changes |
| Reservation.ScanList | skiplist/pid.c:229-247 | the scan on the skip list itself does to its contents what the scan does to the index |
| Reservation.ReserveIn | skiplist/pid.c:218-271 | on the skip list itself, the least number above the last one that can be had, otherwise the least up to it |
| Reservation.PublishIn | skiplist/pid.c:307-311 | publishing a reserved number cannot fail, whatever memory there is |
| Reservation.VisitsVisible | skiplist/pid_namespace.c:247-252 | in a consistent state the enumeration of the index of a namespace meets every published pid seen from there under a number from the start on, once, in rising order |
| Reservation.ZapLoop | skiplist/pid_namespace.c:247-252 | so does the loop on the skip list of the namespace |
| ZapWakeup.RunInv | skiplist/pid_namespace.c:283-289 | the invariant of reaper, free_pid and alloc_pid holds in every interleaving |
| ZapWakeup.NoLostWakeup | skiplist/pid_namespace.c:283-289 | a reaper asleep with only its own pids left has a free_pid between decrement and wake, and that wake ends the sleep |
| ZapWakeup.DoneIsAlone | skiplist/pid_namespace.c:283-289 | the reaper leaves its loop only when its own pids are all that is left |
| ZapWakeup.CountIsKept | skiplist/pid.c:145-148 | the counter is the first one, plus the pids allocated further down, less the releases |
| ZapWakeup.WokenWhen | skiplist/pid.c:148-156 | a release wakes the reaper only with one or two pids left |
| ZapWakeup.NeverStuck | skiplist/pid.c:148-156 | until it is done, the reaper, a waker or an exiting task can move |
| ZapWakeup.TeardownEnds | skiplist/pid_namespace.c:283-289 | without allocations further down the wait takes a bounded number of steps |
| SpuRunqueue.RunQueue.constructor | skiplist/sched.c:1089-1098 | empty lists, clear bitmap, nobody waiting |
| SpuRunqueue.RunQueue.Add | skiplist/sched.c:481-502 | a context that waits nowhere goes to the end of its list; bitmap, count and timer follow |
| SpuRunqueue.RunQueue.Del | skiplist/sched.c:511-523 | the context leaves its list, the order of the others kept; bitmap, count and timer follow |
| SpuRunqueue.RunQueue.FindFirstBit | skiplist/sched.c:831 | the least set bit below the bound |
| SpuRunqueue.RunQueue.Grab | skiplist/sched.c:825-848 | takes out the earliest-queued fitting context of the smallest priority below the bound; NULL only if none fits |
| SpuRunqueue.BestIsUnique | skiplist/sched.c:825-848 | there is only one such context |
| SpuRunqueue.WithoutAt | skiplist/sched.c:519 | unlinking takes out one place and keeps the order |
| SpuModel.PlacedSane | skiplist/sched.c:210-246 | binding to an empty SPU keeps links, marks and counters if and only if the context was not bound yet |
| SpuModel.RemovedSane | skiplist/sched.c:424-475 | unbinding keeps them: nr_active, reserved_spus and busy_spus are the numbers of bound, NOSCHED and USER contexts |
| SpuModel.SwitchedSane | skiplist/sched.c:1025-1059 | a change of utilization state keeps busy_spus right, bound or not |
| SpuModel.BindIsPlaced | skiplist/sched.c:210-246 | the steps of binding add up to its specification |
| SpuModel.BindMeans | skiplist/sched.c:210-246 | they are all of it but nr_active and the mark of the SPU |
| SpuModel.UnbindIsRemoved | skiplist/sched.c:424-475 | the steps of unbinding add up to its specification |
| SpuModel.UnbindMeans | skiplist/sched.c:424-475 | they are all of it but nr_active, which is lowered before |
| SpuModel.BetterIsLonger | skiplist/sched.c:71-91 | a better priority never has a shorter slice, and every slice is at least one tick |
| SpuModel.SliceIs | skiplist/sched.c:64-91 | the slice of every priority in numbers: 100 ms at 120, 800 ms at 100, a twentieth of the default at 139, (140 - prio) twentieths of it from 120 on and four times that below, never less than the least one |
| SpuModel.SliceBound | skiplist/sched.c:64-70 | a slice is within eight default slices (800 ms), or the least one, if and only if the priority is of the ordinary range or the excess rounds to nothing; 28 default slices occur |
| SpuScheduler.Scheduler.constructor | skiplist/sched.c:1085-1125 | every SPU free, every context saved, nobody waiting |
| SpuScheduler.Scheduler.SwitchState | skiplist/sched.c:1025-1059 | the state and the counter of the node change as specified |
| SpuScheduler.Scheduler.SetTimeslice | skiplist/sched.c:85-91 | the new slice is that of SliceIs for the priority of the context, at least the least one and, for an ordinary priority, at most eight default ones; everything is kept |
| SpuScheduler.Scheduler.Bind | skiplist/sched.c:210-246 | with nr_active raised and the SPU marked, which is left to the caller, the result is the specified binding |
| SpuScheduler.Scheduler.Unbind | skiplist/sched.c:424-475 | from the state in which nr_active was not lowered yet, the result is the specified unbinding |
| SpuScheduler.Scheduler.Unschedule | skiplist/sched.c:750-763 | unbinding with nr_active and the mark of the SPU |
| SpuScheduler.Scheduler.Schedule | skiplist/sched.c:705-725 | binds to an empty SPU, queues otherwise; keeps everything unless the context was bound already, when it breaks the links |
| SpuScheduler.Scheduler.HandOver | skiplist/sched.c:727-735 | only a saved context is bound |
| SpuScheduler.Scheduler.AddToRq | skiplist/sched.c:504-509 | queueing keeps everything |
| SpuScheduler.Scheduler.DelFromRq | skiplist/sched.c:525-530 | so does leaving the queue |
| SpuScheduler.Scheduler.GrabRunnable | skiplist/sched.c:825-848 | the first context, in the order of the lists, whose allowed nodes include this one leaves the queue; none if and only if no waiting context below the bound may run there |
| SpuScheduler.Scheduler.GetIdle | skiplist/sched.c:559-609 | the place that gang affinity wants, if it wants one, and only if it is free; otherwise the first free SPU of the first allowed node, from the local one on; it is marked; none only if there is none such |
| SpuScheduler.Scheduler.VictimOf | skiplist/sched.c:640-649 | the first of the worst-priority contexts of the node that are strictly worse and may be preempted |
| SpuScheduler.Scheduler.FindVictim | skiplist/sched.c:617-703 | unbinds exactly that context on the first allowed node that has one, and queues it again if it is to run |
| SpuScheduler.Scheduler.Deactivate | skiplist/sched.c:850-874 | unbinds if forced or if somebody waits, and hands the SPU to the best waiting context |
| SpuScheduler.Scheduler.Yield | skiplist/sched.c:897-905 | the same without force, and not for NOSCHED contexts |
| SpuScheduler.Scheduler.Tick | skiplist/sched.c:907-944 | a slice is spent, prolonged or ended as specified; every bound context keeps a slice of at least 1 |
| SpuScheduler.GrabbedIsNext | skiplist/sched.c:825-848 | the same of the specification: everybody before the context found may not run on the node, and the context may |
| SpuScheduler.FoundExactly | skiplist/sched.c:788-816 | an SPU is found if and only if the place wanted by affinity is free, or, without affinity, one where the context may run, or it is realtime and one can be taken from another context |
| SpuScheduler.Scheduler.ActivateTop | skiplist/sched.c:788-816 | finds an SPU, by preemption if realtime, and binds it, or queues the context; keeps everything if the context was not bound, a signal is pending or there is no SPU to be had, and breaks the links otherwise |
| SpuScheduler.Scheduler.Activate | skiplist/sched.c:774-817 | with the check at its head everything is kept |
| SpuScheduler.Scheduler.Reactivate | skiplist/sched.c:543-551 | after the wait there is no such check: everything is kept if and only if, before the call, the context is not bound, or a signal is pending, or there is no SPU to be had for it |
| SpuScheduler.Scheduler.UpdateSchedInfo | skiplist/sched.c:96-153 | priority, policy and allowed nodes change only while the context does not wait |
| SpuScheduler.DeactivateLoses | skiplist/sched.c:850-874 | the SPU is left marked but empty exactly if the context found is NOSCHED or bound elsewhere |
| SpuScheduler.DeactivateLosesWhen | skiplist/sched.c:850-874 | by the state before the call: exactly if the best waiting context that fits is |
| SpuScheduler.LostIsNotFound | skiplist/sched.c:559-703 | an SPU left so is neither free nor run by a victim |
| SpuScheduler.TickIsFair | skiplist/sched.c:907-944 | a tick hands the SPU only to a context of equal or better priority, never from a NOSCHED or FIFO one; it binds a waiting NOSCHED context too |
| SpuRuns.StepKeeps | skiplist/sched.c:543-944 | every operation keeps links, marks, counters, run queue and node lists, a return from waiting if and only if the context is not bound meanwhile, a signal is pending or there is no SPU to be had |
| SpuRuns.RunKeeps | skiplist/sched.c:543-944 | along any sequence of operations everything is right up to a state if and only if no return from waiting before it was of the other kind |
| SpuRuns.LostStays | skiplist/sched.c:559-944 | no operation gives a lost SPU back |
| SpuRuns.LostForever | skiplist/sched.c:559-944 | along any such sequence a lost SPU stays lost, and no search finds it |
| SpuRuns.Perform | skiplist/sched.c:96-944 | the methods of the scheduler are the operations of these sequences |
| SpuRuns.BindsTwice | skiplist/sched.c:543-551 | a run from boot: a tick binds a waiting NOSCHED context, which then takes a second SPU |
| SpuRuns.LosesSpu | skiplist/sched.c:850-874 | a run from boot: a deactivation finds a NOSCHED context and leaves the SPU marked and empty |
| SpuLaws.DeactivateLaw | skiplist/sched.c:850-874 | field by field: an unbound context is left alone; the next context that may run on the node gets the SPU with a whole slice; the SPU is free if there is none and c is forced to leave; nobody else is touched |
| SpuLaws.TickLaw | skiplist/sched.c:907-944 | a tick takes one from the slice; at its end the next context of equal or better priority gets the SPU and c waits if still to run, or c stays |
| SpuLaws.FoundLaw | skiplist/sched.c:559-703 | the place wanted by affinity, if free; otherwise a free SPU on the nearest allowed node; otherwise, for a realtime context, the worst of the contexts it may preempt on the nearest allowed node that has one; otherwise none |
| SpuLaws.ActivateLaw | skiplist/sched.c:774-817 | the context gets the SPU found, and whoever ran there is saved and waits if still to run; it waits itself if none is found |
| SpuLaws.StepLaw | skiplist/sched.c:481-944 | every step of a sequence of operations is one of these |
| SpuLaws.BoundWhereAllowed | skiplist/sched.c:825-848 | a context newly bound by any operation is allowed on the node of its SPU, or was put there by affinity; one bound by a deactivation, a yield or a tick had been waiting |
| SpuLaws.LosesWhy | skiplist/sched.c:617-944 | a context loses its SPU only by its own deactivation or yield, at the end of its slice, or to a realtime context of a better priority; in the latter two cases it waits if it is still to run |
| SpuLaws.GivesWayWhen | skiplist/sched.c:850-905 | a yield changes something if and only if the context is bound, not NOSCHED, and somebody waits who may run on its node |
| SpuLaws.RunsOrWaits | skiplist/sched.c:774-817 | after an activation that no signal stops, the context runs or waits |
| SpuLaws.WaitsInTurn | skiplist/sched.c:481-530 | no operation on another context changes the order of those who wait, and whoever begins to wait is the last of its priority |
| SpuLaws.NobodyForgotten | skiplist/sched.c:481-944 | a context stops waiting only because it runs, was told so as a NOSCHED one, or looks for an SPU itself |
| SpuLaws.SliceLasts | skiplist/sched.c:907-944 | a context keeps its SPU for all ticks of its slice but the last, whoever waits |
| SpuLaws.SliceEnds | skiplist/sched.c:907-944 | with the last one it loses the SPU, and waits, if and only if somebody of equal or better priority waits who may run there |

## Left out

- PidSystem.PidAllocator.AllocPid: is one step, so nothing is said of two allocations interleaved between reservation and publication, where the code does not keep reservations unique; the error numbers are not modelled, one of them being 0 on a failing path.
- ConcurrentList.LookupLinearizes: assumes sequentially consistent accesses and that a removed node stays allocated while a reader may hold it; weak memory and grace periods are not modelled.
- SpuScheduler.Scheduler.FindVictim: is one atomic step, so the restart after a lost race, and whether it ends, is not modelled.
- SpuScheduler.Scheduler.GetIdle: takes the place that gang affinity wants as a parameter; how the reference SPU and the offsets from it are chosen (lines 237 to 413 of `skiplist/sched.c`) is not modelled.
- ConcurrentIteration.IterationComplete: with the same assumptions as LookupLinearizes, as is ConcurrentFind.FindGeResult; one reader against one writer of the plain list.
- The red-black tree's colours and rotations, and readers of the tree racing with its changes: the tree is an unbalanced search tree with the loops of the source.
- The namespace and allocator files of the seeded variant: the same algorithms over the other index; what the other index changes is said in Variants.
- Namespaces and struct pids, SPUs and contexts as heap objects: they are values in maps, so aliasing between their fields is not modelled.
- The destruction of a whole list, pidfd, task lists, signals, the load average, ucounts and user namespaces, slab caches, hardware save and restore, timers other than the scheduler tick, tracing.
- Average cost of searches: only termination and bounds are stated.
- Constants from kernel headers outside the repository (priorities, the limit of pid_max, the numbers of utilization states) are given their usual values.
