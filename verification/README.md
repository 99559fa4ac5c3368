# phat: verified core

phat reads a Java heap dump and reports which classes hold how much memory. Three of its parts are modelled here, each on
its own kind of state, and proved in Dafny:

- **The red-black tree** (`rbtree.c`), in which phat keeps every table: node objects with parent pointers, the insert and
  delete fix-ups case by case, deletion by way of a dummy leaf or of the predecessor, and trees of trees keyed by arrays.
  Every operation is tied to the sorted contents of the tree, and these to a map.
- **The hierarchical allocator** (`talloc.c`): chunks whose siblings form a doubly linked list in which only the first one
  stores the parent. Allocation, stealing, freeing, moving reallocation, references and unlinking are tied to an ordered
  forest and to the lists of reference handles.
- **The heap analyser** (`phat.c`): the layout of instances along the superclass chain, the resolver that walks a possibly
  cyclic object graph with one shared file position, the class-to-class arcs, and the byte accounting of the reader of heap
  records.

`dafny verify dfyconfig.toml` checks everything. The modules follow the three files:

| part | modules |
|---|---|
| rbtree.c | `Shapes`, `RbRules`, `RbHeap`, `RbInsert`, `RbDelete`, `RbRemove`, `Tables`, `RbTable`, `Nests`, `ArrayTree`, `ArrayWalk`, `ArrayFree`, `ArrayRun` |
| talloc.c | `Forests`, `Transfers`, `Chunks`, `Talloc`, `Totals`, `Realloc`, `Releases`, `RefMaps`, `Flows`, `FlowFacts`, `FlowFrames`, `FlowPlain`, `Fates`, `Sights`, `Ownership`, `Owners`, `Aftermaths`, `Heirs`, `Drains`, `Stacks`, `DrainFacts`, `Keeping`, `DrainFlow`, `Ranks`, `Survivors`, `Legacies`, `Ascents`, `Freeing`, `Arenas`, `HandleLaws`, `ArenaRuns`, `Mutual`, `Predecessors`, `Tangles` |
| phat.c | `Formats`, `Layout`, `HeapGraph`, `HeapWalk`, `HeapRuns`, `Arcs`, `Resolver`, `ResolveRuns`, `HeapLaws`, `Records`, `HeapReader`, `ReaderLaws`, `Counting` |

`talloc_free` is modelled twice on values. `Drains.TryFree` is the whole function, wherever the handles are that refer to
the chunk and to what is below it; it says how a call ends, also where the code goes wrong, and `Freeing` is the heap
against it. `Flows.Aftermath` is the same loop when all references to what is below the chunk come from outside its tree;
`DrainFlow.TryIs` connects the two, and the fates of single chunks are read off in closed form there.

In the tree and in the allocator a heap is described by a ghost value (a coloured tree, a forest) and a zipper: `Zip` says
that the objects around a place and in it are linked as the value says. A method takes the value as a ghost parameter and
says what it becomes.

## What turned out false

Five things that one would expect of the code do not hold for all inputs. Each has an input on which it fails and a
condition under which it holds; the condition is exact except where it says otherwise.

- Freeing a chunk can read freed memory. A chunk that is being freed finds its former parent through its former
  predecessor (`talloc.c:561-563`); if the predecessor is a handle to a chunk below, it may be gone by then.
  `Predecessors.FreeSafe` gives the condition when all references to what is below the chunk come from outside its tree,
  with handles that have a parent and handles that have none; `DrainFacts.NotBlind` covers all other references one way.
  `Predecessors.InputBreaks` has two inputs, and `Freeing.FreeUntilBlind` takes the heap to the point where the freed
  predecessor is read next.
- Freeing a chunk can lose chunks below it. If two chunks below it refer to each other and one of them refuses, the code
  can hang each of them below the other (`Tangles.KnotHangs`); `Freeing.FreeUntilHung` takes the heap there. By
  `DrainFacts.NoneLost` no chunk is lost if and only if the code never comes to a child whose new parent is below it, and
  that never happens when the references below the chunk are acyclic (`Ranks.RankedFree`), which is wider than all of them
  coming from outside (`Ranks.OutsideRanked`, `Tangles.BridgeGoes`). With cycles it depends on the order of the children.
- Unlinking can lose chunks. If the owner of the newest reference is below the chunk, the chunk is hung below its own
  descendant. `Owners.UnlinkedIff` gives the condition, `Mutual.SecondLosesAll` an input that legal calls lead to, and
  `Arenas.Arena.RelinkInside` the heap.
- Unlinking does not always take the given owner away. If the newest reference comes from the chunk itself, the chunk loses
  itself as an owner and keeps the given one: `Owners.OwnerLawIff` gives the condition, `Mutual.AloneKeepsParent` an input.
- The reader of heap records does not always stop at the end of a record: it forgets one byte for every constant of a class
  (`phat.c:654-656`). `HeapReader.Reader.ReadRounds` and `HeapReader.SlacksZero` give the exact error,
  `HeapReader.PoolWitness` a record.

## Model

| member | source | states |
|---|---|---|
| `RbHeap.RotateLeft` | rbtree.c:127-148 | for every position in every tree, the heap afterwards is the rotated tree with consistent parent pointers and root pointer, and the in-order contents are unchanged |
| `RbHeap.RotateRight` | rbtree.c:150-171 | the mirror image |
| `RbInsert.Uncle` | rbtree.c:104-122 | the sibling of the parent in the abstract tree, or NULL |
| `RbInsert.InsertCase1` | rbtree.c:295-306 | from any tree whose only defect is a red node below a red parent or at the root, the fix-up ends, and ends with a red-black tree with the same contents in the same objects |
| `RbInsert.InsertCase2` | rbtree.c:282-293 | the same below a parent |
| `RbInsert.InsertCase3` | rbtree.c:262-281 | the same for a red parent; with a red uncle the defect moves two levels up |
| `RbInsert.InsertCase4` | rbtree.c:241-261 | the same for a black uncle |
| `RbInsert.InsertCase5` | rbtree.c:224-240 | the same for a black uncle and an outer grandchild, in one rotation |
| `RbRules.Case3Rule` | rbtree.c:262-281 | recolouring keeps all black heights and leaves at most one red-red edge, at the grandparent |
| `RbRules.Case5Rule` | rbtree.c:224-240 | recolouring and rotating at the grandparent gives a balanced subtree with a black root |
| `RbDelete.Sibling` | rbtree.c:308-323 | the other child of the parent in the abstract tree |
| `RbDelete.DeleteCase1` | rbtree.c:430-438 | from any tree whose paths through one node lack a black node, the fix-up ends, never uses a missing sibling or nephew, and gives the surroundings one black node more while keeping their contents and objects |
| `RbDelete.DeleteCase2` | rbtree.c:412-428 | the same below a parent; a red sibling is rotated up, which makes the parent red |
| `RbDelete.DeleteCase3` | rbtree.c:395-410 | the same for a black sibling; it goes back to case 1 only below a black parent, one level up |
| `RbDelete.DeleteCase4` | rbtree.c:376-391 | the same when something around is red |
| `RbDelete.DeleteCase5` | rbtree.c:345-374 | the same when a nephew is red |
| `RbDelete.DeleteCase6` | rbtree.c:325-343 | the same when the far nephew is red, in one rotation |
| `RbRules.SiblingExists` | rbtree.c:308-323 | where a black node is missing there is a sibling |
| `RbRules.DCase5Rule` | rbtree.c:345-374 | rotating at the sibling keeps all black heights and makes the far nephew red |
| `RbRules.DCase6Rule` | rbtree.c:325-343 | rotating at the parent pays for the missing black node |
| `RbRemove.SpliceOut` | rbtree.c:481-546 | a node with at most one child leaves; the result is red-black with exactly the other entries and objects, and the dummy leaf is not among them |
| `RbRemove.Substitute` | rbtree.c:553-581 | the predecessor object takes the place of the victim with all links; contents and balance are unchanged but for the object |
| `RbRemove.DeleteNode` | rbtree.c:440-581 | deleting any node of any red-black tree gives a red-black tree whose entries (object, key, data, in order) are the old ones without the victim's, also when the predecessor was swapped in |
| `RbTable.FreeNode` | rbtree.c:583-600 | freeing a node takes exactly its object out of the tree; the tree frees itself exactly when its lowest flag bit is set and it is now empty |
| `RbTable.Lookup` | rbtree.c:707-728 | the answer is the map's at that key, or NULL; with n entries at most 2*log2(n+1) steps |
| `Tables.HeightBound` | rbtree.c:707-728 | a red-black tree with n nodes has height at most 2*log2(n+1) |
| `RbTable.Insert` | rbtree.c:634-705 | keeps all invariants, changes the map at one key, returns the old data or NULL, and reuses the object if there was one |
| `RbTable.InsertCallback` | rbtree.c:758-821 | the same with the caller's function of the old data |
| `RbTable.Delete` | rbtree.c:734-755 | keeps all invariants and removes one key from the map; a missing key changes nothing; the tree is gone exactly when its lowest flag bit is set and the key was its only one |
| `Tables.MapAt` | rbtree.c:707-728 | the entry at a key of the sorted contents is what the map holds |
| `Tables.MapStore` | rbtree.c:634-705 | putting an entry at its place in the sorted contents is an update of the map at one key |
| `Tables.MapRemove` | rbtree.c:734-755 | leaving an entry out of the sorted contents is removing one key |
| `ArrayTree.InsertArray` | rbtree.c:831-888 | for every key length: the entry at the key sequence gives way to the caller's function of its value or NULL, every other sequence keeps its value, and no subtree is empty |
| `ArrayWalk.LookupArray` | rbtree.c:890-909 | the answer is the flat map's at the key sequence, or NULL |
| `ArrayWalk.TraverseNode` | rbtree.c:913-937 | the callback sees the values below one node once each, in the order of their key sequences |
| `ArrayWalk.Traverse` | rbtree.c:939-957 | the callback sees every stored value once, in the order of the flat table |
| `Nests.FlatSorted` | rbtree.c:913-957 | that order is strictly increasing and lexicographic |
| `ArrayWalk.FindFirst` | rbtree.c:962-993 | the value at the least key sequence, or NULL if nothing is stored |
| `Nests.GetDeep` | rbtree.c:890-909 | looking up a sequence is looking up its head and then the rest in that subtree |
| `ArrayFree.FreeArray` | rbtree.c:583-600 | freeing an entry removes exactly its sequence; a subtree that becomes empty frees itself and its outer node, level by level |
| `ArrayRun.Step` | rbtree.c:831-888 | one insert or free makes of the flat map what it should |
| `ArrayRun.Run` | rbtree.c:831-888 | after every run of inserts and frees the flat map is what the operations say, all trees are valid and no subtree at any level is empty |
| `Chunks.Unlink` | talloc.c:130-154 | the chunk leaves its list, the others are linked as if it had never been there, and its children stay with it |
| `Chunks.Adopt` | talloc.c:245-258 | the chunk becomes the first child; the old first child gives up its parent pointer |
| `Talloc.ParentChunk` | talloc.c:182-194 | walking `prev` finds the parent in the forest, for chunks in their lists and for one that has just left |
| `Talloc.IsParent` | talloc.c:395-414 | true exactly for chunks on the way up from the context, wherever that leads |
| `Ascents.WayTo` | talloc.c:395-414 | also through chunks that are being freed, the way up passes a chunk that is not being freed itself exactly if the context is in its tree |
| `Talloc.Alloc` | talloc.c:229-286 | the new chunk is the first child of its context; too large a size fails and changes nothing |
| `Talloc.Steal` | talloc.c:421-471 | the forest is the old one with one tree moved, or unchanged where the code returns early |
| `Talloc.FrontStays` | talloc.c:452-454 | stealing a first child to its own parent is moving it to where it is |
| `Talloc.StealInside` | talloc.c:421-471 | stealing a chunk to its own descendant cuts its tree off from the forest and closes a cycle |
| `Transfers.MovedParent` | talloc.c:421-471 | a move changes the parent of the moved chunk and of no other |
| `Transfers.MoveKeepsAll` | talloc.c:421-471 | a move loses no chunk if and only if the new parent is outside the moved tree |
| `Transfers.MovedTotals` | talloc.c:421-471 | a move conserves the grand total, takes the weight of the tree from every old ancestor and gives it to every new one |
| `Totals.Walk` | talloc.c:984-1046 | the sum over the tree without what is below flagged chunks, one or the size of each (`Totals.SeenMeans`), and every loop flag is as found |
| `Totals.TotalOf` | talloc.c:984-1046 | on a heap at rest: the number of chunks in the tree, or the sum of their sizes |
| `Totals.SeenMeans` | talloc.c:984-1046 | what the walk adds up is the number of the chunks it meets, or the sum of their sizes, also where it stops at flagged chunks |
| `Totals.WeightMeans` | talloc.c:984-1046 | the weight of a tree that the conservation laws speak of is the number of its chunks, or the sum of their sizes |
| `Realloc.Move` | talloc.c:892-967 | a chunk that moves in memory has the new size, and leaves the forest the same up to its name and size |
| `Realloc.RenamedParent` | talloc.c:892-967 | the renamed chunk has the parent it had, and its children have it as their parent |
| `Realloc.RenamedFields` | talloc.c:962 | the renamed chunk has the new size and otherwise the fields of the old one; every other chunk keeps all its fields |
| `Flows.Flow` | talloc.c:537-571 | the loop over the children as a function: the number of waiting siblings never exceeds the number of chunks that were there, so the nested loops end |
| `FlowFacts.FlowKept` | talloc.c:537-571 | the loop loses no chunk except freed ones and their handles, the lists forget exactly those, and every other chunk outside keeps its parent and fields |
| `FlowFrames.FlowInside` | talloc.c:537-571 | freeing a child of a chunk that is itself being freed puts what cannot be freed in front of its siblings and touches nothing else |
| `Freeing.RunDestructor` | talloc.c:323-328 | the destructor of a handle takes it out of its target's list |
| `DrainFacts.TryFirst` | talloc.c:476-581 | whoever refers to what: `talloc_free` on a forest at rest ends with the chunk freed or kept, with a chunk about to go below its own descendant, or about to read a freed predecessor; in the first two cases the forest is at rest again, the lists forget exactly what is gone, and outside the tree of the chunk only handles to it have gone and no parent has changed |
| `DrainFacts.NoneLost` | talloc.c:476-581 | every chunk is in the forest or has been freed, if and only if the code has not hung a chunk below its own descendant |
| `DrainFacts.NotBlind` | talloc.c:561-563 | no freed predecessor is read if the chunk before the freed one is no handle to anything in its tree |
| `Keeping.TryGood` | talloc.c:476-581 | a call that ends leaves a tidy forest whose handles are exactly those in the lists of their targets |
| `Ranks.RankedFree` | talloc.c:546-569 | if ranks fall from every chunk below the freed one to its parent and to the holders of its handles, nothing is ever hung below itself |
| `Ranks.RankedEnds` | talloc.c:476-581 | so with acyclic references and such a predecessor the call always ends, with a good forest |
| `Ranks.OutsideRanked` | talloc.c:546-569 | references from outside the tree are acyclic in this sense |
| `Legacies.LastingSolves` | talloc.c:537-571 | there is a set of chunks below the freed one that holds exactly those that refuse or have an owner outside or in the set |
| `Legacies.Legacy` | talloc.c:476-581 | with acyclic references, none of them held by NULL: exactly the chunks outside the tree and those of this set survive, each with the parent and the handles that can be read off before the call |
| `Legacies.LegacyOwners` | talloc.c:541-569 | a survivor belongs to exactly those of its owners that survive; if none does, it has refused and belongs to the former parent of the freed chunk |
| `Tangles.KnotHangs` | talloc.c:546-569 | a legal input on which two chunks below the freed one end up below each other and are lost, although no handle is below its own target |
| `Tangles.KnotReached` | talloc.c:537-571 | on this input the loop comes, after one round, to the state in which a child goes below its own descendant |
| `Tangles.BridgeGoes` | talloc.c:546-569 | a legal input with a handle and its target below the freed chunk on which everything goes |
| `DrainFlow.TryIs` | talloc.c:476-581 | when all references to what is below the chunk come from outside its tree: the call ends as `Aftermath` says if and only if the old predecessor is there whenever it is asked for |
| `Freeing.Withdraw` | talloc.c:525-535 | the chunk leaves its list and keeps exactly the links it had |
| `Freeing.FreeReferenced` | talloc.c:487-502 | the newest handle goes instead, wherever it is; if it was below the chunk itself, freeing starts again; the code is 0 exactly when the chunk is gone afterwards and -1 exactly when it is still there |
| `Freeing.FindParents` | talloc.c:541-563 | the parent of the newest handle, and the former parent exactly when the code looks it up |
| `Freeing.FreeChild` | talloc.c:537-571 | one round of the loop, in the heap, for referenced, refusing and other children |
| `Freeing.FreeChunk` | talloc.c:476-581 | the heap afterwards holds exactly the forest and the lists of `TryFree`; unless the chunk was already being freed, the code is 0 exactly when it is gone afterwards and -1 exactly when it is still there |
| `Freeing.FreeUntilBlind` | talloc.c:537-563 | the heap reaches the round that asks for the former parent while the predecessor that the chunk still points to is gone |
| `Freeing.FreeUntilHung` | talloc.c:564-569 | the heap reaches the round that hangs a child below its own descendant, and is left with the other chunks and a cycle cut off from them |
| `Fates.FlowOutlook` | talloc.c:537-571 | the loop gives every chunk the fate that can be read off before it starts, from handles, references and refusals on the way down to it |
| `Aftermaths.AftermathEnd` | talloc.c:476-581 | every chunk below the freed one dies, or has the parent and the handles of its fate; survivors keep their fields |
| `Aftermaths.AftermathElse` | talloc.c:476-581 | elsewhere only handles to chunks below the freed one go; everything else keeps its parent and its fields |
| `Aftermaths.AftermathGood` | talloc.c:476-581 | the forest stays tidy, every handle is in the list of its target and nothing else is, and the lists forget exactly what is gone |
| `Heirs.FateIsPlain` | talloc.c:537-571 | if every handle has a parent: exactly the chunks die that are reached without passing a refusing or referenced one; a referenced one that is reached loses its newest handle and goes below that handle's parent, a refusing one to the former parent |
| `Heirs.HandlesLeft` | talloc.c:487-502 | of the handles to a chunk below the freed one exactly those survive that its fate leaves it |
| `Heirs.OwnersBelow` | talloc.c:537-571 | a survivor belongs to its new parent and to the parents of the handles it has left |
| `Heirs.OwnersElse` | talloc.c:476-581 | a chunk elsewhere keeps its parent and all owners whose handles are still there |
| `Heirs.OneOwnerGone` | talloc.c:537-571 | a referenced chunk that is reached loses one owner, its old parent, and no other |
| `Sights.SeesIff` | talloc.c:561-563 | the loop never reads a freed predecessor if and only if the recursive condition on the state before it holds |
| `Sights.SeesStatic` | talloc.c:561-563 | the same as a check on the tree before the loop: the predecessor is not spent for a chunk that is reached, or nobody on the first level asks after that; levels decide who comes after whom |
| `Sights.SeesOther` | talloc.c:561-563 | a predecessor that refers to nothing below is always there |
| `Predecessors.FreeSafe` | talloc.c:476-581 | the same condition on the forest and the lists before the call, with and without a parent of every handle: the call reads a freed chunk if and only if it holds, and otherwise ends as `Aftermath` says |
| `Predecessors.InputBreaks` | talloc.c:476-581 | two legal inputs on which the freed predecessor is read, one with a top-level handle |
| `FlowPlain.AftermathPlain` | talloc.c:476-581 | without references the forest is `Released` |
| `Releases.ReleasedFacts` | talloc.c:476-581 | exactly the chunk and what is reached from it without passing a refusing chunk is gone |
| `Releases.ReleasedSurvivor` | talloc.c:476-581 | survivors keep fields and parents, except that topmost refusing chunks have the former parent of the freed chunk; they keep their whole subtrees |
| `Releases.FreedIff` | talloc.c:476-581 | a chunk is freed if and only if nothing on its way up refuses |
| `Owners.RefsReferenced` | talloc.c:366-390 | after a new reference the lists and the handles still agree |
| `Owners.DroppedOwners` | talloc.c:598-620 | dropping a handle takes its parent out of the owners of its target, once, and changes no other chunk's owners |
| `Owners.UnlinkedOwners` | talloc.c:626-681 | unlinking a chunk with another owner takes away one occurrence of one owner and changes no other chunk's owners |
| `Owners.UnlinkedIff` | talloc.c:626-681 | unlinking loses nothing but the handle if and only if the new parent is not below the chunk; otherwise the whole tree is cut off |
| `Owners.OwnerLawIff` | talloc.c:626-681 | the owner taken away is the given one if and only if the newest reference does not come from the chunk itself |
| `Owners.ReferenceUnlink` | talloc.c:366-390 | a reference followed by an unlink from the same context gives back the forest and the lists |
| `Mutual.FirstUnlink` | talloc.c:626-681 | two chunks that refer to each other: unlinking the first is fine and moves it below the second |
| `Mutual.SecondLosesAll` | talloc.c:626-681 | unlinking the second as well loses both |
| `Mutual.AloneKeepsParent` | talloc.c:626-681 | a chunk that refers to itself: unlinking it from its parent leaves it with its parent |
| `Arenas.Arena.Alloc` | talloc.c:266-286 | keeps the invariant of the allocator; exact new forest and lists |
| `Arenas.Arena.Parent` | talloc.c:197-214 | the parent in the forest |
| `Arenas.Arena.IsParent` | talloc.c:395-414 | true exactly for chunks at or above the context |
| `Arenas.Arena.SetDestructor` | talloc.c:301-305 | keeps the invariant; only the destructor of the chunk changes, also to NULL |
| `Arenas.Arena.Steal` | talloc.c:583-591 | keeps the invariant; the tree is moved, or nothing changes |
| `Arenas.Arena.Reference` | talloc.c:366-390 | keeps the invariant; a handle below the context, at the front of the list of its target |
| `Arenas.Arena.FindHandle` | talloc.c:607-614 | finds the newest handle below the context if and only if there is one |
| `Arenas.Arena.Unreference` | talloc.c:598-620 | drops that handle, or changes nothing and fails |
| `Arenas.Arena.Free` | talloc.c:476-581 | keeps the invariant whenever the call comes to its end, whoever refers to what; the forest and the lists are those of `TryFree`; the code is 0 exactly when the chunk is gone, -1 exactly when it is still there or was NULL |
| `Arenas.Arena.Unlink` | talloc.c:626-681 | keeps the invariant; answers -1 and changes nothing if the context is no owner, answers 0 and takes one owner away if there are others, and frees the chunk if it is the only one, with 0 exactly when the chunk is gone |
| `Arenas.Arena.RelinkInside` | talloc.c:665-680 | where the new parent is below the chunk, the heap loses its tree in a cycle |
| `Arenas.Arena.Realloc` | talloc.c:892-967 | keeps the invariant in all its cases: allocate, free, refuse, resize in place, move; the chunk it returns has the new size and its other fields, every other chunk keeps its fields |
| `HandleLaws.FreeGoes` | talloc.c:504-581 | a chunk without references whose destructor does not refuse goes, with code 0 |
| `HandleLaws.FreeRefused` | talloc.c:504-517 | one whose destructor refuses stays, with code -1, and nothing changes |
| `HandleLaws.FreeHeld` | talloc.c:487-502 | a chunk whose newest reference is from outside loses exactly that handle and stays, with code -1 |
| `HandleLaws.FreeHeldInside` | talloc.c:487-502 | if the newest reference is from inside, freeing does what it would do without it |
| `HandleLaws.UnlinkNewest` | talloc.c:637-640 | if the context has references, exactly the newest of them goes and the chunk keeps its parent |
| `HandleLaws.UnlinkParent` | talloc.c:642-680 | if the context is only the parent, the newest of all references goes and its owner becomes the parent, unless that is the chunk itself |
| `ArenaRuns.ReferenceThenUnlink` | talloc.c:366-390 | on the heap, a reference followed by an unlink from the same context restores everything |
| `ArenaRuns.Step` | talloc.c:421-581 | any call of a program without references is one step of the forest machine |
| `ArenaRuns.Run` | talloc.c:421-581 | every run from the empty heap is a run of the forest machine, and the heap holds its forest at the end |
| `Layout.SClassSize` | phat.c:826-836 | the number of slots of an instance, for any identifier size |
| `Layout.SlotsTile` | phat.c:886-922 | every byte of an instance belongs to exactly one slot |
| `Layout.SlotsWithin` | phat.c:886-922 | every slot lies in the instance |
| `HeapLaws.Inherited` | phat.c:886-922 | own fields come last in the list of slots and first in memory, one after the other; the slots of the superclass are as in the superclass, moved by the width of the own fields |
| `Layout.Climb` | phat.c:895-899 | as long as slots are missing there is a superclass with a superclass of its own to go to |
| `Layout.Fill` | phat.c:886-922 | the loop fills every slot once, superclass fields first, own offsets first; inherited records are copies |
| `Layout.ResolveClassNode` | phat.c:867-924 | the class is laid out, and every class that was laid out before is unchanged |
| `HeapWalk.VisitScans` | phat.c:956-1073 | for any graph the walk ends, scans exactly the new objects, each once, and logs exactly their reference slots |
| `HeapRuns.VisitRests` | phat.c:956-1073 | after an outermost call the resolved objects are closed under references and the log is that of the resolved objects |
| `HeapRuns.VisitTotals` | phat.c:956-1073 | on a graph without cycles every resolved object has the total of the plain recursive definition |
| `HeapRuns.AnyOrder` | phat.c:936-944 | whatever the order of the outermost calls, the totals are the same |
| `HeapLaws.InstanceRefs` | phat.c:1040-1072 | an instance refers to a key exactly as often as it has slots of type L or [ whose stored identifier has that key |
| `HeapLaws.ArrayRefs` | phat.c:1022-1038 | an object array refers to a key exactly as often as it has elements whose stored identifier has that key |
| `HeapLaws.InstanceArcs` | phat.c:1040-1072 | to the arc from its class to another an instance adds the number of its slots of type L or [ that hold an object of that class, and nothing to arcs from elsewhere |
| `HeapLaws.ArrayArcs` | phat.c:1022-1038 | the same for the elements of an object array |
| `HeapLaws.InstanceTotal` | phat.c:1040-1072 | an instance holds its own size and, slot by slot, the totals of what its slots of type L or [ refer to |
| `HeapLaws.ArrayTotal` | phat.c:1022-1038 | an object array holds one identifier per element and, element by element, the totals of what these refer to |
| `HeapLaws.InstanceSize` | phat.c:1040-1072 | the self size of an instance is the width of all fields of the chain, less four bytes for every float and eight for every double |
| `HeapLaws.PrimitiveSize` | phat.c:971-1021 | the self size of a primitive array, by type or by class name, is the width of the type times the number of elements, in 32 bits |
| `HeapLaws.TablesAgree` | phat.c:565-622 | the tables of signatures and widths agree with each other and with the basic types: 1, 2, 4 and 8 bytes |
| `HeapLaws.KeyIsLast` | phat.c:493-505 | the key of an identifier is the number that its last four bytes stand for, in the resolver and in the reader |
| `Arcs.ArcLookup` | phat.c:1536-1551 | the arc to the class, if there is one |
| `Arcs.ArcAdd` | phat.c:1553-1592 | the tally of one pair of classes grows, all others stay, and no class gets two arcs |
| `Resolver.Session.ReadIdent` | phat.c:493-505 | the low 32 bits are the last four bytes of the identifier, for both sizes |
| `Resolver.Session.ResolveInstance` | phat.c:956-1073 | the heap (objects, arcs, layouts) follows the walk on values, whatever other levels of the recursion did to the file position; the result is the total in 64 bits |
| `Resolver.Session.ScanArray` | phat.c:1022-1038 | all elements of an object array are followed in order |
| `Resolver.Session.ScanSlots` | phat.c:1040-1072 | all reference slots of an instance are followed in order and the self size is summed |
| `ResolveRuns.ResolveInstances` | phat.c:936-944 | resolving the objects of a table keeps the heap in step with the walk |
| `ResolveRuns.Outcome` | phat.c:1536-1592 | every arc counts exactly the non-dangling reference slots between its two classes in the resolved objects, which are closed under references |
| `ResolveRuns.OutcomeTotals` | phat.c:936-944 | without cycles every resolved object holds its total in 64 bits, in any order of resolution |
| `HeapReader.Reader.ReadValue` | phat.c:565-622 | a type byte and a value are consumed, and the width of the value is returned |
| `HeapReader.Reader.ReadPool` | phat.c:645-657 | the constants are consumed, but the remaining size stays too large by their number |
| `HeapReader.Reader.ReadClass` | phat.c:624-690 | the class is consumed and recorded; the remaining size is right up to the number of constants |
| `HeapReader.Reader.ReadArray` | phat.c:692-772 | the array is consumed, recorded and accounted for |
| `HeapReader.Reader.ReadInstance` | phat.c:1444-1477 | the instance is consumed and accounted for; its class has one more; if it is among the first 49999 or a string it is found at its own identifier with its class and the place of its data; everything else stays |
| `HeapReader.Reader.ReadRoot` | phat.c:1318-1438 | the same for all nine kinds of roots, with what each kind consumes; the table of roots gets the tags 1 to 7 |
| `HeapReader.Reader.ReadRounds` | phat.c:1303-1498 | after as many rounds as there are sub-records the reader is at the end of the record, the remaining size is the number of constants, and the tables are those that the laws of `ReaderLaws` describe |
| `HeapReader.Reader.ReadHeap` | phat.c:1303-1498 | without constants: remaining size plus bytes consumed is the record length throughout, the reader stops exactly at the end, each counter grows by the number of sub-records of its kind, and the tables are those that the laws of `ReaderLaws` describe |
| `HeapReader.CountersExact` | phat.c:1303-1498 | each counter grows by the number of sub-records of its kind |
| `ReaderLaws.ObjectLast` | phat.c:1466-1471 | the last instance that is kept, or array, with an identifier determines the object there: its kind, its class, the place of its data, the size and the number of its elements |
| `ReaderLaws.ObjectKept` | phat.c:1303-1498 | an identifier without such a sub-record keeps its object or stays free |
| `ReaderLaws.CountsExact` | phat.c:1454-1455 | every class gets as many instances more as the record has of it |
| `ReaderLaws.RootLast` | phat.c:1318-1438 | the last root with an identifier, of tags 1 to 7, gives it its kind |
| `ReaderLaws.RootKept` | phat.c:1318-1438 | an identifier that is no such root keeps its entry |
| `ReaderLaws.ClassLast` | phat.c:624-690 | the last dump of a class determines its superclass, the number of its statics and its fields in order, with names and types |
| `ReaderLaws.ClassKept` | phat.c:624-690 | a class that is not dumped keeps what is known of it |
| `HeapReader.SlacksZero` | phat.c:645-657 | the remaining size is right at the end if and only if no class has constants |
| `HeapReader.PoolWitness` | phat.c:645-657 | a well-formed record on which it is not |

## Left out

- The tree destructor (`rbtree.c:22-60`) and the ownership of nodes by their data: the `talloc_steal` calls at `rbtree.c:469`, `558`, `623`, `664` and `782` are not modelled, and the cascade through self-freeing subtrees is a recursion over the key sequence instead of a walk from the freed data to its node.
- ArrayFree.FreeArray: finds the entry by its key sequence, because the source starts from the data pointer, which the allocator maps to the node.
- Callbacks of inserts and traversals are pure functions: their results are modelled, side effects are not, so that they run once is stated as one application to the old value.
- DrainFacts.NoneLost: with cycles of references below the freed chunk the condition is the test in the loop itself; what can be told before the call then depends on the order of the children, and only the acyclic case is told (`Ranks.RankedFree`).
- Legacies.Legacy: handles below NULL to chunks below the freed one are covered in closed form only when no handle to them is below the freed chunk (`Fates.FlowOutlook`), because otherwise the order of the children decides how far such a handle takes a chunk.
- Heirs.FateIsPlain: a reading of `Fates.FlowOutlook` for the case that every handle has a parent; so is `Heirs.OneOwnerGone`.
- `null_context` is NULL throughout (tracking is never enabled by phat); names, reports, external allocators, locks, autofree and running out of memory are not modelled.
- Destructors agree or refuse and have no side effects, except those of reference handles.
- The lists of handles are sequences in a table indexed by chunk, not links through the handles.
- Callers have no pointers to handles, so they never steal, free or refer to one.
- ArenaRuns.Run: whole runs are of programs without references; with references every single call keeps the invariant, as long as it comes to its end.
- Sizes and totals of the allocator are unbounded numbers; they are sizes of live memory.
- The contents of static fields, field names, `child_size`, the parent lists of arcs and the global array of arcs.
- Objects start with `osize` 0 and classes with no arcs, which the source takes from fresh memory.
- The fields of a class without superclass are not part of any layout, and floats and doubles are not part of the self size, as in the source.
- The tables that the reader fills are maps, and they are not turned into the object table that the resolver starts from; that the superclass chains end and that instances are as long as their layout is assumed of the latter.
- Array classes are assumed to be loaded; making up missing ones (`phat.c:736-741`, `756-761`) is left out.
- Unknown sub-records, other kinds of records, versions, strings and the class filter.
- `mg_assemble` and everything that is only called from it, all printing, and `printClass`.
