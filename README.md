# Visual-novel UI and animation layer, modelled in Dafny

This project models the core of a visual-novel engine's UI and animation layer.
The engine is written in CoffeeScript and shipped as compiled JavaScript.
Each module below mirrors one source file, and the proofs are about that model.

- `AnimationExecutor` (`ui.Component_AnimationExecutor`) steps through an animation flow one frame at a time:
  - the class `Executor` holds the installed flow array, the pointer, the wait counter, the repeat flag and the callback;
  - its methods update them in place and are proved against the pure one-frame function `Tick`;
  - lemmas about `Tick` cover the wait countdown, dispatch in array order, exactly-once dispatch and the end-of-flow behaviour;
  - what the executor hands to the animator, the audio manager, the callback and the visual is recorded in an effect log.
- `Styles` covers `ui.Style` and `ui.Space`, together with the alignment and selector tables:
  - a style is a value, built from a descriptor by the sentinel rules of `setFromDescriptor`;
  - a UI object (`Widget`) is a class whose `apply` and `revert` are methods;
  - both are proved against functions on states;
  - the main invariant is the cascade: each styleable property holds the value of the most recently applied active style that specifies it, or its default;
  - that invariant is proved to survive any sequence of `apply` and `revert`;
  - the places where `revert` departs from it (the mask, the animations, the looping flags) are stated as lemmas.
- `UI` covers `ui.UIManager.setupStyles` (key parsing, style registration, child-key linking), `addControlStyles` and `ui.Formula` change detection.
- `ObjectManager` (`gs.ObjectManager`) is the object list, the id registry in which the object registered last wins, the group lists, and the update pass that sorts and removes disposed objects.
- `ResourceManager` (`ResourceManagerContext` and `ResourceManager`) covers:
  - the context's name/data list and its bundle round trip;
  - the path-keyed caches used by the `get*` methods;
  - the custom bitmaps;
  - the eviction loops of the `dispose*` methods;
  - the loaded-scan of `update`.
- `ComponentVisual` (`gs.Component_Visual`) covers the origin accumulated up the parent chain and the layout-rectangle branch of `update`.
- `LayoutManagementMode` is the mode enumeration and `fromString`.
- `Common` holds `Option`, `Point` and `RemoveFirst`. `RemoveFirst` gives the `Array.prototype.remove` extension the semantics the model assumes for it: it removes the first occurrence, or nothing. The extension itself is defined outside the modelled files.

The engine classes the core calls are not part of this model. These include `gs.Component_Animator`, `Bitmap`, `Video`, `gs.Font`, the audio manager and the formula and binding handlers. They appear as parameters, opaque records or entries in an effect log.

## Model

| member | source | states |
|---|---|---|
| AnimationExecutor.KindOf | Practice/development/Component_AnimationExecutor_2F0E4A9D5A397344415A00371159005172AE.js:83-167 | a `type` string that no case of the switch handles is classified as unknown and keeps that string |
| AnimationExecutor.KindOfClipName | Practice/development/Component_AnimationExecutor_2F0E4A9D5A397344415A00371159005172AE.js:83-167 | the switch selects every clip case by its own `type` string |
| AnimationExecutor.ClipNamesDistinct | Practice/development/Component_AnimationExecutor_2F0E4A9D5A397344415A00371159005172AE.js:83-167 | no two clip cases of the switch share a `type` string |
| AnimationExecutor.KindOfAnimate | Practice/development/Component_AnimationExecutor_2F0E4A9D5A397344415A00371159005172AE.js:83-167 | a string selects a clip only when it is exactly that clip's `type` string |
| AnimationExecutor.UnknownTypeOnlyRefreshes | Practice/development/Component_AnimationExecutor_2F0E4A9D5A397344415A00371159005172AE.js:83-176 | a step without a type, or with a type the switch does not know, starts nothing; the only call it causes is one visual or behavior refresh, and only when its duration is 0 |
| AnimationExecutor.ShakeNeverRefreshes | Practice/development/Component_AnimationExecutor_2F0E4A9D5A397344415A00371159005172AE.js:154-176 | a shake step starts its clip and returns before the refresh; any other clip with duration 0 starts and then refreshes the visual |
| AnimationExecutor.Scan | Practice/development/Component_AnimationExecutor_2F0E4A9D5A397344415A00371159005172AE.js:190-211 | one pass leaves the pointer between its start and the end of the flow, and moves it on by at least one step when steps remain |
| AnimationExecutor.Pending | Practice/development/Component_AnimationExecutor_2F0E4A9D5A397344415A00371159005172AE.js:190-202 | the steps a pass dispatches lie in the range it visits |
| AnimationExecutor.Mark | Practice/development/Component_AnimationExecutor_2F0E4A9D5A397344415A00371159005172AE.js:192-202 | after a pass the flow has the same length and every step is in place |
| AnimationExecutor.Dispatch | Practice/development/Component_AnimationExecutor_2F0E4A9D5A397344415A00371159005172AE.js:188-213 | processAnimation keeps the pointer within the flow and keeps the flow's length |
| AnimationExecutor.Tick | Practice/development/Component_AnimationExecutor_2F0E4A9D5A397344415A00371159005172AE.js:222-254 | one `update` keeps 0 <= pointer <= flow length, never installs a flow, and never changes the flow's length |
| AnimationExecutor.Ticks | Practice/development/Component_AnimationExecutor_2F0E4A9D5A397344415A00371159005172AE.js:249-254 | any number of `update` calls keep the pointer within the flow |
| AnimationExecutor.PendingIsUnexecuted | Practice/development/Component_AnimationExecutor_2F0E4A9D5A397344415A00371159005172AE.js:190-202 | the steps dispatched over a range are exactly its steps not yet executed; executed steps are skipped while the pointer passes them, and dispatch follows array order |
| AnimationExecutor.EffectsFollowPending | Practice/development/Component_AnimationExecutor_2F0E4A9D5A397344415A00371159005172AE.js:196-202 | there is exactly one startAnimation call per dispatched step, in array order |
| AnimationExecutor.AllExecutedRange | Practice/development/Component_AnimationExecutor_2F0E4A9D5A397344415A00371159005172AE.js:192-195 | a range whose steps have all run dispatches nothing, calls nothing and leaves the flow as it is |
| AnimationExecutor.FreshRangeAllPending | Practice/development/Component_AnimationExecutor_2F0E4A9D5A397344415A00371159005172AE.js:190-202 | a range none of whose steps has run is dispatched in full, in array order |
| AnimationExecutor.ScanStopsAtFirstWait | Practice/development/Component_AnimationExecutor_2F0E4A9D5A397344415A00371159005172AE.js:203-209 | a pass stops right after the first dispatched step that waits; no earlier step of the pass waited; the counter takes that step's resolved duration when it has a type, else its `wait` value; and a pass ends before the end of the flow only at such a step |
| AnimationExecutor.ScanWithoutWaits | Practice/development/Component_AnimationExecutor_2F0E4A9D5A397344415A00371159005172AE.js:190-211 | when no step from the pointer on waits, one pass reaches the end of the flow and leaves the counter alone |
| AnimationExecutor.ScanWithoutRunning | Practice/development/Component_AnimationExecutor_2F0E4A9D5A397344415A00371159005172AE.js:192-195 | over steps that have all run, the pointer still advances to the end of the flow |
| AnimationExecutor.PlainStepsInOnePass | Practice/development/Component_AnimationExecutor_2F0E4A9D5A397344415A00371159005172AE.js:190-211 | consecutive steps that neither wait nor have run are all dispatched in the same tick, in array order |
| AnimationExecutor.CountdownTicks | Practice/development/Component_AnimationExecutor_2F0E4A9D5A397344415A00371159005172AE.js:223-226 | while the counter is positive, each tick only decreases it by exactly 1 and dispatches nothing |
| AnimationExecutor.NextDispatchAfterWait | Practice/development/Component_AnimationExecutor_2F0E4A9D5A397344415A00371159005172AE.js:223-226 | with the counter at D, tick D+1 does what a tick with counter 0 does, so the next step is dispatched on tick D+1; a wait of 0 still defers the rest to the next tick |
| AnimationExecutor.WaitingStepHoldsFlow | Practice/development/Component_AnimationExecutor_2F0E4A9D5A397344415A00371159005172AE.js:203-226 | for a 5-frame moveTo that waits, followed by a blendTo, the first tick dispatches the moveTo, the next five dispatch nothing, and the seventh dispatches the blendTo |
| AnimationExecutor.TicksSplit | Practice/development/Component_AnimationExecutor_2F0E4A9D5A397344415A00371159005172AE.js:249-254 | m + n updates are m updates followed by n updates |
| AnimationExecutor.StoppedIsIdle | Practice/development/Component_AnimationExecutor_2F0E4A9D5A397344415A00371159005172AE.js:249-254 | with no animation installed (after `stop`, or after a flow without repeat has ended), any number of updates leave the executor's state unchanged |
| AnimationExecutor.DispatchLogsNoCallback | Practice/development/Component_AnimationExecutor_2F0E4A9D5A397344415A00371159005172AE.js:187-212 | a processAnimation pass only appends startAnimation entries to the log and never calls the callback |
| AnimationExecutor.EndOfFlowCallback | Practice/development/Component_AnimationExecutor_2F0E4A9D5A397344415A00371159005172AE.js:227-238 | every tick only appends to the log; it calls the callback exactly when a flow is installed, no wait is pending, the pointer has reached the end and a callback was given, and then as its first entry; at the end the flow stays installed exactly when `repeat` is set; a tick starting before the end never calls it |
| AnimationExecutor.RepeatLoopsWithoutDispatch | Practice/development/Component_AnimationExecutor_2F0E4A9D5A397344415A00371159005172AE.js:227-238 | with `repeat` set and every step executed, each tick at the end of the flow calls the callback again, resets the pointer to 0 and dispatches nothing |
| AnimationExecutor.ReexecutedFlowDispatchesNothing | Practice/development/Component_AnimationExecutor_2F0E4A9D5A397344415A00371159005172AE.js:60-65 | after `execute` of a descriptor whose steps all ran, nothing is dispatched; the second tick calls the callback, resets the pointer and, without repeat, uninstalls the flow |
| AnimationExecutor.TickMarksDispatched | Practice/development/Component_AnimationExecutor_2F0E4A9D5A397344415A00371159005172AE.js:196-202 | a step a tick dispatches was not executed before it and is executed after it |
| AnimationExecutor.TickKeepsExecuted | Practice/development/Component_AnimationExecutor_2F0E4A9D5A397344415A00371159005172AE.js:192-202 | a tick never clears an executed flag |
| AnimationExecutor.ExecutedStaysExecuted | Practice/development/Component_AnimationExecutor_2F0E4A9D5A397344415A00371159005172AE.js:192-202 | executed flags survive any number of ticks, and an executed step is never dispatched |
| AnimationExecutor.NoStepDispatchedTwice | Practice/development/Component_AnimationExecutor_2F0E4A9D5A397344415A00371159005172AE.js:192-202 | a step that one tick dispatches is dispatched by no later tick during the flow's lifetime |
| AnimationExecutor.DispatchResult | Practice/development/Component_AnimationExecutor_2F0E4A9D5A397344415A00371159005172AE.js:188-213 | processAnimation's result, given the outcome of its loop |
| AnimationExecutor.Executor.constructor | Practice/development/Component_AnimationExecutor_2F0E4A9D5A397344415A00371159005172AE.js:22-46 | a new executor has no animation installed, pointer 0, counter 0 and `repeat` false |
| AnimationExecutor.Executor.Execute | Practice/development/Component_AnimationExecutor_2F0E4A9D5A397344415A00371159005172AE.js:60-65 | `execute` installs the flow and the callback, resets the pointer and the counter to 0, and leaves every step's executed flag as it was |
| AnimationExecutor.Executor.Stop | Practice/development/Component_AnimationExecutor_2F0E4A9D5A397344415A00371159005172AE.js:67-69 | `stop` only uninstalls the animation; the pointer, the counter and the callback are unchanged |
| AnimationExecutor.Executor.StartAnimation | Practice/development/Component_AnimationExecutor_2F0E4A9D5A397344415A00371159005172AE.js:81-177 | records exactly the calls that the type switch and the zero-duration refresh make for the step |
| AnimationExecutor.Executor.RunPass | Practice/development/Component_AnimationExecutor_2F0E4A9D5A397344415A00371159005172AE.js:190-211 | the loop of processAnimation ends where Scan says; it marks exactly the dispatched steps in the array, logs their startAnimation calls in order, and attaches the animator when it dispatches any step |
| AnimationExecutor.Executor.ProcessAnimation | Practice/development/Component_AnimationExecutor_2F0E4A9D5A397344415A00371159005172AE.js:188-213 | the new state is Dispatch of the old one, with the flow array updated in place |
| AnimationExecutor.Executor.UpdateAnimation | Practice/development/Component_AnimationExecutor_2F0E4A9D5A397344415A00371159005172AE.js:222-240 | the new state is Tick of the old one: a countdown, or a restart or finish at the end of the flow followed by a pass |
| AnimationExecutor.Executor.Update | Practice/development/Component_AnimationExecutor_2F0E4A9D5A397344415A00371159005172AE.js:249-254 | sets `needsUpdate` and advances the executor as Tick says |
| Common.RemoveFirst | Practice/development/ObjectManager_8DBB050CK548EA49A5S800AE8C9C8A84C8B9.js:205-214 | `Array.prototype.remove` leaves a sequence without the element unchanged, and otherwise removes exactly one element |
| Common.RemoveFirstMultiset | Practice/development/ObjectManager_8DBB050CK548EA49A5S800AE8C9C8A84C8B9.js:205-214 | the removal takes exactly one copy of the element out of the multiset of elements |
| ComponentVisual.GameObject.constructor | Practice/development/Component_Visual_4FB08FACK1FD1A483FSAB99E69479A78AA76.js:30-46 | an object with its parent, rectangles and offset, and origin (0, 0) |
| ComponentVisual.Frames | Practice/development/Component_Visual_4FB08FACK1FD1A483FSAB99E69479A78AA76.js:36-40 | what the walk reads of each ancestor: its dstRect and its offset, in chain order |
| ComponentVisual.FirstWithout | Practice/development/Component_Visual_4FB08FACK1FD1A483FSAB99E69479A78AA76.js:36-40 | the walk stops at the first ancestor without a dstRect; all ancestors before it have one |
| ComponentVisual.SumAllCons | Practice/development/Component_Visual_4FB08FACK1FD1A483FSAB99E69479A78AA76.js:37-38 | each ancestor adds its dstRect position plus its own offset |
| ComponentVisual.ChainOffsetIsPrefixSum | Practice/development/Component_Visual_4FB08FACK1FD1A483FSAB99E69479A78AA76.js:36-40 | the accumulated offset is the sum of position plus offset over the ancestors below the first one without a dstRect |
| ComponentVisual.ChainOffsetStopsAtMissingRect | Practice/development/Component_Visual_4FB08FACK1FD1A483FSAB99E69479A78AA76.js:36-40 | ancestors above the first one without a dstRect never affect the origin |
| ComponentVisual.NotInOwnChain | Practice/development/Component_Visual_4FB08FACK1FD1A483FSAB99E69479A78AA76.js:34-40 | the parent chain of an object that ends in an object without a parent never contains the object itself, so its own dstRect is never added |
| ComponentVisual.ChainRepeats | Practice/development/Component_Visual_4FB08FACK1FD1A483FSAB99E69479A78AA76.js:34-40 | a parent chain that revisits its first object repeats periodically |
| ComponentVisual.OriginWithoutParent | Practice/development/Component_Visual_4FB08FACK1FD1A483FSAB99E69479A78AA76.js:42-45 | with no parent, the origin is the object's own offset |
| ComponentVisual.UpdateOrigin | Practice/development/Component_Visual_4FB08FACK1FD1A483FSAB99E69479A78AA76.js:30-46 | `updateOrigin` writes only `origin`, giving it the own offset plus the ancestors' accumulated offset |
| ComponentVisual.LaidOutAxes | Practice/development/Component_Visual_4FB08FACK1FD1A483FSAB99E69479A78AA76.js:58-71 | x and width depend only on the parent's width; y and height depend only on its height |
| ComponentVisual.LaidOutEmpty | Practice/development/Component_Visual_4FB08FACK1FD1A483FSAB99E69479A78AA76.js:58-71 | a layout rectangle without entries leaves dstRect as it is |
| ComponentVisual.LaidOutIdempotent | Practice/development/Component_Visual_4FB08FACK1FD1A483FSAB99E69479A78AA76.js:58-71 | laying out twice in the same parent is the same as laying out once |
| ComponentVisual.Update | Practice/development/Component_Visual_4FB08FACK1FD1A483FSAB99E69479A78AA76.js:54-72 | `update` recomputes the origin; when the object has a layout rectangle and its parent has a dstRect, it rewrites the entries that are present in the object's dstRect; otherwise, and whenever no entry is present, dstRect is unchanged |
| LayoutManagementMode.Initialize | Practice/development/LayoutManagementMode_284FE66765F1A843074B84639E12075940B7.js:21-40 | NORMAL and JUST_IN_TIME are two distinct modes |
| LayoutManagementMode.FromString | Practice/development/LayoutManagementMode_284FE66765F1A843074B84639E12075940B7.js:52-61 | the result is always one of the two constants; it is JUST_IN_TIME exactly for "just_in_time" and NORMAL for every other input, null included |
| LayoutManagementMode.FromStringName | Practice/development/LayoutManagementMode_284FE66765F1A843074B84639E12075940B7.js:52-61 | parsing a mode's documented name gives the mode back |
| LayoutManagementMode.FromStringDocumented | Practice/development/LayoutManagementMode_284FE66765F1A843074B84639E12075940B7.js:52-61 | "normal" gives 0, "just_in_time" gives 1, and null gives NORMAL |
| ObjectManager.GameObject.constructor | Practice/development/ObjectManager_8DBB050CK548EA49A5S800AE8C9C8A84C8B9.js:190-195 | an object with the id, group, order and active flag that `add` reads, not disposed |
| ObjectManager.Register | Practice/development/ObjectManager_8DBB050CK548EA49A5S800AE8C9C8A84C8B9.js:125-133 | `registerObject` appends the object to its id's list, creating the list when needed; other ids are untouched; without an id nothing changes |
| ObjectManager.Unlist | Practice/development/ObjectManager_8DBB050CK548EA49A5S800AE8C9C8A84C8B9.js:142-156 | taking an object out of the list under a key (`unregisterObject` on the id dictionary, and the cleanup of `addToGroup` at lines 277-279 on the group dictionary) keeps the set of keys, removes the first occurrence from that key's list and leaves every other key's list as it was |
| ObjectManager.ById | Practice/development/ObjectManager_8DBB050CK548EA49A5S800AE8C9C8A84C8B9.js:225-228 | the lookup answers nothing exactly when the id has no object listed, and otherwise the object registered last |
| ObjectManager.RegisterThenById | Practice/development/ObjectManager_8DBB050CK548EA49A5S800AE8C9C8A84C8B9.js:125-133 | after registering an object under an id, lookups of that id return it, and lookups of other ids are unchanged |
| ObjectManager.UnregisterUndoesRegister | Practice/development/ObjectManager_8DBB050CK548EA49A5S800AE8C9C8A84C8B9.js:142-156 | unregistering the object registered last makes every lookup answer as before it was registered |
| ObjectManager.RemoveFirstLast | Practice/development/ObjectManager_8DBB050CK548EA49A5S800AE8C9C8A84C8B9.js:146-148 | removing the only occurrence of the last element leaves the prefix |
| ObjectManager.UnregisterRevealsPrevious | Practice/development/ObjectManager_8DBB050CK548EA49A5S800AE8C9C8A84C8B9.js:142-156 | after unregistering, a lookup returns the new last element of the id's list, or nothing |
| ObjectManager.JoinGroup | Practice/development/ObjectManager_8DBB050CK548EA49A5S800AE8C9C8A84C8B9.js:275-286 | `addToGroup` with a null group changes nothing; otherwise the object leaves the list of its current group and is appended to the new group's list |
| ObjectManager.JoinOwnGroupOnce | Practice/development/ObjectManager_8DBB050CK548EA49A5S800AE8C9C8A84C8B9.js:275-286 | adding an object to its own group, once or twice, leaves exactly one entry of it there |
| ObjectManager.JoinOtherGroupTwice | Practice/development/ObjectManager_8DBB050CK548EA49A5S800AE8C9C8A84C8B9.js:275-286 | `addToGroup` never records the group on the object, so adding it twice to another group leaves two entries |
| ObjectManager.AfterRemoveAsWritten | Practice/development/ObjectManager_8DBB050CK548EA49A5S800AE8C9C8A84C8B9.js:205-214 | `remove` as written takes the object out of the list and the id registry; the group lists are left alone |
| ObjectManager.AfterRemove | Practice/development/ObjectManager_8DBB050CK548EA49A5S800AE8C9C8A84C8B9.js:205-214 | the intended `remove` also takes the object out of its group's list |
| ObjectManager.RemoveAsWrittenKeepsGroup | Practice/development/ObjectManager_8DBB050CK548EA49A5S800AE8C9C8A84C8B9.js:205-214 | as written, an object added with a group is still listed in that group after `remove` |
| ObjectManager.RemoveFixedLeavesGroup | Practice/development/ObjectManager_8DBB050CK548EA49A5S800AE8C9C8A84C8B9.js:205-214 | corrected, `remove` undoes the group entry that `add` made |
| ObjectManager.Views | Practice/development/ObjectManager_8DBB050CK548EA49A5S800AE8C9C8A84C8B9.js:323-333 | one snapshot per object, in list order |
| ObjectManager.Objects | Practice/development/ObjectManager_8DBB050CK548EA49A5S800AE8C9C8A84C8B9.js:323-333 | the objects the snapshots are of, in order |
| ObjectManager.UnregisterAll | Practice/development/ObjectManager_8DBB050CK548EA49A5S800AE8C9C8A84C8B9.js:325-326 | unregistering each removed object keeps the set of ids |
| ObjectManager.LiveMembers | Practice/development/ObjectManager_8DBB050CK548EA49A5S800AE8C9C8A84C8B9.js:323-333 | the objects the update pass keeps are exactly the ones that are not disposed |
| ObjectManager.DeadMembers | Practice/development/ObjectManager_8DBB050CK548EA49A5S800AE8C9C8A84C8B9.js:323-333 | the objects the pass removes are exactly the disposed ones |
| ObjectManager.LiveDeadPartition | Practice/development/ObjectManager_8DBB050CK548EA49A5S800AE8C9C8A84C8B9.js:323-333 | kept and removed objects together are the input list: nothing is lost or duplicated |
| ObjectManager.LiveLowerBound | Practice/development/ObjectManager_8DBB050CK548EA49A5S800AE8C9C8A84C8B9.js:323-333 | a lower bound on the orders still holds for the kept objects |
| ObjectManager.LiveKeepsSorted | Practice/development/ObjectManager_8DBB050CK548EA49A5S800AE8C9C8A84C8B9.js:323-333 | removing disposed objects keeps the sorted order |
| ObjectManager.ActiveOfLive | Practice/development/ObjectManager_8DBB050CK548EA49A5S800AE8C9C8A84C8B9.js:328-330 | the objects whose `update` runs are exactly those that are active and not disposed |
| ObjectManager.ActiveAppend | Practice/development/ObjectManager_8DBB050CK548EA49A5S800AE8C9C8A84C8B9.js:328-330 | the updated objects of two runs are those of the first followed by those of the second |
| ObjectManager.InsertByOrder | Practice/development/ObjectManager_8DBB050CK548EA49A5S800AE8C9C8A84C8B9.js:311-322 | inserting adds exactly one element |
| ObjectManager.InsertByOrderSorted | Practice/development/ObjectManager_8DBB050CK548EA49A5S800AE8C9C8A84C8B9.js:311-322 | inserting into a list sorted by non-increasing order keeps it sorted |
| ObjectManager.SortByOrder | Practice/development/ObjectManager_8DBB050CK548EA49A5S800AE8C9C8A84C8B9.js:311-322 | the comparator sort gives a rearrangement of the objects in non-increasing `order` |
| ObjectManager.PrefixStep | Practice/development/ObjectManager_8DBB050CK548EA49A5S800AE8C9C8A84C8B9.js:323-333 | each object the loop visits is either kept or removed |
| ObjectManager.VisitStep | Practice/development/ObjectManager_8DBB050CK548EA49A5S800AE8C9C8A84C8B9.js:323-333 | the loop's index points at the next unvisited object; removing a disposed object without advancing the index leaves the kept prefix followed by the rest |
| ObjectManager.RemovedStep | Practice/development/ObjectManager_8DBB050CK548EA49A5S800AE8C9C8A84C8B9.js:325-326 | removing one more object unregisters it after the ones removed before |
| ObjectManager.UpdatedStep | Practice/development/ObjectManager_8DBB050CK548EA49A5S800AE8C9C8A84C8B9.js:328-330 | one more kept object is updated exactly when it is active |
| ObjectManager.RemoveFirstAfter | Practice/development/ObjectManager_8DBB050CK548EA49A5S800AE8C9C8A84C8B9.js:325-326 | removing an element from a list in which it first occurs after a prefix cuts out just that occurrence |
| ObjectManager.SweepPass | Practice/development/ObjectManager_8DBB050CK548EA49A5S800AE8C9C8A84C8B9.js:323-333 | the removal loop keeps exactly the objects that are not disposed, in order; it updates the active ones in order; and it unregisters the disposed ones through `removeObject`, which as written leaves the group lists alone |
| ObjectManager.Manager.constructor | Practice/development/ObjectManager_8DBB050CK548EA49A5S800AE8C9C8A84C8B9.js:35-71 | a new manager has empty lists and maps, is active, and needs a sort |
| ObjectManager.Manager.RegisterObject | Practice/development/ObjectManager_8DBB050CK548EA49A5S800AE8C9C8A84C8B9.js:125-133 | `registerObject` updates the id registry as Register |
| ObjectManager.Manager.UnregisterObject | Practice/development/ObjectManager_8DBB050CK548EA49A5S800AE8C9C8A84C8B9.js:142-156 | `unregisterObject` updates the id registry as Unlist |
| ObjectManager.Manager.AddToGroup | Practice/development/ObjectManager_8DBB050CK548EA49A5S800AE8C9C8A84C8B9.js:275-286 | `addToGroup` updates the group lists as JoinGroup, from the object's current group |
| ObjectManager.Manager.Add | Practice/development/ObjectManager_8DBB050CK548EA49A5S800AE8C9C8A84C8B9.js:190-195 | `add` appends the object, sets `needsSort`, registers its id and adds it to its own group |
| ObjectManager.Manager.RemoveAsWritten | Practice/development/ObjectManager_8DBB050CK548EA49A5S800AE8C9C8A84C8B9.js:205-214 | `remove` as written: out of the list and the registry; the groups are unchanged |
| ObjectManager.Manager.Remove | Practice/development/ObjectManager_8DBB050CK548EA49A5S800AE8C9C8A84C8B9.js:205-214 | the intended `remove`: out of the list, the registry and its group's list |
| ObjectManager.Manager.ObjectById | Practice/development/ObjectManager_8DBB050CK548EA49A5S800AE8C9C8A84C8B9.js:225-242 | `objectById` and `byId` answer nothing when no object is listed for the id, else the object registered last |
| ObjectManager.Manager.SetObjectById | Practice/development/ObjectManager_8DBB050CK548EA49A5S800AE8C9C8A84C8B9.js:253-264 | with a null or empty id nothing changes; otherwise the object takes the id and is appended to that id's list, which is created when absent |
| ObjectManager.Manager.ObjectsByGroup | Practice/development/ObjectManager_8DBB050CK548EA49A5S800AE8C9C8A84C8B9.js:297-299 | `objectsByGroup` gives the group's list, or an empty list for an unknown group |
| ObjectManager.Manager.Update | Practice/development/ObjectManager_8DBB050CK548EA49A5S800AE8C9C8A84C8B9.js:308-335 | `update` sorts by non-increasing `order` when a sort is pending, then clears the flag; afterwards no disposed object remains, the kept ones keep their order, exactly the active kept ones are updated, the removed ones are unregistered, and the group dictionary is unchanged, as `remove` is written |
| ResourceManager.Resource.constructor | Practice/development/ResourceManager_D98F90F2K8EF9A42FDS925AE12EEBFB09029.js:452-470 | a new resource of the given kind, path, hue and `loaded` property, not disposed |
| ResourceManager.Resource.Dispose | Practice/development/ResourceManager_D98F90F2K8EF9A42FDS925AE12EEBFB09029.js:253-255 | `dispose` marks the resource disposed |
| ResourceManager.Names | Practice/development/ResourceManager_D98F90F2K8EF9A42FDS925AE12EEBFB09029.js:39-43 | `toDataBundle` gives one name per entry |
| ResourceManager.Bundle | Practice/development/ResourceManager_D98F90F2K8EF9A42FDS925AE12EEBFB09029.js:52-59 | `fromDataBundle` gives one entry per name |
| ResourceManager.BundleRoundTrip | Practice/development/ResourceManager_D98F90F2K8EF9A42FDS925AE12EEBFB09029.js:39-59 | `toDataBundle` after `fromDataBundle` gives the bundle back |
| ResourceManager.BundleData | Practice/development/ResourceManager_D98F90F2K8EF9A42FDS925AE12EEBFB09029.js:52-59 | a restored entry carries the resource cached under its name, or none when nothing is cached there |
| ResourceManager.IndexOfName | Practice/development/ResourceManager_D98F90F2K8EF9A42FDS925AE12EEBFB09029.js:83-87 | the first entry with the name, or the end of the list when there is none |
| ResourceManager.RemoveNamedFirst | Practice/development/ResourceManager_D98F90F2K8EF9A42FDS925AE12EEBFB09029.js:83-87 | `remove` leaves the list alone when no entry has the name; otherwise it cuts out exactly the first entry that has it |
| ResourceManager.NamesAppend | Practice/development/ResourceManager_D98F90F2K8EF9A42FDS925AE12EEBFB09029.js:69-74 | `add` puts the name at the end of the bundle |
| ResourceManager.NamesRemove | Practice/development/ResourceManager_D98F90F2K8EF9A42FDS925AE12EEBFB09029.js:83-87 | `remove` takes the first occurrence of the name out of the bundle, or nothing |
| ResourceManager.Context.constructor | Practice/development/ResourceManager_D98F90F2K8EF9A42FDS925AE12EEBFB09029.js:20-29 | a new context has no entries |
| ResourceManager.Context.Add | Practice/development/ResourceManager_D98F90F2K8EF9A42FDS925AE12EEBFB09029.js:69-74 | `add` appends the (name, data) entry |
| ResourceManager.Context.Remove | Practice/development/ResourceManager_D98F90F2K8EF9A42FDS925AE12EEBFB09029.js:83-87 | `remove` drops the first entry with the name |
| ResourceManager.Context.ToDataBundle | Practice/development/ResourceManager_D98F90F2K8EF9A42FDS925AE12EEBFB09029.js:39-43 | `toDataBundle` gives the entries' names, in list order |
| ResourceManager.Context.FromDataBundle | Practice/development/ResourceManager_D98F90F2K8EF9A42FDS925AE12EEBFB09029.js:52-59 | `fromDataBundle` replaces the entries by one per name, with data from the path cache; its bundle is the names given |
| ResourceManager.NamesIndex | Practice/development/ResourceManager_D98F90F2K8EF9A42FDS925AE12EEBFB09029.js:39-43 | position by position, the bundle holds the entries' names |
| ResourceManager.IndexOfPath | Practice/development/ResourceManager_D98F90F2K8EF9A42FDS925AE12EEBFB09029.js:217-224 | `resources.first` finds the first resource with the path, or nothing |
| ResourceManager.EvictAllByPath | Practice/development/ResourceManager_D98F90F2K8EF9A42FDS925AE12EEBFB09029.js:209-313 | each eviction loop deletes from the path cache exactly the names of the context entries holding its kind (non-empty names only, for bitmaps) and adds nothing |
| ResourceManager.EvictAllResources | Practice/development/ResourceManager_D98F90F2K8EF9A42FDS925AE12EEBFB09029.js:246-313 | for videos, audio and Live2D models, the loop takes one occurrence of every resource the context holds out of `resources`, and nothing else |
| ResourceManager.EvictAllDisposed | Practice/development/ResourceManager_D98F90F2K8EF9A42FDS925AE12EEBFB09029.js:246-313 | for videos, audio and Live2D models, the loop disposes exactly the resources the context entries hold, in order |
| ResourceManager.EvictAllDisposesBitmaps | Practice/development/ResourceManager_D98F90F2K8EF9A42FDS925AE12EEBFB09029.js:209-237 | every bitmap a context entry holds is disposed by `disposeBitmaps` |
| ResourceManager.EvictedNamesMembers | Practice/development/ResourceManager_D98F90F2K8EF9A42FDS925AE12EEBFB09029.js:209-313 | a name is evicted exactly when some entry holding the kind carries it (a non-empty one, for bitmaps) |
| ResourceManager.RemoveFirstWithin | Practice/development/ResourceManager_D98F90F2K8EF9A42FDS925AE12EEBFB09029.js:217-225 | removing from `resources` never adds an element |
| ResourceManager.EvictAllWithin | Practice/development/ResourceManager_D98F90F2K8EF9A42FDS925AE12EEBFB09029.js:209-313 | the loops only remove from `resources`, and dispose only resources that were listed there or held by the context |
| ResourceManager.EvictKind | Practice/development/ResourceManager_D98F90F2K8EF9A42FDS925AE12EEBFB09029.js:209-313 | the loop, as a method over the cache lists, computes EvictAll |
| ResourceManager.DisposeEach | Practice/development/ResourceManager_D98F90F2K8EF9A42FDS925AE12EEBFB09029.js:209-313 | every resource picked by the loop ends up disposed |
| ResourceManager.HueOrZero | Practice/development/ResourceManager_D98F90F2K8EF9A42FDS925AE12EEBFB09029.js:482-520 | an absent hue counts as 0; a present one is taken as it is |
| ResourceManager.Manager.constructor | Practice/development/ResourceManager_D98F90F2K8EF9A42FDS925AE12EEBFB09029.js:108-170 | a new manager has empty caches, an empty system context and no context set, and is loaded |
| ResourceManager.Manager.SetContext | Practice/development/ResourceManager_D98F90F2K8EF9A42FDS925AE12EEBFB09029.js:180-188 | after the setter, the getter answers the context set, or the system context when it is null |
| ResourceManager.Manager.CreateContext | Practice/development/ResourceManager_D98F90F2K8EF9A42FDS925AE12EEBFB09029.js:198-200 | `createContext` gives a new, empty context |
| ResourceManager.Manager.Obtain | Practice/development/ResourceManager_D98F90F2K8EF9A42FDS925AE12EEBFB09029.js:408-423 | a cache hit (not disposed, where checked) returns the cached object and changes nothing; a miss creates a resource, caches it under the path, and appends it to `resources` and to the current context; the manager is then not loaded |
| ResourceManager.Manager.GetVideo | Practice/development/ResourceManager_D98F90F2K8EF9A42FDS925AE12EEBFB09029.js:452-470 | a folder path gives null and changes nothing; otherwise the result is the live cached video, with the cache, the resource list, the loaded flag and the context unchanged, or a new one that is cached, listed and added to the context |
| ResourceManager.Manager.SameVideoTwice | Practice/development/ResourceManager_D98F90F2K8EF9A42FDS925AE12EEBFB09029.js:452-470 | two requests for the same video path in a row give the same object |
| ResourceManager.Manager.GetLive2DModel | Practice/development/ResourceManager_D98F90F2K8EF9A42FDS925AE12EEBFB09029.js:408-423 | the cached model when it is present and not disposed, with the cache, the resource list, the loaded flag and the context unchanged, otherwise a new one cached, listed and added to the context |
| ResourceManager.Manager.GetAudioBuffer | Practice/development/ResourceManager_D98F90F2K8EF9A42FDS925AE12EEBFB09029.js:552-597 | `getAudioBuffer` and `getAudioStream` return the cached resource even when it is disposed; only a miss creates one |
| ResourceManager.Manager.Cached | Practice/development/ResourceManager_D98F90F2K8EF9A42FDS925AE12EEBFB09029.js:482-520 | `getBitmap` looks the path up in the path cache first, then among the custom bitmaps |
| ResourceManager.Manager.GetBitmap | Practice/development/ResourceManager_D98F90F2K8EF9A42FDS925AE12EEBFB09029.js:482-520 | a folder path gives null and changes nothing; otherwise every cache branch of `getBitmap`: a miss caches a new bitmap with the hue, a stale one gives an uncached bitmap, and a positive hue gives the recoloured copy cached for (path, hue) |
| ResourceManager.Manager.GetImage | Practice/development/ResourceManager_D98F90F2K8EF9A42FDS925AE12EEBFB09029.js:531-541 | the cached image, or a new one cached and appended to `resources` |
| ResourceManager.Manager.GetFont | Practice/development/ResourceManager_D98F90F2K8EF9A42FDS925AE12EEBFB09029.js:435-441 | always a new font, appended to `resources`; the manager is then not loaded |
| ResourceManager.Manager.LoadFonts | Practice/development/ResourceManager_D98F90F2K8EF9A42FDS925AE12EEBFB09029.js:337-352 | registers the unloaded font-folder placeholder under "Graphics/Fonts" and in `resources` |
| ResourceManager.Manager.GetCustomBitmap | Practice/development/ResourceManager_D98F90F2K8EF9A42FDS925AE12EEBFB09029.js:363-365 | the bitmap set for the key, or nothing |
| ResourceManager.Manager.SetCustomBitmap | Practice/development/ResourceManager_D98F90F2K8EF9A42FDS925AE12EEBFB09029.js:376-382 | the bitmap is always stored under the key; it is added to `resources`, and the manager marked not loaded, only when its `loaded` is null or undefined |
| ResourceManager.Manager.AddCustomBitmap | Practice/development/ResourceManager_D98F90F2K8EF9A42FDS925AE12EEBFB09029.js:392-397 | the bitmap is associated with the current context under the empty name |
| ResourceManager.Manager.DisposeKind | Practice/development/ResourceManager_D98F90F2K8EF9A42FDS925AE12EEBFB09029.js:209-313 | one eviction loop over the current context and its disposals |
| ResourceManager.Manager.DisposeVideos | Practice/development/ResourceManager_D98F90F2K8EF9A42FDS925AE12EEBFB09029.js:246-262 | `disposeVideos` evicts every video of the current context from the path cache and from `resources`, and disposes each |
| ResourceManager.Manager.DisposeLive2D | Practice/development/ResourceManager_D98F90F2K8EF9A42FDS925AE12EEBFB09029.js:297-313 | `disposeLive2D` evicts every Live2D model of the current context from the path cache and from `resources`, and disposes each |
| ResourceManager.Manager.DisposeAudio | Practice/development/ResourceManager_D98F90F2K8EF9A42FDS925AE12EEBFB09029.js:271-288 | `disposeAudio` evicts every audio buffer of the current context from the path cache and from `resources`, and disposes each |
| ResourceManager.Manager.DisposeBitmaps | Practice/development/ResourceManager_D98F90F2K8EF9A42FDS925AE12EEBFB09029.js:209-237 | `disposeBitmaps` evicts the bitmaps of the current context from the path cache (non-empty names) and disposes each of them |
| ResourceManager.Manager.Dispose | Practice/development/ResourceManager_D98F90F2K8EF9A42FDS925AE12EEBFB09029.js:322-328 | `dispose` runs the four evictions and resets the context to the system context; `resources` only loses elements |
| ResourceManager.Manager.Update | Practice/development/ResourceManager_D98F90F2K8EF9A42FDS925AE12EEBFB09029.js:607-632 | when not loaded, `update` sets the manager loaded exactly when every resource is loaded, and then emits "loaded" once; when already loaded it does nothing |
| Styles.Element | Practice/development/UIManager_4216707AK784EA4859S86BBE1FCA7990F36B.js:210-212 | reading an array past its end gives `undefined`; within the array it gives the element |
| Styles.InsetsArray | Practice/development/UIManager_4216707AK784EA4859S86BBE1FCA7990F36B.js:210-212 | a space with four sides as an array of length 4, in the order left, top, right, bottom |
| Styles.ArrayInsetsRoundTrip | Practice/development/UIManager_4216707AK784EA4859S86BBE1FCA7990F36B.js:210-212 | `fromArray` reads exactly the first four elements, so an array of four survives the trip through a space |
| Styles.InsetsArrayRoundTrip | Practice/development/UIManager_4216707AK784EA4859S86BBE1FCA7990F36B.js:210-212 | a space with four sides survives the trip through an array |
| Styles.ShortArrayUndefined | Practice/development/UIManager_4216707AK784EA4859S86BBE1FCA7990F36B.js:210-212 | an array shorter than four leaves exactly the missing sides undefined |
| Styles.Space.constructor | Practice/development/UIManager_4216707AK784EA4859S86BBE1FCA7990F36B.js:137-166 | a space holds the four sides given |
| Styles.Space.Set | Practice/development/UIManager_4216707AK784EA4859S86BBE1FCA7990F36B.js:194-199 | `set` overwrites all four sides |
| Styles.Space.SetFromObject | Practice/development/UIManager_4216707AK784EA4859S86BBE1FCA7990F36B.js:176-181 | `setFromObject` copies the four sides of the other space, which is left unchanged |
| Styles.Space.FromArray | Practice/development/UIManager_4216707AK784EA4859S86BBE1FCA7990F36B.js:210-212 | `fromArray` gives a new space holding the first four elements of the array |
| Styles.Alignment | Practice/development/UIManager_4216707AK784EA4859S86BBE1FCA7990F36B.js:1001-1010 | the alignment table maps left and top to 0, center to 1, and bottom and right to 2, as do their digit spellings; other names are unknown |
| Styles.Selector | Practice/development/UIManager_4216707AK784EA4859S86BBE1FCA7990F36B.js:1029-1035 | the selector table maps normal, hover, selected, enabled and focused to 0..4; other names are unknown |
| Styles.AlignmentDigits | Practice/development/UIManager_4216707AK784EA4859S86BBE1FCA7990F36B.js:1001-1010 | every known alignment has a digit spelling that names the same value |
| Styles.SelectorsDistinct | Practice/development/UIManager_4216707AK784EA4859S86BBE1FCA7990F36B.js:1029-1035 | no two selector names share a value |
| Styles.Style.Apply | Practice/development/UIManager_4216707AK784EA4859S86BBE1FCA7990F36B.js:561-623 | `apply` of an active style changes nothing; otherwise it pushes the style once and writes every property it specifies, including looping and animations, and nothing else |
| Styles.Style.Revert | Practice/development/UIManager_4216707AK784EA4859S86BBE1FCA7990F36B.js:678-860 | `revert` of an inactive style changes nothing; otherwise it removes the style and gives every property it specified the restored value, then runs `revertAnimations` and `revertLooping` |
| Styles.Style.RevertAnimations | Practice/development/UIManager_4216707AK784EA4859S86BBE1FCA7990F36B.js:870-891 | a style with animations clears them, then takes those of the earliest remaining style that has some, because the scan has no `break`; a style without animations leaves them alone |
| Styles.Style.RevertLooping | Practice/development/UIManager_4216707AK784EA4859S86BBE1FCA7990F36B.js:901-925 | a style with looping flags turns them off, then takes those of the earliest remaining style that has some; a style without them leaves them alone |
| Styles.Blank | Practice/development/UIManager_4216707AK784EA4859S86BBE1FCA7990F36B.js:233-416 | a style built without a descriptor specifies nothing |
| Styles.AlignmentOf | Practice/development/UIManager_4216707AK784EA4859S86BBE1FCA7990F36B.js:478-483 | a descriptor's alignmentX or alignmentY is looked up in the alignment table; -1 (not specified) when absent or unknown |
| Styles.FromDescriptor | Practice/development/UIManager_4216707AK784EA4859S86BBE1FCA7990F36B.js:426-484 | the style built from a descriptor keeps its id and selector, targets itself (-1), and has no mask |
| Styles.NonNegativeOr | Practice/development/UIManager_4216707AK784EA4859S86BBE1FCA7990F36B.js:447-452 | opacity and alignment are copied exactly when they are present and at least 0 |
| Styles.TruthyOr | Practice/development/UIManager_4216707AK784EA4859S86BBE1FCA7990F36B.js:460-477 | frame sizes and z-index are copied only when truthy; otherwise they stay at -1 |
| Styles.FromDescriptorSpecifies | Practice/development/UIManager_4216707AK784EA4859S86BBE1FCA7990F36B.js:338-484 | the sentinel rules: a style built from a descriptor specifies exactly the properties the descriptor gives |
| Styles.ZeroSentinels | Practice/development/UIManager_4216707AK784EA4859S86BBE1FCA7990F36B.js:447-477 | the value 0 splits the two sentinel families: opacity 0 is specified, while a z-index or a frame corner size of 0 is not |
| Styles.DefaultPropsHoldDefaults | Practice/development/UIManager_4216707AK784EA4859S86BBE1FCA7990F36B.js:678-860 | an object with default properties holds the default of every property: opacity 255, alignments 0, frame sizes 16, z-index 0, anchor (0,0), zoom (1,1), empty spaces, WHITE, tone 0, no image, the text font |
| Styles.LastSpecifying | Practice/development/UIManager_4216707AK784EA4859S86BBE1FCA7990F36B.js:683-856 | the reverse scan of `revert` finds a style of the stack that specifies the property, and none after it does |
| Styles.FirstSpecifying | Practice/development/UIManager_4216707AK784EA4859S86BBE1FCA7990F36B.js:870-925 | the forward-winning scan of `revertAnimations` and `revertLooping` finds a style of the stack that specifies the property, and none before it does |
| Styles.ApplyTo | Practice/development/UIManager_4216707AK784EA4859S86BBE1FCA7990F36B.js:561-623 | `apply` on states: an active style changes nothing, and an inactive one ends up active |
| Styles.ApplyWrites | Practice/development/UIManager_4216707AK784EA4859S86BBE1FCA7990F36B.js:565-619 | `apply` writes a property exactly when the style specifies it (for the tone, only when the object has one), and writes the style's value |
| Styles.RevertWrites | Practice/development/UIManager_4216707AK784EA4859S86BBE1FCA7990F36B.js:683-856 | `revert` writes a property exactly when the reverted style specified it, and writes the restored value |
| Styles.ApplyIdempotent | Practice/development/UIManager_4216707AK784EA4859S86BBE1FCA7990F36B.js:561-564 | applying a style twice is the same as applying it once |
| Styles.StackStaysDistinct | Practice/development/UIManager_4216707AK784EA4859S86BBE1FCA7990F36B.js:561-564 | `apply` and `revert` never put a style on the stack twice, and `revert` takes the style off entirely |
| Styles.RemoveFirstDistinct | Practice/development/UIManager_4216707AK784EA4859S86BBE1FCA7990F36B.js:678-682 | removing a style from a stack without duplicates leaves the rest, still without duplicates |
| Styles.LastSpecifyingAppend | Practice/development/UIManager_4216707AK784EA4859S86BBE1FCA7990F36B.js:683-856 | with more styles on top, the most recent specifying style is in the new part when there is one there |
| Styles.LastSpecifyingIgnoresRemoval | Practice/development/UIManager_4216707AK784EA4859S86BBE1FCA7990F36B.js:678-856 | taking a style that does not specify a property off the stack leaves that property's cascade as it was |
| Styles.ApplyKeepsCascade | Practice/development/UIManager_4216707AK784EA4859S86BBE1FCA7990F36B.js:561-623 | `apply` keeps the cascade invariant: each cascading property holds the value of the most recently applied active style that specifies it, else its default |
| Styles.RevertKeepsCascade | Practice/development/UIManager_4216707AK784EA4859S86BBE1FCA7990F36B.js:678-860 | `revert` keeps the cascade invariant |
| Styles.RunSnoc | Practice/development/UIManager_4216707AK784EA4859S86BBE1FCA7990F36B.js:561-860 | running one more call is one more step |
| Styles.InitialCascaded | Practice/development/UIManager_4216707AK784EA4859S86BBE1FCA7990F36B.js:678-860 | an object with no active styles and every default satisfies the cascade invariant |
| Styles.RunKeepsCascade | Practice/development/UIManager_4216707AK784EA4859S86BBE1FCA7990F36B.js:561-860 | from such an object, after any sequence of `apply` and `revert`, each cascading property holds the value of the last active style that specifies it, else its default |
| Styles.RevertUndoesApply | Practice/development/UIManager_4216707AK784EA4859S86BBE1FCA7990F36B.js:561-860 | reverting a style just applied gives every cascading property its earlier value back |
| Styles.RemoveFirstAbsentLast | Practice/development/UIManager_4216707AK784EA4859S86BBE1FCA7990F36B.js:678-682 | removing a style just pushed onto a stack that did not hold it gives the stack back |
| Styles.RunTwo | Practice/development/UIManager_4216707AK784EA4859S86BBE1FCA7990F36B.js:561-623 | the state after applying S1 and S2 to an object without styles |
| Styles.RunThreeThen | Practice/development/UIManager_4216707AK784EA4859S86BBE1FCA7990F36B.js:561-623 | the state after applying S1, S2 and S3 to an object without styles |
| Styles.RevertMiddleKeepsTop | Practice/development/UIManager_4216707AK784EA4859S86BBE1FCA7990F36B.js:678-860 | after applying S1, S2 and S3 and reverting S2, S1 and S3 stay active and every cascading property S3 specifies holds S3's value |
| Styles.RevertThirdOfThree | Practice/development/UIManager_4216707AK784EA4859S86BBE1FCA7990F36B.js:678-860 | after applying S1, S2 and S3 and reverting S3, `revert` restores from the stack S1, S2 |
| Styles.LastOfTwo | Practice/development/UIManager_4216707AK784EA4859S86BBE1FCA7990F36B.js:683-856 | on the stack S1, S2 the reverse scan finds S2 when S2 specifies the property |
| Styles.FirstOfTwo | Practice/development/UIManager_4216707AK784EA4859S86BBE1FCA7990F36B.js:870-925 | on the stack S1, S2 the animation and looping scan finds S1 when S1 specifies the property |
| Styles.MaskRevertTakesFont | Practice/development/UIManager_4216707AK784EA4859S86BBE1FCA7990F36B.js:807-816 | with S1, S2 and S3 applied, where S2 and S3 have masks, reverting S3 gives the object S2's font as its mask, not S2's mask |
| Styles.EarliestAnimationsWin | Practice/development/UIManager_4216707AK784EA4859S86BBE1FCA7990F36B.js:870-891 | with three styles with animations applied, reverting the last restores the first one's animations, not the second's |
| Styles.EarliestLoopingWins | Practice/development/UIManager_4216707AK784EA4859S86BBE1FCA7990F36B.js:901-925 | with three styles with looping flags applied, reverting the last restores the first one's flags |
| Styles.FindLast | Practice/development/UIManager_4216707AK784EA4859S86BBE1FCA7990F36B.js:683-692 | the reverse `for` loop with `break` finds what LastSpecifying finds |
| Styles.Widget.constructor | Practice/development/UIManager_4216707AK784EA4859S86BBE1FCA7990F36B.js:561-564 | a UI object with the given properties and no active styles |
| UI.Split | Practice/development/UIManager_4216707AK784EA4859S86BBE1FCA7990F36B.js:1062-1064 | `split` with a one-character separator always gives at least one piece |
| UI.SplitJoin | Practice/development/UIManager_4216707AK784EA4859S86BBE1FCA7990F36B.js:1062-1064 | joining the pieces of a split gives the string back, and no piece holds the separator |
| UI.SplitWithout | Practice/development/UIManager_4216707AK784EA4859S86BBE1FCA7990F36B.js:1062-1064 | a string without the separator splits into itself |
| UI.SplitAfter | Practice/development/UIManager_4216707AK784EA4859S86BBE1FCA7990F36B.js:1062-1064 | a separator after a piece without one ends that piece |
| UI.JoinSplit | Practice/development/UIManager_4216707AK784EA4859S86BBE1FCA7990F36B.js:1062-1064 | splitting pieces joined with a separator that none of them holds gives the pieces back |
| UI.KeySelector | Practice/development/UIManager_4216707AK784EA4859S86BBE1FCA7990F36B.js:1063-1069 | the selector of a key is the value of a known selector name after the first colon of its first word; it is 0 without a colon, for an unknown name, and for "normal" |
| UI.ParseKey | Practice/development/UIManager_4216707AK784EA4859S86BBE1FCA7990F36B.js:1062-1083 | the key `name:selector child` (with no blank or colon inside its parts) registers under `name` with the selector's number (0 when unknown), has `child` as its child name, and its target is looked up under `name` |
| UI.ParsePlainKey | Practice/development/UIManager_4216707AK784EA4859S86BBE1FCA7990F36B.js:1062-1069 | a one-word key without a colon registers under itself, with selector 0 and no child |
| UI.ChildKeyTargetsItself | Practice/development/UIManager_4216707AK784EA4859S86BBE1FCA7990F36B.js:1079-1081 | the child key `a b` has no colon, so `k.split(":")[0]` is the whole key, and its style targets itself rather than the style of `a` |
| UI.Put | Practice/development/UIManager_4216707AK784EA4859S86BBE1FCA7990F36B.js:1065-1069 | `stylesById[id] = style` keeps the length when it overwrites and extends the array by one otherwise |
| UI.RegisterAll | Practice/development/UIManager_4216707AK784EA4859S86BBE1FCA7990F36B.js:1062-1076 | the first loop of `setupStyles` gives every key a style |
| UI.RegisterStep | Practice/development/UIManager_4216707AK784EA4859S86BBE1FCA7990F36B.js:1062-1076 | each pass of the first loop registers one more key |
| UI.RegisterAllKeys | Practice/development/UIManager_4216707AK784EA4859S86BBE1FCA7990F36B.js:1062-1076 | after the first loop every key is registered |
| UI.RegisterAllValid | Practice/development/UIManager_4216707AK784EA4859S86BBE1FCA7990F36B.js:1062-1076 | the first loop keeps every id in the tables naming a style |
| UI.Resolve | Practice/development/UIManager_4216707AK784EA4859S86BBE1FCA7990F36B.js:1604-1608 | the styles that a name's ids name, in order |
| UI.LinkAll | Practice/development/UIManager_4216707AK784EA4859S86BBE1FCA7990F36B.js:1077-1083 | the second loop keeps the key table, the number of styles and the set of names; a push onto an unknown child name throws a TypeError and stops it |
| UI.LinkAllValid | Practice/development/UIManager_4216707AK784EA4859S86BBE1FCA7990F36B.js:1077-1083 | the second loop keeps every id in the tables naming a style |
| UI.SetupValid | Practice/development/UIManager_4216707AK784EA4859S86BBE1FCA7990F36B.js:1058-1085 | `setupStyles` keeps every id in the tables naming a style, so `addControlStyles` may follow it |
| UI.LinkStep | Practice/development/UIManager_4216707AK784EA4859S86BBE1FCA7990F36B.js:1077-1083 | each pass of the second loop links one more key, unless an earlier pass threw |
| UI.RegisterAllIds | Practice/development/UIManager_4216707AK784EA4859S86BBE1FCA7990F36B.js:1059-1075 | ids are given in enumeration order, counting from 0 |
| UI.RegisterAllStyles | Practice/development/UIManager_4216707AK784EA4859S86BBE1FCA7990F36B.js:1065-1069 | key number i gets the style of its descriptor with id i and its key's selector |
| UI.RegisterAllNames | Practice/development/UIManager_4216707AK784EA4859S86BBE1FCA7990F36B.js:1070-1073 | every style is appended to the list of its name, in key order, after the ids already listed |
| UI.LinkAllSucceeds | Practice/development/UIManager_4216707AK784EA4859S86BBE1FCA7990F36B.js:1077-1083 | the second loop runs to its end exactly when every child name is a registered name |
| UI.LinkAllLists | Practice/development/UIManager_4216707AK784EA4859S86BBE1FCA7990F36B.js:1077-1083 | when the second loop completes, each child key's style has been pushed onto its child name's list, in order, and nothing else has been listed |
| UI.LinkAllOnlyTargets | Practice/development/UIManager_4216707AK784EA4859S86BBE1FCA7990F36B.js:1080-1081 | the second loop changes nothing of a style but its target |
| UI.LinkAllUntouched | Practice/development/UIManager_4216707AK784EA4859S86BBE1FCA7990F36B.js:1077-1083 | the second loop leaves the style of an id that no key maps to as it was |
| UI.LinkAllTargets | Practice/development/UIManager_4216707AK784EA4859S86BBE1FCA7990F36B.js:1080-1081 | when the second loop completes, each child key's style targets its parent key's style (or `undefined`), and the styles of other keys keep their target |
| UI.RegisterAllListsNames | Practice/development/UIManager_4216707AK784EA4859S86BBE1FCA7990F36B.js:1070-1073 | after the first loop a name is listed exactly when it was listed before or some key has it |
| UI.SetupIds | Practice/development/UIManager_4216707AK784EA4859S86BBE1FCA7990F36B.js:1058-1085 | on a fresh manager, `setupStyles` gives key number i the id i |
| UI.SetupCompletes | Practice/development/UIManager_4216707AK784EA4859S86BBE1FCA7990F36B.js:1058-1085 | on a fresh manager, `setupStyles` completes exactly when every child name is the name of some key |
| UI.SetupBuildsStyles | Practice/development/UIManager_4216707AK784EA4859S86BBE1FCA7990F36B.js:1058-1085 | when it completes, key number i has the style of its descriptor and selector, targeting its parent key's style when it is a child key and itself otherwise |
| UI.SetupLists | Practice/development/UIManager_4216707AK784EA4859S86BBE1FCA7990F36B.js:1058-1085 | when it completes, every name lists the styles of its keys in order, followed by the child keys naming it as their child |
| UI.UIManager.constructor | Practice/development/UIManager_4216707AK784EA4859S86BBE1FCA7990F36B.js:944-1037 | a manager with the registered descriptors and empty style tables |
| UI.UIManager.SetupStyles | Practice/development/UIManager_4216707AK784EA4859S86BBE1FCA7990F36B.js:1058-1085 | `setupStyles` leaves the tables as Setup says, and reports whether it completed |
| UI.UIManager.RegisterStyles | Practice/development/UIManager_4216707AK784EA4859S86BBE1FCA7990F36B.js:1062-1076 | the first loop leaves the tables as RegisterAll says |
| UI.UIManager.LinkStyles | Practice/development/UIManager_4216707AK784EA4859S86BBE1FCA7990F36B.js:1077-1083 | the second loop leaves the tables as LinkAll says, and returns false exactly when it threw |
| UI.UIManager.AddControlStyles | Practice/development/UIManager_4216707AK784EA4859S86BBE1FCA7990F36B.js:1597-1623 | `addControlStyles` appends the styles of every known name to the control's style list, in order, and applies exactly those with target -1 and selector 0, in order |
| UI.UIManager.AttachStyles | Practice/development/UIManager_4216707AK784EA4859S86BBE1FCA7990F36B.js:1604-1617 | the inner loop appends one name's styles and applies those that apply on attach |
| UI.AttachStep | Practice/development/UIManager_4216707AK784EA4859S86BBE1FCA7990F36B.js:1609-1614 | one pass of the inner loop appends one style and applies it when it applies on attach |
| UI.AttachNameStep | Practice/development/UIManager_4216707AK784EA4859S86BBE1FCA7990F36B.js:1601-1618 | one pass of the outer loop attaches one more name's styles after the others |
| UI.AttachedStep | Practice/development/UIManager_4216707AK784EA4859S86BBE1FCA7990F36B.js:1601-1618 | attaching one more name adds its styles, if it has any, after the others |
| UI.LinkAllStopped | Practice/development/UIManager_4216707AK784EA4859S86BBE1FCA7990F36B.js:1077-1083 | once the second loop has thrown, later keys change nothing |
| UI.ApplyAutoAppend | Practice/development/UIManager_4216707AK784EA4859S86BBE1FCA7990F36B.js:1597-1623 | attaching two runs of styles is attaching the first and then the second |
| UI.ApplyAutoKeepsCascade | Practice/development/UIManager_4216707AK784EA4859S86BBE1FCA7990F36B.js:1597-1623 | attaching styles keeps the control's cascade invariant |
| UI.ApplyAutoActivates | Practice/development/UIManager_4216707AK784EA4859S86BBE1FCA7990F36B.js:1597-1623 | attaching keeps the styles already active, below the new ones; afterwards every attached style that applies on attach is active, and every newly active style is one of them |
| UI.UnknownNameAttachesNothing | Practice/development/UIManager_4216707AK784EA4859S86BBE1FCA7990F36B.js:1602 | a name without styles attaches nothing |
| UI.Formula.constructor | Practice/development/UIManager_4216707AK784EA4859S86BBE1FCA7990F36B.js:17-69 | a new formula has 11 numbers, all 0, and 11 strings, all empty |
| UI.Formula.OnChange | Practice/development/UIManager_4216707AK784EA4859S86BBE1FCA7990F36B.js:94-99 | `onChange` reports a change exactly when the value differs from the one stored last, and then stores it |
| UI.Formula.OnTextChange | Practice/development/UIManager_4216707AK784EA4859S86BBE1FCA7990F36B.js:110-115 | `onTextChange` reports a change exactly when the text differs from the one stored last, and then stores it |
| UI.OnChangeTwice | Practice/development/UIManager_4216707AK784EA4859S86BBE1FCA7990F36B.js:94-99 | checking the same value twice: the second check reports no change |

## Left out

- I/O, rendering and engine classes: `gs.Component_Animator` and its clips, `AudioManager`, `Bitmap`, `Video`, `gs.Font` loading, Live2D, `LanguageManager.profile` and the event emitter. A clip start, a sound, a record play, a refresh, the callback and the "loaded" event are entries in a log or a counter. Resources are records with `kind`, `filePath`, `hue`, `loaded` and `disposed`.
- Value resolution by the formula and binding handlers, `gs.Easings.fromString`, `Color`/`Tone.fromArray` and `RecordManager.animations` are not part of this model. Each step carries its resolved duration as a natural number, and colors, tones, fonts, points and spaces are opaque values.
- Floating point is not modelled. Coordinates, offsets, zoom factors and anchors are integers, and `zoom[0] / 100` is never computed.
- JavaScript dynamic typing is not modelled: `NaN`, numbers given as strings, and objects inherited from `Object.prototype` (a selector named `constructor`, say). Unknown selector names give 0, and the tables are exactly the listed entries.
- Object keys are enumerated in insertion order, given as the sequence of descriptors. JavaScript enumerates integer-like keys first, and the model does not.
- `window["$" + id]` globals are set by `registerObject`, `unregisterObject` and `setObjectById`; only the id registry is modelled.
- A null or undefined id or group (`obj[undefined]` in JavaScript) touches no list.
- `ObjectManager.dispose` and `disposeObjects` rely on each object's own `dispose` and an unseen array extension.
- The `Array.prototype` extensions `remove`, `first`, `last`, `contains` and `select` are not part of this model. Their semantics are assumed: `remove` takes out the first occurrence or nothing (`Common.RemoveFirst`), `first` gives the first element that satisfies its predicate or undefined, `last` the last element, `contains` tests membership, and `select` maps each element.
- ComponentVisual.Update: it requires the object to have a dstRect when its layout rectangle has an entry and its parent has a dstRect. In that case the source throws a TypeError on writing into the missing dstRect, and the model does not capture the throw.
- ComponentVisual.UpdateOrigin: it requires a finite parent chain that ends in an object without a parent, and so does `ComponentVisual.Update`. A cyclic chain is excluded, even one on which the source loop would stop at an ancestor without a `dstRect`. On a cycle whose members all have a `dstRect`, the source loop does not terminate.
- AnimationExecutor: the callback is an entry in the log. A callback that calls `execute` again is not captured; in the source its new flow is then cleared by `if (!this.repeat) this.animation = null`, unless `repeat` is set.
- `addObject` and `removeObject` are aliases of `add` and `remove`. `addObject` is modelled by `Manager.Add`; `removeObject`, as written, by `Manager.RemoveAsWritten`, and with the group cleanup corrected by `Manager.Remove`. The removal loop of `update` uses the as-written behaviour.
- `ui.Formula.exec` and the formula's data object call a user-supplied function.
- `Style.set` (UIManager lines 486-508) is not called by the modelled code.
- `setupFont` is not fully modelled: a descriptor font becomes a font value with its name and size (0 when missing). Bold, italic, small caps, underline, strike-through, color, border and outline are left out.
- `clipRect`, `frame` and the stored `descriptor` reference of a style are not modelled, because `apply` and `revert` do not use them.
- Styles.FromDescriptor: an alignmentX or alignmentY name that is not in the table gives -1 (not specified), where JavaScript stores `undefined`. Both fail `apply`'s `>= 0` test, so `apply` treats them the same.
- Styles.FromDescriptor: color, tone, anchor and zoom arrive in the descriptor already converted to values.
- Styles.Style.Apply: in the source, `applyLooping` and `applyAnimations` also replace the visual's looping component and the object's animation executor. Only the stored flags and animations are modelled.
- Styles.Style.Apply: the object is assumed to have a font. In the source, `apply` skips the font of an object that has none (UIManager lines 564-568), and `revert` then throws a TypeError on `object.font.set` (line 684).
- Styles.Style.Apply: style identity is value equality. The ids that `setupStyles` gives keep distinct styles distinct.
- ObjectManager.Manager.Update: it assumes the objects' own `update` calls add, dispose and reorder nothing. The pass works on snapshots of the objects taken when it starts, and an object's update is an entry in `updated`.
- ObjectManager.Manager.Remove: models `remove` of a non-null object; the `if (object)` guard on null is not modelled.
- ResourceManager.Manager.Update: the hue branch of the scan (ResourceManager lines 618-624) is not modelled. It recolours a loaded bitmap, recaches it and deletes its `filePath` and `hue`, and needs the bitmap's image data.
- ResourceManager.Manager.DisposeBitmaps: it states the eviction from the path cache and the disposals, not the multiset of `resources`. The loop removes the bitmap's first path match and the bitmap itself, which may be the same object.
- ResourceManager.Manager.Dispose: it states the context reset and that `resources` only loses elements. What each eviction does is stated by the four `dispose*` members it is built from.
- UI.UIManager.SetupStyles: creating an empty list and then pushing onto it is written as a single map update. The two loops are the helper methods RegisterStyles and LinkStyles.
- UI.UIManager.SetupStyles: the source also replaces each descriptor in `styles` by its style (UIManager line 1074). The model keeps the descriptors and reads the styles from `stylesById` through the key-to-id table.
- AnimationExecutor: in a flow of a waiting moveTo of duration 5 followed by a blendTo, the moveTo is dispatched on the first update, five countdown updates follow, and the blendTo is dispatched on the seventh (`WaitingStepHoldsFlow`). `wait: true` behaves as a wait of 1.
- AnimationExecutor: `repeat` is never set by the code shown; the executor takes it as part of its state.
- LayoutManagementMode: the constants set by `initialize` are modelled as the values 0 and 1 it assigns.

## Findings

| source | as written | input that shows it | evidently intended | confidence | as-written member | corrected member |
|---|---|---|---|---|---|---|
| Practice/development/ObjectManager_8DBB050CK548EA49A5S800AE8C9C8A84C8B9.js:210-211 | the group cleanup of `remove` indexes `this.objectsByGroup`, which is the method, so `ref` is always undefined and the object stays in its group's list | `add(o)` with `o.group == "g"`, then `remove(o)`: `objectsByGroup("g")` still returns `[o]` | look the list up in `objectsByGroup_` and remove the object from it | high, not executed | ObjectManager.RemoveAsWrittenKeepsGroup | ObjectManager.RemoveFixedLeavesGroup |
