# Pluely window presence and system-audio transcription, modelled in Dafny

Pluely is a desktop overlay assistant: a small always-on-top window (Tauri,
with a Rust host and a React page) that the user can summon with a global
shortcut. This project models its core:

- **Window-presence coordinator** (`useWindowBehavior`).
  - It tracks whether the user is interacting with the overlay or with the
    operating system: focus, the last interaction and whether a system
    shortcut was seen.
  - It polls the window's focus on an interval.
  - It re-asserts always-on-top while the user is active.
  - It reacts to key, pointer, blur and visibility events.
  - Files: `window_behavior_spec.dfy` holds the pure state machine;
    `window_behavior.dfy` holds the `Coordinator` class, which keeps the
    same state in fields and is proved against it.
- **Host window** (`host_window.dfy`). The Tauri window the Rust commands
  act on: visibility, focus, always-on-top, size, position, the primary
  monitor, emitted events and a clock for delayed re-enables.
  - Which platform calls fail is an input: `faults` maps an operation to
    its error text.
- **Placement** (`window.rs`, in `placement.dfy`).
  - Top-centre, full centring and fixed positioning, with the Rust `u32` to
    `i32` casts and the truncating division written out.
  - Choice of the main window at start-up.
  - The "maintain" routine.
- **Commands** (`lib.rs`, in `commands.dfy`).
  - The window commands the page invokes: height, always-on-top, bring to
    front, focus, a temporary always-on-top disable that re-enables itself
    later, and visibility toggling.
  - The global shortcut and the event it emits.
  - Every error message prefix is kept.
- **Window hooks** (`useWindow.ts`, in `window_hooks.dfy`).
  - The page wrappers that log command failures.
  - Focus-change dispatch to the caller's callbacks.
  - The life cycle of the asynchronous focus-change subscription.
- **Speech-to-text provider probe** (`testSTTProvider.ts`, in
  `stt_probe.dfy`).
  - The OPTIONS request it builds: URL, query or header authentication,
    user agent and provider headers.
  - How it classifies the status or the thrown error into a verdict.
- **Audio capture hook** (`useSystemAudioCapture.ts`, in
  `audio_capture.dfy`).
  - The device list, with the synthetic "system audio" entry.
  - The capture source choice.
  - Chunk buffering, and the recording handed to the callback on stop.
- **System-audio panel** (`SystemAudio.tsx`, in `system_audio.dfy`).
  - The start guards and the transcription callback that appends text to
    the prompt.

Time is explicit. The coordinator and the host window carry a `clock`, and
`AdvanceTo` runs the timeouts and re-enables that are due. Browser and
platform services become parameters:

- `btoa` and `URLSearchParams` become fields of `Browser`.
- `fetch` becomes a function from request to outcome.
- `isFocused` becomes an `Option<bool>` answer.
- The start of a capture becomes a `StartOutcome`.
- The transcription service becomes a `Transcription` answer.

Two things the code does not do, and the model does not either:

- Stopping focus monitoring and unmounting do not cancel pending timeouts
  (src/hooks/useWindowBehavior.ts:148-151 and :175-181).
- A user interaction does not cancel a blur timeout that is already
  scheduled (src/hooks/useWindowBehavior.ts:113-117).

## Model

| member | source | states |
|---|---|---|
| WindowBehaviorSpec.DefaultConfig | src/hooks/useWindowBehavior.ts:15-22 | the option defaults: keep on top, respect system interactions, no auto-hide, 2000 ms check, no callbacks |
| WindowBehaviorSpec.InitialPresence | src/hooks/useWindowBehavior.ts:23-27 | the refs start unfocused, not interacting, no system interaction, last interaction = mount time |
| WindowBehaviorSpec.IssueUntilFailure | src/hooks/useWindowBehavior.ts:31-54 | awaited invocations stop at the first one that throws: the issued list is a prefix of the plan, and only its last entry may fail |
| WindowBehaviorSpec.Invocations | src/hooks/useWindowBehavior.ts:31-54 | one invoke effect per command, in order |
| WindowBehaviorSpec.InvocationsHas | src/hooks/useWindowBehavior.ts:31-54 | a command is invoked iff it is in the list |
| WindowBehaviorSpec.BringToFrontEffects | src/hooks/useWindowBehavior.ts:31-54 | bringToFront issues at most three invocations |
| WindowBehaviorSpec.PlannedBringToFront | src/hooks/useWindowBehavior.ts:36-50 | the plan re-pins iff on-top is maintained and no system interaction is flagged, and raises and focuses (in that order, last) iff the user is interacting; at most three commands |
| WindowBehaviorSpec.BringToFrontFollowsPlan | src/hooks/useWindowBehavior.ts:36-50 | the effects are the planned commands (on-top if enforcing, then front and focus if interacting), cut at the first failure |
| WindowBehaviorSpec.IssueFrontFocus | src/hooks/useWindowBehavior.ts:44-50 | raising then focusing issues the focus call only if raising did not throw |
| WindowBehaviorSpec.BringToFrontIssues | src/hooks/useWindowBehavior.ts:36-50 | on-top is set iff enforcing and no system interaction; front iff interacting and the on-top call did not throw; focus iff, in addition, front did not throw; nothing else is issued |
| WindowBehaviorSpec.MountAttemptDoesNotSteal | src/hooks/useWindowBehavior.ts:154-158 | the bringToFront at the first mount never brings to front or focuses, since no interaction is recorded yet (a re-run of the effect while the user is interacting does) |
| WindowBehaviorSpec.FocusTransition | src/hooks/useWindowBehavior.ts:61-73 | a focus change updates the flag; gaining focus marks interaction now and clears system interaction and calls onFocusGained; losing it clears interaction and calls onFocusLost; no change, no effect |
| WindowBehaviorSpec.CheckWindowFocus | src/hooks/useWindowBehavior.ts:56-91 | a failed query changes nothing; otherwise focus follows the query, the callbacks fire exactly on a change, interaction decays after 3000 ms, and on-top is re-asserted iff enforcing, no system interaction and within 5000 ms; the exclusivity invariant is kept |
| WindowBehaviorSpec.DecayAndEnforce | src/hooks/useWindowBehavior.ts:75-87 | interaction survives only within 3000 ms of the last one; at most one on-top invocation |
| WindowBehaviorSpec.IsSystemCombo | src/hooks/useWindowBehavior.ts:96-101 | Alt/Cmd+Tab, Ctrl+Alt+Delete and Cmd+Space, each exactly |
| WindowBehaviorSpec.HandleKeyDown | src/hooks/useWindowBehavior.ts:93-111 | a system shortcut (when respected) sets the system flag, clears interaction and, with auto-hide, disables on-top for 3000 ms; any other key changes nothing |
| WindowBehaviorSpec.HandleUserInteraction | src/hooks/useWindowBehavior.ts:113-117 | interaction at `now`, system flag cleared, focus untouched |
| WindowBehaviorSpec.HandleWindowBlur | src/hooks/useWindowBehavior.ts:119-126 | schedules the 500 ms interaction clear iff respecting system interactions and none is detected; state and effects unchanged |
| WindowBehaviorSpec.HandleVisibilityChange | src/hooks/useWindowBehavior.ts:128-137 | hiding sets the system flag and clears interaction at once; showing schedules the system-flag clear 1000 ms later |
| WindowBehaviorSpec.Fire | src/hooks/useWindowBehavior.ts:122-135 | each timeout callback clears exactly its own flag |
| WindowBehaviorSpec.FireAll | src/hooks/useWindowBehavior.ts:119-137 | after firing a batch, a flag is still set iff it was set and no callback clearing it ran |
| WindowBehaviorSpec.DueActions | src/hooks/useWindowBehavior.ts:122-135 | no more actions than timeouts |
| WindowBehaviorSpec.NotDue | src/hooks/useWindowBehavior.ts:122-135 | the pending and the fired timeouts partition the queue |
| WindowBehaviorSpec.DueActionsMembers | src/hooks/useWindowBehavior.ts:122-135 | an action fires by `now` iff some timeout carrying it is due by then |
| WindowBehaviorSpec.NotDueMembers | src/hooks/useWindowBehavior.ts:122-135 | a timeout stays pending iff it is due after `now` |
| WindowBehaviorSpec.TimeoutsSnoc | src/hooks/useWindowBehavior.ts:122-135 | one more timeout either fires after the earlier ones or joins the pending list |
| WindowBehaviorSpec.Matching | src/hooks/useWindowBehavior.ts:163-171 | no more handlers than registrations |
| WindowBehaviorSpec.MatchingMembers | src/hooks/useWindowBehavior.ts:163-171 | a handler runs for a target, event type and phase iff a registration names it with exactly those |
| WindowBehaviorSpec.MatchingPartition | src/hooks/useWindowBehavior.ts:164-171 | each registration serves at most one of the four target and phase combinations |
| WindowBehaviorSpec.HandlersFor | src/hooks/useWindowBehavior.ts:164-171 | an event runs no more handlers than there are registrations |
| WindowBehaviorSpec.HandlersForMembers | src/hooks/useWindowBehavior.ts:164-171 | the handlers run for an event are exactly those registered for its type, on the window or (except for the window's own blur) on the document |
| WindowBehaviorSpec.UnheardHasNoHandlers | src/hooks/useWindowBehavior.ts:164-171 | an event type nobody registered for runs no handler |
| WindowBehaviorSpec.Dispatch | src/hooks/useWindowBehavior.ts:164-171 | an event nobody listens for changes nothing; dispatch keeps the exclusivity invariant |
| WindowBehaviorSpec.RunHandler | src/hooks/useWindowBehavior.ts:93-137 | every handler keeps the exclusivity invariant (interaction and system interaction are never both set) |
| WindowBehaviorSpec.RunAll | src/hooks/useWindowBehavior.ts:163-171 | no handler, no change; the invariant holds through a run of handlers |
| WindowBehaviorSpec.RunAllSnoc | src/hooks/useWindowBehavior.ts:163-171 | handlers run in turn; schedules and effects concatenate |
| WindowBehaviorSpec.RunAllPrefix | src/hooks/useWindowBehavior.ts:163-171 | the same for a prefix of the handler list |
| WindowBehaviorSpec.MountListeners | src/hooks/useWindowBehavior.ts:163-171 | six registrations |
| WindowBehaviorSpec.NoDuplicatesCons | src/hooks/useWindowBehavior.ts:163-171 | duplicate-freedom of a list with a new head |
| WindowBehaviorSpec.AddListener | src/hooks/useWindowBehavior.ts:164-171 | adding an identical registration is a no-op; otherwise it is appended; no duplicates arise |
| WindowBehaviorSpec.RemoveListener | src/hooks/useWindowBehavior.ts:176-181 | removal takes out exactly the identical registration, if present, and nothing else |
| WindowBehaviorSpec.AddAll | src/hooks/useWindowBehavior.ts:164-171 | registering a batch keeps the list duplicate-free and adds at most the batch |
| WindowBehaviorSpec.AddAllMembers | src/hooks/useWindowBehavior.ts:164-171 | after registering, a listener is present iff it was before or is in the batch |
| WindowBehaviorSpec.AddAllMounted | src/hooks/useWindowBehavior.ts:164-171 | the mount registers the six listeners in source order |
| WindowBehaviorSpec.RemoveAll | src/hooks/useWindowBehavior.ts:175-181 | removal keeps the list duplicate-free and removes at most the batch |
| WindowBehaviorSpec.RemoveAllMembers | src/hooks/useWindowBehavior.ts:175-181 | after removal, a listener is present iff it was before and is not in the batch |
| WindowBehaviorSpec.RemoveAllMounted | src/hooks/useWindowBehavior.ts:176-181 | the cleanup removes the six listeners in source order |
| WindowBehaviorSpec.AddAllFresh | src/hooks/useWindowBehavior.ts:164-171 | registering new listeners appends them |
| WindowBehaviorSpec.RemoveListenerAfter | src/hooks/useWindowBehavior.ts:176-181 | removal only touches the part of the list that holds the listener |
| WindowBehaviorSpec.RemoveAllAfterAdd | src/hooks/useWindowBehavior.ts:164-181 | removing an appended batch gives back the original list |
| WindowBehaviorSpec.AddAllPresent | src/hooks/useWindowBehavior.ts:164-171 | registering listeners already present changes nothing |
| WindowBehaviorSpec.RemoveAllAbsent | src/hooks/useWindowBehavior.ts:176-181 | removing absent listeners changes nothing |
| WindowBehaviorSpec.MountListenersDistinct | src/hooks/useWindowBehavior.ts:164-171 | the six registrations are pairwise distinct (the two keydown ones differ in handler and phase) |
| WindowBehaviorSpec.MountThenCleanupRestores | src/hooks/useWindowBehavior.ts:154-182 | mount then cleanup leaves the registrations as they were |
| WindowBehaviorSpec.RemountAddsNothing | src/hooks/useWindowBehavior.ts:164-171 | a second mount without cleanup registers nothing new |
| WindowBehaviorSpec.CleanupTwiceIsCleanupOnce | src/hooks/useWindowBehavior.ts:175-181 | cleanup is idempotent |
| WindowBehaviorSpec.MountedKeyDown | src/hooks/useWindowBehavior.ts:164-170 | keydown reaches the shortcut handler in the capture phase and the interaction handler in the bubble phase |
| WindowBehaviorSpec.MountedPointer | src/hooks/useWindowBehavior.ts:169-171 | click and mousemove reach only the interaction handler |
| WindowBehaviorSpec.MountedVisibility | src/hooks/useWindowBehavior.ts:165 | visibilitychange reaches only the visibility handler |
| WindowBehaviorSpec.MountedBlur | src/hooks/useWindowBehavior.ts:166 | the window's blur reaches only the blur handler |
| WindowBehaviorSpec.MountedHandlers | src/hooks/useWindowBehavior.ts:164-171 | for each event, the handlers that run and their order |
| WindowBehaviorSpec.KeyPressNetEffect | src/hooks/useWindowBehavior.ts:93-117 | the net effect of a key press on the mounted listeners is a user interaction (plus the on-top disable for a system shortcut with auto-hide) |
| WindowBehaviorSpec.SystemComboForgotten | src/hooks/useWindowBehavior.ts:93-117 | as written: after a respected system shortcut the system flag is clear and interaction is set |
| WindowBehaviorSpec.RunHandlerGuarded | src/hooks/useWindowBehavior.ts:113-117 | corrected interaction handler: it ignores a key press that is a respected system shortcut and otherwise behaves as written |
| WindowBehaviorSpec.GuardedKeyPressKeepsDetection | src/hooks/useWindowBehavior.ts:93-117 | with the guard, a system shortcut leaves the system flag set and interaction clear; any other key still counts as interaction |
| WindowBehaviorSpec.RunTwo | src/hooks/useWindowBehavior.ts:163-171 | two handlers compose in order |
| WindowBehaviorSpec.FiringOrderIrrelevant | src/hooks/useWindowBehavior.ts:119-137 | the result of firing timeouts depends only on which callbacks ran, not their order |
| WindowBehaviorSpec.BlurClearSurvivesInteraction | src/hooks/useWindowBehavior.ts:113-126 | an interaction inside the 500 ms blur window is still overwritten when the timeout fires |
| WindowBehaviorSpec.VisibilityGraceSurvivesRehide | src/hooks/useWindowBehavior.ts:128-137 | hiding again within the 1000 ms grace is undone by the earlier timeout |
| WindowBehaviorSpec.VisibilityGraceHoldsUntilDue | src/hooks/useWindowBehavior.ts:128-137 | after hide then show, the system flag stays set exactly until 1000 ms after the show |
| WindowBehavior.EffectivePeriod | src/hooks/useWindowBehavior.ts:144 | the interval runs at the requested period when it is positive, and at the model's floor of 1 ms otherwise |
| WindowBehavior.FreshTimer | src/hooks/useWindowBehavior.ts:144 | a new interval with that period and first run in the future |
| WindowBehavior.Coordinator.constructor | src/hooks/useWindowBehavior.ts:15-27 | initial refs, nothing registered, nothing pending |
| WindowBehavior.Coordinator.BringToFront | src/hooks/useWindowBehavior.ts:31-54 | appends exactly BringToFrontEffects to the effect log; the invariant holds |
| WindowBehavior.Coordinator.CheckWindowFocus | src/hooks/useWindowBehavior.ts:56-91 | state and log follow CheckWindowFocus |
| WindowBehavior.Coordinator.NoteFocus | src/hooks/useWindowBehavior.ts:61-73 | state and log follow FocusTransition |
| WindowBehavior.Coordinator.DecayAndEnforce | src/hooks/useWindowBehavior.ts:75-87 | state and log follow DecayAndEnforce |
| WindowBehavior.Coordinator.IntervalFires | src/hooks/useWindowBehavior.ts:144 | an interval run performs the check and moves the next run one period on; nothing else changes |
| WindowBehavior.Coordinator.HandleKeyDown | src/hooks/useWindowBehavior.ts:93-111 | follows HandleKeyDown |
| WindowBehavior.Coordinator.HandleUserInteraction | src/hooks/useWindowBehavior.ts:113-117 | follows HandleUserInteraction |
| WindowBehavior.Coordinator.HandleWindowBlur | src/hooks/useWindowBehavior.ts:119-126 | queues the blur timeout when the handler schedules one |
| WindowBehavior.Coordinator.HandleVisibilityChange | src/hooks/useWindowBehavior.ts:128-137 | follows HandleVisibilityChange, queueing its timeout |
| WindowBehavior.Coordinator.RunHandler | src/hooks/useWindowBehavior.ts:93-137 | one handler's reaction applied to the fields |
| WindowBehavior.Coordinator.Dispatch | src/hooks/useWindowBehavior.ts:163-171 | an event runs the registered handlers in order; the result equals the Dispatch function |
| WindowBehavior.Coordinator.RunNext | src/hooks/useWindowBehavior.ts:163-171 | one more handler of the dispatch has run |
| WindowBehavior.Coordinator.StartFocusMonitoring | src/hooks/useWindowBehavior.ts:139-145 | any old interval is replaced by a fresh one |
| WindowBehavior.Coordinator.StopFocusMonitoring | src/hooks/useWindowBehavior.ts:147-152 | no interval afterwards |
| WindowBehavior.Coordinator.RegisterListeners | src/hooks/useWindowBehavior.ts:163-171 | registrations become AddAll of the six |
| WindowBehavior.Coordinator.UnregisterListeners | src/hooks/useWindowBehavior.ts:175-181 | registrations become RemoveAll of the six |
| WindowBehavior.Coordinator.Mount | src/hooks/useWindowBehavior.ts:154-172 | bring to front if keeping on top, start monitoring, register the six listeners |
| WindowBehavior.Coordinator.Cleanup | src/hooks/useWindowBehavior.ts:174-182 | stop monitoring and remove the six listeners; pending timeouts stay |
| WindowBehavior.Coordinator.AdvanceTo | src/hooks/useWindowBehavior.ts:119-137 | the due timeouts fire, the rest stay queued, the clock moves on; the invariant holds |
| WindowBehavior.ExpireTimeouts | src/hooks/useWindowBehavior.ts:119-137 | splits a timer queue into the fired callbacks' result and the still-pending timeouts |
| HostWindow.Outcome | src-tauri/src/lib.rs:39-43 | a platform call succeeds iff it is not faulted, and otherwise fails with its fault text |
| HostWindow.WithPrefix | src-tauri/src/lib.rs:39-43 | `map_err(format!(prefix...))`: success untouched, the error text prefixed |
| HostWindow.OuterOf | src-tauri/src/window.rs:44 | the physical outer size; at scale 1 it is the logical size |
| HostWindow.DueReenables | src-tauri/src/lib.rs:69-74 | counts the sleeping re-enables that have woken; none iff all are later |
| HostWindow.LaterReenables | src-tauri/src/lib.rs:69-74 | the re-enables still sleeping, all after `now` |
| HostWindow.ExpireReenables | src-tauri/src/lib.rs:69-74 | after time passes, the window is on top iff it was, or some re-enable woke and the call succeeded; nothing else changes |
| HostWindow.ReenablesSnoc | src-tauri/src/lib.rs:69-74 | one more re-enable either wakes or keeps sleeping |
| HostWindow.Window.constructor | src-tauri/src/lib.rs:23-94 | a window with the given name, state and faults |
| HostWindow.Window.SetSize | src-tauri/src/lib.rs:28 | the size changes iff the call succeeds |
| HostWindow.Window.SetAlwaysOnTop | src-tauri/src/lib.rs:41 | the flag changes iff the call succeeds |
| HostWindow.Window.SetFocus | src-tauri/src/lib.rs:47 | focused after a successful call |
| HostWindow.Window.Hide | src-tauri/src/lib.rs:83 | hidden after a successful call |
| HostWindow.Window.Show | src-tauri/src/lib.rs:87 | visible after a successful call |
| HostWindow.Window.IsVisible | src-tauri/src/lib.rs:81 | answers the visibility, or the fault |
| HostWindow.Window.PrimaryMonitor | src-tauri/src/window.rs:42 | answers the monitor (possibly none), or the fault |
| HostWindow.Window.OuterSize | src-tauri/src/window.rs:44 | answers the physical outer size, or the fault |
| HostWindow.Window.SetPosition | src-tauri/src/window.rs:50-53 | the position changes iff the call succeeds |
| HostWindow.Window.Emit | src-tauri/src/lib.rs:145 | the event is delivered iff the call succeeds |
| HostWindow.Window.ScheduleReenable | src-tauri/src/lib.rs:70-74 | a re-enable is due `delayMs` after now |
| HostWindow.Window.AdvanceTo | src-tauri/src/lib.rs:71-74 | the woken re-enables set always-on-top (errors ignored); the state equals ExpireReenables |
| HostWindow.SplitReenables | src-tauri/src/lib.rs:71-74 | splits the re-enables into the woken count and the sleeping list |
| Placement.Wrap32 | src-tauri/src/window.rs:47 | `as i32` on a `u32`: the two's-complement value in range, congruent mod 2^32, identity on values that fit |
| Placement.TruncHalf | src-tauri/src/window.rs:47 | Rust's `/ 2`, rounding toward zero |
| Placement.CenterOffset | src-tauri/src/window.rs:47 | the centring offset always lies within half the i32 range, and for sizes below 2^31 it is (monitor - window) / 2 rounded toward zero |
| Placement.CenterOffsetExact | src-tauri/src/window.rs:47 | without overflow the offset is (monitor - window) / 2 |
| Placement.CenterOffsetFits | src-tauri/src/window.rs:47 | a window narrower than the monitor lies on screen, with margins differing by at most 1 |
| Placement.CenterOffsetOverhangs | src-tauri/src/window.rs:47 | a wider window overhangs both edges, almost evenly |
| Placement.CenterOffsetAntisymmetric | src-tauri/src/window.rs:47 | swapping the widths negates the offset |
| Placement.TopCenterStep | src-tauri/src/window.rs:40-57 | with no monitor nothing moves; otherwise the window goes to the centred x at the given y; a failure leaves it in place; only the position may change |
| Placement.TopCenterIdempotent | src-tauri/src/window.rs:40-57 | positioning twice equals positioning once |
| Placement.TopCenterOnScreen | src-tauri/src/window.rs:40-57 | a window narrower than the monitor ends up fully on screen and centred |
| Placement.CenterCompletelyStep | src-tauri/src/window.rs:61-76 | the window is centred on both axes, or not moved |
| Placement.CenterCompletelySharesX | src-tauri/src/window.rs:40-76 | full centring and top-centring agree on x |
| Placement.PositionAtStep | src-tauri/src/window.rs:80-83 | the window moves to (x, y) iff the call succeeds |
| Placement.MaintainStep | src-tauri/src/window.rs:29-37 | on top then focused; the first failure stops the sequence |
| Placement.MaintainIdempotent | src-tauri/src/window.rs:29-37 | maintaining twice equals maintaining once |
| Placement.IndexOf | src-tauri/src/window.rs:9-10 | the first window with the name, if any |
| Placement.ChooseWindow | src-tauri/src/window.rs:9-15 | "main" first, then "pluely", then any window, and none only when there are no windows |
| Placement.SetupStep | src-tauri/src/window.rs:17-25 | top-centre at 54, then on top, then focus; the first failure is returned |
| Placement.Names | src-tauri/src/window.rs:9-13 | the labels of the windows |
| Placement.PositionTopCenter | src-tauri/src/window.rs:40-57 | the window's change and result equal TopCenterStep |
| Placement.CenterCompletely | src-tauri/src/window.rs:61-76 | equals CenterCompletelyStep |
| Placement.PositionAt | src-tauri/src/window.rs:80-83 | equals PositionAtStep |
| Placement.Maintain | src-tauri/src/window.rs:29-37 | equals MaintainStep |
| Placement.SetupMainWindow | src-tauri/src/window.rs:7-26 | "No window found" when there is no window; otherwise the chosen window is set up as SetupStep says for the faults it had before the call, which stay as they were |
| Commands.SetWindowHeightStep | src-tauri/src/lib.rs:22-37 | resize to 700 by height and re-centre at the top; a resize failure is prefixed "Failed to resize window: "; a repositioning failure is ignored |
| Commands.SetWindowHeightRecentres | src-tauri/src/lib.rs:28-33 | after a resize the window is top-centred at 54, and on screen when it fits |
| Commands.SetWindowHeightIgnoresPositionFailure | src-tauri/src/lib.rs:30-33 | the command succeeds with only the size changed when the monitor lookup, the size query or the repositioning fails |
| Commands.SetAlwaysOnTopStep | src-tauri/src/lib.rs:39-43 | sets the flag, or fails with "Failed to set always on top: " |
| Commands.BringToFrontStep | src-tauri/src/lib.rs:45-49 | focuses, or fails with "Failed to bring window to front: " |
| Commands.SetWindowFocusStep | src-tauri/src/lib.rs:51-61 | focusing may fail with "Failed to focus window: "; unfocusing is a successful no-op |
| Commands.BringToFrontIsFocus | src-tauri/src/lib.rs:45-61 | bring_to_front and set_window_focus(true) have the same effect and succeed together |
| Commands.TemporaryDisableStep | src-tauri/src/lib.rs:63-77 | drops always-on-top and schedules the re-enable, or fails with "Failed to disable always on top: " and schedules nothing |
| Commands.TemporaryDisableRestores | src-tauri/src/lib.rs:63-77 | once the duration has passed, the window is on top again |
| Commands.TemporaryDisableHolds | src-tauri/src/lib.rs:63-77 | before the duration has passed, the window stays off top |
| Commands.ToggleStep | src-tauri/src/lib.rs:79-94 | a success flips visibility; showing also focuses; each failure has its own prefix; only visibility and focus change |
| Commands.ToggleTwiceRestores | src-tauri/src/lib.rs:79-94 | two successful toggles restore visibility |
| Commands.ToggleShowsDespiteFocusFailure | src-tauri/src/lib.rs:86-91 | a hidden window is shown even when the focus call then fails |
| Commands.GlobalShortcut | src-tauri/src/lib.rs:136-141 | Cmd+Slash on macOS and Ctrl+Slash elsewhere |
| Commands.SetWindowHeight | src-tauri/src/lib.rs:22-37 | equals SetWindowHeightStep |
| Commands.SetAlwaysOnTop | src-tauri/src/lib.rs:39-43 | equals SetAlwaysOnTopStep |
| Commands.BringToFront | src-tauri/src/lib.rs:45-49 | equals BringToFrontStep |
| Commands.SetWindowFocus | src-tauri/src/lib.rs:51-61 | equals SetWindowFocusStep |
| Commands.TemporaryDisableAlwaysOnTop | src-tauri/src/lib.rs:63-77 | equals TemporaryDisableStep |
| Commands.ToggleWindowVisibility | src-tauri/src/lib.rs:79-94 | equals ToggleStep |
| Commands.OnGlobalShortcut | src-tauri/src/lib.rs:143-146 | the shortcut emits "global-shortcut-pressed" through the main window's handle (a Tauri emit reaches every listener, the handle only names the sender), ignoring a failure |
| WindowHooks.ResizeHeight | src/hooks/useWindow.ts:9 | 600 when expanded and 54 when collapsed |
| WindowHooks.DisableDuration | src/hooks/useWindow.ts:57 | the given duration, else 2000 ms |
| WindowHooks.ResizeWindow | src/hooks/useWindow.ts:6-18 | the window changes as set_window_height does; errors are swallowed |
| WindowHooks.SetAlwaysOnTop | src/hooks/useWindow.ts:24-34 | as set_always_on_top; errors swallowed |
| WindowHooks.BringToFront | src/hooks/useWindow.ts:36-43 | as bring_to_front; errors swallowed |
| WindowHooks.SetWindowFocus | src/hooks/useWindow.ts:45-55 | as set_window_focus; errors swallowed |
| WindowHooks.TemporaryDisableAlwaysOnTop | src/hooks/useWindow.ts:57-67 | as temporary_disable_always_on_top with the default duration; errors swallowed |
| WindowHooks.DefaultDisableSchedulesAt2000 | src/hooks/useWindow.ts:57-67 | without a duration the re-enable is due 2000 ms later |
| WindowHooks.FocusDispatch | src/hooks/useWindow.ts:81-90 | onFocusGained iff focused and supplied; onFocusLost iff unfocused and supplied |
| WindowHooks.Settle | src/hooks/useWindow.ts:95-106 | a settled registration is live and holds its unlisten iff it succeeded |
| WindowHooks.CleanUp | src/hooks/useWindow.ts:111-115 | the cleanup unregisters only if unlisten is already held |
| WindowHooks.SubscriptionConsistent | src/hooks/useWindow.ts:92-116 | a live handler always has its unlisten held, in every order of settle and cleanup |
| WindowHooks.Deliver | src/hooks/useWindow.ts:100-102 | a live subscription dispatches the event; a dead one does nothing |
| WindowHooks.CleanupAfterSettleStops | src/hooks/useWindow.ts:92-116 | a cleanup after the registration settled stops delivery |
| WindowHooks.CleanupBeforeSettleLeaks | src/hooks/useWindow.ts:92-116 | as written: a cleanup before the registration settles leaves a live handler that keeps calling the callbacks |
| WindowHooks.SettleChecked | src/hooks/useWindow.ts:95-106 | corrected settle: a registration finished after cleanup is dropped at once; otherwise as written |
| WindowHooks.CheckedSettleNeverLeaks | src/hooks/useWindow.ts:92-116 | with the checked settle, no order of settle and cleanup leaves a live handler |
| WindowHooks.FocusEffect.constructor | src/hooks/useWindow.ts:92-108 | the effect starts with the registration in flight |
| WindowHooks.FocusEffect.Settled | src/hooks/useWindow.ts:100-105 | equals Settle |
| WindowHooks.FocusEffect.SettledChecked | src/hooks/useWindow.ts:100-105 | equals SettleChecked |
| WindowHooks.FocusEffect.Cleanup | src/hooks/useWindow.ts:111-115 | equals CleanUp |
| SttProbe.ClassifyStatus | src/lib/functions/testSTTProvider.ts:47-69 | success iff 2xx or 405; 401 and 404 have their messages; any other status gets a message quoting it |
| Base.ContainsAt | src/lib/functions/testSTTProvider.ts:75-80 | `includes` holds iff the piece occurs at some position of the text |
| Base.ContainsInfix | src/lib/functions/testSTTProvider.ts:75-80 | a piece is found inside any text built around it |
| Base.Decimal | src/lib/functions/testSTTProvider.ts:67 | the status prints as a non-empty string of digits, a single digit exactly below 10 |
| Base.DecimalRoundTrip | src/lib/functions/testSTTProvider.ts:67 | the printed status reads back as the status |
| Base.DecimalInjective | src/lib/functions/testSTTProvider.ts:67 | different statuses print differently |
| SttProbe.OkStatus | src/lib/functions/testSTTProvider.ts:48 | `response.ok` holds exactly for the 2xx statuses |
| SttProbe.OtherStatusMessage | src/lib/functions/testSTTProvider.ts:67 | the message for any other status quotes its decimal number |
| SttProbe.OtherStatusMessagesDistinct | src/lib/functions/testSTTProvider.ts:64-68 | different statuses give different messages |
| SttProbe.ClassifyThrown | src/lib/functions/testSTTProvider.ts:70-96 | success iff an Error mentioning CORS; a network message for NetworkError or Failed to fetch; otherwise "Connection failed: " and the message; a non-Error is unknown |
| SttProbe.ConnectionFailedQuotesMessage | src/lib/functions/testSTTProvider.ts:85-90 | the fallback message contains the error text |
| SttProbe.QueryAuthOnlyInUrl | src/lib/functions/testSTTProvider.ts:26-37 | query authentication (type query with a parameter name) puts the key in the URL and adds no header; any other provider's URL is the bare endpoint |
| SttProbe.AuthHeader | src/lib/functions/testSTTProvider.ts:19-30 | Bearer, custom-named and no-header cases; only the two Basic schemes can throw |
| SttProbe.BasicCredentials | src/lib/functions/testSTTProvider.ts:22-25 | Basic encodes "key:" and basic-apikey encodes "apikey:key", and an encoding failure propagates |
| SttProbe.ProbeRequest | src/lib/functions/testSTTProvider.ts:11-45 | an OPTIONS request to base+endpoint, with the key as a query parameter for query auth; the headers are User-Agent, the provider's headers and the auth header |
| SttProbe.AuthHeaderWins | src/lib/functions/testSTTProvider.ts:14-30 | the auth header overrides a provider header of the same name |
| SttProbe.ProviderHeadersKept | src/lib/functions/testSTTProvider.ts:14-17 | provider headers override the user agent and otherwise pass through |
| SttProbe.Probe | src/lib/functions/testSTTProvider.ts:3-98 | the probe succeeds iff the response status is ok or 405, or what was thrown (by `btoa` or by `fetch`) is an Error whose message mentions CORS; otherwise the verdict is the classification of the status or of what was thrown |
| SttProbe.TestSttProvider | src/lib/functions/testSTTProvider.ts:3-98 | the steps give the verdict Probe defines |
| AudioCapture.DisplayLabel | src/hooks/useSystemAudioCapture.ts:27-30 | the device's label, or "Audio Input " and the first 8 characters of its id |
| AudioCapture.AudioInputs | src/hooks/useSystemAudioCapture.ts:25-31 | no more entries than devices |
| AudioCapture.AudioInputsAppend | src/hooks/useSystemAudioCapture.ts:25-31 | the filter and map distribute over concatenation |
| AudioCapture.AudioInputsMembers | src/hooks/useSystemAudioCapture.ts:25-31 | an entry is listed iff it comes from an audio input with its display label |
| AudioCapture.DeviceList | src/hooks/useSystemAudioCapture.ts:19-47 | the audio inputs, then "system-audio" last when display capture exists |
| AudioCapture.SourceFor | src/hooks/useSystemAudioCapture.ts:60-80 | display capture iff "system-audio" is selected; otherwise the microphone, exact when a device is chosen |
| AudioCapture.BlobSize | src/hooks/useSystemAudioCapture.ts:98 | a recording of no chunks is empty, and it is at least as large as each of its chunks |
| AudioCapture.BlobSizeZero | src/hooks/useSystemAudioCapture.ts:91-95 | kept chunks are non-empty, so a recording is empty iff no chunk was kept |
| AudioCapture.BlobSizeAppend | src/hooks/useSystemAudioCapture.ts:97-100 | the blob size adds up over chunks |
| AudioCapture.RefreshDevices | src/hooks/useSystemAudioCapture.ts:19-53 | success lists the devices and clears the error; failure sets the permission error |
| AudioCapture.Start | src/hooks/useSystemAudioCapture.ts:55-112 | a refused source or recorder sets the error and stops, leaving the recorder and callback fields as they were; otherwise recording with cleared chunks, the chosen source and the given callback |
| AudioCapture.DataAvailable | src/hooks/useSystemAudioCapture.ts:91-95 | a non-empty chunk is appended; nothing else changes |
| AudioCapture.NonEmptyChunks | src/hooks/useSystemAudioCapture.ts:91-95 | the kept chunks are all non-empty and no more than those delivered |
| AudioCapture.FeedAllChunks | src/hooks/useSystemAudioCapture.ts:91-95 | a run of `ondataavailable` calls appends exactly the chunks with data, in order, and changes nothing else |
| AudioCapture.CallbackReceivesRecording | src/hooks/useSystemAudioCapture.ts:55-103 | started with a callback, a recording hands it on stop exactly the chunks with data, the flushed last one included, in order, as one recording; without a callback nothing is handed over |
| AudioCapture.Stop | src/hooks/useSystemAudioCapture.ts:97-103 | a running recorder flushes the last chunk and hands the recording to the callback; everything stops; the devices and selection are kept |
| AudioCapture.StopIdempotent | src/hooks/useSystemAudioCapture.ts:114-126 | stopping twice equals stopping once |
| AudioCapture.DeliveredSize | src/hooks/useSystemAudioCapture.ts:91-103 | the delivered recording holds all the audio, and is empty iff nothing arrived |
| AudioCapture.CaptureHook.constructor | src/hooks/useSystemAudioCapture.ts:9-17 | initial hook state |
| AudioCapture.CaptureHook.SetSelectedDevice | src/hooks/useSystemAudioCapture.ts:12 | only the selection changes; the hook stays coherent |
| AudioCapture.CaptureHook.GetAudioDevices | src/hooks/useSystemAudioCapture.ts:19-53 | equals RefreshDevices; the hook stays coherent |
| AudioCapture.CaptureHook.StartCapture | src/hooks/useSystemAudioCapture.ts:55-112 | equals Start; the hook stays coherent (only non-empty chunks buffered, capturing only with a recorder and a stream) |
| AudioCapture.CaptureHook.OnDataAvailable | src/hooks/useSystemAudioCapture.ts:91-95 | equals DataAvailable; the hook stays coherent |
| AudioCapture.CaptureHook.StopCapture | src/hooks/useSystemAudioCapture.ts:114-126 | equals Stop; the hook stays coherent |
| SystemAudio.StartGuard | src/components/completion/SystemAudio.tsx:34-49 | no source is reported first, then a missing provider or key; capture may start iff all are set |
| SystemAudio.FindProvider | src/components/completion/SystemAudio.tsx:58-60 | a found configuration is listed and has the id; none iff no configuration has it |
| SystemAudio.FindProviderFirst | src/components/completion/SystemAudio.tsx:58-60 | the configuration found is the one at the least index whose id matches |
| SystemAudio.AppendTranscript | src/components/completion/SystemAudio.tsx:75-80 | the input is kept as a prefix and the text ends the result, separated by one space when both are non-empty; empty text changes nothing |
| SystemAudio.AppendTwo | src/components/completion/SystemAudio.tsx:75-80 | two transcripts into an empty prompt read "a b" |
| SystemAudio.OnRecording | src/components/completion/SystemAudio.tsx:51-91 | empty recordings are ignored; a missing configuration or a failed transcription sets its error; a transcript is appended; the busy flag ends false on every path |
| SystemAudio.SilentCaptureTranscribesNothing | src/components/completion/SystemAudio.tsx:51-53 | a capture stopped before any audio arrived leaves the panel unchanged |
| SystemAudio.Panel.constructor | src/components/completion/SystemAudio.tsx:28 | not transcribing, no error |
| SystemAudio.Panel.HandleStartCapture | src/components/completion/SystemAudio.tsx:34-91 | a failed guard sets its error and leaves capture untouched; otherwise capture starts with the callback |
| SystemAudio.Panel.HandleStopCapture | src/components/completion/SystemAudio.tsx:94-96 | stops the capture as Stop says |
| SystemAudio.Panel.OnAudioData | src/components/completion/SystemAudio.tsx:51-91 | equals OnRecording |

## Left out

- `capture_to_base64`, `greet`, `get_app_version` and the Tauri builder
  plumbing in `lib.rs`. These are a screen grab, a greeting, a version
  string and plugin registration, with no window logic.
- `expect` panics during setup (`lib.rs:134`, `lib.rs:143-146`). The model
  returns the setup error instead of aborting.
- Logical and physical sizes are integers. The scale factor is a whole
  number, and window decorations are not part of the outer size.
- Header names are compared case-sensitively. `Headers` in a browser folds
  case.
- `btoa` and `URLSearchParams` are parameters (`Browser`), and so is
  `fetch`. The encodings themselves are not modelled.
- The panel's JSX rendering and `console.error` logging.
- `useGlobalShortcut.ts` is not part of this model. The Rust side of the
  shortcut is.
- Async interleavings beyond the ones modelled are not covered. Examples
  are an `onstop` arriving after a new capture has started, and two focus
  checks overlapping.
- `Date.now()` is read twice in a focus check. The model reads the clock
  once per step.
- The fetchSTT request itself is not modelled; its answer is an input.
- The coordinator's effect log records commands and callbacks. It does not
  record what the callbacks then do.
- WindowBehavior.EffectivePeriod: browsers clamp a non-positive delay to 0
  and nested intervals to at least 4 ms. The model uses its own floor of
  1 ms so that every run is strictly after the previous one.
- WindowBehavior.Coordinator.Dispatch: the registrations are not checked
  for duplicates in `Valid`. Duplicate-freedom is proved separately by the
  listener lemmas.
- The corrected members in "## Findings" stand beside the as-written ones.
  The coordinator and the focus effect still run the code as written.

## Findings

| source | as written | input that shows it | evidently intended | confidence | as-written member | corrected member |
|---|---|---|---|---|---|---|
| src/hooks/useWindow.ts:92-116 | the cleanup unregisters only if `unlisten` was already assigned | unmount while `onFocusChanged` is still pending, then the registration succeeds | the handler is removed whichever finishes first | medium, not executed | WindowHooks.CleanupBeforeSettleLeaks | WindowHooks.CheckedSettleNeverLeaks |
| src/hooks/useWindowBehavior.ts:93-117 | the bubble-phase keydown interaction listener clears the system flag set by the capture-phase shortcut listener | Alt+Tab keydown with respectSystemInteractions on | a detected system shortcut stays detected | medium, not executed | WindowBehaviorSpec.SystemComboForgotten | WindowBehaviorSpec.GuardedKeyPressKeepsDetection |
