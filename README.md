# Chat simulator timeline, modelled in Dafny

The landing page's chat simulator plays a scripted conversation between a
customer and a business. There is one conversation per messaging-platform
skin: WhatsApp, Instagram and TikTok. A tab selector picks the skin.

Each message in a script has a delay, counted from the start of the session:
- A business ("bot") message first shows a typing indicator 400 ms early.
  At its own delay the indicator hides and the message appears.
- Customer and system messages simply appear at their delay.
- One bot message per script carries a payment flag. When it appears, an
  M-Pesa payment overlay opens with that platform's amount and payee. The
  overlay then enters a four-digit PIN at 300 ms intervals and presses OK
  200 ms after the last digit. The scheduler also arms a backstop close
  3000 ms after the overlay opens.

Switching tabs cancels every pending timeout and restarts the new script from
an empty transcript. Clicking the tab already shown does nothing.

The project has five modules:

- `Scenarios` (`scenarios.dfy`) holds the message and scenario types, the
  three authored scripts and the scenario table. It also holds the
  `find` lookup, the per-platform payment details and the authoring rules the
  scripts obey.
- `Timeline` (`timeline.dfy`) holds the actions a timeout carries and the
  timeouts the scheduler creates for a script. It models the browser's
  pending-timer table as a map from handle to due time and action, and the
  single event loop that always runs the earliest timeout, breaking ties by
  creation order. It also holds the session invariant over that table.
- `Machine` (`machine.dfy`) is the whole widget as a value, a `World`. Its
  transitions are running the next timeout (`Run`), time passing with no
  timeout due (`Wait`), a tab click (`Select`) and unmounting (`Unmount`).
  A click or an unmount can land at any moment between two timeouts: `Wait`
  to that moment first. `Inv` is the invariant every transition keeps,
  and the lemmas state what the source promises about each step.
  The behaviour of each `Simulator` method in the table below is defined by
  the `Machine` function of the same name: `CloseOverlay`, `MountOverlay`,
  `ArmSession`, `StartSession`, `Cleanup`, `Select` (also for `SwitchTab`),
  `Unmount`, `Wait`, `OpenPayment`, `ArmForceClose` and `Perform`. `RunTimeout` is
  defined by `Run`, which is `Advance` followed by `Perform`. The method's
  `ensures` is `State() == Machine.F(old(State()))`, so each of these
  functions has no row of its own: the method's row states what it does.
- `Simulator` (`simulator.dfy`) holds the class `ChatSimulator`. Its fields
  are the components' state, the effects' `timeouts` and `pinTimeouts`
  arrays, and the timer table. Its methods are the effect body, the effect
  cleanup, the timeout callbacks, the overlay's mount effect and the event
  loop (`Fire`). The methods that play a step of a transition (the
  constructor, `CloseOverlay`, `MountOverlay`, `RunEffect`, `StartSession`,
  `ClearTranscript`, `ArmSession`, `Cleanup`, `Select`, `SwitchTab`,
  `Unmount`, `OpenPayment`, `ArmForceClose`, `ShowOverlay`, `Fire`,
  `RunTimeout`, `Perform`) are proved to leave `State()` exactly where the
  matching `Machine` function does. The timer primitives (`SetTimeout`,
  `ClearAll`) and the arming loops (`ArmPinSteps`, `ArmPin`, `ArmSchedule`,
  `ArmNext`, `ArmMessage`) are stated field by field: which timers enter the
  table, under which handles, and what is pushed onto the handle arrays.
- `Presentation` (`presentation.dfy`) holds the bubble shape a message gets
  from its sender and kind, and the masked PIN field.

Time is integer milliseconds. `setTimeout` is "arm a timer at `now + max(delay, 0)`
with the next handle". `clearTimeout` removes the handle from the table.

## Model

| member | source | states |
|---|---|---|
| Scenarios.Find | components/ChatSimulator.tsx:590 | `find` returns the first scenario of the table with the requested id, and returns nothing exactly when no entry has that id |
| Scenarios.TableCoversEachPlatformOnce | components/ChatSimulator.tsx:65-212 | every platform has a scenario in the table, and no two entries share an id, so the non-null assertion on `find` holds |
| Scenarios.ScenarioFor | components/ChatSimulator.tsx:590 | the current scenario is an entry of the table whose id is the active tab |
| Scenarios.MpesaFor | components/ChatSimulator.tsx:616-628 | the amount and payee are looked up by the tab alone, from a fixed three-way table, and are never the blank details the component starts with |
| Scenarios.PayeeIsBusinessName | components/ChatSimulator.tsx:622-627 | the payee hard-coded for the overlay is the scenario's business name in upper case, for every platform |
| Scenarios.ScenarioPlaysScript | components/ChatSimulator.tsx:65-212 | the table's entry for each platform plays that platform's authored script |
| Scenarios.AuthoredIdsUnique | components/ChatSimulator.tsx:65-212 | message ids are unique within each script |
| Scenarios.AuthoredDelaysNonDecreasing | components/ChatSimulator.tsx:65-212 | delays never decrease along each script |
| Scenarios.AuthoredDelaysNonNegative | components/ChatSimulator.tsx:65-212 | no delay is negative |
| Scenarios.AuthoredBotLeadFits | components/ChatSimulator.tsx:65-212 | every bot delay is at least the 400 ms typing lead |
| Scenarios.AuthoredTypingWindowsClear | components/ChatSimulator.tsx:65-212 | every earlier message is due before a bot message's typing indicator goes on |
| Scenarios.AuthoredOverlayGapRespected | components/ChatSimulator.tsx:99-106 | the message after a payment trigger comes at least 3000 ms later |
| Scenarios.AuthoredScenariosWellFormed | components/ChatSimulator.tsx:65-212 | every scenario the tab selector can reach obeys all six authoring rules |
| Scenarios.AuthoredIdsPrefixed | components/ChatSimulator.tsx:65-212 | each script's ids start with the platform's letter |
| Scenarios.ScenariosShareNoMessage | components/ChatSimulator.tsx:65-212 | no message of one scenario belongs to another |
| Timeline.MessageTimers | components/ChatSimulator.tsx:600-645 | a bot message gets two timeouts: typing on at `delay - 400` (clamped at 0), then the reveal at `delay`; any other message gets one reveal at `delay`; only a bot message's timeouts touch the typing flag |
| Timeline.Schedule | components/ChatSimulator.tsx:598-646 | the effect creates exactly `Span` timeouts, none due before the session start and all of them scripted |
| Timeline.ScheduleRevealsScript | components/ChatSimulator.tsx:600-646 | the reveals the schedule carries, in creation order, are exactly the script, each message once |
| Timeline.ScheduleIndex | components/ChatSimulator.tsx:600-646 | every scheduled timeout belongs to a message, at that message's position in the schedule |
| Timeline.ScheduleOwnerUnique | components/ChatSimulator.tsx:600-646 | no two messages' timeouts share a position in the schedule, so each timeout belongs to exactly one message |
| Timeline.Handles | components/ChatSimulator.tsx:598-644 | the handle array holds consecutive handles in creation order |
| Timeline.NextExists | components/ChatSimulator.tsx:604-643 | while any timeout is pending, the event loop has one to run next |
| Timeline.NextUnique | components/ChatSimulator.tsx:604-643 | the timeout the event loop runs next is unique |
| Timeline.OverlayTimers | components/ChatSimulator.tsx:226-238 | the overlay arms digit `i` at `i * 300` ms for i = 1..4 and OK at 1400 ms, after every digit |
| Timeline.NextScriptedIsMessageK | components/ChatSimulator.tsx:600-646 | when the next timeout is a scripted one, it belongs to the first message not yet shown |
| Timeline.FireTypingOn | components/ChatSimulator.tsx:601-607 | a typing timeout belongs to the next message, which is a bot message, and running it keeps the session invariant |
| Timeline.FireReveal | components/ChatSimulator.tsx:610-643 | a reveal is the next script message, due at its own delay, and afterwards one more message counts as revealed |
| Timeline.SettledRevealCount | components/ChatSimulator.tsx:600-646 | once nothing is due, the number revealed equals the number of messages whose delay has elapsed |
| Machine.InitialOk | components/ChatSimulator.tsx:581-598 | the widget starts on WhatsApp at time 0 with an empty transcript, no overlay, empty details and the whole WhatsApp schedule pending, and the invariant holds |
| Machine.StartSessionOk | components/ChatSimulator.tsx:592-646 | the effect, run on an empty table, plays the active tab's scenario and establishes the invariant |
| Machine.CleanupClearsAll | components/ChatSimulator.tsx:648-650 | the effect cleanup, together with the overlay's own cleanup, leaves no timeout pending and no overlay shown |
| Machine.SelectRestarts | components/ChatSimulator.tsx:592-651 | switching tabs restarts at the current clock time with an empty transcript, typing off and no overlay; only the new script's timeouts are pending; no old timeout (the 3000 ms close included) is left; the invariant holds |
| Machine.WaitKeepsInv | components/ChatSimulator.tsx:598-646 | letting time pass up to the earliest pending timeout keeps the invariant |
| Machine.ClickBetweenTimeouts | components/ChatSimulator.tsx:592-660 | a click on another tab at any moment `t` between timeouts restarts playback from `t`: the new tab's script is armed at `t`, the transcript is empty, no overlay is shown, and no old timeout survives |
| Machine.SelectSameTab | components/ChatSimulator.tsx:660 | clicking the tab already shown changes nothing |
| Machine.UnmountClearsAll | components/ChatSimulator.tsx:648-650 | unmounting leaves no timeout pending and no overlay shown |
| Machine.RunKeepsInvariant | components/ChatSimulator.tsx:592-651 | whichever timeout the event loop runs next, the invariant holds afterwards |
| Machine.RevealIsNext | components/ChatSimulator.tsx:610-643 | the reveal run next carries the next script message and is due at that message's own delay |
| Machine.RunAppends | components/ChatSimulator.tsx:612-642 | only a reveal changes the transcript, each reveal appends exactly the next script message at its delay, and the clock never goes back; so the transcript is append-only and always a prefix of the script |
| Machine.RunTyping | components/ChatSimulator.tsx:601-645 | typing goes on only ahead of a bot message and goes off at its reveal; a user or system message is revealed with typing off and leaves it off; overlay timeouts never touch it |
| Machine.RunTypingOn | components/ChatSimulator.tsx:604-606 | a typing timeout belongs to the next message, which is a bot message; it runs 400 ms (clamped at 0) before that message's delay after the session start, and keeps the invariant |
| Machine.TypingOnDue | components/ChatSimulator.tsx:604-606 | the typing timeout of the next bot message is due 400 ms before its delay, clamped at 0, after the session start |
| Machine.ScriptWaitsForOverlay | components/ChatSimulator.tsx:99-106 | no scripted timeout runs while the overlay is open |
| Machine.ScriptAfterConfirm | components/ChatSimulator.tsx:235-238 | while the overlay is open, every pending scripted timeout is due after its 1400 ms OK |
| Machine.PaymentOpens | components/ChatSimulator.tsx:615-636 | a flagged bot reveal is the next script message, runs while the overlay is closed, and then opens the payment for the active tab |
| Machine.OpenPaymentArms | components/ChatSimulator.tsx:616-635 | opening the payment shows the overlay with the tab's details from the fixed table and a PIN counter at 0; it arms the four PIN steps and OK, plus a close at +3000 whose handle joins `timeouts` |
| Machine.PinCounter | components/ChatSimulator.tsx:222-233 | the PIN counter stays within 0..4, is 0 when the overlay mounts, and never goes down while the overlay stays open |
| Machine.RunSetPin | components/ChatSimulator.tsx:228-230 | a PIN step keeps the invariant and never lowers the counter |
| Machine.RunClose | components/ChatSimulator.tsx:632-634 | the OK and the forced close both keep the invariant |
| Machine.ConfirmBeforeForcedClose | components/ChatSimulator.tsx:235-238 | while the overlay is open, its 3000 ms close never runs next: the OK at 1400 ms always comes first |
| Machine.LateCloseIsNoOp | components/ChatSimulator.tsx:632-634 | a close that finds the overlay already closed only removes its own timeout, so closing is idempotent |
| Machine.SettledShowsDue | components/ChatSimulator.tsx:600-646 | once nothing is due, the transcript is the script's prefix of the messages whose delay has elapsed: message `j` is shown exactly when its delay has passed since the session start |
| Presentation.BubbleFor | components/ChatSimulator.tsx:381-476 | a system message becomes a notice, and only a notice is centred; any other image message becomes the product card; everything else becomes a text bubble; notice and bubble show the message's content |
| Presentation.TextBubbleShape | components/ChatSimulator.tsx:431-476 | a text bubble is right-aligned exactly for the customer, shows the avatar exactly for the business, has the squared corner on the speaker's side except on Instagram, is a pill exactly for Instagram customer messages, and shows blue ticks exactly for WhatsApp customer messages |
| Presentation.AvatarOnlyForBusiness | components/ChatSimulator.tsx:449-458 | in every authored script, a bubble shows the business avatar exactly when the business sent it |
| Presentation.ProductCardMatchesPayment | components/ChatSimulator.tsx:422-427 | the product card appears only in the Instagram script, and its badge equals the amount the Instagram overlay asks for |
| Presentation.AmountIsQuotedPrice | components/ChatSimulator.tsx:616-621 | on every tab the amount the overlay asks for was shown by the business no later than the message that opens the overlay: in a message on WhatsApp and TikTok, on the product card on Instagram |
| Presentation.Mask | components/ChatSimulator.tsx:278 | the PIN field shows exactly `pinDigits` asterisks |
| Presentation.MaskGrows | components/ChatSimulator.tsx:278 | a mask for fewer digits is a prefix of a mask for more, so the field only gains asterisks as the counter rises |
| Simulator.ChatSimulator.constructor | components/ChatSimulator.tsx:581-598 | the component mounts and its effect runs: the state is `Machine.Initial()`, valid and playing the WhatsApp script |
| Simulator.ChatSimulator.SetTimeout | components/ChatSimulator.tsx:604-606 | a timeout is armed at `now + max(delay, 0)` under a fresh handle |
| Simulator.ChatSimulator.ClearAll | components/ChatSimulator.tsx:649 | `forEach(clearTimeout)` removes exactly the listed handles from the table |
| Simulator.ChatSimulator.CloseOverlay | components/ChatSimulator.tsx:239-241 | hiding the overlay unmounts it, and its cleanup cancels all of its timeouts; hiding it when it is already hidden changes nothing |
| Simulator.ChatSimulator.MountOverlay | components/ChatSimulator.tsx:222-243 | the overlay's effect arms the four PIN steps and OK and records their five handles |
| Simulator.ChatSimulator.ArmPinSteps | components/ChatSimulator.tsx:227-233 | the PIN loop arms digits 1..4 with consecutive handles and pushes each handle |
| Simulator.ChatSimulator.ArmPin | components/ChatSimulator.tsx:228-232 | one pass of the PIN loop arms digit `i` at `i * 300` and pushes its handle |
| Simulator.ChatSimulator.ArmSchedule | components/ChatSimulator.tsx:598-646 | the scheduling loop arms exactly `Schedule(script)` with consecutive handles and pushes them all, in order, into a fresh `timeouts` |
| Simulator.ChatSimulator.ArmNext | components/ChatSimulator.tsx:600-646 | one pass of the scheduling loop extends the table, the handles and the array by message `i`'s timeouts |
| Simulator.ChatSimulator.ArmMessage | components/ChatSimulator.tsx:601-645 | a bot message arms two timeouts and pushes two handles; any other message arms and pushes one |
| Simulator.ChatSimulator.RunEffect | components/ChatSimulator.tsx:592-646 | the effect body clears the transcript, typing and the overlay, then arms the script |
| Simulator.ChatSimulator.StartSession | components/ChatSimulator.tsx:590-646 | the effect runs for the active tab's scenario |
| Simulator.ChatSimulator.ClearTranscript | components/ChatSimulator.tsx:594-596 | the three resets at the top of the effect |
| Simulator.ChatSimulator.ArmSession | components/ChatSimulator.tsx:598-646 | the script is armed from the current time and the next handle on |
| Simulator.ChatSimulator.Cleanup | components/ChatSimulator.tsx:648-650 | the effect cleanup cancels every handle in `timeouts`, and the overlay unmounts |
| Simulator.ChatSimulator.Select | components/ChatSimulator.tsx:660 | clicking the shown tab leaves the object unchanged; clicking another tab restarts playback for it; the invariant is kept |
| Simulator.ChatSimulator.SwitchTab | components/ChatSimulator.tsx:648-651 | cleanup, then the new active tab, then the effect for its scenario |
| Simulator.ChatSimulator.Wait | components/ChatSimulator.tsx:598-660 | time passes to `t` with no timeout running; only the clock changes, as `Machine.Wait` says, and the invariant is kept |
| Simulator.ChatSimulator.Unmount | components/ChatSimulator.tsx:648-650 | after unmounting nothing is pending and no overlay is shown |
| Simulator.ChatSimulator.OpenPayment | components/ChatSimulator.tsx:615-636 | the rest of a flagged reveal: the details are set, the overlay is shown (mounting it if it was hidden), and the 3000 ms close is armed and pushed |
| Simulator.ChatSimulator.ArmForceClose | components/ChatSimulator.tsx:628-635 | the details come from the fixed table for the tab, and the close is armed at +3000 and pushed into `timeouts` |
| Simulator.ChatSimulator.ShowOverlay | components/ChatSimulator.tsx:709-713 | showing the hidden overlay mounts it |
| Simulator.ChatSimulator.Fire | components/ChatSimulator.tsx:604-643 | the event loop runs the earliest pending timeout (ties by creation order) exactly when one is pending and keeps the invariant; with nothing pending it changes nothing |
| Simulator.ChatSimulator.RunTimeout | components/ChatSimulator.tsx:604-643 | the run timeout leaves the table, the clock moves to its due time, and its callback runs |
| Simulator.ChatSimulator.Perform | components/ChatSimulator.tsx:604-645 | each callback does what its closure says: typing on; reveal; typing off, reveal and maybe open the payment; close; set the PIN counter |

## Left out

- Rendering is not modelled: markup, Tailwind classes, framer-motion
  animations, `next/image`, the typing-indicator dots, the input bars, the
  phone frame and the tab buttons' styling. `Presentation` keeps only the
  bubble decisions and the PIN mask.
- The exit animation of `AnimatePresence` is not modelled. The overlay
  counts as unmounted, with its timeouts cancelled, as soon as it is hidden.
- The overlay's effect depends on an inline `onClose`, so any re-render of
  the parent while the overlay is shown restarts its timers. The model arms
  the overlay's timers once, when it opens. No scripted timeout re-renders
  the parent while the overlay is open: `Machine.ScriptWaitsForOverlay`
  shows that none runs in that window. A tab click does re-render it. In
  the source, that render restarts the overlay's four PIN timeouts and its
  OK timeout just before the switch's effect hides the overlay. The model
  makes the switch one atomic step and leaves out the exit animation. So it
  closes the overlay and cancels its timers at once, without the restart.
- React Strict Mode's double effects are not modelled. React's batching is
  not modelled either: a callback's state updates take effect together,
  and a tab switch's cleanup plus effect is one atomic step.
- `setTimeout`'s own limits are not modelled: the 32-bit overflow of very
  long delays and the browser's minimum delay for nested timers. The model
  keeps only the clamp of negative delays to 0.
- Wall-clock time, the browser's task queue and other pages' timers are
  reduced to the single timer table and the rule "earliest first, ties by
  creation order". The clock moves only when a timeout runs or when `Wait`
  moves it, and `Wait` never passes a pending timeout.
- `mpesaDetails` is never reset by the source, so the model keeps it across
  tab switches. This matches the code.
- `pinDigits` is state of the overlay component, so the source discards it
  when the overlay unmounts and starts again at 0 on the next mount. The
  model keeps one `pinDigits` field in the `World` and sets it to 0 when the
  overlay mounts. While the overlay is hidden the field keeps its last value,
  but nothing reads it then. That leftover value belongs to the model, not
  to the source.
- A user or system message carrying the payment flag would not open the
  overlay, because the code checks the flag only in the bot branch. The
  model follows the code. No authored message is like that.
- Machine.ConfirmBeforeForcedClose: it covers the close armed for the overlay
  that is currently open. A close left over from an earlier overlay in the
  same session finds it closed, which `Machine.LateCloseIsNoOp` covers.
- Presentation.BubbleFor: the colour classes are reduced to one `Tone` per
  sender and platform, and the avatar and product image URLs are not part of
  the bubble.
- The other files of the repository are not part of this model: the pages,
  the layout, the floating WhatsApp button with its floating-point scroll
  threshold, the favicon script and the Next.js configuration.
