/**
 * The chat simulator widget as the object the browser and React keep up to
 * date: `ChatSimulator`'s and `MpesaOverlay`'s state and the effects'
 * handle arrays as fields, the browser's timer table as a map from handle
 * to pending timeout, and the event loop as `Fire`, which runs the earliest
 * due timeout (ties by creation order). The methods are proved against the
 * state machine in `Machine`: `State()` is the object's value as a `World`,
 * and each method that plays a step of a transition leaves it where that
 * step says. The timer primitives and the arming loops are stated field by
 * field against the timer table and the handles they create.
 * `Machine.Inv` is the object invariant.
 */
module Simulator {
  import opened Scenarios
  import opened Timeline
  import Machine

  class ChatSimulator {
    // The event loop.
    var now: int
    var nextHandle: nat
    var pending: map<nat, Timer>

    // ChatSimulator's state and its effect's `timeouts` array.
    var activeTab: Platform
    var displayed: seq<Message>
    var typing: bool
    var modal: bool
    var details: MpesaDetails
    var timeouts: seq<nat>

    // MpesaOverlay's state and its effect's `pinTimeouts` array.
    var pinDigits: nat
    var pinTimeouts: seq<nat>

    // Bookkeeping for the proofs.
    ghost var script: seq<Message>
    ghost var sessionStart: int
    ghost var sessionBase: nat
    ghost var overlayStart: int
    ghost var overlayFor: nat
    ghost var closeHandle: nat
    ghost var confirmHandle: nat

    ghost function State(): Machine.World
      reads this
    {
      Machine.World(now, nextHandle, pending, activeTab, displayed, typing, modal, details, timeouts,
                    pinDigits, pinTimeouts, script, sessionStart, sessionBase, overlayStart, overlayFor,
                    closeHandle, confirmHandle)
    }

    /** The object invariant. */
    ghost predicate Valid()
      reads this
    {
      Machine.Inv(State())
    }

    /** The armed script is the one the active tab's scenario plays. */
    ghost predicate PlaysActiveTab()
      reads this
    {
      Machine.Plays(State())
    }

    /** The component mounts on the WhatsApp tab at time 0 and its effect runs. */
    constructor ()
      ensures State() == Machine.Initial()
      ensures Valid() && PlaysActiveTab()
    {
      now, nextHandle, pending := 0, 0, map[];
      activeTab, displayed, typing, modal := WhatsApp, [], false, false;
      details, timeouts := MpesaDetails("", ""), [];
      pinDigits, pinTimeouts := 0, [];
      script, sessionStart, sessionBase := [], 0, 0;
      overlayStart, overlayFor, closeHandle, confirmHandle := 0, 0, 0, 0;
      new;
      assert State() == Machine.Blank();
      StartSession();
      Machine.InitialOk();
    }

    /** `setTimeout(action, delay)`: arm a timeout and return its handle. */
    method SetTimeout(action: Action, delay: int) returns (handle: nat)
      modifies this`pending, this`nextHandle
      ensures handle == old(nextHandle) && nextHandle == handle + 1
      ensures pending == old(pending)[handle := Timer(now + Clamp(delay), action)]
    {
      handle := nextHandle;
      pending := pending[handle := Timer(now + Clamp(delay), action)];
      nextHandle := nextHandle + 1;
    }

    /** `handles.forEach(clearTimeout)`. */
    method ClearAll(handles: seq<nat>)
      modifies this`pending
      ensures pending == old(pending) - HandleSet(handles)
    {
      var i := 0;
      while i < |handles|
        invariant 0 <= i <= |handles|
        invariant pending == old(pending) - HandleSet(handles[..i])
      {
        assert HandleSet(handles[..i + 1]) == HandleSet(handles[..i]) + {handles[i]} by {
          assert forall x :: 0 <= x < i ==> handles[..i + 1][x] == handles[..i][x];
        }
        pending := pending - {handles[i]};
        i := i + 1;
      }
      assert handles[..i] == handles;
    }

    /**
     * `setShowMpesaModal(false)`. When the overlay was shown it unmounts and
     * its effect's cleanup cancels the PIN and OK timeouts; when it was not,
     * nothing changes.
     */
    method CloseOverlay()
      modifies this`modal, this`pending, this`pinTimeouts
      ensures State() == Machine.CloseOverlay(old(State()))
    {
      if modal {
        modal := false;
        ClearAll(pinTimeouts);
        pinTimeouts := [];
      }
    }

    /**
     * `MpesaOverlay`'s effect when it mounts: the PIN counter starts at 0,
     * digit `i` is entered at `i * 300` ms for i = 1..4, and OK is pressed
     * at `4 * 300 + 200` ms; the five handles make up `pinTimeouts`.
     */
    method MountOverlay()
      modifies this`pending, this`nextHandle, this`pinDigits, this`pinTimeouts
      modifies this`overlayStart, this`confirmHandle
      ensures State() == Machine.MountOverlay(old(State()))
    {
      ArmPinSteps();
      var ok := SetTimeout(AutoConfirm, PinLength * PinInterval + ConfirmBuffer);
      ArmSnoc(old(pending), old(nextHandle), PinTimers(now, PinLength),
              Timer(now + PinLength * PinInterval + ConfirmBuffer, AutoConfirm));
      pinTimeouts := pinTimeouts + [ok];
      assert pinTimeouts == Handles(old(nextHandle), PinLength + 1);
      pinDigits := 0;
      overlayStart := now;
      confirmHandle := ok;
    }

    /** The loop of `MpesaOverlay`'s effect: one timeout per PIN digit. */
    method ArmPinSteps()
      modifies this`pending, this`nextHandle, this`pinTimeouts
      ensures nextHandle == old(nextHandle) + PinLength
      ensures pinTimeouts == Handles(old(nextHandle), PinLength)
      ensures pending == Arm(old(pending), old(nextHandle), PinTimers(now, PinLength))
    {
      ghost var q, base, start := pending, nextHandle, now;
      pinTimeouts := [];
      var i := 1;
      while i <= PinLength
        invariant 1 <= i <= PinLength + 1
        invariant nextHandle == base + (i - 1)
        invariant pinTimeouts == Handles(base, i - 1)
        invariant pending == Arm(q, base, PinTimers(start, i - 1))
      {
        ArmPin(i, q, base, start);
        i := i + 1;
      }
    }

    /** One pass of the PIN loop: the timeout that enters digit `i`. */
    method ArmPin(i: nat, ghost q: map<nat, Timer>, ghost base: nat, ghost start: int)
      requires 1 <= i <= PinLength && now == start
      requires nextHandle == base + (i - 1)
      requires pinTimeouts == Handles(base, i - 1)
      requires pending == Arm(q, base, PinTimers(start, i - 1))
      modifies this`pending, this`nextHandle, this`pinTimeouts
      ensures nextHandle == base + i
      ensures pinTimeouts == Handles(base, i)
      ensures pending == Arm(q, base, PinTimers(start, i))
    {
      var t := SetTimeout(SetPin(i), i * PinInterval);
      pinTimeouts := pinTimeouts + [t];
      PinArmStep(q, base, start, i, pending);
      HandlesSnoc(base, i - 1);
    }

    /**
     * The loop of `ChatSimulator`'s effect: the timeouts of each message in
     * script order, every handle pushed, in order, into a fresh `timeouts`.
     */
    method ArmSchedule(msgs: seq<Message>)
      modifies this`pending, this`nextHandle, this`timeouts
      ensures pending == Arm(old(pending), old(nextHandle), Schedule(msgs, activeTab, now))
      ensures timeouts == Handles(old(nextHandle), Span(msgs))
      ensures nextHandle == old(nextHandle) + Span(msgs)
    {
      ghost var base, q, tab, start := nextHandle, pending, activeTab, now;
      timeouts := [];
      var i := 0;
      while i < |msgs|
        invariant 0 <= i <= |msgs|
        invariant nextHandle == base + Span(msgs[..i])
        invariant timeouts == Handles(base, Span(msgs[..i]))
        invariant pending == Arm(q, base, Schedule(msgs[..i], tab, start))
      {
        ArmNext(msgs, i, q, base, tab, start);
        i := i + 1;
      }
      assert msgs[..i] == msgs;
    }

    /** One turn of the loop: message `i` is armed after the first `i`. */
    method ArmNext(msgs: seq<Message>, i: nat, ghost q: map<nat, Timer>, ghost base: nat,
                   ghost tab: Platform, ghost start: int)
      requires i < |msgs| && activeTab == tab && now == start
      requires nextHandle == base + Span(msgs[..i])
      requires timeouts == Handles(base, Span(msgs[..i]))
      requires pending == Arm(q, base, Schedule(msgs[..i], tab, start))
      modifies this`pending, this`nextHandle, this`timeouts
      ensures nextHandle == base + Span(msgs[..i + 1])
      ensures timeouts == Handles(base, Span(msgs[..i + 1]))
      ensures pending == Arm(q, base, Schedule(msgs[..i + 1], tab, start))
    {
      ArmMessage(msgs[i], pending, nextHandle, timeouts, tab, start);
      ArmScheduleStep(q, base, msgs, tab, start, i, pending);
      HandlesStep(base, msgs, i, timeouts);
      SpanStep(msgs, i);
    }

    /**
     * One message of the loop: a bot message arms typing-on at
     * `delay - 400` and its reveal at `delay`, a user or system message
     * arms just its reveal at `delay`.
     */
    method ArmMessage(message: Message, ghost q: map<nat, Timer>, ghost base: nat, ghost pushed: seq<nat>,
                      ghost tab: Platform, ghost start: int)
      requires pending == q && nextHandle == base && timeouts == pushed && activeTab == tab && now == start
      modifies this`pending, this`nextHandle, this`timeouts
      ensures pending == Arm(q, base, MessageTimers(message, tab, start))
      ensures timeouts == pushed + Handles(base, Width(message))
      ensures nextHandle == base + Width(message)
    {
      ghost var ts := MessageTimers(message, tab, start);
      if message.sender == Bot {
        ArmPair(q, base, ts);
        assert Handles(base, 2) == [base, base + 1];
        var typingTimeout := SetTimeout(TypingOn, message.delay - TypingLead);
        timeouts := timeouts + [typingTimeout];
        var messageTimeout := SetTimeout(RevealBot(message, activeTab), message.delay);
        timeouts := timeouts + [messageTimeout];
      } else {
        ArmSingle(q, base, ts);
        assert Handles(base, 1) == [base];
        var messageTimeout := SetTimeout(Reveal(message), message.delay);
        timeouts := timeouts + [messageTimeout];
      }
    }

    /**
     * The body of `ChatSimulator`'s effect for the render's scenario script
     * `msgs`: clear the transcript, the typing indicator and the overlay,
     * then arm the script.
     */
    method RunEffect(msgs: seq<Message>)
      modifies this`displayed, this`typing, this`modal, this`pending, this`nextHandle,
               this`timeouts, this`pinTimeouts, this`script, this`sessionStart, this`sessionBase
      ensures State() == Machine.ArmSession(Machine.CloseOverlay(old(State()).(displayed := [], typing := false)), msgs)
    {
      ClearTranscript();
      ArmSession(msgs);
    }

    /** The effect runs for the active tab's scenario. */
    method StartSession()
      modifies this`displayed, this`typing, this`modal, this`pending, this`nextHandle,
               this`timeouts, this`pinTimeouts, this`script, this`sessionStart, this`sessionBase
      ensures State() == Machine.StartSession(old(State()))
    {
      var scenario := ScenarioFor(activeTab);
      RunEffect(scenario.messages);
    }

    /** The transcript, the typing indicator and the overlay are cleared. */
    method ClearTranscript()
      modifies this`displayed, this`typing, this`modal, this`pending, this`pinTimeouts
      ensures State() == Machine.CloseOverlay(old(State()).(displayed := [], typing := false))
    {
      displayed := [];
      typing := false;
      CloseOverlay();
    }

    /** The script `msgs` is armed from the current time and handle on. */
    method ArmSession(msgs: seq<Message>)
      modifies this`pending, this`nextHandle, this`timeouts, this`script, this`sessionStart, this`sessionBase
      ensures State() == Machine.ArmSession(old(State()), msgs)
    {
      ghost var start, base := now, nextHandle;
      ArmSchedule(msgs);
      script, sessionStart, sessionBase := msgs, start, base;
    }

    /** The effect's cleanup: `timeouts.forEach(clearTimeout)`; the overlay unmounts. */
    method Cleanup()
      modifies this`pending, this`modal, this`pinTimeouts
      ensures State() == Machine.Cleanup(old(State()))
    {
      ClearAll(timeouts);
      CloseOverlay();
    }

    /**
     * `onTabChange`: selecting the active tab changes nothing (React keeps
     * the state, so the effect does not run); any other tab runs the
     * cleanup and then the effect for the new scenario.
     */
    method Select(p: Platform)
      requires Valid()
      modifies this
      ensures Valid()
      ensures State() == Machine.Select(old(State()), p)
      ensures p == old(activeTab) ==> unchanged(this)
      ensures p != old(activeTab) ==> PlaysActiveTab()
    {
      if p == activeTab {
        Machine.SelectSameTab(State());
        return;
      }
      Machine.SelectRestarts(State(), p);
      SwitchTab(p);
    }

    /** The cleanup, then the effect for tab `p`. */
    method SwitchTab(p: Platform)
      requires p != activeTab
      modifies this
      ensures State() == Machine.Select(old(State()), p)
    {
      Cleanup();
      activeTab := p;
      StartSession();
    }

    /** The host page unmounts the widget: nothing is left to fire. */
    /** Time passes until `t` with no timeout running, ahead of a click or an unmount. */
    method Wait(t: int)
      requires Valid() && now <= t
      requires forall h :: h in pending ==> pending[h].fireAt >= t
      modifies this`now
      ensures State() == Machine.Wait(old(State()), t)
      ensures Valid()
    {
      ghost var w := State();
      now := t;
      Machine.WaitKeepsInv(w, t);
    }

    method Unmount()
      requires Valid()
      modifies this`pending, this`modal, this`pinTimeouts
      ensures State() == Machine.Unmount(old(State()))
      ensures pending == map[] && !modal
    {
      ghost var w := State();
      Cleanup();
      Machine.UnmountClearsAll(w);
    }

    /**
     * The rest of a flagged bot reveal: the payment details, the overlay
     * shown (mounting it if it was not), and the 3000 ms close, pushed into
     * the same `timeouts`.
     */
    method OpenPayment(tab: Platform, ghost k: nat)
      modifies this`details, this`modal, this`pending, this`nextHandle, this`timeouts,
               this`pinDigits, this`pinTimeouts, this`overlayStart, this`overlayFor,
               this`closeHandle, this`confirmHandle
      ensures State() == Machine.OpenPayment(old(State()), tab, k)
    {
      var closeTimeout := ArmForceClose(tab);
      if !modal {
        ShowOverlay(k, closeTimeout);
      }
    }

    /** The payment details are set and the 3000 ms close is armed and pushed. */
    method ArmForceClose(tab: Platform) returns (closeTimeout: nat)
      modifies this`details, this`pending, this`nextHandle, this`timeouts
      ensures closeTimeout == old(nextHandle)
      ensures State() == Machine.ArmForceClose(old(State()), tab)
    {
      details := MpesaFor(tab);
      closeTimeout := SetTimeout(ForceClose, OverlayDuration);
      timeouts := timeouts + [closeTimeout];
    }

    /** `setShowMpesaModal(true)` when the overlay is not shown: it mounts. */
    method ShowOverlay(ghost k: nat, closeTimeout: nat)
      modifies this`modal, this`pending, this`nextHandle, this`pinDigits, this`pinTimeouts,
               this`overlayStart, this`overlayFor, this`closeHandle, this`confirmHandle
      ensures State() == Machine.MountOverlay(old(State()).(modal := true, overlayFor := k, closeHandle := closeTimeout))
    {
      modal := true;
      overlayFor, closeHandle := k, closeTimeout;
      MountOverlay();
    }

    /**
     * The event loop runs the next due timeout, if any: the earliest
     * `fireAt`, ties broken by creation order.
     */
    method Fire() returns (fired: bool, handle: nat)
      requires Valid()
      modifies this
      ensures Valid()
      ensures fired <==> old(pending) != map[]
      ensures !fired ==> unchanged(this)
      ensures fired ==> IsNext(old(pending), handle) && State() == Machine.Run(old(State()), handle)
      ensures activeTab == old(activeTab) && script == old(script)
    {
      if pending == map[] {
        return false, 0;
      }
      NextExists(pending);
      var h :| h in pending && IsNext(pending, h);
      Machine.RunKeepsInvariant(State(), h);
      RunTimeout(h);
      fired, handle := true, h;
    }

    /** Timeout `h` leaves the table, the clock moves to it, and its callback runs. */
    method RunTimeout(h: nat)
      requires h in pending
      modifies this
      ensures State() == Machine.Run(old(State()), h)
      ensures activeTab == old(activeTab) && script == old(script)
    {
      ghost var k := |displayed|;
      var t := pending[h];
      pending := pending - {h};
      now := t.fireAt;
      Perform(t.action, k);
    }

    /** Runs the callback of a timeout; `k` is the transcript's length. */
    method Perform(action: Action, ghost k: nat)
      modifies this
      ensures State() == Machine.Perform(old(State()), action, k)
      ensures activeTab == old(activeTab) && script == old(script)
    {
      match action {
        case TypingOn =>
          typing := true;
        case Reveal(m) =>
          displayed := displayed + [m];
        case RevealBot(m, tab) =>
          typing := false;
          displayed := displayed + [m];
          if m.triggerMpesa {
            OpenPayment(tab, k);
          }
        case ForceClose =>
          CloseOverlay();
        case AutoConfirm =>
          CloseOverlay();
        case SetPin(i) =>
          pinDigits := i;
      }
    }
  }
}
