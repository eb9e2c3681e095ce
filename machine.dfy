/**
 * The chat simulator widget as a state machine over values. A `World` is
 * everything the widget and the browser hold: the clock, the timer table,
 * `ChatSimulator`'s React state with its effect's `timeouts` array, and
 * `MpesaOverlay`'s state with its `pinTimeouts` array. The transitions are
 * the widget's three kinds of event: the event loop running the next due
 * timeout (`Run`), a tab click (`Select`) and the widget going away
 * (`Unmount`). `Inv` is what those transitions keep.
 *
 * The last seven fields are bookkeeping for the invariant, not React state:
 * which script the running effect armed, when and from which handle, and
 * when, for which message and with which close timeouts the overlay was
 * opened. `Plays` ties the armed script to the active tab's scenario.
 */
module Machine {
  import opened Scenarios
  import opened Timeline

  datatype World = World(
    now: int,
    nextHandle: nat,
    pending: map<nat, Timer>,
    activeTab: Platform,
    displayed: seq<Message>,
    typing: bool,
    modal: bool,
    details: MpesaDetails,
    timeouts: seq<nat>,
    pinDigits: nat,
    pinTimeouts: seq<nat>,
    script: seq<Message>,
    sessionStart: int,
    sessionBase: nat,
    overlayStart: int,
    overlayFor: nat,
    closeHandle: nat,
    confirmHandle: nat)

  // ---------------------------------------------------------------------
  // Transitions.

  /**
   * `setShowMpesaModal(false)`: when the overlay is shown it unmounts and
   * its effect's cleanup clears every PIN and OK timeout it armed.
   */
  function CloseOverlay(w: World): World
  {
    if w.modal then
      w.(modal := false, pending := w.pending - HandleSet(w.pinTimeouts), pinTimeouts := [])
    else w
  }

  /**
   * `MpesaOverlay` mounts: the PIN counter starts at 0, digit `i` is set
   * at `i * 300` ms for i = 1..4 and OK is pressed at `4 * 300 + 200` ms;
   * all five handles go into `pinTimeouts`.
   */
  function MountOverlay(w: World): World
  {
    w.(pending := Arm(w.pending, w.nextHandle, OverlayTimers(w.now)),
       nextHandle := w.nextHandle + PinLength + 1,
       pinTimeouts := Handles(w.nextHandle, PinLength + 1),
       pinDigits := 0,
       overlayStart := w.now,
       confirmHandle := w.nextHandle + PinLength)
  }

  /**
   * The scheduling loop of `ChatSimulator`'s effect: arm every timeout of
   * `script` with fresh handles, every handle pushed into a new `timeouts`
   * array.
   */
  function ArmSession(w: World, script: seq<Message>): World
  {
    w.(pending := Arm(w.pending, w.nextHandle, Schedule(script, w.activeTab, w.now)),
       timeouts := Handles(w.nextHandle, Span(script)),
       nextHandle := w.nextHandle + Span(script),
       script := script,
       sessionStart := w.now,
       sessionBase := w.nextHandle)
  }

  /**
   * The body of `ChatSimulator`'s effect: clear the transcript, the typing
   * indicator and the overlay, then arm the active tab's script.
   */
  function StartSession(w: World): World
  {
    ArmSession(CloseOverlay(w.(displayed := [], typing := false)), ScenarioFor(w.activeTab).messages)
  }

  /** The state before the first effect run: nothing armed, no overlay. */
  function Blank(): World
  {
    World(0, 0, map[], WhatsApp, [], false, false, MpesaDetails("", ""), [], 0, [],
          [], 0, 0, 0, 0, 0, 0)
  }

  /** The component's first render and first effect run, at time 0. */
  function Initial(): World
  {
    StartSession(Blank())
  }

  /**
   * The effect's cleanup: `timeouts.forEach(clearTimeout)`, and the overlay,
   * if shown, unmounts and clears its own timeouts.
   */
  function Cleanup(w: World): World
  {
    CloseOverlay(w.(pending := w.pending - HandleSet(w.timeouts)))
  }

  /**
   * `onTabChange={setActiveTab}`: setting the same tab leaves the state as
   * it is and the effect does not run; any other tab runs the cleanup and
   * then the effect for the new scenario.
   */
  function Select(w: World, p: Platform): World
  {
    if p == w.activeTab then w
    else StartSession(Cleanup(w).(activeTab := p))
  }

  /** The host page unmounts the widget. */
  function Unmount(w: World): World
  {
    Cleanup(w)
  }

  /**
   * The rest of a flagged bot reveal: the details are looked up from the
   * tab, the overlay is shown (mounting it if it was not), and a 3000 ms
   * close is armed and pushed into the session's `timeouts`.
   */
  function OpenPayment(w: World, tab: Platform, k: nat): World
  {
    var armed := ArmForceClose(w, tab);
    if w.modal then armed
    else MountOverlay(armed.(modal := true, overlayFor := k, closeHandle := w.nextHandle))
  }

  /** The details are set and the 3000 ms close is armed and pushed into `timeouts`. */
  function ArmForceClose(w: World, tab: Platform): World
  {
    var h := w.nextHandle;
    w.(details := MpesaFor(tab),
       pending := w.pending[h := Timer(w.now + OverlayDuration, ForceClose)],
       timeouts := w.timeouts + [h],
       nextHandle := h + 1)
  }

  /** The event loop takes timeout `h` off the table and advances the clock to it. */
  function Advance(w: World, h: nat): World
    requires h in w.pending
  {
    w.(pending := w.pending - {h}, now := w.pending[h].fireAt)
  }

  /**
   * Time passes with no timeout running: the clock moves to `t`, which is
   * when the next click or unmount lands.
   */
  function Wait(w: World, t: int): World
  {
    w.(now := t)
  }

  /**
   * The callback of a timeout: `k` is the length of the transcript before
   * it runs, the index a revealed message takes.
   */
  function Perform(a: World, action: Action, k: nat): World
  {
    match action
    case TypingOn => a.(typing := true)
    case Reveal(m) => a.(displayed := a.displayed + [m])
    case RevealBot(m, tab) =>
      var b := a.(typing := false, displayed := a.displayed + [m]);
      if m.triggerMpesa then OpenPayment(b, tab, k) else b
    case ForceClose => CloseOverlay(a)
    case AutoConfirm => CloseOverlay(a)
    case SetPin(i) => a.(pinDigits := i)
  }

  /** The event loop runs timeout `h`. */
  function Run(w: World, h: nat): World
    requires h in w.pending
  {
    Perform(Advance(w, h), w.pending[h].action, |w.displayed|)
  }

  // ---------------------------------------------------------------------
  // The invariant.

  /** Every pending timeout is fresh-handled, not overdue, and owned by one array. */
  ghost predicate TimersOk(w: World)
  {
    && (forall h :: h in w.pending ==> h < w.nextHandle && w.pending[h].fireAt >= w.now)
    && (forall i :: 0 <= i < |w.pinTimeouts| ==> w.pinTimeouts[i] < w.nextHandle)
    && (forall h :: h in w.pending ==> (IsOverlayAction(w.pending[h].action) <==> h in w.pinTimeouts))
    && (forall h :: h in w.pending && !IsOverlayAction(w.pending[h].action) ==> h in w.timeouts)
  }

  /** The armed script is the active tab's scenario. */
  ghost predicate Plays(w: World)
  {
    w.script == ScenarioFor(w.activeTab).messages
  }

  /**
   * The session plays a well-formed script: what is shown is a prefix of
   * it, each shown message's time has come, the rest is still pending, and
   * the typing indicator only shows ahead of the next bot message.
   */
  ghost predicate SessionOk(w: World)
  {
    var script := w.script;
    && w.sessionBase + Span(script) <= w.nextHandle
    && SessionQueue(w.pending, script, w.activeTab, w.sessionStart, w.sessionBase, |w.displayed|)
    && |w.displayed| <= |script|
    && w.displayed == script[..|w.displayed|]
    && (forall j :: 0 <= j < |w.displayed| ==> w.sessionStart + Clamp(w.displayed[j].delay) <= w.now)
    && (w.typing ==> |w.displayed| < |script| && script[|w.displayed|].sender == Bot)
  }

  /**
   * The overlay is shown for a flagged message already on screen, with
   * that tab's payment details, while its OK and the 3000 ms close are
   * both pending; the PIN counter is within 0..4 and no pending PIN step
   * would lower it.
   */
  ghost predicate OverlayOk(w: World)
  {
    && w.pinDigits <= PinLength
    && (!w.modal ==> w.pinTimeouts == [])
    && (w.modal ==> w.details == MpesaFor(w.activeTab))
    && (w.modal ==> w.closeHandle in w.pending
                    && w.pending[w.closeHandle] == Timer(w.overlayStart + OverlayDuration, ForceClose))
    && (w.modal ==> w.confirmHandle in w.pending
                    && w.pending[w.confirmHandle] == Timer(w.overlayStart + 1400, AutoConfirm))
    && (w.modal ==> w.overlayFor + 1 == |w.displayed| && w.displayed[w.overlayFor].triggerMpesa
                    && w.overlayStart == w.sessionStart + Clamp(w.displayed[w.overlayFor].delay))
    && (forall h :: h in w.pending && w.pending[h].action.SetPin? ==>
          w.pinDigits <= w.pending[h].action.digits <= PinLength
          && w.pending[h].fireAt == w.overlayStart + PinInterval * w.pending[h].action.digits)
  }

  ghost predicate Inv(w: World)
  {
    ScriptWellFormed(w.script) && TimersOk(w) && SessionOk(w) && OverlayOk(w)
  }

  // ---------------------------------------------------------------------
  // Starting a session.

  lemma ArmSessionTimersOk(w: World, script: seq<Message>)
    requires w.pending == map[] && !w.modal && w.pinTimeouts == []
    ensures TimersOk(ArmSession(w, script))
  {
    var r := ArmSession(w, script);
    var sched := Schedule(script, w.activeTab, w.now);
    ArmFacts(w.pending, w.nextHandle, sched);
    forall h | h in r.pending
      ensures h < r.nextHandle && r.pending[h].fireAt >= r.now
      ensures !IsOverlayAction(r.pending[h].action) && h in r.timeouts
    {
      assert r.pending[h] == sched[h - w.nextHandle];
      HandlesContain(w.nextHandle, Span(script), h);
    }
  }

  /** A well-formed script armed on an empty table satisfies the invariant. */
  lemma ArmSessionOk(w: World, script: seq<Message>)
    requires w.pending == map[] && !w.modal && w.pinTimeouts == [] && w.pinDigits <= PinLength
    requires w.displayed == [] && !w.typing && ScriptWellFormed(script)
    ensures Inv(ArmSession(w, script))
  {
    ArmSessionTimersOk(w, script);
    SessionStarts(script, w.activeTab, w.now, w.nextHandle);
  }

  /** Starting on an empty table plays the tab's scenario and keeps the invariant. */
  lemma StartSessionOk(w: World)
    requires w.pending == map[] && !w.modal && w.pinTimeouts == [] && w.pinDigits <= PinLength
    ensures Inv(StartSession(w)) && Plays(StartSession(w))
  {
    var c := w.(displayed := [], typing := false);
    var script := ScenarioFor(w.activeTab).messages;
    AuthoredScenariosWellFormed(w.activeTab);
    assert CloseOverlay(c) == c;
    ArmSessionOk(c, script);
    assert StartSession(w) == ArmSession(c, script);
  }

  /** The widget starts on WhatsApp at time 0 with its whole script pending. */
  lemma InitialOk()
    ensures Inv(Initial()) && Plays(Initial())
    ensures Initial().activeTab == WhatsApp && Initial().now == 0
    ensures Initial().displayed == [] && !Initial().typing
    ensures !Initial().modal && Initial().details == MpesaDetails("", "")
    ensures Initial().pending == Arm(map[], 0, Schedule(ScenarioFor(WhatsApp).messages, WhatsApp, 0))
  {
    StartSessionOk(Blank());
  }

  /**
   * The cleanup leaves nothing pending: every handle in the table was pushed
   * into the effect's `timeouts` or into the overlay's `pinTimeouts`, and
   * the latter only while the overlay is shown.
   */
  lemma CleanupClearsAll(w: World)
    requires TimersOk(w) && OverlayOk(w)
    ensures Cleanup(w).pending == map[]
    ensures !Cleanup(w).modal && Cleanup(w).pinTimeouts == []
  {
    var r := Cleanup(w);
    forall h | h in w.pending
      ensures h !in r.pending
    {
      if IsOverlayAction(w.pending[h].action) {
        assert h in HandleSet(w.pinTimeouts);
      } else {
        assert h in HandleSet(w.timeouts);
      }
    }
    assert forall h :: h in r.pending ==> h in w.pending;
  }

  /**
   * Switching tabs restarts playback from scratch for the new scenario at
   * the current time: nothing is shown, no overlay, and the table holds
   * exactly the new script's timeouts, so no timeout of the old session or
   * of its overlay (the 3000 ms close included) can fire any more.
   */
  lemma SelectRestarts(w: World, p: Platform)
    requires Inv(w) && p != w.activeTab
    ensures Inv(Select(w, p)) && Plays(Select(w, p))
    ensures Select(w, p).activeTab == p && Select(w, p).now == w.now
    ensures Select(w, p).displayed == [] && !Select(w, p).typing && !Select(w, p).modal
    ensures Select(w, p).pending == Arm(map[], w.nextHandle, Schedule(ScenarioFor(p).messages, p, w.now))
    ensures forall h :: h in w.pending ==> h !in Select(w, p).pending
  {
    CleanupClearsAll(w);
    var c := Cleanup(w).(activeTab := p);
    StartSessionOk(c);
  }

  /**
   * Waiting up to, but not past, the earliest pending timeout keeps the
   * invariant: nothing falls due in between.
   */
  lemma WaitKeepsInv(w: World, t: int)
    requires Inv(w) && w.now <= t
    requires forall h :: h in w.pending ==> w.pending[h].fireAt >= t
    ensures Inv(Wait(w, t))
  {
  }

  /**
   * A click on another tab at any moment `t` between timeouts restarts
   * playback from `t`: the new schedule is the tab's script armed at `t`,
   * the transcript is empty, and no old timeout survives.
   */
  lemma ClickBetweenTimeouts(w: World, t: int, p: Platform)
    requires Inv(w) && w.now <= t && p != w.activeTab
    requires forall h :: h in w.pending ==> w.pending[h].fireAt >= t
    ensures Inv(Select(Wait(w, t), p)) && Plays(Select(Wait(w, t), p))
    ensures Select(Wait(w, t), p).now == t && Select(Wait(w, t), p).sessionStart == t
    ensures Select(Wait(w, t), p).displayed == [] && !Select(Wait(w, t), p).modal
    ensures Select(Wait(w, t), p).pending == Arm(map[], w.nextHandle, Schedule(ScenarioFor(p).messages, p, t))
    ensures forall h :: h in w.pending ==> h !in Select(Wait(w, t), p).pending
  {
    WaitKeepsInv(w, t);
    SelectRestarts(Wait(w, t), p);
  }

  /** Clicking the tab already shown changes nothing. */
  lemma SelectSameTab(w: World)
    ensures Select(w, w.activeTab) == w
  {
  }

  /** Unmounting cancels every timeout the widget armed. */
  lemma UnmountClearsAll(w: World)
    requires Inv(w)
    ensures Unmount(w).pending == map[] && !Unmount(w).modal
  {
    CleanupClearsAll(w);
  }

  // ---------------------------------------------------------------------
  // Running one timeout.

  /** The event loop's step never moves the clock back, and the rest stays due later. */
  lemma AdvanceLater(w: World, h: nat)
    requires TimersOk(w) && IsNext(w.pending, h)
    ensures w.now <= Advance(w, h).now
    ensures forall x :: x in Advance(w, h).pending ==>
      x in w.pending && Advance(w, h).pending[x] == w.pending[x] && w.pending[x].fireAt >= Advance(w, h).now
  {
    forall x | x in Advance(w, h).pending
      ensures w.pending[x].fireAt >= Advance(w, h).now
    {
      assert FiresNoLater(w.pending[h], h, w.pending[x], x);
    }
  }

  /** Timers part of a scripted step that changes only the transcript and the typing flag. */
  lemma ScriptedStepTimers(w: World, h: nat, d: seq<Message>, t: bool)
    requires TimersOk(w) && IsNext(w.pending, h)
    ensures TimersOk(Advance(w, h).(displayed := d, typing := t))
  {
    AdvanceLater(w, h);
  }

  /** Overlay part of a scripted step, which only runs while the overlay is closed. */
  lemma ScriptedStepOverlay(w: World, h: nat, d: seq<Message>, t: bool)
    requires OverlayOk(w) && TimersOk(w) && h in w.pending && IsScripted(w.pending[h].action) && !w.modal
    ensures OverlayOk(Advance(w, h).(displayed := d, typing := t))
  {
  }

  /**
   * While the overlay is open, every scripted timeout still pending is due
   * after the overlay's OK: the next message waits 3000 ms after the
   * flagged one, its typing indicator 2600 ms.
   */
  lemma ScriptAfterConfirm(w: World)
    requires Inv(w) && w.modal
    ensures forall x :: x in w.pending && IsScripted(w.pending[x].action) ==>
      w.pending[x].fireAt > w.overlayStart + 1400
  {
    var k := |w.displayed|;
    forall x | x in w.pending && IsScripted(w.pending[x].action)
      ensures w.pending[x].fireAt > w.overlayStart + 1400
    {
      PendingNotBeforeK(w.pending, w.script, w.activeTab, w.sessionStart, w.sessionBase, k, x);
      assert w.script[k - 1] == w.displayed[k - 1];
      assert w.script[k].delay >= w.script[k - 1].delay + OverlayDuration;
    }
  }

  /**
   * No scripted timeout runs while the overlay is open: the transcript and
   * the typing indicator stand still until its OK closes it.
   */
  lemma ScriptWaitsForOverlay(w: World, h: nat)
    requires Inv(w) && IsNext(w.pending, h)
    ensures IsScripted(w.pending[h].action) ==> !w.modal
  {
    if w.modal {
      assert FiresNoLater(w.pending[h], h, w.pending[w.confirmHandle], w.confirmHandle);
      ScriptAfterConfirm(w);
    }
  }

  /**
   * A typing timeout belongs to the next message, a bot message, and runs
   * 400 ms (clamped at the session start) before that message is due.
   */
  lemma RunTypingOn(w: World, h: nat)
    requires Inv(w) && IsNext(w.pending, h) && w.pending[h].action.TypingOn?
    ensures |w.displayed| < |w.script| && w.script[|w.displayed|].sender == Bot
    ensures Run(w, h).now == w.sessionStart + Clamp(w.script[|w.displayed|].delay - TypingLead)
    ensures Inv(Run(w, h))
  {
    FireTypingOn(w.pending, w.script, w.activeTab, w.sessionStart, w.sessionBase, |w.displayed|, h);
    TypingOnDue(w, h);
    AdvanceLater(w, h);
    ScriptedStepTimers(w, h, w.displayed, true);
    ScriptWaitsForOverlay(w, h);
    ScriptedStepOverlay(w, h, w.displayed, true);
    assert Run(w, h) == Advance(w, h).(displayed := w.displayed, typing := true);
  }

  /** The typing timeout of the next message is due 400 ms before it. */
  lemma TypingOnDue(w: World, h: nat)
    requires SessionOk(w) && h in w.pending && w.pending[h].action.TypingOn?
    requires |w.displayed| < |w.script| && w.script[|w.displayed|].sender == Bot
    requires h == TypingHandle(w.script, w.sessionBase, |w.displayed|)
    ensures w.pending[h].fireAt == w.sessionStart + Clamp(w.script[|w.displayed|].delay - TypingLead)
  {
    ScheduleAt(w.script, w.activeTab, w.sessionStart, |w.displayed|, 0);
  }

  /** A reveal appends the next message of the script, at its own delay. */
  lemma RevealIsNext(w: World, h: nat)
    requires ScriptWellFormed(w.script) && SessionOk(w) && IsNext(w.pending, h)
    requires w.pending[h].action.Reveal? || w.pending[h].action.RevealBot?
    ensures |w.displayed| < |w.script|
    ensures w.pending[h] == Timer(w.sessionStart + Clamp(w.script[|w.displayed|].delay),
              if w.script[|w.displayed|].sender == Bot then RevealBot(w.script[|w.displayed|], w.activeTab)
              else Reveal(w.script[|w.displayed|]))
    ensures SessionQueue(w.pending - {h}, w.script, w.activeTab, w.sessionStart, w.sessionBase,
                         |w.displayed| + 1)
  {
    FireReveal(w.pending, w.script, w.activeTab, w.sessionStart, w.sessionBase, |w.displayed|, h);
  }

  /**
   * The session part after a reveal: the transcript grows by the next
   * script message and the typing flag is off.
   */
  lemma RevealSessionOk(w: World, h: nat)
    requires ScriptWellFormed(w.script) && TimersOk(w) && SessionOk(w) && IsNext(w.pending, h)
    requires w.pending[h].action.Reveal? || w.pending[h].action.RevealBot?
    ensures SessionOk(Advance(w, h).(displayed := w.displayed + [w.pending[h].action.msg], typing := false))
    ensures w.pending[h].action.Reveal? ==> !w.typing
  {
    RevealIsNext(w, h);
    var k := |w.displayed|;
    var r := Advance(w, h).(displayed := w.displayed + [w.pending[h].action.msg], typing := false);
    assert r.displayed == w.script[..k + 1];
    forall j | 0 <= j < |r.displayed|
      ensures r.sessionStart + Clamp(r.displayed[j].delay) <= r.now
    {
      if j < k {
        assert r.displayed[j] == w.displayed[j];
      }
    }
  }

  /** A reveal that opens no overlay keeps the invariant. */
  lemma RunPlainReveal(w: World, h: nat)
    requires Inv(w) && IsNext(w.pending, h)
    requires w.pending[h].action.Reveal? || (w.pending[h].action.RevealBot? && !w.pending[h].action.msg.triggerMpesa)
    ensures Inv(Run(w, h))
  {
    var m := w.pending[h].action.msg;
    RevealSessionOk(w, h);
    ScriptedStepTimers(w, h, w.displayed + [m], false);
    ScriptWaitsForOverlay(w, h);
    ScriptedStepOverlay(w, h, w.displayed + [m], false);
    if w.pending[h].action.Reveal? {
      assert Run(w, h) == Advance(w, h).(displayed := w.displayed + [m], typing := false);
    } else {
      assert Run(w, h) == Advance(w, h).(displayed := w.displayed + [m], typing := false);
    }
  }

  /** A flagged bot reveal keeps the invariant. */
  lemma RunPaymentReveal(w: World, h: nat)
    requires Inv(w) && IsNext(w.pending, h)
    requires w.pending[h].action.RevealBot? && w.pending[h].action.msg.triggerMpesa
    ensures Inv(Run(w, h))
  {
    var m := w.pending[h].action.msg;
    var b := Advance(w, h).(displayed := w.displayed + [m], typing := false);
    RevealSessionOk(w, h);
    RevealIsNext(w, h);
    ScriptedStepTimers(w, h, w.displayed + [m], false);
    ScriptWaitsForOverlay(w, h);
    ScriptedStepOverlay(w, h, w.displayed + [m], false);
    assert Run(w, h) == OpenPayment(b, w.activeTab, |w.displayed|);
    OpenPaymentTimers(b, |w.displayed|);
    OpenPaymentSession(b, |w.displayed|);
    OpenPaymentOverlay(b, |w.displayed|);
  }

  lemma ArmForceCloseTimers(w: World, tab: Platform)
    requires TimersOk(w)
    ensures TimersOk(ArmForceClose(w, tab))
  {
    var r := ArmForceClose(w, tab);
    assert forall x :: x in w.timeouts ==> x in r.timeouts;
    assert w.nextHandle in r.timeouts by {
      assert r.timeouts[|w.timeouts|] == w.nextHandle;
    }
  }

  lemma MountOverlayTimers(w: World)
    requires TimersOk(w) && w.pinTimeouts == []
    ensures TimersOk(MountOverlay(w))
  {
    var r := MountOverlay(w);
    var nh := w.nextHandle;
    ArmFacts(w.pending, nh, OverlayTimers(w.now));
    forall x | x in r.pending
      ensures IsOverlayAction(r.pending[x].action) <==> x in r.pinTimeouts
    {
      HandlesContain(nh, PinLength + 1, x);
    }
  }

  lemma OpenPaymentTimers(b: World, k: nat)
    requires TimersOk(b) && OverlayOk(b)
    ensures TimersOk(OpenPayment(b, b.activeTab, k))
  {
    var armed := ArmForceClose(b, b.activeTab);
    ArmForceCloseTimers(b, b.activeTab);
    if !b.modal {
      MountOverlayTimers(armed.(modal := true, overlayFor := k, closeHandle := b.nextHandle));
    }
  }

  /**
   * Frame for the session: a step that keeps the transcript and the session
   * and only touches timeouts above the session's handle range, none of
   * them scripted, keeps `SessionOk`.
   */
  lemma SessionKeptBy(w: World, r: World)
    requires SessionOk(w)
    requires r.script == w.script && r.activeTab == w.activeTab
    requires r.displayed == w.displayed && r.typing == w.typing
    requires r.sessionStart == w.sessionStart && r.sessionBase == w.sessionBase
    requires r.nextHandle >= w.nextHandle && r.now >= w.now
    requires AgreeBelow(w.pending, r.pending, w.sessionBase + Span(w.script))
    requires forall h :: h in r.pending && h >= w.sessionBase + Span(w.script) ==> !IsScripted(r.pending[h].action)
    ensures SessionOk(r)
  {
    SessionFrame(w.pending, r.pending, w.script, w.activeTab, w.sessionStart, w.sessionBase, |w.displayed|);
  }

  lemma ArmForceCloseSession(w: World, tab: Platform)
    requires SessionOk(w)
    ensures SessionOk(ArmForceClose(w, tab))
  {
    var r := ArmForceClose(w, tab);
    UpdateAgrees(w.pending, w.nextHandle, r.pending[w.nextHandle]);
    SessionKeptBy(w, r);
  }

  lemma MountOverlaySession(w: World)
    requires SessionOk(w)
    requires forall h :: h in w.pending && h >= w.sessionBase + Span(w.script) ==> !IsScripted(w.pending[h].action)
    ensures SessionOk(MountOverlay(w))
  {
    ArmAgrees(w.pending, w.nextHandle, OverlayTimers(w.now));
    ArmFacts(w.pending, w.nextHandle, OverlayTimers(w.now));
    SessionKeptBy(w, MountOverlay(w));
  }

  lemma OpenPaymentSession(b: World, k: nat)
    requires SessionOk(b)
    ensures SessionOk(OpenPayment(b, b.activeTab, k))
  {
    var armed := ArmForceClose(b, b.activeTab);
    ArmForceCloseSession(b, b.activeTab);
    if !b.modal {
      var m := armed.(modal := true, overlayFor := k, closeHandle := b.nextHandle);
      assert SessionOk(m);
      MountOverlaySession(m);
    }
  }

  lemma OpenPaymentOverlay(b: World, k: nat)
    requires TimersOk(b) && OverlayOk(b)
    requires k + 1 == |b.displayed| && b.displayed[k].triggerMpesa
    requires b.now == b.sessionStart + Clamp(b.displayed[k].delay)
    ensures OverlayOk(OpenPayment(b, b.activeTab, k))
  {
    if !b.modal {
      var m := ArmForceClose(b, b.activeTab).(modal := true, overlayFor := k, closeHandle := b.nextHandle);
      MountOverlayFacts(m);
    }
  }

  /**
   * What mounting adds to the table: the four PIN steps and the OK,
   * above every handle already in use, which keep their timers.
   */
  lemma MountOverlayFacts(m: World)
    requires forall x :: x in m.pending ==> x < m.nextHandle && !m.pending[x].action.SetPin?
    ensures forall x :: x in m.pending ==> x in MountOverlay(m).pending && MountOverlay(m).pending[x] == m.pending[x]
    ensures forall x :: x in MountOverlay(m).pending && MountOverlay(m).pending[x].action.SetPin? ==>
      1 <= MountOverlay(m).pending[x].action.digits <= PinLength
      && MountOverlay(m).pending[x].fireAt == m.now + PinInterval * MountOverlay(m).pending[x].action.digits
    ensures m.nextHandle + PinLength in MountOverlay(m).pending
         && MountOverlay(m).pending[m.nextHandle + PinLength] == Timer(m.now + 1400, AutoConfirm)
  {
    ArmFacts(m.pending, m.nextHandle, OverlayTimers(m.now));
  }

  /** The timers and overlay parts after either close. */
  lemma CloseTimersOverlay(w: World, h: nat)
    requires TimersOk(w) && OverlayOk(w) && IsNext(w.pending, h)
    requires w.pending[h].action.ForceClose? || w.pending[h].action.AutoConfirm?
    ensures TimersOk(Run(w, h)) && OverlayOk(Run(w, h))
  {
    var r := Run(w, h);
    AdvanceLater(w, h);
    forall x | x in w.pending && IsOverlayAction(w.pending[x].action)
      ensures x !in r.pending
    {
      if w.modal {
        assert x in HandleSet(w.pinTimeouts);
      }
    }
  }

  /** The session part after a timeout the scheduler did not make. */
  lemma OverlayStepSession(w: World, h: nat, r: World)
    requires SessionOk(w) && TimersOk(w) && h in w.pending && !IsScripted(w.pending[h].action)
    requires r.script == w.script && r.activeTab == w.activeTab
    requires r.displayed == w.displayed && r.typing == w.typing
    requires r.sessionStart == w.sessionStart && r.sessionBase == w.sessionBase
    requires r.nextHandle == w.nextHandle && r.now >= w.now
    requires r.pending == w.pending - {h} - HandleSet(w.pinTimeouts) || r.pending == w.pending - {h}
    ensures SessionOk(r)
  {
    var lo := w.sessionBase + Span(w.script);
    SlotsScripted(w.pending, w.script, w.activeTab, w.sessionStart, w.sessionBase);
    assert forall x :: x in HandleSet(w.pinTimeouts) && x in w.pending ==> x >= lo;
    RemoveAgrees(w.pending, {h} + HandleSet(w.pinTimeouts), lo);
    RemoveAgrees(w.pending, {h}, lo);
    assert w.pending - {h} - HandleSet(w.pinTimeouts) == w.pending - ({h} + HandleSet(w.pinTimeouts));
    SessionFrame(w.pending, r.pending, w.script, w.activeTab, w.sessionStart, w.sessionBase, |w.displayed|);
  }

  /** Either close keeps the invariant. */
  lemma RunClose(w: World, h: nat)
    requires Inv(w) && IsNext(w.pending, h)
    requires w.pending[h].action.ForceClose? || w.pending[h].action.AutoConfirm?
    ensures Inv(Run(w, h))
  {
    CloseTimersOverlay(w, h);
    AdvanceLater(w, h);
    OverlayStepSession(w, h, Run(w, h));
  }

  /** A PIN step keeps the invariant and never lowers the counter. */
  lemma RunSetPin(w: World, h: nat)
    requires Inv(w) && IsNext(w.pending, h) && w.pending[h].action.SetPin?
    ensures Inv(Run(w, h))
    ensures w.pinDigits <= Run(w, h).pinDigits
  {
    var r := Run(w, h);
    var i := w.pending[h].action.digits;
    AdvanceLater(w, h);
    forall x | x in r.pending && r.pending[x].action.SetPin?
      ensures i <= r.pending[x].action.digits
    {
      var j := r.pending[x].action.digits;
      assert FiresNoLater(w.pending[h], h, w.pending[x], x);
      assert PinInterval * i <= PinInterval * j;
    }
    OverlayStepSession(w, h, r);
  }

  /** Whatever timeout the event loop runs next, the invariant holds afterwards. */
  lemma RunKeepsInvariant(w: World, h: nat)
    requires Inv(w) && IsNext(w.pending, h)
    ensures Inv(Run(w, h))
  {
    match w.pending[h].action
    case TypingOn => RunTypingOn(w, h);
    case Reveal(_) => RunPlainReveal(w, h);
    case RevealBot(m, _) =>
      if m.triggerMpesa { RunPaymentReveal(w, h); } else { RunPlainReveal(w, h); }
    case ForceClose => RunClose(w, h);
    case AutoConfirm => RunClose(w, h);
    case SetPin(_) => RunSetPin(w, h);
  }

  // ---------------------------------------------------------------------
  // What a run of the widget looks like.

  /**
   * The transcript only grows, one script message at a time, each at its
   * own delay after the session started; only a reveal changes it, and the
   * clock never goes back.
   */
  lemma RunAppends(w: World, h: nat)
    requires Inv(w) && IsNext(w.pending, h)
    ensures w.now <= Run(w, h).now
    ensures (w.pending[h].action.Reveal? || w.pending[h].action.RevealBot?) ==>
      && |w.displayed| < |w.script|
      && Run(w, h).displayed == w.displayed + [w.script[|w.displayed|]]
      && Run(w, h).now == w.sessionStart + Clamp(w.script[|w.displayed|].delay)
    ensures !(w.pending[h].action.Reveal? || w.pending[h].action.RevealBot?) ==>
      Run(w, h).displayed == w.displayed
  {
    AdvanceLater(w, h);
    if w.pending[h].action.Reveal? || w.pending[h].action.RevealBot? {
      RevealIsNext(w, h);
    }
  }

  /**
   * Only a bot message shows the typing indicator, and its reveal hides it;
   * a user or system message is revealed with the indicator off and leaves
   * it off; the overlay's timeouts do not touch it.
   */
  lemma RunTyping(w: World, h: nat)
    requires Inv(w) && IsNext(w.pending, h)
    ensures w.pending[h].action.TypingOn? ==>
      Run(w, h).typing && |w.displayed| < |w.script| && w.script[|w.displayed|].sender == Bot
    ensures w.pending[h].action.RevealBot? ==>
      !Run(w, h).typing && |w.displayed| < |w.script| && w.script[|w.displayed|].sender == Bot
    ensures w.pending[h].action.Reveal? ==>
      !w.typing && !Run(w, h).typing && |w.displayed| < |w.script| && w.script[|w.displayed|].sender != Bot
    ensures !IsScripted(w.pending[h].action) ==> Run(w, h).typing == w.typing
  {
    match w.pending[h].action
    case TypingOn => RunTypingOn(w, h);
    case Reveal(_) => RevealIsNext(w, h); RevealSessionOk(w, h);
    case RevealBot(m, _) =>
      RevealIsNext(w, h);
      if m.triggerMpesa {
        ScriptWaitsForOverlay(w, h);
      }
    case ForceClose =>
    case AutoConfirm =>
    case SetPin(_) =>
  }

  /**
   * The PIN counter stays within 0..4, starts at 0 when the overlay
   * mounts, and never goes down while the overlay stays open.
   */
  lemma PinCounter(w: World, h: nat)
    requires Inv(w) && IsNext(w.pending, h)
    ensures Run(w, h).pinDigits <= PinLength
    ensures w.modal && Run(w, h).modal ==> w.pinDigits <= Run(w, h).pinDigits
    ensures !w.modal && Run(w, h).modal ==> Run(w, h).pinDigits == 0
  {
    match w.pending[h].action
    case SetPin(i) =>
      assert w.pinDigits <= i <= PinLength;
    case RevealBot(_, _) =>
      ScriptWaitsForOverlay(w, h);
    case _ =>
  }

  /**
   * A flagged bot message is the next script message; it is revealed while
   * the overlay is closed, and the rest of its callback opens the payment
   * for the active tab.
   */
  lemma PaymentOpens(w: World, h: nat)
    requires Inv(w) && IsNext(w.pending, h)
    requires w.pending[h].action.RevealBot? && w.pending[h].action.msg.triggerMpesa
    ensures !w.modal && |w.displayed| < |w.script| && w.pending[h].action.msg == w.script[|w.displayed|]
    ensures Run(w, h) == OpenPayment(Advance(w, h).(typing := false, displayed := w.displayed + [w.script[|w.displayed|]]),
                                     w.activeTab, |w.displayed|)
  {
    ScriptWaitsForOverlay(w, h);
    RevealIsNext(w, h);
    assert w.script[|w.displayed|].sender == Bot;
  }

  /**
   * Opening the payment on a closed overlay shows it with the tab's details
   * and a fresh PIN counter, arms its four PIN steps and its OK
   * (`OverlayTimers`), and arms a close 3000 ms later whose handle joins
   * the session's `timeouts`.
   */
  lemma OpenPaymentArms(b: World, tab: Platform, k: nat)
    requires !b.modal
    ensures var r := OpenPayment(b, tab, k); var nh := b.nextHandle;
      && r.modal && r.details == MpesaFor(tab) && r.pinDigits == 0 && r.now == b.now
      && nh in r.pending && r.pending[nh] == Timer(r.now + OverlayDuration, ForceClose)
      && nh in r.timeouts
      && (forall i :: 0 <= i <= PinLength ==>
            nh + 1 + i in r.pending && r.pending[nh + 1 + i] == OverlayTimers(r.now)[i])
      && r.pinTimeouts == Handles(nh + 1, PinLength + 1)
  {
    var r := OpenPayment(b, tab, k);
    ArmFacts(ArmForceClose(b, tab).pending, b.nextHandle + 1, OverlayTimers(b.now));
    assert r.timeouts[|b.timeouts|] == b.nextHandle;
  }

  /**
   * While the overlay is open its 3000 ms close is never the next timeout:
   * the OK at 1400 ms closes it first, and the close then finds it closed.
   */
  lemma ConfirmBeforeForcedClose(w: World, h: nat)
    requires Inv(w) && IsNext(w.pending, h)
    ensures w.modal ==> h != w.closeHandle
  {
    if w.modal {
      assert FiresNoLater(w.pending[h], h, w.pending[w.confirmHandle], w.confirmHandle);
    }
  }

  /** The close finding the overlay already closed only takes itself off the table. */
  lemma LateCloseIsNoOp(w: World, h: nat)
    requires h in w.pending && w.pending[h].action.ForceClose? && !w.modal
    ensures Run(w, h) == w.(pending := w.pending - {h}, now := w.pending[h].fireAt)
  {
  }

  /**
   * Once nothing is due any more, the transcript holds exactly the script
   * messages whose delay has elapsed since the session started.
   */
  lemma SettledShowsDue(w: World)
    requires Inv(w)
    requires forall h :: h in w.pending ==> w.pending[h].fireAt > w.now
    ensures |w.displayed| == DueCount(w.script, w.now - w.sessionStart)
    ensures forall j :: 0 <= j < |w.script| ==>
              (j < |w.displayed| <==> w.sessionStart + Clamp(w.script[j].delay) <= w.now)
    ensures w.displayed == w.script[..|w.displayed|]
  {
    SettledRevealCount(w.pending, w.script, w.activeTab, w.sessionStart, w.sessionBase,
                       |w.displayed|, w.now);
  }
}
