/**
 * The timer arithmetic of the chat simulator: the actions its timeouts
 * carry, the schedule derived from a scenario script, the pending-timer
 * table of the single event loop and the order in which it fires, and the
 * invariant a playback session keeps over that table.
 */
module Timeline {
  import opened Scenarios

  const PinInterval := 300
  const PinLength := 4
  const ConfirmBuffer := 200

  /** What a pending timeout does when it fires. */
  datatype Action =
    | TypingOn                               // setIsTyping(true)
    | RevealBot(msg: Message, tab: Platform) // typing off, append, maybe open the overlay
    | Reveal(msg: Message)                   // append a user or system message
    | ForceClose                             // the scheduler's 3000 ms backstop close
    | SetPin(digits: nat)                    // the overlay's PIN animation step
    | AutoConfirm                            // the overlay's own "OK" close

  /** Actions created by the scheduler from the script itself. */
  predicate IsScripted(a: Action)
  {
    a.TypingOn? || a.RevealBot? || a.Reveal?
  }

  /** Actions owned by the overlay's effect. */
  predicate IsOverlayAction(a: Action)
  {
    a.SetPin? || a.AutoConfirm?
  }

  predicate TouchesTyping(a: Action)
  {
    a.TypingOn? || a.RevealBot?
  }

  /** A pending timeout: the absolute time it is due and what it does. */
  datatype Timer = Timer(fireAt: int, action: Action)

  /** `setTimeout` treats a negative delay as 0. */
  function Clamp(delay: int): nat
  {
    if delay < 0 then 0 else delay
  }

  /** How many timeouts the scheduler creates for one message. */
  function Width(m: Message): nat
  {
    if m.sender == Bot then 2 else 1
  }

  /**
   * The timeouts the scheduler creates for one message of a session that
   * started at `start` on tab `tab`, in creation order.
   */
  function MessageTimers(m: Message, tab: Platform, start: int): (r: seq<Timer>)
    ensures |r| == Width(m) && |r| > 0
    ensures r[|r| - 1].fireAt == start + Clamp(m.delay)
    ensures r[|r| - 1].action == if m.sender == Bot then RevealBot(m, tab) else Reveal(m)
    ensures m.sender == Bot ==> r[0] == Timer(start + Clamp(m.delay - TypingLead), TypingOn)
    ensures m.sender == Bot ==> r[0].fireAt <= r[1].fireAt
    ensures forall i :: 0 <= i < |r| ==> r[i].fireAt >= start
    ensures forall i :: 0 <= i < |r| ==> IsScripted(r[i].action)
    ensures forall i :: 0 <= i < |r| ==> (TouchesTyping(r[i].action) <==> m.sender == Bot)
  {
    if m.sender == Bot then
      [Timer(start + Clamp(m.delay - TypingLead), TypingOn),
       Timer(start + Clamp(m.delay), RevealBot(m, tab))]
    else
      [Timer(start + Clamp(m.delay), Reveal(m))]
  }

  /** Total number of timeouts a script needs. */
  function Span(msgs: seq<Message>): nat
  {
    if msgs == [] then 0 else Span(msgs[..|msgs| - 1]) + Width(msgs[|msgs| - 1])
  }

  /** All timeouts one run of the scheduler's effect creates, in creation order. */
  function Schedule(msgs: seq<Message>, tab: Platform, start: int): (r: seq<Timer>)
    ensures |r| == Span(msgs)
    ensures forall i :: 0 <= i < |r| ==> r[i].fireAt >= start
    ensures forall i :: 0 <= i < |r| ==> IsScripted(r[i].action)
  {
    if msgs == [] then []
    else Schedule(msgs[..|msgs| - 1], tab, start) + MessageTimers(msgs[|msgs| - 1], tab, start)
  }

  /** Position of message `j`'s first timeout within the schedule. */
  function TypingPos(msgs: seq<Message>, j: nat): nat
    requires j <= |msgs|
  {
    Span(msgs[..j])
  }

  /** Position of message `j`'s reveal timeout within the schedule. */
  function RevealPos(msgs: seq<Message>, j: nat): nat
    requires j < |msgs|
  {
    Span(msgs[..j]) + Width(msgs[j]) - 1
  }

  lemma SpanStep(msgs: seq<Message>, j: nat)
    requires j < |msgs|
    ensures Span(msgs[..j + 1]) == Span(msgs[..j]) + Width(msgs[j])
  {
    assert msgs[..j + 1][..j] == msgs[..j];
  }

  lemma ScheduleStep(msgs: seq<Message>, tab: Platform, start: int, j: nat)
    requires j < |msgs|
    ensures Schedule(msgs[..j + 1], tab, start)
         == Schedule(msgs[..j], tab, start) + MessageTimers(msgs[j], tab, start)
  {
    assert msgs[..j + 1][..j] == msgs[..j];
  }

  /** Later messages' timeouts come after earlier messages' timeouts. */
  lemma {:induction false} SpanMonotone(msgs: seq<Message>, i: nat, j: nat)
    requires i <= j <= |msgs|
    ensures Span(msgs[..i]) <= Span(msgs[..j])
    decreases j - i
  {
    if i < j {
      SpanMonotone(msgs, i, j - 1);
      SpanStep(msgs, j - 1);
    }
  }

  lemma {:induction false} SchedulePrefix(msgs: seq<Message>, tab: Platform, start: int, n: nat)
    requires n <= |msgs|
    ensures Schedule(msgs[..n], tab, start) <= Schedule(msgs, tab, start)
    decreases |msgs| - n
  {
    if n < |msgs| {
      SchedulePrefix(msgs, tab, start, n + 1);
      ScheduleStep(msgs, tab, start, n);
    } else {
      assert msgs[..n] == msgs;
    }
  }

  /** Message `j`'s timeouts sit at positions `TypingPos(j) ..` of the schedule. */
  lemma ScheduleAt(msgs: seq<Message>, tab: Platform, start: int, j: nat, w: nat)
    requires j < |msgs| && w < Width(msgs[j])
    ensures TypingPos(msgs, j) + w < |Schedule(msgs, tab, start)|
    ensures Schedule(msgs, tab, start)[TypingPos(msgs, j) + w] == MessageTimers(msgs[j], tab, start)[w]
  {
    SchedulePrefix(msgs, tab, start, j + 1);
    ScheduleStep(msgs, tab, start, j);
  }

  /** Every position of the schedule belongs to exactly one message. */
  lemma {:induction false} ScheduleIndex(msgs: seq<Message>, tab: Platform, start: int, i: nat)
    returns (j: nat, w: nat)
    requires i < |Schedule(msgs, tab, start)|
    ensures j < |msgs| && w < Width(msgs[j]) && i == TypingPos(msgs, j) + w
    ensures Schedule(msgs, tab, start)[i] == MessageTimers(msgs[j], tab, start)[w]
    decreases |msgs|
  {
    var n := |msgs| - 1;
    var init := msgs[..n];
    assert init == msgs[..n];
    if i < Span(init) {
      j, w := ScheduleIndex(init, tab, start, i);
      assert init[..j] == msgs[..j];
      ScheduleAt(msgs, tab, start, j, w);
    } else {
      j, w := n, i - Span(init);
      ScheduleAt(msgs, tab, start, j, w);
    }
  }

  /**
   * ... and to only one: two messages' timeouts never share a position, so
   * the owner `ScheduleIndex` finds is the only one.
   */
  lemma ScheduleOwnerUnique(msgs: seq<Message>, j: nat, w: nat, j': nat, w': nat)
    requires j < |msgs| && w < Width(msgs[j])
    requires j' < |msgs| && w' < Width(msgs[j'])
    requires TypingPos(msgs, j) + w == TypingPos(msgs, j') + w'
    ensures j == j' && w == w'
  {
    if j < j' {
      SpanMonotone(msgs, j + 1, j');
      SpanStep(msgs, j);
    } else if j' < j {
      SpanMonotone(msgs, j' + 1, j);
      SpanStep(msgs, j');
    }
  }

  /** The messages a sequence of timeouts appends, in order. */
  function RevealsOf(ts: seq<Timer>): seq<Message>
  {
    if ts == [] then []
    else
      var last := ts[|ts| - 1].action;
      RevealsOf(ts[..|ts| - 1]) + (if last.RevealBot? || last.Reveal? then [last.msg] else [])
  }

  lemma {:induction false} RevealsOfAppend(a: seq<Timer>, b: seq<Timer>)
    ensures RevealsOf(a + b) == RevealsOf(a) + RevealsOf(b)
    decreases |b|
  {
    if b == [] {
      assert a + b == a;
    } else {
      var n := |b| - 1;
      assert (a + b)[..|a + b| - 1] == a + b[..n];
      RevealsOfAppend(a, b[..n]);
    }
  }

  /** One message's timeouts append exactly that message. */
  lemma MessageRevealsIt(m: Message, tab: Platform, start: int)
    ensures RevealsOf(MessageTimers(m, tab, start)) == [m]
  {
    var mt := MessageTimers(m, tab, start);
    if m.sender == Bot {
      assert mt[..1][..0] == [];
      assert RevealsOf(mt[..1]) == [];
      assert mt[..|mt| - 1] == mt[..1];
    } else {
      assert mt[..|mt| - 1] == [];
    }
  }

  /** The schedule appends every message of the script once, in script order. */
  lemma {:induction false} ScheduleRevealsScript(msgs: seq<Message>, tab: Platform, start: int)
    ensures RevealsOf(Schedule(msgs, tab, start)) == msgs
    decreases |msgs|
  {
    if msgs != [] {
      var n := |msgs| - 1;
      ScheduleRevealsScript(msgs[..n], tab, start);
      RevealsOfAppend(Schedule(msgs[..n], tab, start), MessageTimers(msgs[n], tab, start));
      MessageRevealsIt(msgs[n], tab, start);
      assert msgs[..n] + [msgs[n]] == msgs;
    }
  }

  // ---------------------------------------------------------------------
  // The event loop's pending-timer table.

  /** Handles `base, base + 1, ..., base + n - 1`, as pushed into a timeouts array. */
  function Handles(base: nat, n: nat): (r: seq<nat>)
    ensures |r| == n
    ensures forall i :: 0 <= i < n ==> r[i] == base + i
  {
    seq(n, i requires 0 <= i < n => base + i)
  }

  lemma HandlesContain(base: nat, n: nat, h: nat)
    ensures h in Handles(base, n) <==> base <= h < base + n
  {
    if base <= h < base + n {
      assert Handles(base, n)[h - base] == h;
    }
  }

  lemma HandlesConcat(base: nat, a: nat, b: nat)
    ensures Handles(base, a) + Handles(base + a, b) == Handles(base, a + b)
  {
    var l, r := Handles(base, a) + Handles(base + a, b), Handles(base, a + b);
    forall i | 0 <= i < a + b
      ensures l[i] == r[i]
    {
      if i >= a {
        assert l[i] == Handles(base + a, b)[i - a];
      }
    }
  }

  function HandleSet(hs: seq<nat>): (r: set<nat>)
    ensures forall h :: h in r <==> h in hs
  {
    set i | 0 <= i < |hs| :: hs[i]
  }

  /** The table after arming `ts` with consecutive handles from `base`. */
  function Arm(q: map<nat, Timer>, base: nat, ts: seq<Timer>): map<nat, Timer>
    decreases |ts|
  {
    if ts == [] then q
    else Arm(q, base, ts[..|ts| - 1])[base + |ts| - 1 := ts[|ts| - 1]]
  }

  /**
   * The armed table holds the old timeouts and `ts` under the handles
   * `base ..`, `ts[i]` under `base + i`, and keeps every other timeout.
   */
  lemma {:induction false} ArmFacts(q: map<nat, Timer>, base: nat, ts: seq<Timer>)
    ensures forall h :: h in Arm(q, base, ts) <==> h in q || base <= h < base + |ts|
    ensures forall h :: base <= h < base + |ts| ==> Arm(q, base, ts)[h] == ts[h - base]
    ensures forall h :: h in q && !(base <= h < base + |ts|) ==> Arm(q, base, ts)[h] == q[h]
    decreases |ts|
  {
    if ts != [] {
      var n := |ts| - 1;
      ArmFacts(q, base, ts[..n]);
      assert forall i :: 0 <= i < n ==> ts[..n][i] == ts[i];
    }
  }

  lemma ArmSnoc(q: map<nat, Timer>, base: nat, ts: seq<Timer>, t: Timer)
    ensures Arm(q, base, ts + [t]) == Arm(q, base, ts)[base + |ts| := t]
  {
    assert (ts + [t])[..|ts|] == ts;
  }

  lemma ArmSingle(q: map<nat, Timer>, base: nat, ts: seq<Timer>)
    requires |ts| == 1
    ensures Arm(q, base, ts) == q[base := ts[0]]
  {
    assert ts[..0] == [];
  }

  lemma ArmPair(q: map<nat, Timer>, base: nat, ts: seq<Timer>)
    requires |ts| == 2
    ensures Arm(q, base, ts) == q[base := ts[0]][base + 1 := ts[1]]
  {
    ArmSingle(q, base, ts[..1]);
  }

  lemma {:induction false} ArmConcat(q: map<nat, Timer>, base: nat, xs: seq<Timer>, ys: seq<Timer>)
    ensures Arm(Arm(q, base, xs), base + |xs|, ys) == Arm(q, base, xs + ys)
    decreases |ys|
  {
    if ys == [] {
      assert xs + ys == xs;
    } else {
      var n := |ys| - 1;
      ArmConcat(q, base, xs, ys[..n]);
      ArmSnoc(q, base, xs + ys[..n], ys[n]);
      assert xs + ys[..n] + [ys[n]] == xs + ys;
    }
  }

  /**
   * One step of the scheduling loop: table `p`, armed with the first `i`
   * messages' timeouts and then with message `i`'s, is the table armed
   * with the first `i + 1` messages'.
   */
  lemma ArmScheduleStep(q: map<nat, Timer>, base: nat, msgs: seq<Message>, tab: Platform, start: int, i: nat,
                        p: map<nat, Timer>)
    requires i < |msgs|
    requires p == Arm(Arm(q, base, Schedule(msgs[..i], tab, start)), base + Span(msgs[..i]), MessageTimers(msgs[i], tab, start))
    ensures p == Arm(q, base, Schedule(msgs[..i + 1], tab, start))
  {
    var xs, ys := Schedule(msgs[..i], tab, start), MessageTimers(msgs[i], tab, start);
    calc {
      p;
      Arm(Arm(q, base, xs), base + Span(msgs[..i]), ys);
      Arm(Arm(q, base, xs), base + |xs|, ys);
      { ArmConcat(q, base, xs, ys); }
      Arm(q, base, xs + ys);
      { ScheduleStep(msgs, tab, start, i); }
      Arm(q, base, Schedule(msgs[..i + 1], tab, start));
    }
  }

  /** The handles `t` pushed for message `i` continue those pushed before it. */
  lemma HandlesStep(base: nat, msgs: seq<Message>, i: nat, t: seq<nat>)
    requires i < |msgs|
    requires t == Handles(base, Span(msgs[..i])) + Handles(base + Span(msgs[..i]), Width(msgs[i]))
    ensures t == Handles(base, Span(msgs[..i + 1]))
  {
    SpanStep(msgs, i);
    HandlesConcat(base, Span(msgs[..i]), Width(msgs[i]));
  }

  /** Timer `a` (handle `ha`) fires no later than timer `b` (handle `hb`). */
  predicate FiresNoLater(a: Timer, ha: nat, b: Timer, hb: nat)
  {
    a.fireAt < b.fireAt || (a.fireAt == b.fireAt && ha <= hb)
  }

  /**
   * `h` is the timeout the event loop runs next: the earliest due time,
   * ties broken by creation order (handles grow with creation).
   */
  predicate IsNext(q: map<nat, Timer>, h: nat)
  {
    h in q && forall h' :: h' in q ==> FiresNoLater(q[h], h, q[h'], h')
  }

  lemma {:induction false} EarliestIn(q: map<nat, Timer>, s: set<nat>) returns (h: nat)
    requires s != {} && s <= q.Keys
    ensures h in s && forall h' :: h' in s ==> FiresNoLater(q[h], h, q[h'], h')
    decreases |s|
  {
    var x :| x in s;
    if s == {x} {
      h := x;
    } else {
      var m := EarliestIn(q, s - {x});
      h := if FiresNoLater(q[x], x, q[m], m) then x else m;
    }
  }

  /** A non-empty table always has a next timeout. */
  lemma NextExists(q: map<nat, Timer>)
    requires q != map[]
    ensures exists h :: IsNext(q, h)
  {
    var x :| x in q;
    var h := EarliestIn(q, q.Keys);
    assert IsNext(q, h);
  }

  /** ... and only one: the event loop is deterministic. */
  lemma NextUnique(q: map<nat, Timer>, h: nat, h': nat)
    requires IsNext(q, h) && IsNext(q, h')
    ensures h == h'
  {
    assert FiresNoLater(q[h], h, q[h'], h');
    assert FiresNoLater(q[h'], h', q[h], h);
  }

  // ---------------------------------------------------------------------
  // The payment overlay's own timeouts.

  function PinTimers(start: int, n: nat): (r: seq<Timer>)
    ensures |r| == n
    ensures forall i :: 0 <= i < n ==> r[i] == Timer(start + PinInterval * (i + 1), SetPin(i + 1))
  {
    seq(n, i requires 0 <= i < n => Timer(start + PinInterval * (i + 1), SetPin(i + 1)))
  }

  /** One step of the PIN loop: digit `i` joins the first `i - 1` digits. */
  lemma PinTimersStep(start: int, i: nat)
    requires 1 <= i
    ensures PinTimers(start, i - 1) + [Timer(start + PinInterval * i, SetPin(i))] == PinTimers(start, i)
  {
    var l, r := PinTimers(start, i - 1) + [Timer(start + PinInterval * i, SetPin(i))], PinTimers(start, i);
    assert |l| == |r|;
    forall j | 0 <= j < i
      ensures l[j] == r[j]
    {
    }
  }

  /** Arming digit `i` after the first `i - 1` digits arms the first `i`. */
  lemma PinArmStep(q: map<nat, Timer>, base: nat, start: int, i: nat, p: map<nat, Timer>)
    requires 1 <= i
    requires p == Arm(q, base, PinTimers(start, i - 1))[base + (i - 1) := Timer(start + PinInterval * i, SetPin(i))]
    ensures p == Arm(q, base, PinTimers(start, i))
  {
    ArmSnoc(q, base, PinTimers(start, i - 1), Timer(start + PinInterval * i, SetPin(i)));
    PinTimersStep(start, i);
  }

  /** Pushing handle `base + n` extends the run of `n` handles from `base`. */
  lemma HandlesSnoc(base: nat, n: nat)
    ensures Handles(base, n) + [base + n] == Handles(base, n + 1)
  {
    HandlesConcat(base, n, 1);
  }

  /**
   * What the overlay's effect arms when it mounts at `start`: PIN digit `i`
   * at `i * 300` for i = 1..4, then the automatic OK after the last digit.
   */
  function OverlayTimers(start: int): (r: seq<Timer>)
    ensures |r| == PinLength + 1
    ensures forall i :: 1 <= i <= PinLength ==> r[i - 1] == Timer(start + i * PinInterval, SetPin(i))
    ensures r[PinLength] == Timer(start + 1400, AutoConfirm)
    ensures forall i :: 0 <= i < PinLength ==> r[i].fireAt < r[PinLength].fireAt
    ensures forall i :: 0 <= i < |r| ==> IsOverlayAction(r[i].action)
  {
    PinTimers(start, PinLength) + [Timer(start + PinLength * PinInterval + ConfirmBuffer, AutoConfirm)]
  }

  // ---------------------------------------------------------------------
  // The session invariant over the pending table.

  function TypingHandle(msgs: seq<Message>, base: nat, j: nat): nat
    requires j < |msgs|
  {
    base + TypingPos(msgs, j)
  }

  function RevealHandle(msgs: seq<Message>, base: nat, j: nat): nat
    requires j < |msgs|
  {
    base + RevealPos(msgs, j)
  }

  /**
   * The pending table of a session that started at `start` with handles
   * from `base`, after `k` of its messages were revealed: every pending
   * handle in the session's range still carries its scheduled timer, no
   * scripted timer lives outside that range, messages `k..` still have
   * their reveal pending, and messages `..k` have neither reveal nor
   * typing timer pending.
   */
  ghost predicate SessionQueue(q: map<nat, Timer>, msgs: seq<Message>, tab: Platform,
                               start: int, base: nat, k: nat)
  {
    k <= |msgs| && SlotsScheduled(q, msgs, tab, start, base) && RevealState(q, msgs, base, k)
  }

  /** Pending handles in the session's range hold their scheduled timer; none above it is scripted. */
  ghost predicate SlotsScheduled(q: map<nat, Timer>, msgs: seq<Message>, tab: Platform, start: int, base: nat)
  {
    var sched := Schedule(msgs, tab, start);
    && (forall h :: h in q && h < base + |sched| ==> base <= h && q[h] == sched[h - base])
    && (forall h :: h in q && h >= base + |sched| ==> !IsScripted(q[h].action))
  }

  /** Reveals `k..` are pending; reveals and typing timeouts of `..k` are gone. */
  ghost predicate RevealState(q: map<nat, Timer>, msgs: seq<Message>, base: nat, k: nat)
    requires k <= |msgs|
  {
    && (forall j :: k <= j < |msgs| ==> RevealHandle(msgs, base, j) in q)
    && (forall j :: 0 <= j < k ==> RevealHandle(msgs, base, j) !in q)
    && (forall j :: 0 <= j < k && msgs[j].sender == Bot ==> TypingHandle(msgs, base, j) !in q)
  }

  lemma RevealHandleInRange(msgs: seq<Message>, tab: Platform, start: int, base: nat, j: nat)
    requires j < |msgs|
    ensures RevealHandle(msgs, base, j) < base + |Schedule(msgs, tab, start)|
    ensures Schedule(msgs, tab, start)[RevealPos(msgs, j)]
         == Timer(start + Clamp(msgs[j].delay),
                  if msgs[j].sender == Bot then RevealBot(msgs[j], tab) else Reveal(msgs[j]))
  {
    ScheduleAt(msgs, tab, start, j, Width(msgs[j]) - 1);
  }

  /** Arming an empty table holds exactly the armed timeouts. */
  lemma ArmEmpty(base: nat, ts: seq<Timer>)
    ensures forall h :: h in Arm(map[], base, ts) ==> base <= h < base + |ts| && Arm(map[], base, ts)[h] == ts[h - base]
  {
    ArmFacts(map[], base, ts);
  }

  lemma StartSlots(msgs: seq<Message>, tab: Platform, start: int, base: nat)
    ensures SlotsScheduled(Arm(map[], base, Schedule(msgs, tab, start)), msgs, tab, start, base)
  {
    ArmEmpty(base, Schedule(msgs, tab, start));
  }

  lemma StartReveals(msgs: seq<Message>, tab: Platform, start: int, base: nat)
    ensures RevealState(Arm(map[], base, Schedule(msgs, tab, start)), msgs, base, 0)
  {
    ArmFacts(map[], base, Schedule(msgs, tab, start));
    forall j | 0 <= j < |msgs|
      ensures RevealHandle(msgs, base, j) in Arm(map[], base, Schedule(msgs, tab, start))
    {
      RevealHandleInRange(msgs, tab, start, base, j);
    }
  }

  /** A freshly started session: the whole schedule is pending, nothing revealed. */
  lemma SessionStarts(msgs: seq<Message>, tab: Platform, start: int, base: nat)
    ensures SessionQueue(Arm(map[], base, Schedule(msgs, tab, start)), msgs, tab, start, base, 0)
  {
    StartSlots(msgs, tab, start, base);
    StartReveals(msgs, tab, start, base);
  }

  /** Table `r` agrees with table `q` on every handle below `lo`. */
  ghost predicate AgreeBelow(q: map<nat, Timer>, r: map<nat, Timer>, lo: nat)
  {
    && (forall h :: h in q && h < lo ==> h in r && r[h] == q[h])
    && (forall h :: h in r && h < lo ==> h in q)
  }

  lemma ArmAgrees(q: map<nat, Timer>, base: nat, ts: seq<Timer>)
    ensures AgreeBelow(q, Arm(q, base, ts), base)
  {
    ArmFacts(q, base, ts);
  }

  lemma UpdateAgrees(q: map<nat, Timer>, h: nat, t: Timer)
    ensures AgreeBelow(q, q[h := t], h)
  {
  }

  /** Removing handles none of which lies below `lo`. */
  lemma RemoveAgrees(q: map<nat, Timer>, s: set<nat>, lo: nat)
    requires forall h :: h in s && h in q ==> h >= lo
    ensures AgreeBelow(q, q - s, lo)
  {
  }

  /** Frame: changes outside the session's handle range keep the invariant. */
  lemma SessionFrame(q: map<nat, Timer>, q': map<nat, Timer>, msgs: seq<Message>, tab: Platform,
                     start: int, base: nat, k: nat)
    requires SessionQueue(q, msgs, tab, start, base, k)
    requires AgreeBelow(q, q', base + Span(msgs))
    requires forall h :: h in q' && h >= base + Span(msgs) ==> !IsScripted(q'[h].action)
    ensures SessionQueue(q', msgs, tab, start, base, k)
  {
    forall j | 0 <= j < |msgs|
      ensures RevealHandle(msgs, base, j) < base + Span(msgs)
      ensures msgs[j].sender == Bot ==> TypingHandle(msgs, base, j) < base + Span(msgs)
    {
      RevealHandleInRange(msgs, tab, start, base, j);
    }
  }

  /**
   * In the schedule of a well-authored script, message `k`'s reveal is
   * created before, and due no later than, any timeout of a later message.
   */
  lemma EarlierRevealFirst(msgs: seq<Message>, tab: Platform, start: int, k: nat, j: nat, w: nat)
    requires DelaysNonDecreasing(msgs) && TypingWindowsClear(msgs)
    requires k < j < |msgs| && w < Width(msgs[j])
    ensures RevealPos(msgs, k) < TypingPos(msgs, j) + w < |Schedule(msgs, tab, start)|
    ensures Schedule(msgs, tab, start)[RevealPos(msgs, k)].fireAt
         <= Schedule(msgs, tab, start)[TypingPos(msgs, j) + w].fireAt
  {
    SpanMonotone(msgs, k + 1, j);
    SpanStep(msgs, k);
    ScheduledFireAt(msgs, tab, start, k, Width(msgs[k]) - 1);
    ScheduledFireAt(msgs, tab, start, j, w);
    if msgs[j].sender == Bot && w == 0 {
      assert msgs[k].delay < msgs[j].delay - TypingLead;
    } else {
      assert msgs[k].delay <= msgs[j].delay;
    }
  }

  /** When timeout `w` of message `j` fires: its typing lead or its own delay. */
  lemma ScheduledFireAt(msgs: seq<Message>, tab: Platform, start: int, j: nat, w: nat)
    requires j < |msgs| && w < Width(msgs[j])
    ensures TypingPos(msgs, j) + w < |Schedule(msgs, tab, start)|
    ensures Schedule(msgs, tab, start)[TypingPos(msgs, j) + w].fireAt
         == start + Clamp(if msgs[j].sender == Bot && w == 0 then msgs[j].delay - TypingLead else msgs[j].delay)
  {
    ScheduleAt(msgs, tab, start, j, w);
  }

  /** No timeout of an already revealed message is still pending. */
  lemma NotPendingOnceRevealed(q: map<nat, Timer>, msgs: seq<Message>, tab: Platform,
                               start: int, base: nat, k: nat, j: nat, w: nat)
    requires SessionQueue(q, msgs, tab, start, base, k)
    requires j < k && w < Width(msgs[j])
    ensures TypingHandle(msgs, base, j) + w !in q
  {
    if w == Width(msgs[j]) - 1 {
      assert TypingHandle(msgs, base, j) + w == RevealHandle(msgs, base, j);
    }
  }

  /** The next scripted timeout does not belong to a message already revealed ... */
  lemma NextNotEarlier(q: map<nat, Timer>, msgs: seq<Message>, tab: Platform,
                       start: int, base: nat, k: nat, h: nat, j: nat, w: nat)
    requires SessionQueue(q, msgs, tab, start, base, k)
    requires h in q && j < |msgs| && w < Width(msgs[j]) && h == TypingHandle(msgs, base, j) + w
    ensures k <= j
  {
    if j < k {
      NotPendingOnceRevealed(q, msgs, tab, start, base, k, j, w);
    }
  }

  /** ... nor to a message after the first unrevealed one. */
  lemma NextNotLater(q: map<nat, Timer>, msgs: seq<Message>, tab: Platform,
                     start: int, base: nat, k: nat, h: nat, j: nat, w: nat)
    requires SessionQueue(q, msgs, tab, start, base, k)
    requires DelaysNonDecreasing(msgs) && TypingWindowsClear(msgs)
    requires IsNext(q, h) && j < |msgs| && w < Width(msgs[j]) && h == TypingHandle(msgs, base, j) + w
    ensures j <= k
  {
    if k < j {
      EarlierRevealFirst(msgs, tab, start, k, j, w);
      RevealHandleInRange(msgs, tab, start, base, k);
    }
  }

  /**
   * When the next timeout is a scripted one, it belongs to message `k`, the
   * first one not yet revealed: scripts are authored in non-decreasing
   * delay order and the event loop breaks ties by creation order.
   */
  lemma NextScriptedIsMessageK(q: map<nat, Timer>, msgs: seq<Message>, tab: Platform,
                              start: int, base: nat, k: nat, h: nat)
    returns (w: nat)
    requires SessionQueue(q, msgs, tab, start, base, k)
    requires DelaysNonDecreasing(msgs) && TypingWindowsClear(msgs)
    requires IsNext(q, h) && IsScripted(q[h].action)
    ensures k < |msgs| && w < Width(msgs[k]) && h == TypingHandle(msgs, base, k) + w
    ensures q[h] == MessageTimers(msgs[k], tab, start)[w]
  {
    var sched := Schedule(msgs, tab, start);
    assert h < base + |sched|;
    var j;
    j, w := ScheduleIndex(msgs, tab, start, h - base);
    NextNotEarlier(q, msgs, tab, start, base, k, h, j, w);
    NextNotLater(q, msgs, tab, start, base, k, h, j, w);
  }

  /**
   * Every pending scripted timeout belongs to message `k` or a later one,
   * so none is due before message `k`'s typing window opens.
   */
  lemma PendingNotBeforeK(q: map<nat, Timer>, msgs: seq<Message>, tab: Platform,
                          start: int, base: nat, k: nat, x: nat)
    requires SessionQueue(q, msgs, tab, start, base, k) && DelaysNonDecreasing(msgs)
    requires x in q && IsScripted(q[x].action)
    ensures k < |msgs| && q[x].fireAt >= start + msgs[k].delay - TypingLead
  {
    SlotsScripted(q, msgs, tab, start, base);
    var sched := Schedule(msgs, tab, start);
    assert x < base + |sched|;
    var j, w := ScheduleIndex(msgs, tab, start, x - base);
    NextNotEarlier(q, msgs, tab, start, base, k, x, j, w);
    assert q[x] == MessageTimers(msgs[j], tab, start)[w];
    if k < j {
      assert msgs[k].delay <= msgs[j].delay;
    }
  }

  /** Every pending handle in the session's range carries a scripted timeout. */
  lemma SlotsScripted(q: map<nat, Timer>, msgs: seq<Message>, tab: Platform, start: int, base: nat)
    requires SlotsScheduled(q, msgs, tab, start, base)
    ensures forall h :: h in q && h < base + Span(msgs) ==> IsScripted(q[h].action)
  {
    var sched := Schedule(msgs, tab, start);
    forall h | h in q && h < base + Span(msgs)
      ensures IsScripted(q[h].action)
    {
      assert q[h] == sched[h - base];
    }
  }

  /** Taking timeouts off the table keeps every remaining slot's timer. */
  lemma SlotsRemove(q: map<nat, Timer>, s: set<nat>, msgs: seq<Message>, tab: Platform, start: int, base: nat)
    requires SlotsScheduled(q, msgs, tab, start, base)
    ensures SlotsScheduled(q - s, msgs, tab, start, base)
  {
  }

  /** Message `k`'s timeouts come before those of every later message. */
  lemma LaterRevealsAbove(msgs: seq<Message>, base: nat, k: nat, j: nat)
    requires k < j < |msgs|
    ensures TypingHandle(msgs, base, k) + Width(msgs[k]) <= RevealHandle(msgs, base, j)
  {
    SpanMonotone(msgs, k + 1, j);
    SpanStep(msgs, k);
  }

  /** The typing timeout of message `k` fires: the table loses just that timer. */
  lemma FireTypingOn(q: map<nat, Timer>, msgs: seq<Message>, tab: Platform,
                     start: int, base: nat, k: nat, h: nat)
    requires SessionQueue(q, msgs, tab, start, base, k)
    requires DelaysNonDecreasing(msgs) && TypingWindowsClear(msgs)
    requires IsNext(q, h) && q[h].action.TypingOn?
    ensures k < |msgs| && msgs[k].sender == Bot && h == TypingHandle(msgs, base, k)
    ensures SessionQueue(q - {h}, msgs, tab, start, base, k)
  {
    var w := NextScriptedIsMessageK(q, msgs, tab, start, base, k, h);
    SlotsRemove(q, {h}, msgs, tab, start, base);
    TypingStepReveals(q, msgs, base, k, h);
  }

  lemma TypingStepReveals(q: map<nat, Timer>, msgs: seq<Message>, base: nat, k: nat, h: nat)
    requires k < |msgs| && msgs[k].sender == Bot && h == TypingHandle(msgs, base, k)
    requires RevealState(q, msgs, base, k)
    ensures RevealState(q - {h}, msgs, base, k)
  {
    forall j | k <= j < |msgs|
      ensures RevealHandle(msgs, base, j) != h
    {
      if k < j {
        LaterRevealsAbove(msgs, base, k, j);
      }
    }
  }

  /** A bot message's typing timeout is gone by the time its reveal runs. */
  lemma TypingGoneAtReveal(q: map<nat, Timer>, msgs: seq<Message>, tab: Platform,
                           start: int, base: nat, k: nat, h: nat)
    requires SlotsScheduled(q, msgs, tab, start, base)
    requires k < |msgs| && msgs[k].sender == Bot && h == RevealHandle(msgs, base, k) && IsNext(q, h)
    ensures TypingHandle(msgs, base, k) !in q
  {
    var ht := TypingHandle(msgs, base, k);
    if ht in q {
      ScheduleAt(msgs, tab, start, k, 0);
      RevealHandleInRange(msgs, tab, start, base, k);
    }
  }

  lemma RevealStepReveals(q: map<nat, Timer>, msgs: seq<Message>, base: nat, k: nat, h: nat)
    requires k < |msgs| && h == RevealHandle(msgs, base, k)
    requires msgs[k].sender == Bot ==> TypingHandle(msgs, base, k) !in q
    requires RevealState(q, msgs, base, k)
    ensures RevealState(q - {h}, msgs, base, k + 1)
  {
    forall j | k + 1 <= j < |msgs|
      ensures RevealHandle(msgs, base, j) != h
    {
      LaterRevealsAbove(msgs, base, k, j);
    }
  }

  /**
   * The reveal timeout of message `k` fires: it is due at the message's own
   * delay and afterwards `k + 1` messages count as revealed.
   */
  lemma FireReveal(q: map<nat, Timer>, msgs: seq<Message>, tab: Platform,
                   start: int, base: nat, k: nat, h: nat)
    requires SessionQueue(q, msgs, tab, start, base, k)
    requires DelaysNonDecreasing(msgs) && TypingWindowsClear(msgs)
    requires IsNext(q, h) && (q[h].action.Reveal? || q[h].action.RevealBot?)
    ensures k < |msgs| && h == RevealHandle(msgs, base, k)
    ensures q[h] == Timer(start + Clamp(msgs[k].delay),
                          if msgs[k].sender == Bot then RevealBot(msgs[k], tab) else Reveal(msgs[k]))
    ensures SessionQueue(q - {h}, msgs, tab, start, base, k + 1)
  {
    var w := NextScriptedIsMessageK(q, msgs, tab, start, base, k, h);
    assert w == Width(msgs[k]) - 1;
    if msgs[k].sender == Bot {
      TypingGoneAtReveal(q, msgs, tab, start, base, k, h);
    }
    SlotsRemove(q, {h}, msgs, tab, start, base);
    RevealStepReveals(q, msgs, base, k, h);
  }

  /** Number of script messages due within `t` milliseconds of the session start. */
  function DueCount(msgs: seq<Message>, t: int): nat
  {
    if msgs == [] then 0
    else DueCount(msgs[..|msgs| - 1], t) + (if Clamp(msgs[|msgs| - 1].delay) <= t then 1 else 0)
  }

  lemma {:induction false} DueCountSplit(msgs: seq<Message>, t: int, k: nat)
    requires k <= |msgs|
    requires forall j :: 0 <= j < k ==> Clamp(msgs[j].delay) <= t
    requires forall j :: k <= j < |msgs| ==> Clamp(msgs[j].delay) > t
    ensures DueCount(msgs, t) == k
    decreases |msgs|
  {
    if msgs != [] {
      var n := |msgs| - 1;
      if k <= n {
        DueCountSplit(msgs[..n], t, k);
      } else {
        DueCountSplit(msgs[..n], t, n);
      }
    }
  }

  /**
   * Once no pending timeout is due, the revealed count is exactly the number
   * of script messages whose delay has elapsed.
   */
  lemma SettledRevealCount(q: map<nat, Timer>, msgs: seq<Message>, tab: Platform,
                           start: int, base: nat, k: nat, now: int)
    requires SessionQueue(q, msgs, tab, start, base, k)
    requires forall h :: h in q ==> q[h].fireAt > now
    requires forall j :: 0 <= j < k ==> start + Clamp(msgs[j].delay) <= now
    ensures k == DueCount(msgs, now - start)
    ensures forall j :: k <= j < |msgs| ==> start + Clamp(msgs[j].delay) > now
  {
    forall j | k <= j < |msgs|
      ensures Clamp(msgs[j].delay) > now - start
    {
      RevealHandleInRange(msgs, tab, start, base, j);
      var hj := RevealHandle(msgs, base, j);
      assert q[hj] == Schedule(msgs, tab, start)[hj - base];
    }
    DueCountSplit(msgs, now - start, k);
  }
}
