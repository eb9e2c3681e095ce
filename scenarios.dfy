/**
 * The scripted demo content of the chat simulator: one scenario per
 * messaging-platform skin, each an ordered list of timed messages, and the
 * fixed per-platform payment details shown by the M-Pesa overlay.
 * Everything here is immutable data and pure lookups.
 */
module Scenarios {

  datatype Option<T> = None | Some(value: T)

  /** The closed set of platform skins. */
  datatype Platform = WhatsApp | Instagram | TikTok

  datatype Sender = User | Bot | System

  /** The content kind of a message ("text", "image" or "prompt"). */
  datatype Kind = Text | Image | Prompt

  /**
   * One scripted message. `delay` is the offset in milliseconds from the
   * start of the session; an absent `triggerMpesa` is `false`.
   */
  datatype Message = Message(
    id: string,
    sender: Sender,
    kind: Kind,
    content: string,
    delay: int,
    triggerMpesa: bool)

  datatype Scenario = Scenario(
    id: Platform,
    name: string,
    businessName: string,
    avatar: string,
    messages: seq<Message>)

  /** What the payment overlay asks the customer to confirm. */
  datatype MpesaDetails = MpesaDetails(amount: string, business: string)

  const WhatsAppAvatarUrl: string :=
    "https://images.unsplash.com/photo-1581092160562-40aa08e78837?q=80&w=100&auto=format&fit=crop"
  const InstagramAvatarUrl: string :=
    "https://images.unsplash.com/photo-1542291026-7eec264c27ff?q=80&w=100&auto=format&fit=crop"
  const TikTokAvatarUrl: string :=
    "https://images.unsplash.com/photo-1550009158-9ebf69173e03?q=80&w=100&auto=format&fit=crop"

  /** The WhatsApp script (Jenga Hardware). */
  const WhatsAppScript: seq<Message> := [
    Message("w1", User, Text, "Do you have Simba Cement?", 0, false),
    Message("w2", Bot, Text, "Yes! 50kg bag is KES 750. We have 40 bags left.", 1000, false),
    Message("w3", User, Text, "I need 10 bags.", 1800, false),
    Message("w4", Bot, Text, "Total: KES 7,500. Sending M-Pesa prompt...", 2800, true),
    Message("w5", System, Prompt, "\U{2705} Payment Confirmed. Receipt: QDH82KL9M.", 6500, false),
    Message("w6", Bot, Text, "Order confirmed! \U{2705} Delivery rider will call you shortly.", 7500, false)
  ]

  /** The Instagram script (Nairobi Kicks). */
  const InstagramScript: seq<Message> := [
    Message("i1", User, Text, "Size 42 available?", 0, false),
    Message("i2", Bot, Text, "Yes! 2 pairs left in Size 42. Check them out:", 1000, false),
    Message("i3", Bot, Image, "Product Card", 1800, false),
    Message("i4", User, Text, "I'll take it!", 3300, false),
    Message("i5", Bot, Text, "Great! Sending M-Pesa request...", 4100, true),
    Message("i6", Bot, Text, "Paid! We will DM the delivery details. \U{1F4E6}", 7700, false)
  ]

  /** The TikTok script (TechTrend Gadgets). */
  const TikTokScript: seq<Message> := [
    Message("t1", User, Text, "Price?", 0, false),
    Message("t2", Bot, Text, "KES 3,500. Reply with your number to order.", 1000, false),
    Message("t3", User, Text, "0722000000", 2500, false),
    Message("t4", Bot, Text, "Sending M-Pesa request...", 3500, true),
    Message("t5", Bot, Text, "Order placed! \U{1F69A} Shipping now.", 7000, false)
  ]

  /** The scenario table, in declaration order. */
  const Table: seq<Scenario> := [
    Scenario(WhatsApp, "WhatsApp", "Jenga Hardware", WhatsAppAvatarUrl, WhatsAppScript),
    Scenario(Instagram, "Instagram", "Nairobi Kicks", InstagramAvatarUrl, InstagramScript),
    Scenario(TikTok, "TikTok", "TechTrend Gadgets", TikTokAvatarUrl, TikTokScript)
  ]

  /** `table.find(s => s.id === p)`: the first scenario whose id is `p`. */
  function Find(table: seq<Scenario>, p: Platform): (r: Option<Scenario>)
    ensures r.Some? ==> r.value in table && r.value.id == p
    ensures r.Some? ==> exists i :: 0 <= i < |table| && table[i] == r.value
                                   && forall j :: 0 <= j < i ==> table[j].id != p
    ensures r.None? <==> forall i :: 0 <= i < |table| ==> table[i].id != p
  {
    if table == [] then None
    else if table[0].id == p then Some(table[0])
    else
      var r := Find(table[1..], p);
      if r.Some? then
        var i :| 0 <= i < |table[1..]| && table[1..][i] == r.value
                 && forall j :: 0 <= j < i ==> table[1..][j].id != p;
        assert table[i + 1] == r.value && forall j :: 0 <= j < i + 1 ==> table[j].id != p;
        r
      else r
  }

  /** Every platform has exactly one scenario in the table. */
  lemma TableCoversEachPlatformOnce(p: Platform)
    ensures exists i :: 0 <= i < |Table| && Table[i].id == p
    ensures forall i, j :: 0 <= i < |Table| && 0 <= j < |Table| && Table[i].id == Table[j].id ==> i == j
  {
    match p
    case WhatsApp => assert Table[0].id == p;
    case Instagram => assert Table[1].id == p;
    case TikTok => assert Table[2].id == p;
  }

  /** `currentScenario`: the non-null `find` for the active tab. */
  function ScenarioFor(p: Platform): (s: Scenario)
    ensures s in Table && s.id == p
  {
    TableCoversEachPlatformOnce(p);
    Find(Table, p).value
  }

  /**
   * The payment details for the overlay, looked up from the active tab.
   * They are never the blank details the component starts with.
   */
  function MpesaFor(p: Platform): (r: MpesaDetails)
    ensures |r.amount| > 0 && |r.business| > 0
  {
    var amount :=
      if p == WhatsApp then "KES 7,500"
      else if p == Instagram then "KES 4,500"
      else "KES 3,500";
    var business :=
      if p == WhatsApp then "JENGA HARDWARE"
      else if p == Instagram then "NAIROBI KICKS"
      else "TECHTREND GADGETS";
    MpesaDetails(amount, business)
  }

  function UpperChar(c: char): char
  {
    if 'a' <= c <= 'z' then (c as int - 32) as char else c
  }

  function Upper(s: string): (r: string)
    ensures |r| == |s|
    ensures forall i :: 0 <= i < |s| ==> r[i] == UpperChar(s[i])
  {
    seq(|s|, i requires 0 <= i < |s| => UpperChar(s[i]))
  }

  /**
   * The overlay's hard-coded payee is the scenario's business name in upper
   * case: the payee table agrees with the scenarios' business names.
   */
  lemma PayeeIsBusinessName(p: Platform)
    ensures MpesaFor(p).business == Upper(ScenarioFor(p).businessName)
  {
    var s := ScenarioFor(p);
    TableCoversEachPlatformOnce(p);
    match p
    case WhatsApp =>
      assert s == Table[0];
      assert Upper("Jenga Hardware") == "JENGA HARDWARE";
    case Instagram =>
      assert s == Table[1];
      assert Upper("Nairobi Kicks") == "NAIROBI KICKS";
    case TikTok =>
      assert s == Table[2];
      assert Upper("TechTrend Gadgets") == "TECHTREND GADGETS";
  }

  // Authoring rules the scenario data follows. None of them is checked at
  // run time; the scheduler's ordering guarantees rely on them.

  const TypingLead := 400
  const OverlayDuration := 3000

  predicate UniqueIds(msgs: seq<Message>)
  {
    forall i, j :: 0 <= i < j < |msgs| ==> msgs[i].id != msgs[j].id
  }

  predicate DelaysNonDecreasing(msgs: seq<Message>)
  {
    forall i, j :: 0 <= i < j < |msgs| ==> msgs[i].delay <= msgs[j].delay
  }

  predicate DelaysNonNegative(msgs: seq<Message>)
  {
    forall i :: 0 <= i < |msgs| ==> msgs[i].delay >= 0
  }

  /** A bot message leaves room for its typing indicator after time 0. */
  predicate BotLeadFits(msgs: seq<Message>)
  {
    forall i :: 0 <= i < |msgs| && msgs[i].sender == Bot ==> msgs[i].delay >= TypingLead
  }

  /** Every earlier message is shown before a bot's typing window opens. */
  predicate TypingWindowsClear(msgs: seq<Message>)
  {
    forall i, j :: 0 <= i < j < |msgs| && msgs[j].sender == Bot ==>
      msgs[i].delay < msgs[j].delay - TypingLead
  }

  /** The message after a payment trigger waits for the overlay to close. */
  predicate OverlayGapRespected(msgs: seq<Message>)
  {
    forall i :: 0 <= i < |msgs| - 1 && msgs[i].triggerMpesa ==>
      msgs[i + 1].delay >= msgs[i].delay + OverlayDuration
  }

  /** The authoring rules of one scenario's script. */
  predicate ScriptWellFormed(msgs: seq<Message>)
  {
    && UniqueIds(msgs)
    && DelaysNonDecreasing(msgs)
    && DelaysNonNegative(msgs)
    && BotLeadFits(msgs)
    && TypingWindowsClear(msgs)
    && OverlayGapRespected(msgs)
  }

  /** The script an authored scenario plays, by platform. */
  function ScriptOf(p: Platform): seq<Message>
  {
    match p
    case WhatsApp => WhatsAppScript
    case Instagram => InstagramScript
    case TikTok => TikTokScript
  }

  lemma AuthoredIdsUnique(p: Platform)
    ensures UniqueIds(ScriptOf(p))
  {
  }

  lemma AuthoredDelaysNonDecreasing(p: Platform)
    ensures DelaysNonDecreasing(ScriptOf(p))
  {
  }

  lemma AuthoredDelaysNonNegative(p: Platform)
    ensures DelaysNonNegative(ScriptOf(p))
  {
  }

  lemma AuthoredBotLeadFits(p: Platform)
    ensures BotLeadFits(ScriptOf(p))
  {
  }

  lemma AuthoredTypingWindowsClear(p: Platform)
    ensures TypingWindowsClear(ScriptOf(p))
  {
  }

  lemma AuthoredOverlayGapRespected(p: Platform)
    ensures OverlayGapRespected(ScriptOf(p))
  {
  }

  /** The table's scenario for `p` plays `ScriptOf(p)`. */
  lemma ScenarioPlaysScript(p: Platform)
    ensures ScenarioFor(p).messages == ScriptOf(p)
  {
    TableCoversEachPlatformOnce(p);
    match p
    case WhatsApp => assert ScenarioFor(p) == Table[0];
    case Instagram => assert ScenarioFor(p) == Table[1];
    case TikTok => assert ScenarioFor(p) == Table[2];
  }

  /** The authored scenarios obey every authoring rule. */
  lemma AuthoredScenariosWellFormed(p: Platform)
    ensures ScriptWellFormed(ScenarioFor(p).messages)
  {
    ScenarioPlaysScript(p);
    AuthoredIdsUnique(p);
    AuthoredDelaysNonDecreasing(p);
    AuthoredDelaysNonNegative(p);
    AuthoredBotLeadFits(p);
    AuthoredTypingWindowsClear(p);
    AuthoredOverlayGapRespected(p);
  }

  function PrefixOf(p: Platform): char
  {
    match p
    case WhatsApp => 'w'
    case Instagram => 'i'
    case TikTok => 't'
  }

  lemma AuthoredIdsPrefixed(p: Platform)
    ensures forall i :: 0 <= i < |ScriptOf(p)| ==> |ScriptOf(p)[i].id| > 0 && ScriptOf(p)[i].id[0] == PrefixOf(p)
  {
  }

  /**
   * Message ids carry a per-platform prefix, so no message of one scenario
   * belongs to another.
   */
  lemma ScenariosShareNoMessage(p: Platform, q: Platform, m: Message)
    requires p != q
    requires m in ScenarioFor(p).messages
    ensures m !in ScenarioFor(q).messages
  {
    ScenarioPlaysScript(p);
    ScenarioPlaysScript(q);
    AuthoredIdsPrefixed(p);
    AuthoredIdsPrefixed(q);
  }
}
