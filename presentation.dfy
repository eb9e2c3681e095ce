/**
 * What a displayed message turns into on screen, reduced to its shape: which
 * side of the conversation it sits on, whether the business avatar goes
 * beside it, and the WhatsApp read ticks. Colours, animation and images are
 * not modelled; only the decisions the bubble component makes from the
 * message's sender and kind, and the masked PIN field of the payment overlay.
 */
module Presentation {
  import opened Scenarios

  datatype Align = Start | End | Center

  /** The colour scheme the component picks for a text bubble. */
  datatype Tone =
    | WhatsAppOutgoing | MessengerGrey | TikTokGradient
    | WhatsAppIncoming | InstagramGradient | TikTokDark

  datatype Bubble =
    /** A payment confirmation with a check mark and no avatar, centred. */
    | Notice(align: Align, text: string)
    /** The product photo with its price badge, next to the business avatar. */
    | ProductCard(badge: string)
    /**
     * A chat bubble. `tailRight`/`tailLeft` are the squared corners pointing
     * at the speaker; `pill` is the fully rounded Messenger-style bubble.
     */
    | TextBubble(
        align: Align,
        avatar: bool,
        tone: Tone,
        pill: bool,
        tailRight: bool,
        tailLeft: bool,
        blueTicks: bool,
        text: string)

  /** The price badge printed on the product card. */
  const ProductBadge := "KES 4,500"

  function ToneFor(isUser: bool, p: Platform): Tone
  {
    if isUser then
      (if p == WhatsApp then WhatsAppOutgoing else if p == Instagram then MessengerGrey else TikTokGradient)
    else
      (if p == WhatsApp then WhatsAppIncoming else if p == Instagram then InstagramGradient else TikTokDark)
  }

  /**
   * The bubble for message `m` on platform `p`. The checks run in the
   * component's order: a system message first, then an image, then the text
   * bubble, so an image message is a product card whoever sends it.
   */
  function BubbleFor(m: Message, p: Platform): (b: Bubble)
    ensures b.Notice? <==> m.sender == System
    ensures b.ProductCard? <==> m.sender != System && m.kind == Image
    ensures b.Notice? ==> b.text == m.content
    ensures b.Notice? || b.TextBubble? ==> (b.align == Center <==> m.sender == System)
    ensures b.TextBubble? ==> b.text == m.content
  {
    if m.sender == System then Notice(Center, m.content)
    else if m.kind == Image then ProductCard(ProductBadge)
    else
      var isUser := m.sender == User;
      TextBubble(
        if isUser then End else Start,
        !isUser,
        ToneFor(isUser, p),
        p == Instagram && isUser,
        isUser && p != Instagram,
        !isUser && p != Instagram,
        isUser && p == WhatsApp,
        m.content)
  }

  /** Whether the business avatar is drawn next to the bubble. */
  function ShowsAvatar(b: Bubble): bool
  {
    match b
    case Notice(_, _) => false
    case ProductCard(_) => true
    case TextBubble(_, avatar, _, _, _, _, _, _) => avatar
  }

  /**
   * A text bubble sits on the customer's side exactly when the customer
   * sent it, carries the avatar exactly when it does not, has one squared
   * corner on the speaker's side except on Instagram, and shows the blue
   * ticks only for the customer's WhatsApp messages.
   */
  lemma TextBubbleShape(m: Message, p: Platform)
    requires m.sender != System && m.kind != Image
    ensures BubbleFor(m, p).TextBubble?
    ensures BubbleFor(m, p).align == End <==> m.sender == User
    ensures ShowsAvatar(BubbleFor(m, p)) <==> m.sender == Bot
    ensures BubbleFor(m, p).blueTicks <==> m.sender == User && p == WhatsApp
    ensures BubbleFor(m, p).pill <==> m.sender == User && p == Instagram
    ensures p == Instagram ==> !BubbleFor(m, p).tailRight && !BubbleFor(m, p).tailLeft
    ensures p != Instagram ==> (BubbleFor(m, p).tailRight <==> m.sender == User)
    ensures p != Instagram ==> (BubbleFor(m, p).tailLeft <==> m.sender == Bot)
  {
  }

  /** Only the business's messages ever show the business avatar. */
  lemma AvatarOnlyForBusiness(p: Platform, i: int)
    requires 0 <= i < |ScriptOf(p)|
    ensures ShowsAvatar(BubbleFor(ScriptOf(p)[i], p)) <==> ScriptOf(p)[i].sender == Bot
  {
  }

  /**
   * The product card's badge shows the amount the Instagram payment overlay
   * asks for, and the card appears only in the Instagram script.
   */
  lemma ProductCardMatchesPayment(p: Platform, i: int)
    requires 0 <= i < |ScriptOf(p)|
    requires BubbleFor(ScriptOf(p)[i], p).ProductCard?
    ensures p == Instagram
    ensures BubbleFor(ScriptOf(p)[i], p).badge == MpesaFor(p).amount
  {
  }

  /** `text` contains `s` at some offset. */
  predicate Contains(text: string, s: string)
  {
    s <= text || (text != [] && Contains(text[1..], s))
  }

  /** What bubble `b` shows the customer as a price. */
  predicate ShowsPrice(b: Bubble, amount: string)
  {
    match b
    case Notice(_, _) => false
    case ProductCard(badge) => badge == amount
    case TextBubble(_, _, _, _, _, _, _, text) => Contains(text, amount)
  }

  /**
   * On every tab the amount the payment overlay asks for is a price the
   * business showed the customer in that chat no later than the message that
   * opens the overlay: quoted in a message on WhatsApp and TikTok, on the
   * product card's badge on Instagram.
   */
  lemma AmountIsQuotedPrice(p: Platform)
    ensures exists i, j ::
              (0 <= i <= j < |ScriptOf(p)| && ScriptOf(p)[j].triggerMpesa && ScriptOf(p)[i].sender == Bot
               && ShowsPrice(BubbleFor(ScriptOf(p)[i], p), MpesaFor(p).amount))
  {
    var i, j := QuoteAndTrigger(p);
  }

  /** Where each script shows the price and where it opens the overlay. */
  lemma QuoteAndTrigger(p: Platform) returns (i: nat, j: nat)
    ensures i <= j < |ScriptOf(p)| && ScriptOf(p)[j].triggerMpesa && ScriptOf(p)[i].sender == Bot
    ensures ShowsPrice(BubbleFor(ScriptOf(p)[i], p), MpesaFor(p).amount)
  {
    match p
    case WhatsApp =>
      i, j := 3, 3;
      WhatsAppQuote();
    case Instagram =>
      i, j := 2, 4;
    case TikTok =>
      i, j := 1, 3;
      TikTokQuote();
  }

  /** "Total: KES 7,500. ..." quotes the WhatsApp amount. */
  lemma WhatsAppQuote()
    ensures Contains(WhatsAppScript[3].content, "KES 7,500")
  {
    var text := WhatsAppScript[3].content;
    WhatsAppQuoteTail();
    assert "KES 7,500" <= "KES 7,500. Sending M-Pesa prompt...";
    UnfoldContains(text, "KES 7,500", 7);
  }

  /** The WhatsApp total message after its 7-character "Total: " label. */
  lemma WhatsAppQuoteTail()
    ensures |WhatsAppScript[3].content| >= 7
    ensures WhatsAppScript[3].content[7..] == "KES 7,500. Sending M-Pesa prompt..."
  {
    assert WhatsAppScript[3].content == "Total: KES 7,500. Sending M-Pesa prompt...";
  }

  /** "KES 3,500. ..." opens with the TikTok amount. */
  lemma TikTokQuote()
    ensures Contains(TikTokScript[1].content, "KES 3,500")
  {
    assert TikTokScript[1].content == "KES 3,500. Reply with your number to order.";
    assert "KES 3,500" <= "KES 3,500. Reply with your number to order.";
  }

  /** What the tail from offset `k` contains, the whole text contains. */
  lemma {:induction false} UnfoldContains(text: string, s: string, k: nat)
    requires k <= |text| && Contains(text[k..], s)
    ensures Contains(text, s)
    decreases k
  {
    if k > 0 {
      assert text[1..][k - 1..] == text[k..];
      UnfoldContains(text[1..], s, k - 1);
    }
  }

  /** `"*".repeat(n)`: the masked PIN field after `n` digits. */
  function Mask(n: nat): (r: string)
    ensures |r| == n
    ensures forall i :: 0 <= i < n ==> r[i] == '*'
  {
    if n == 0 then "" else Mask(n - 1) + "*"
  }

  /**
   * As the digit counter only moves forward, the field only ever gains
   * asterisks: an earlier mask is a prefix of every later one.
   */
  lemma {:induction false} MaskGrows(m: nat, n: nat)
    requires m <= n
    ensures Mask(m) <= Mask(n)
    decreases n
  {
    if m < n {
      MaskGrows(m, n - 1);
    }
  }
}
