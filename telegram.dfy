/**
 * The messaging side as values: what arrives (updates) and what is sent
 * (events appended to an outbox), plus the product notice every script
 * formats the same way up to two details.
 */
module Telegram {
  import opened Text
  import opened Catalog

  /** The configured `TELEGRAM_CHAT_ID`, or the chat an update came from. */
  datatype Chat = ConfiguredChat | ChatId(id: int)

  /** A delivered `sendMessage` or `sendPhoto` call. */
  datatype Event =
    | SendMessage(to: Chat, text: string)
    | SendPhoto(to: Chat, photo: string, caption: string)

  /** An update's `message`; its `text` and `chat.id` may be missing. */
  datatype Incoming = Incoming(text: Option<string>, chatId: Option<int>)

  datatype Update = Update(updateId: int, message: Option<Incoming>)

  /** `update.get("message", {}).get("text", "")` */
  function TextOf(u: Update): string {
    if u.message.Some? then OrEmpty(u.message.value.text) else ""
  }

  /** `chat_id`, when it is truthy: present and not 0. */
  function ChatOf(u: Update): (chat: Option<int>)
    ensures chat.Some? <==> u.message.Some? && u.message.value.chatId.Some? && u.message.value.chatId.value != 0
    ensures chat.Some? ==> chat.value == u.message.value.chatId.value
  {
    if u.message.Some? && u.message.value.chatId.Some? && u.message.value.chatId.value != 0
    then u.message.value.chatId
    else None
  }

  /**
   * The two ways the scripts' captions differ: whether the title line opens
   * with "🆕 ", and whether "¥" is put before the price.
   */
  datatype CaptionStyle = CaptionStyle(head: string, currency: string)

  const NewMark: string := "\U{1F195} "
  const PriceMark: char := '\U{1F4B4}'
  const FolderMark: char := '\U{1F4C1}'

  /** bot.py's `send_product`. */
  const NoticeStyle := CaptionStyle(NewMark, "\U{A5}")
  /** bot_commands.py's `/latest` reply. */
  const LatestStyle := CaptionStyle("", "\U{A5}")
  /** check_new_products.py's per-item notice: the price as fetched. */
  const CheckerStyle := CaptionStyle(NewMark, "")

  const BoldOpen := "<b>"
  const BoldClose := "</b>\n"
  const LinkOpen := "\n\U{1F517} <a href=\""
  const LinkClose := "\">View product</a>"

  function TitleLine(style: CaptionStyle, p: Item): string {
    style.head + BoldOpen + p.title + BoldClose
  }

  function PriceLine(style: CaptionStyle, p: Item): string {
    if p.price == "" then "" else [PriceMark] + " " + style.currency + p.price + "\n"
  }

  function LabelLine(p: Item): string {
    [FolderMark] + " " + CollectionLabel(p.collection) + "\n"
  }

  function LinkLine(p: Item): string {
    LinkOpen + p.url + LinkClose
  }

  function Caption(style: CaptionStyle, p: Item): string {
    TitleLine(style, p) + PriceLine(style, p) + LabelLine(p) + LinkLine(p)
  }

  /**
   * The caption opens with the title line and closes with the product link;
   * right after the title line comes the price line exactly when the product
   * has a price, and otherwise the collection label line.
   */
  lemma CaptionLayout(style: CaptionStyle, p: Item)
    ensures var c, t := Caption(style, p), TitleLine(style, p);
      && StartsWith(c, t)
      && |c| > |t|
      && (c[|t|] == PriceMark <==> p.price != "")
      && (p.price != "" ==> c[|t|..|t| + |PriceLine(style, p)|] == [PriceMark] + " " + style.currency + p.price + "\n")
      && c[|c| - |LinkLine(p)|..] == LinkLine(p)
  {
    var c, t := Caption(style, p), TitleLine(style, p);
    var rest := PriceLine(style, p) + LabelLine(p) + LinkLine(p);
    assert c == t + rest;
    assert c[|t|..|t| + |PriceLine(style, p)|] == PriceLine(style, p);
  }

  /**
   * `send_telegram_photo` with its fallback, or `send_telegram_message`:
   * a photo when there is an image and the photo call succeeds
   * (`photoOk`), the caption as text otherwise.
   */
  function Deliver(to: Chat, image: string, caption: string, photoOk: string -> bool): (sent: seq<Event>)
    ensures |sent| == 1
    ensures sent[0].SendPhoto? <==> image != "" && photoOk(image)
    ensures sent[0].SendPhoto? ==> sent[0] == SendPhoto(to, image, caption)
    ensures sent[0].SendMessage? ==> sent[0] == SendMessage(to, caption)
  {
    if image != "" && photoOk(image) then [SendPhoto(to, image, caption)] else [SendMessage(to, caption)]
  }

  /** One notice for one product. */
  function Notice(style: CaptionStyle, p: Item, to: Chat, photoOk: string -> bool): Event {
    Deliver(to, p.image, Caption(style, p), photoOk)[0]
  }

  /** The notices for a list of products, sent one after another. */
  function NoticeAll(style: CaptionStyle, items: seq<Item>, to: Chat, photoOk: string -> bool): (sent: seq<Event>)
    ensures |sent| == |items|
    ensures forall k :: 0 <= k < |items| ==> sent[k] == Notice(style, items[k], to, photoOk)
    decreases |items|
  {
    if items == [] then []
    else
      var n := |items| - 1;
      var rest := NoticeAll(style, items[..n], to, photoOk);
      assert forall k :: 0 <= k < n ==> items[..n][k] == items[k];
      rest + [Notice(style, items[n], to, photoOk)]
  }

  /** Every notice goes to the chat it was addressed to. */
  lemma NoticeAllTo(style: CaptionStyle, items: seq<Item>, to: Chat, photoOk: string -> bool)
    ensures forall e :: e in NoticeAll(style, items, to, photoOk) ==> e.to == to
  {
    var sent := NoticeAll(style, items, to, photoOk);
    forall e | e in sent ensures e.to == to {
      var k :| 0 <= k < |sent| && sent[k] == e;
      assert e == Notice(style, items[k], to, photoOk);
    }
  }

  /** Sending one more product appends its notice. */
  lemma NoticeAllNext(style: CaptionStyle, products: seq<Item>, k: nat, to: Chat, photoOk: string -> bool)
    requires k < |products|
    ensures NoticeAll(style, products[..k + 1], to, photoOk)
         == NoticeAll(style, products[..k], to, photoOk) + Deliver(to, products[k].image, Caption(style, products[k]), photoOk)
  {
    assert products[..k + 1][..k] == products[..k];
    var d := Deliver(to, products[k].image, Caption(style, products[k]), photoOk);
    assert d == [d[0]];
  }

  /** The `for p in products: … send …` loop: one notice per product, in order. */
  method SendEach(style: CaptionStyle, products: seq<Item>, to: Chat, photoOk: string -> bool) returns (sent: seq<Event>)
    ensures sent == NoticeAll(style, products, to, photoOk)
  {
    sent := [];
    for k := 0 to |products|
      invariant sent == NoticeAll(style, products[..k], to, photoOk)
    {
      var caption := Caption(style, products[k]);
      NoticeAllNext(style, products, k, to, photoOk);
      sent := sent + Deliver(to, products[k].image, caption, photoOk);
    }
    assert products[..|products|] == products;
  }

  /** The cursor after a batch: the last update's id plus one, or unchanged for an empty batch. */
  function NextOffset(offset: int, updates: seq<Update>): int {
    if updates == [] then offset else updates[|updates| - 1].updateId + 1
  }

  /** Update ids as the transport hands them out: increasing, and none below the cursor asked with. */
  predicate ServedFrom(offset: int, updates: seq<Update>) {
    && (forall k :: 0 <= k < |updates| ==> updates[k].updateId >= offset)
    && (forall i, j :: 0 <= i < j < |updates| ==> updates[i].updateId < updates[j].updateId)
  }

  /**
   * After a batch served in order the cursor has not gone back, and it is
   * the largest id of the batch plus one: past every update, and one past
   * one of them.
   */
  lemma CursorPastBatch(offset: int, updates: seq<Update>)
    requires ServedFrom(offset, updates)
    ensures NextOffset(offset, updates) >= offset
    ensures forall k :: 0 <= k < |updates| ==> updates[k].updateId < NextOffset(offset, updates)
    ensures updates != [] ==> exists k :: 0 <= k < |updates| && NextOffset(offset, updates) == updates[k].updateId + 1
  {
    if updates != [] {
      assert NextOffset(offset, updates) == updates[|updates| - 1].updateId + 1;
    }
  }

  /** Out of order, the last id need not be the largest: the cursor can fall back onto an update already handled. */
  lemma CursorUnorderedBatch()
    ensures var updates := [Update(5, None), Update(3, None)];
      NextOffset(0, updates) == 4 && updates[0].updateId >= NextOffset(0, updates)
  {
  }
}
