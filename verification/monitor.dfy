/**
 * The relay core of monitor.py: the per-event routing in `message_handler`, and
 * `send_message_via_bot`, which formats a relevant message and posts it to the
 * Bot API. Telegram objects are records of optional attributes; the model's reply
 * and the HTTP status are inputs.
 */
module Monitor {
  import opened Text
  import Relevance
  import ChannelStore
  import QueryStore

  /** A chat as the handler probes it; an absent attribute is `None`. */
  datatype Chat = Chat(title: Attr, username: Attr, id: Option<int>)

  /** The sender of a message, probed with `hasattr(sender, a) and sender.a`. */
  datatype Sender = Sender(firstName: Attr, lastName: Attr, title: Attr, username: Attr)

  /** A message: its id, its text (possibly `None` or empty) and its date already formatted. */
  datatype Message = Message(id: int, text: Value, date: string)

  const NonTextSentinel: string := "[Non-text content]"
  const MediaSentinel: string := "[Media/File/Sticker/Other content]"

  // ---------------------------------------------------------------------------
  // Routing (`message_handler` in `setup_message_handler`)

  /** `getattr(chat, "title", getattr(chat, "username", "Unknown"))`. */
  function ChatName(chat: Chat): (name: Value)
    ensures chat.title.Some? ==> name == chat.title.value
    ensures chat.title.None? && chat.username.Some? ==> name == chat.username.value
    ensures chat.title.None? && chat.username.None? ==> name == Str("Unknown")
  {
    GetAttr(chat.title, GetAttr(chat.username, Str("Unknown")))
  }

  /** `chat_name in monitored_channels`: a `None` name is never a member. */
  predicate IsMonitored(name: Value, channels: set<string>) {
    name.Str? && name.s in channels
  }

  /**
   * A chat whose event gets past the membership test: its name is a monitored one, and
   * it has the `id` attribute that the next statement logs (without one, the lookup
   * raises and the handler's `except` swallows the event).
   */
  predicate Admitted(chat: Chat, channels: set<string>) {
    IsMonitored(ChatName(chat), channels) && chat.id.Some?
  }

  /** The text handed to the relevance check: `message.text or ""`, then the sentinel for empty. */
  function TextForCheck(text: Value): (t: string)
    ensures t != ""
    ensures Truthy(text) ==> t == text.s
    ensures !Truthy(text) ==> t == NonTextSentinel
  {
    var t := OrDefault(text, "");
    if t == "" then NonTextSentinel else t
  }

  /** A step of the handler that leaves the handler. */
  datatype Call =
    | CheckRelevance(text: string, query: string)   // `is_message_relevant(message_text, current_query)`
    | ProcessNewMessage(messageId: int)             // `process_new_message(message, chat)`
    | SendViaBot(messageId: int, chatName: string)  // `send_message_via_bot(message, chat, chat_name)`

  // ---------------------------------------------------------------------------
  // Formatting (`send_message_via_bot`, `process_new_message`)

  /** The sender's display name, probing each attribute for a truthy value. */
  function SenderName(sender: Option<Sender>): (name: string)
    ensures name != ""
    ensures sender.None? ==> name == "Unknown"
    ensures sender.Some? && AttrTruthy(sender.value.firstName) ==>
      name == sender.value.firstName.value.s
              + (if AttrTruthy(sender.value.lastName) then " " + sender.value.lastName.value.s else "")
    ensures sender.Some? && !AttrTruthy(sender.value.firstName) && AttrTruthy(sender.value.title) ==>
      name == sender.value.title.value.s
    ensures sender.Some? && !AttrTruthy(sender.value.firstName) && !AttrTruthy(sender.value.title)
            && AttrTruthy(sender.value.username) ==>
      name == "@" + sender.value.username.value.s
    ensures sender.Some? && !AttrTruthy(sender.value.firstName) && !AttrTruthy(sender.value.title)
            && !AttrTruthy(sender.value.username) ==>
      name == "Unknown"
  {
    match sender
    case None => "Unknown"
    case Some(s) =>
      if AttrTruthy(s.firstName) then
        s.firstName.value.s + (if AttrTruthy(s.lastName) then " " + s.lastName.value.s else "")
      else if AttrTruthy(s.title) then s.title.value.s
      else if AttrTruthy(s.username) then "@" + s.username.value.s
      else "Unknown"
  }

  /** Two attributes a `hasattr(x, a) and x.a` probe cannot tell apart. */
  predicate SameWhenProbed(a: Attr, b: Attr) {
    AttrTruthy(a) == AttrTruthy(b) && (AttrTruthy(a) ==> a.value.s == b.value.s)
  }

  /**
   * An absent attribute, one set to `None` and one set to "" give the same sender
   * name: only truthy values count, unlike the `getattr` chain of `ChatName`.
   */
  lemma SenderNameSeesOnlyTruthy(a: Sender, b: Sender)
    requires SameWhenProbed(a.firstName, b.firstName) && SameWhenProbed(a.lastName, b.lastName)
    requires SameWhenProbed(a.title, b.title) && SameWhenProbed(a.username, b.username)
    ensures SenderName(Some(a)) == SenderName(Some(b))
  {
  }

  /** `ChatName` keeps a present but empty title, where a probe for truthiness would move on. */
  lemma ChatNameKeepsFalsyTitle(username: string)
    ensures ChatName(Chat(Some(Str("")), Some(Str(username)), None)) == Str("")
    ensures ChatName(Chat(Some(Null), Some(Str(username)), None)) == Null
    ensures ChatName(Chat(None, Some(Null), None)) == Null
  {
  }

  /** `str(chat.id).replace('-100', '')`. */
  function PrivateChatId(id: int): string {
    ReplaceAll(IntToString(id), "-100", "")
  }

  /** The private link path: the only "-100" that `replace` can find is a leading one. */
  lemma {:induction false} PrivateChatIdDropsLeadingPrefix(id: int)
    ensures PrivateChatId(id) ==
      if StartsWith(IntToString(id), "-100") then IntToString(id)[4..] else IntToString(id)
  {
    var s := IntToString(id);
    if id >= 0 {
      ReplaceAbsent(s, "-100", "");
    } else if StartsWith(s, "-100") {
      assert s[..4] == "-100";
      ReplaceAbsent(s[4..], "-100", "");
    } else {
      ReplaceAbsent(s[1..], "-100", "");
      if |s| >= 4 {
        assert s[..4] != "-100";
      }
      assert s == [s[0]] + s[1..];
    }
  }

  /** The link to the original message, if one can be formed. */
  function DeepLink(chat: Chat, messageId: int): (link: Option<string>)
    ensures AttrTruthy(chat.username) ==>
      link == Some("https://t.me/" + chat.username.value.s + "/" + IntToString(messageId))
    ensures !AttrTruthy(chat.username) && chat.id.Some? ==>
      link == Some("https://t.me/c/" + PrivateChatId(chat.id.value) + "/" + IntToString(messageId))
    ensures !AttrTruthy(chat.username) && chat.id.None? ==> link == None
  {
    if AttrTruthy(chat.username) then
      Some("https://t.me/" + chat.username.value.s + "/" + IntToString(messageId))
    else if chat.id.Some? then
      Some("https://t.me/c/" + PrivateChatId(chat.id.value) + "/" + IntToString(messageId))
    else None
  }

  lemma AppendDigit(n: nat, d: nat)
    requires 1 <= n && d < 10
    ensures NatToString(10 * n + d) == NatToString(n) + [DigitChar(d)]
  {
    assert (10 * n + d) / 10 == n && (10 * n + d) % 10 == d;
  }

  /** A public channel links by its handle. */
  lemma PublicLinkExample()
    ensures DeepLink(Chat(Some(Str("News")), Some(Str("abc")), Some(5)), 42) == Some("https://t.me/abc/42")
  {
    var chat := Chat(Some(Str("News")), Some(Str("abc")), Some(5));
    assert AttrTruthy(chat.username) && chat.username.value.s == "abc";
    AppendDigit(4, 2);
    assert IntToString(42) == "42";
    assert "https://t.me/" + "abc" + "/" + "42" == "https://t.me/abc/42";
  }

  /** A supergroup id, "-100" and the channel's own digits, links by those digits alone. */
  lemma SupergroupLink(m: nat, digits: string)
    requires NatToString(m) == "100" + digits
    ensures PrivateChatId(-(m as int)) == digits
  {
    var s := IntToString(-(m as int));
    assert s == "-100" + digits;
    assert s[..4] == "-100";
    PrivateChatIdDropsLeadingPrefix(-(m as int));
    assert s[4..] == digits;
  }

  /** The supergroup id -1001234 links as "c/1234". */
  lemma SupergroupIdStripped()
    ensures PrivateChatId(-1001234) == "1234"
  {
    assert NatToString(1) == "1";
    AppendDigit(1, 0);
    AppendDigit(10, 0);
    AppendDigit(100, 1);
    AppendDigit(1001, 2);
    AppendDigit(10012, 3);
    AppendDigit(100123, 4);
    SupergroupLink(1001234, "1234");
  }

  /** Without a handle the link uses the id, its leading "-100" (the supergroup marker) removed. */
  lemma PrivateLink(chat: Chat, messageId: int)
    requires !AttrTruthy(chat.username) && chat.id.Some?
    ensures var s := IntToString(chat.id.value);
      DeepLink(chat, messageId) ==
        Some("https://t.me/c/" + (if StartsWith(s, "-100") then s[4..] else s) + "/" + IntToString(messageId))
  {
    PrivateChatIdDropsLeadingPrefix(chat.id.value);
  }

  /** A basic group id (no "-100" marker) keeps its minus sign in the link. */
  lemma BasicGroupLinkExample()
    ensures DeepLink(Chat(Some(Str("Group")), Some(Null), Some(-45)), 3) == Some("https://t.me/c/-45/3")
  {
    var chat := Chat(Some(Str("Group")), Some(Null), Some(-45));
    assert !AttrTruthy(chat.username) && chat.id == Some(-45);
    AppendDigit(4, 5);
    assert IntToString(-45) == "-45";
    PrivateChatIdDropsLeadingPrefix(-45);
    assert PrivateChatId(-45) == "-45";
    assert IntToString(3) == "3";
    assert "https://t.me/c/" + "-45" + "/" + "3" == "https://t.me/c/-45/3";
  }

  /** What the bot message is made of. */
  datatype Notification = Notification(
    channel: string,
    username: Option<string>,
    sender: string,
    date: string,
    query: string,
    link: Option<string>,
    body: string)

  /** `username and username != "N/A"`: the handle shown in the message, if any. */
  function ShownUsername(username: Value): Option<string> {
    if Truthy(username) && username.s != "N/A" then Some(username.s) else None
  }

  /** The fields `send_message_via_bot` reads off the chat, the message and its sender. */
  function NotificationFor(chat: Chat, message: Message, sender: Option<Sender>, query: string): Notification {
    Notification(
      Render(GetAttr(chat.title, Str("Unknown Channel"))),
      ShownUsername(GetAttr(chat.username, Str("N/A"))),
      SenderName(sender),
      message.date,
      query,
      DeepLink(chat, message.id),
      OrDefault(message.text, MediaSentinel))
  }

  const Header: string := "\U{1F3AF} **RELEVANT MESSAGE FOUND**\n\n"
  const UsernameTag: string := "**Username:** @"
  const LinkTag: string := "\U{1F517} **[Click to view original message]("
  const MessageTag: string := "**Message:**\n"

  function ChannelLine(n: Notification): string { "**Channel:** " + n.channel + "\n" }
  function UsernameLine(u: string): string { UsernameTag + u + "\n" }
  function SenderLine(n: Notification): string { "**Sender:** " + n.sender + "\n" }
  function DateLine(n: Notification): string { "**Date:** " + n.date + "\n" }
  function QueryLine(n: Notification): string { "**Query:** " + n.query + "\n\n" }
  function LinkLine(link: string): string { LinkTag + link + ")**\n\n" }
  function MessageLine(n: Notification): string { MessageTag + n.body }

  /** The pieces the Markdown text is built from, in order. */
  function Pieces(n: Notification): seq<string> {
    [Header, ChannelLine(n)]
    + (if n.username.Some? then [UsernameLine(n.username.value)] else [])
    + [SenderLine(n), DateLine(n), QueryLine(n)]
    + (if n.link.Some? then [LinkLine(n.link.value)] else [])
    + [MessageLine(n)]
  }

  /** Only the username line starts with its tag. */
  lemma UsernameTagAt(n: Notification, i: int)
    requires 0 <= i < |Pieces(n)|
    ensures StartsWith(Pieces(n)[i], UsernameTag) <==> n.username.Some? && i == 2
  {
    var p := Pieces(n);
    var u := if n.username.Some? then 1 else 0;
    assert UsernameTag[2] == 'U';
    if i == 0 {
      assert p[i][2] == '*';
    } else if i == 1 {
      assert p[i][2] == 'C';
    } else if i == 1 + u {
      assert p[i] == UsernameLine(n.username.value);
      assert p[i][..|UsernameTag|] == UsernameTag;
    } else if i == 2 + u {
      assert p[i][2] == 'S';
    } else if i == 3 + u {
      assert p[i][2] == 'D';
    } else if i == 4 + u {
      assert p[i][2] == 'Q';
    } else if i == |p| - 1 {
      assert p[i][2] == 'M';
    } else {
      assert p[i] == LinkLine(n.link.value);
    }
  }

  /** Only the link line, the one before the message, starts with its tag. */
  lemma LinkTagAt(n: Notification, i: int)
    requires 0 <= i < |Pieces(n)|
    ensures StartsWith(Pieces(n)[i], LinkTag) <==> n.link.Some? && i == |Pieces(n)| - 2
  {
    var p := Pieces(n);
    var u := if n.username.Some? then 1 else 0;
    assert LinkTag[0] == '\U{1F517}';
    if i == 0 {
      assert p[i][0] == '\U{1F3AF}';
    } else if i == 1 + u && u == 1 {
      assert p[i] == UsernameLine(n.username.value);
      assert p[i][0] == '*';
    } else if i < 5 + u {
      assert p[i][0] == '*';
    } else if i == |p| - 1 {
      assert p[i][0] == '*';
    } else {
      assert p[i] == LinkLine(n.link.value);
      assert p[i][..|LinkTag|] == LinkTag;
    }
  }

  /**
   * The bot message: header and channel line first; a username line exactly when the
   * chat's username is truthy and not "N/A"; a link line exactly when a link exists;
   * the message text (or the media sentinel) last.
   */
  lemma NotificationLayout(chat: Chat, message: Message, sender: Option<Sender>, query: string)
    ensures var n := NotificationFor(chat, message, sender, query);
      var p := Pieces(n);
      && StartsWith(Concat(p), Header + "**Channel:** " + n.channel + "\n")
      && EndsWith(Concat(p), MessageTag + OrDefault(message.text, MediaSentinel))
      && ((exists i :: 0 <= i < |p| && StartsWith(p[i], UsernameTag)) <==>
          (chat.username.Some? && Truthy(chat.username.value) && chat.username.value.s != "N/A"))
      && ((exists i :: 0 <= i < |p| && StartsWith(p[i], LinkTag)) <==> DeepLink(chat, message.id).Some?)
  {
    var n := NotificationFor(chat, message, sender, query);
    var p := Pieces(n);
    var head := [Header, ChannelLine(n)];
    ConcatAppend(head, p[2..]);
    assert p == head + p[2..];
    assert Concat(head) == Header + ChannelLine(n) by {
      assert head[..1] == [Header];
      assert Concat([Header]) == Header by { assert [Header][..0] == []; }
    }
    assert Header + "**Channel:** " + n.channel + "\n" == Concat(head);
    assert Concat(p) == Concat(p[..|p| - 1]) + MessageLine(n);
    if n.username.Some? {
      UsernameTagAt(n, 2);
    }
    if n.link.Some? {
      LinkTagAt(n, |p| - 2);
    }
    forall i | 0 <= i < |p| && StartsWith(p[i], UsernameTag) ensures n.username.Some? {
      UsernameTagAt(n, i);
    }
    forall i | 0 <= i < |p| && StartsWith(p[i], LinkTag) ensures n.link.Some? {
      LinkTagAt(n, i);
    }
  }

  /** The text logged for a message: at most 100 characters and "..." when it was longer. */
  function LogText(text: string): (logged: string)
    ensures |text| <= 100 ==> logged == text
    ensures |text| > 100 ==> |logged| == 103 && EndsWith(logged, "...")
    ensures logged[..Min(|text|, 100)] == text[..Min(|text|, 100)]
  {
    if |text| > 100 then text[..100] + "..." else text
  }

  const ApologyText: string := "Sorry, I couldn't analyze that message."

  /** `generate_response`: the model's non-empty answer, otherwise the fixed apology. */
  function GenerateResponse(processor: Relevance.Processor, reply: Option<string>): (answer: string)
    ensures answer != ""
    ensures processor.enabled && Configured(reply) ==> answer == reply.value
    ensures !(processor.enabled && Configured(reply)) ==> answer == ApologyText
  {
    var response := processor.ProcessMessage(reply);
    if Configured(response) then response.value else ApologyText
  }

  // ---------------------------------------------------------------------------
  // Delivery through the Bot API

  datatype Button = Button(text: string, url: string)

  datatype Payload = Payload(
    chatId: string,
    text: string,
    parseMode: string,
    inlineKeyboard: Option<seq<seq<Button>>>)   // `reply_markup`, present only with a link

  datatype Request = Request(url: string, payload: Payload)

  const OpenButtonText: string := "\U{1F517} Open Original Message"

  function SendMessageUrl(botToken: string): string {
    "https://api.telegram.org/bot" + botToken + "/sendMessage"
  }

  /** The step-by-step sender name of `send_message_via_bot`. */
  method ComputeSenderName(sender: Option<Sender>) returns (senderName: string)
    ensures senderName == SenderName(sender)
  {
    senderName := "Unknown";
    if sender.Some? {
      var s := sender.value;
      if AttrTruthy(s.firstName) {
        senderName := s.firstName.value.s;
        if AttrTruthy(s.lastName) {
          senderName := senderName + " " + s.lastName.value.s;
        }
      } else if AttrTruthy(s.title) {
        senderName := s.title.value.s;
      } else if AttrTruthy(s.username) {
        senderName := "@" + s.username.value.s;
      }
    }
  }

  /** The step-by-step link of `send_message_via_bot`. */
  method ComputeMessageLink(chat: Chat, messageId: int) returns (messageLink: Option<string>)
    ensures messageLink == DeepLink(chat, messageId)
  {
    messageLink := None;
    if AttrTruthy(chat.username) {
      messageLink := Some("https://t.me/" + chat.username.value.s + "/" + IntToString(messageId));
    } else if chat.id.Some? {
      var chatIdStr := ReplaceAll(IntToString(chat.id.value), "-100", "");
      messageLink := Some("https://t.me/c/" + chatIdStr + "/" + IntToString(messageId));
    }
  }

  /** `bot_message`, grown by one `+=` per line. */
  method FormatBotMessage(channelName: string, username: Value, senderName: string, date: string,
                          query: string, messageLink: Option<string>, messageText: string)
    returns (botMessage: string)
    ensures botMessage == Concat(Pieces(Notification(channelName, ShownUsername(username), senderName,
                                                     date, query, messageLink, messageText)))
  {
    ghost var n := Notification(channelName, ShownUsername(username), senderName, date, query,
                                messageLink, messageText);
    botMessage := Header;
    ghost var pieces := [Header];
    assert botMessage == Concat(pieces) by {
      ConcatSnoc([], Header);
      assert [] + [Header] == pieces;
    }
    botMessage := botMessage + ("**Channel:** " + channelName + "\n");
    ConcatSnoc(pieces, ChannelLine(n));
    pieces := pieces + [ChannelLine(n)];
    if Truthy(username) && username.s != "N/A" {
      botMessage := botMessage + (UsernameTag + username.s + "\n");
      ConcatSnoc(pieces, UsernameLine(username.s));
      pieces := pieces + [UsernameLine(username.s)];
    }
    ghost var head := pieces;
    assert head == [Header, ChannelLine(n)] + (if n.username.Some? then [UsernameLine(n.username.value)] else []);
    botMessage := botMessage + ("**Sender:** " + senderName + "\n");
    ConcatSnoc(pieces, SenderLine(n));
    pieces := pieces + [SenderLine(n)];
    botMessage := botMessage + ("**Date:** " + date + "\n");
    ConcatSnoc(pieces, DateLine(n));
    pieces := pieces + [DateLine(n)];
    botMessage := botMessage + ("**Query:** " + query + "\n\n");
    ConcatSnoc(pieces, QueryLine(n));
    pieces := pieces + [QueryLine(n)];
    assert pieces == head + [SenderLine(n), DateLine(n), QueryLine(n)];
    ghost var body := pieces;
    if messageLink.Some? {
      botMessage := botMessage + (LinkTag + messageLink.value + ")**\n\n");
      ConcatSnoc(pieces, LinkLine(messageLink.value));
      pieces := pieces + [LinkLine(messageLink.value)];
    }
    assert pieces == body + (if n.link.Some? then [LinkLine(n.link.value)] else []);
    botMessage := botMessage + (MessageTag + messageText);
    ConcatSnoc(pieces, MessageLine(n));
    pieces := pieces + [MessageLine(n)];
  }

  /** `TelegramChannelMonitor` as far as relaying goes: its configuration and its processor. */
  class ChannelMonitor {
    /** `BOT_TOKEN` and `USER_CHAT_ID` from the environment. */
    const botToken: Option<string>
    const userChatId: Option<string>
    const processor: Relevance.Processor

    constructor (botToken: Option<string>, userChatId: Option<string>, processor: Relevance.Processor)
      ensures this.botToken == botToken && this.userChatId == userChatId && this.processor == processor
    {
      this.botToken := botToken;
      this.userChatId := userChatId;
      this.processor := processor;
    }

    predicate CanSend() {
      Configured(botToken) && Configured(userChatId)
    }

    /**
     * One new-message event: the channel list and the query are read afresh, the
     * relevance check runs only for an admitted chat, and only a relevant message
     * is displayed and sent, in that order, once each.
     */
    method HandleMessage(registry: ChannelStore.Registry, store: QueryStore.Store,
                         chat: Chat, message: Message, reply: Option<string>)
      returns (calls: seq<Call>)
      ensures !Admitted(chat, registry.channels) ==> calls == []
      ensures chat.id.None? ==> calls == []
      ensures Admitted(chat, registry.channels) ==>
        |calls| >= 1 && calls[0] == CheckRelevance(TextForCheck(message.text), QueryStore.ReadQuery(store.file))
      ensures Admitted(chat, registry.channels) && processor.IsMessageRelevant(reply) ==>
        calls[1..] == [ProcessNewMessage(message.id), SendViaBot(message.id, ChatName(chat).s)]
      ensures Admitted(chat, registry.channels) && !processor.IsMessageRelevant(reply) ==>
        calls[1..] == []
    {
      calls := [];
      var chatName := ChatName(chat);
      var monitoredChannels := registry.Get();
      if chatName.Str? && chatName.s in monitoredChannels {
        if chat.id.None? {
          // logging `chat.id` raises, and the handler's own `except` ends the event
          return;
        }
        var messageText := OrDefault(message.text, "");
        if messageText == "" {
          messageText := NonTextSentinel;
        }
        var currentQuery := store.GetCurrentQuery();
        calls := calls + [CheckRelevance(messageText, currentQuery)];
        var isRelevant := processor.IsMessageRelevant(reply);
        if isRelevant {
          calls := calls + [ProcessNewMessage(message.id)];
          calls := calls + [SendViaBot(message.id, chatName.s)];
        }
      }
    }

    /**
     * `send_message_via_bot`: no request without a bot token and a recipient;
     * otherwise one POST whose text is the formatted notification and which carries
     * a link button exactly when there is a link. Sent means status 200, nothing else.
     * `status` is `None` when the POST raised.
     */
    method SendMessageViaBot(store: QueryStore.Store, message: Message, chat: Chat,
                             sender: Option<Sender>, status: Option<int>)
      returns (sent: bool, request: Option<Request>)
      ensures !CanSend() ==> !sent && request == None
      ensures CanSend() ==> request.Some?
      ensures request.Some? ==>
        var n := NotificationFor(chat, message, sender, QueryStore.ReadQuery(store.file));
        var p := request.value.payload;
        && request.value.url == SendMessageUrl(botToken.value)
        && p.chatId == userChatId.value
        && p.text == Concat(Pieces(n))
        && p.parseMode == "Markdown"
        && (p.inlineKeyboard.Some? <==> n.link.Some?)
        && (p.inlineKeyboard.Some? ==> p.inlineKeyboard.value == [[Button(OpenButtonText, n.link.value)]])
      ensures sent <==> request.Some? && status == Some(200)
    {
      if !Configured(botToken) || !Configured(userChatId) {
        return false, None;
      }
      var channelName := Render(GetAttr(chat.title, Str("Unknown Channel")));
      var username := GetAttr(chat.username, Str("N/A"));
      var messageText := OrDefault(message.text, MediaSentinel);

      var senderName := ComputeSenderName(sender);
      var messageLink := ComputeMessageLink(chat, message.id);
      var query := store.GetCurrentQuery();
      var botMessage := FormatBotMessage(channelName, username, senderName, message.date, query,
                                         messageLink, messageText);

      var payload := Payload(userChatId.value, botMessage, "Markdown", None);
      if messageLink.Some? {
        payload := payload.(inlineKeyboard := Some([[Button(OpenButtonText, messageLink.value)]]));
      }
      request := Some(Request(SendMessageUrl(botToken.value), payload));
      sent := status == Some(200);
    }
  }
}
