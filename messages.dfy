/** utils/message.go: the messages the bot sends to Facebook Messenger and their builders.
    A builder that appends to a slice inside a message is a function from the message to the
    message with the slice extended; every caller builds a message completely before
    handing it on. */
module Messages {

  const ButtonTypeWebURL := "web_url"
  const ButtonTypePostback := "postback"
  const ButtonTypeShare := "element_share"
  const AttachmentTypeTemplate := "template"
  const TemplateTypeGeneric := "generic"
  const QuickReplyTextType := "text"

  /** A button on a generic-template element; fields the constructor leaves out are "". */
  datatype Button = Button(kind: string, url: string, title: string, payload: string)

  /** An element of a generic template. */
  datatype Element = Element(title: string, subtitle: string, itemURL: string, imageURL: string, buttons: seq<Button>)

  /** One quick reply. */
  datatype QuickReply = QuickReply(contentType: string, title: string, payload: string, imageURL: string)

  datatype TextMessage = TextMessage(recipient: string, text: string)

  /** A generic-template message: its attachment's type, template type, sharable flag and elements. */
  datatype GenericMessage = GenericMessage(recipient: string, attachmentType: string, templateType: string,
                                           sharable: bool, elements: seq<Element>)

  datatype QuickReplyMessage = QuickReplyMessage(recipient: string, text: string, replies: seq<QuickReply>)

  /** The Message interface: any of the three kinds. */
  datatype Message = Text(t: TextMessage) | Generic(g: GenericMessage) | QuickReplies(q: QuickReplyMessage)

  /** Message.String: the text of a text or quick-reply message, the attachment type of a generic one. */
  function String(m: Message): string {
    match m
    case Text(t) => t.text
    case Generic(g) => g.attachmentType
    case QuickReplies(q) => q.text
  }

  /** A new text or quick-reply message prints as its text, and a new generic message as its
      attachment type "template"; adding elements or quick replies does not change it. */
  lemma StringSpec(userID: string, text: string, e: Element, title: string, payload: string)
    ensures String(Text(NewTextMessage(userID, text))) == text
    ensures String(QuickReplies(NewQuickReply(userID, text))) == text
    ensures String(QuickReplies(AddQuickReply(NewQuickReply(userID, text), title, payload, QuickReplyTextType, ""))) == text
    ensures String(Generic(NewGenericMessage(userID))) == AttachmentTypeTemplate
    ensures String(Generic(AddElement(NewGenericMessage(userID), e))) == AttachmentTypeTemplate
  {
  }

  /** NewElement (and newElement) */
  function NewElement(title: string, subtitle: string, itemURL: string, imageURL: string, buttons: seq<Button>): (e: Element)
    ensures e.title == title && e.subtitle == subtitle && e.itemURL == itemURL && e.imageURL == imageURL
    ensures e.buttons == buttons
  {
    Element(title, subtitle, itemURL, imageURL, buttons)
  }

  function NewWebURLButton(title: string, url: string): (b: Button)
    ensures b.kind == ButtonTypeWebURL && b.title == title && b.url == url && b.payload == ""
  {
    Button(ButtonTypeWebURL, url, title, "")
  }

  function NewPostbackButton(title: string, payload: string): (b: Button)
    ensures b.kind == ButtonTypePostback && b.title == title && b.payload == payload && b.url == ""
  {
    Button(ButtonTypePostback, "", title, payload)
  }

  function NewShareButton(): (b: Button)
    ensures b.kind == ButtonTypeShare && b.title == "" && b.payload == "" && b.url == ""
  {
    Button(ButtonTypeShare, "", "", "")
  }

  /** The three button constructors give buttons of three different types. */
  lemma ButtonKindsDiffer(t: string, u: string, p: string)
    ensures NewWebURLButton(t, u).kind != NewPostbackButton(t, p).kind
    ensures NewWebURLButton(t, u).kind != NewShareButton().kind
    ensures NewPostbackButton(t, p).kind != NewShareButton().kind
  {
  }

  /** Element.AddWebURLButton */
  function AddWebURLButton(e: Element, title: string, url: string): (r: Element)
  {
    e.(buttons := e.buttons + [NewWebURLButton(title, url)])
  }

  /** Element.AddPostbackButton */
  function AddPostbackButton(e: Element, title: string, payload: string): (r: Element)
  {
    e.(buttons := e.buttons + [NewPostbackButton(title, payload)])
  }

  /** Element.AddShareButton */
  function AddShareButton(e: Element): (r: Element)
  {
    e.(buttons := e.buttons + [NewShareButton()])
  }

  /** Each Add*Button call adds exactly one button, of its own type, after the existing ones,
      and changes nothing else on the element. */
  lemma AddButtonSpec(e: Element, title: string, arg: string)
    ensures var r := AddWebURLButton(e, title, arg);
      |r.buttons| == |e.buttons| + 1 && r.buttons[..|e.buttons|] == e.buttons && r.buttons[|e.buttons|].kind == ButtonTypeWebURL &&
      r.(buttons := e.buttons) == e
    ensures var r := AddPostbackButton(e, title, arg);
      |r.buttons| == |e.buttons| + 1 && r.buttons[..|e.buttons|] == e.buttons && r.buttons[|e.buttons|].kind == ButtonTypePostback &&
      r.(buttons := e.buttons) == e
    ensures var r := AddShareButton(e);
      |r.buttons| == |e.buttons| + 1 && r.buttons[..|e.buttons|] == e.buttons && r.buttons[|e.buttons|].kind == ButtonTypeShare &&
      r.(buttons := e.buttons) == e
  {
  }

  function NewTextMessage(userID: string, text: string): (m: TextMessage)
    ensures m.recipient == userID && m.text == text
  {
    TextMessage(userID, text)
  }

  /** NewGenericMessage: a sharable generic template with no elements yet. */
  function NewGenericMessage(userID: string): (m: GenericMessage)
    ensures m.recipient == userID && m.attachmentType == AttachmentTypeTemplate
    ensures m.templateType == TemplateTypeGeneric && m.sharable && m.elements == []
  {
    GenericMessage(userID, AttachmentTypeTemplate, TemplateTypeGeneric, true, [])
  }

  /** GenericMessage.AddElement */
  function AddElement(m: GenericMessage, e: Element): (r: GenericMessage)
  {
    m.(elements := m.elements + [e])
  }

  /** GenericMessage.AddNewElement */
  function AddNewElement(m: GenericMessage, title: string, subtitle: string, itemURL: string, imageURL: string,
                         buttons: seq<Button>): (r: GenericMessage)
    ensures r.elements == m.elements + [Element(title, subtitle, itemURL, imageURL, buttons)]
    ensures r.(elements := m.elements) == m
  {
    AddElement(m, NewElement(title, subtitle, itemURL, imageURL, buttons))
  }

  /** AddElement adds exactly one element at the end and leaves the earlier ones and the
      message's String untouched. */
  lemma AddElementSpec(m: GenericMessage, e: Element)
    ensures |AddElement(m, e).elements| == |m.elements| + 1
    ensures AddElement(m, e).elements[..|m.elements|] == m.elements
    ensures AddElement(m, e).elements[|m.elements|] == e
    ensures AddElement(m, e).(elements := m.elements) == m
    ensures String(Generic(AddElement(m, e))) == String(Generic(m))
  {
  }

  /** NewQuickReply: a quick-reply message with no replies yet. */
  function NewQuickReply(userID: string, text: string): (m: QuickReplyMessage)
    ensures m.recipient == userID && m.text == text && m.replies == []
  {
    QuickReplyMessage(userID, text, [])
  }

  /** QuickReplyMessage.AddQuickReply */
  function AddQuickReply(m: QuickReplyMessage, title: string, payload: string, contentType: string, imageURL: string): (r: QuickReplyMessage)
  {
    m.(replies := m.replies + [QuickReply(contentType, title, payload, imageURL)])
  }

  /** AddQuickReply adds one reply with the given fields at the end and keeps the text, the
      recipient, the earlier replies and so the message's String. */
  lemma AddQuickReplySpec(m: QuickReplyMessage, title: string, payload: string, contentType: string, imageURL: string)
    ensures var r := AddQuickReply(m, title, payload, contentType, imageURL);
      r.recipient == m.recipient && r.text == m.text && |r.replies| == |m.replies| + 1 &&
      r.replies[..|m.replies|] == m.replies &&
      r.replies[|m.replies|] == QuickReply(contentType, title, payload, imageURL) &&
      String(QuickReplies(r)) == String(QuickReplies(m))
  {
  }

  /** QuickReplyMessage.AddTextQuickReply: a reply of content type "text" and no image. */
  function AddTextQuickReply(m: QuickReplyMessage, title: string, payload: string): (r: QuickReplyMessage)
    ensures r == AddQuickReply(m, title, payload, QuickReplyTextType, "")
  {
    m.(replies := m.replies + [QuickReply(QuickReplyTextType, title, payload, "")])
  }

  /** The replies a chain of AddTextQuickReply calls leaves, one per (title, payload) pair. */
  function TextReplies(pairs: seq<(string, string)>): (r: seq<QuickReply>)
    ensures |r| == |pairs|
    ensures forall i :: 0 <= i < |pairs| ==> r[i] == QuickReply(QuickReplyTextType, pairs[i].0, pairs[i].1, "")
  {
    seq(|pairs|, i requires 0 <= i < |pairs| => QuickReply(QuickReplyTextType, pairs[i].0, pairs[i].1, ""))
  }

  /** Chained AddTextQuickReply calls over two lists of pairs add the replies of the first, then of the second. */
  lemma TextRepliesAppend(a: seq<(string, string)>, b: seq<(string, string)>)
    ensures TextReplies(a + b) == TextReplies(a) + TextReplies(b)
  {
    assert forall i :: 0 <= i < |a + b| ==> TextReplies(a + b)[i] == (TextReplies(a) + TextReplies(b))[i];
  }

  /** AddTextQuickReply adds one text reply at the end and keeps the text, the recipient and the earlier replies. */
  lemma AddTextQuickReplySpec(m: QuickReplyMessage, title: string, payload: string)
    ensures var r := AddTextQuickReply(m, title, payload);
      r.recipient == m.recipient && r.text == m.text && r.replies == m.replies + TextReplies([(title, payload)])
  {
  }

  /** The options prompt of the subscribe menu and of the topic list. */
  const OptionsPrompt := "Here are some options \U{2B07}\U{FE0F}"

  /** NewSubscribeMenu */
  function NewSubscribeMenu(userID: string): QuickReplyMessage {
    var reply := NewQuickReply(userID, OptionsPrompt);
    AddTextQuickReply(AddTextQuickReply(reply, "Subscribe", "Subscribe"), "Other Topics", "Topics")
  }

  /** The subscribe menu has exactly the two replies ("Subscribe", "Subscribe") and ("Other Topics", "Topics"). */
  lemma SubscribeMenuSpec(userID: string)
    ensures NewSubscribeMenu(userID).recipient == userID && NewSubscribeMenu(userID).text == OptionsPrompt
    ensures NewSubscribeMenu(userID).replies == TextReplies([("Subscribe", "Subscribe"), ("Other Topics", "Topics")])
  {
    assert NewSubscribeMenu(userID).replies == [QuickReply(QuickReplyTextType, "Subscribe", "Subscribe", ""),
                                                QuickReply(QuickReplyTextType, "Other Topics", "Topics", "")];
  }
}
