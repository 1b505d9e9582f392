/** messenger/messenger.go, messenger/facebook.go and messenger/setup.go: the Graph API URLs,
    the webhook check, the routing of webhook events to the three queues, the Facebook request
    and response records, and the page setup payloads. */
module Messenger {
  import opened Wrappers
  import opened Strings
  import Utils
  import Models
  import Web
  import C = Constants

  const ApiURL := "https://graph.facebook.com/v2.6"
  const MessagesPath := "messages"
  const ProfilePath := "profile"

  /** The endPoints table. */
  const EndPoints: map<string, string> := map[MessagesPath := "me/messages", ProfilePath := "me/messenger_profile"]

  /** The path of a URL: the table's entry for a known name, the name itself otherwise. */
  function EndPoint(path: string): (p: string)
    ensures path in EndPoints ==> p == EndPoints[path]
    ensures path !in EndPoints ==> p == path
  {
    if path in EndPoints then EndPoints[path] else path
  }

  /** The base of every URL: TestURL when it is set, the Graph API otherwise. */
  function Base(testURL: string): string {
    if testURL != "" then testURL else ApiURL
  }

  const TokenParam := "?access_token="

  /** buildURL: base, "/", the path, then the access token as query parameter. */
  function BuildURL(testURL: string, path: string, token: string): (url: string)
    ensures HasPrefix(url, Base(testURL) + "/")
    ensures |url| == |Base(testURL)| + 1 + |EndPoint(path)| + |TokenParam + token|
    ensures |url| >= |TokenParam + token| && url[|url| - |TokenParam + token|..] == TokenParam + token
    ensures url[|Base(testURL)| + 1..|url| - |TokenParam + token|] == EndPoint(path)
  {
    var url := Base(testURL) + "/" + EndPoint(path) + TokenParam + token;
    assert url == (Base(testURL) + "/") + EndPoint(path) + (TokenParam + token);
    url
  }

  /** Two URLs for the same base and token are equal only when their paths resolve alike. */
  lemma BuildURLInjective(testURL: string, p1: string, p2: string, token: string)
    requires BuildURL(testURL, p1, token) == BuildURL(testURL, p2, token)
    ensures EndPoint(p1) == EndPoint(p2)
  {
  }

  /** The cases of the package's own URL test: a known name goes through the table, an unknown
      one is used verbatim, and the two differ. */
  lemma BuildURLExamples(testURL: string, token: string)
    requires testURL != ""
    ensures BuildURL(testURL, MessagesPath, token) == testURL + "/" + "me/messages" + TokenParam + token
    ensures BuildURL(testURL, "messagesPaths", token) == testURL + "/" + "messagesPaths" + TokenParam + token
    ensures BuildURL(testURL, "messagesPaths", token) != BuildURL(testURL, MessagesPath, token)
    ensures BuildURL("", MessagesPath, token) == ApiURL + "/" + "me/messages" + TokenParam + token
  {
    assert "messagesPaths" !in EndPoints;
    if BuildURL(testURL, "messagesPaths", token) == BuildURL(testURL, MessagesPath, token) {
      BuildURLInjective(testURL, "messagesPaths", MessagesPath, token);
    }
  }

  /** Recipient: the ID and the profile fetched for it, if any. */
  datatype Recipient = Recipient(id: string, profile: Option<Models.User>)

  /** Recipient.String */
  function RecipientString(r: Recipient): (s: string)
    ensures r.profile.None? ==> s == r.id
  {
    if r.profile.Some? then Models.UserString(r.profile.value) else r.id
  }

  datatype FacebookMessage = FacebookMessage(mid: string, sequence: int, text: string, attachments: seq<string>)
  datatype FacebookDelivery = FacebookDelivery(mids: seq<string>, sequence: int, watermark: int)
  datatype FacebookPostback = FacebookPostback(title: string, payload: string)

  /** One webhook event; any of the message, the delivery report and the postback may be absent. */
  datatype Messaging = Messaging(recipient: Recipient, sender: Recipient, timestamp: int,
                                 message: Option<FacebookMessage>, delivery: Option<FacebookDelivery>,
                                 postback: Option<FacebookPostback>)

  datatype Entry = Entry(id: string, messaging: seq<Messaging>, time: int)

  /** messaging.String: the message, else the postback, else the delivery report, else "". */
  function MessagingString(m: Messaging): string {
    if m.message.Some? then "From: " + RecipientString(m.sender) + ", Text: " + m.message.value.text
    else if m.postback.Some? then "From: " + RecipientString(m.sender) + ", Title: " + m.postback.value.title
    else if m.delivery.Some? then Join(m.delivery.value.mids, ", ")
    else ""
  }

  /** A message event prints its sender and ends with the message's text; otherwise a postback
      prints its sender and ends with its title; otherwise a delivery report prints its mids joined
      by ", "; an event with none of the three prints "". */
  lemma MessagingStringSpec(m: Messaging)
    ensures var out := MessagingString(m); var from := "From: " + RecipientString(m.sender);
      (m.message.Some? ==>
        from <= out && |out| >= |m.message.value.text| && out[|out| - |m.message.value.text|..] == m.message.value.text) &&
      (m.message.None? && m.postback.Some? ==>
        from <= out && |out| >= |m.postback.value.title| && out[|out| - |m.postback.value.title|..] == m.postback.value.title) &&
      (m.message.None? && m.postback.None? && m.delivery.Some? ==> out == Join(m.delivery.value.mids, ", ")) &&
      (m.message.None? && m.postback.None? && m.delivery.None? ==> out == "")
  {
    var out := MessagingString(m);
    var from := "From: " + RecipientString(m.sender);
    if m.message.Some? {
      assert out == from + (", Text: " + m.message.value.text);
    } else if m.postback.Some? {
      assert out == from + (", Title: " + m.postback.value.title);
    }
  }

  /** messaging.Mid */
  function Mid(m: Messaging): (r: string)
    ensures m.message.None? ==> r == ""
  {
    if m.message.Some? then m.message.value.mid else ""
  }

  /** The request of the package's own decoding test prints as "From: <sender>, Text: hi". */
  lemma MessagingStringExample(m: Messaging)
    requires m.sender == Recipient("1403078893046", None) && m.message.Some? && m.message.value.text == "hi"
    ensures MessagingString(m) == "From: 1403078893046, Text: hi"
  {
  }

  /** The three queues of the messenger. */
  datatype Queue = MessageQueue | DeliveryQueue | PostbackQueue

  /** What the three queues (messageCh, deliveryCh, postbackCh) hold, oldest first. */
  datatype Queues = Queues(messages: seq<Messaging>, deliveries: seq<Messaging>, postbacks: seq<Messaging>)

  /** processEntry's switch: message first, then delivery, then postback; None drops the event. */
  function Route(m: Messaging): (q: Option<Queue>)
    ensures q == Some(MessageQueue) <==> m.message.Some?
    ensures q == Some(DeliveryQueue) <==> m.message.None? && m.delivery.Some?
    ensures q == Some(PostbackQueue) <==> m.message.None? && m.delivery.None? && m.postback.Some?
    ensures q == None <==> m.message.None? && m.delivery.None? && m.postback.None?
  {
    if m.message.Some? then Some(MessageQueue)
    else if m.delivery.Some? then Some(DeliveryQueue)
    else if m.postback.Some? then Some(PostbackQueue)
    else None
  }

  /** The two priorities disagree: an event with a postback and a delivery report but no message is
      queued as a delivery, while String describes its postback. */
  lemma RouteDisagreesWithString(m: Messaging)
    requires m.message.None? && m.delivery.Some? && m.postback.Some?
    ensures Route(m) == Some(DeliveryQueue)
    ensures MessagingString(m) == "From: " + RecipientString(m.sender) + ", Title: " + m.postback.value.title
  {
  }

  /** The event as queued: its sender's profile is what the profile lookup answered. */
  function WithProfile(m: Messaging, profile: string -> Option<Models.User>): Messaging {
    m.(sender := m.sender.(profile := profile(m.sender.id)))
  }

  /** processEntry's switch pushing one event; an event of no kind is dropped. */
  function Push(qs: Queues, m: Messaging): Queues {
    match Route(m)
    case Some(MessageQueue) => qs.(messages := qs.messages + [m])
    case Some(DeliveryQueue) => qs.(deliveries := qs.deliveries + [m])
    case Some(PostbackQueue) => qs.(postbacks := qs.postbacks + [m])
    case None => qs
  }

  /** Every event of the entries, in order, with the sender profiles filled in. */
  function Events(fs: seq<Entry>, profile: string -> Option<Models.User>): seq<Messaging> {
    if fs == [] then [] else Events(fs[..|fs| - 1], profile) + WithProfiles(fs[|fs| - 1].messaging, profile)
  }

  function WithProfiles(ms: seq<Messaging>, profile: string -> Option<Models.User>): (r: seq<Messaging>)
    ensures |r| == |ms|
    ensures forall i :: 0 <= i < |ms| ==> r[i] == WithProfile(ms[i], profile)
  {
    seq(|ms|, i requires 0 <= i < |ms| => WithProfile(ms[i], profile))
  }

  /** The events of a sequence that go to queue q, in their order. */
  function Routed(ms: seq<Messaging>, q: Queue): seq<Messaging> {
    if ms == [] then [] else Routed(ms[..|ms| - 1], q) + (if Route(ms[|ms| - 1]) == Some(q) then [ms[|ms| - 1]] else [])
  }

  /** The events no case of the switch matches. */
  function Dropped(ms: seq<Messaging>): seq<Messaging> {
    if ms == [] then [] else Dropped(ms[..|ms| - 1]) + (if Route(ms[|ms| - 1]).None? then [ms[|ms| - 1]] else [])
  }

  lemma {:induction false} RoutedAppend(a: seq<Messaging>, b: seq<Messaging>, q: Queue)
    ensures Routed(a + b, q) == Routed(a, q) + Routed(b, q)
    decreases |b|
  {
    if b == [] {
      assert a + b == a;
    } else {
      assert (a + b)[..|a + b| - 1] == a + b[..|b| - 1];
      RoutedAppend(a, b[..|b| - 1], q);
    }
  }

  /** Each event goes to the queue of its kind, no event anywhere else: what a queue holds is
      exactly the events routed to it, in their order. */
  lemma {:induction false} RoutedSpec(ms: seq<Messaging>, q: Queue)
    ensures forall m :: m in Routed(ms, q) <==> m in ms && Route(m) == Some(q)
    ensures forall m :: m in Routed(ms, q) ==> Route(m) == Some(q)
    ensures Utils.Subsequence(Routed(ms, q), ms)
  {
    if ms != [] {
      var init, last := ms[..|ms| - 1], ms[|ms| - 1];
      RoutedSpec(init, q);
      assert ms == init + [last];
      if Route(last) == Some(q) {
        Utils.SubsequenceBoth(Routed(init, q), init, last);
      } else {
        assert Routed(ms, q) == Routed(init, q);
        Utils.SubsequenceExtend(Routed(init, q), init, last);
      }
    }
  }

  /** Each event lands in exactly one queue or is dropped: the four parts add up to the whole. */
  lemma {:induction false} RoutedPartition(ms: seq<Messaging>)
    ensures |Routed(ms, MessageQueue)| + |Routed(ms, DeliveryQueue)| + |Routed(ms, PostbackQueue)| + |Dropped(ms)| == |ms|
  {
    if ms != [] {
      RoutedPartition(ms[..|ms| - 1]);
    }
  }

  /** The messenger: its tokens and the contents of its three event queues. */
  class Messenger {
    const accessToken: string
    const verifyToken: string
    const pageID: string
    var queues: Queues

    /** New: the tokens from the environment, and empty queues. */
    constructor (accessToken: string, verifyToken: string, pageID: string)
      ensures this.accessToken == accessToken && this.verifyToken == verifyToken && this.pageID == pageID
      ensures queues == Queues([], [], [])
    {
      this.accessToken := accessToken;
      this.verifyToken := verifyToken;
      this.pageID := pageID;
      queues := Queues([], [], []);
    }

    /** buildURL with this messenger's access token. */
    function URL(testURL: string, path: string): (url: string)
      ensures url == BuildURL(testURL, path, accessToken)
    {
      BuildURL(testURL, path, accessToken)
    }

    /** The webhook check passes: hub.mode is "subscribe" and hub.verify_token is the verify token. */
    predicate Verifies(r: Web.Request) {
      Web.FormValue(r, "hub.mode") == "subscribe" && Web.FormValue(r, "hub.verify_token") == verifyToken
    }

    /** VerifyWebhook: when the check passes, the challenge is written back with WriteString and its
        error returned; otherwise nothing is written and there is no error. `date` and `writeErr`
        are the clock reading and the writer's answer WriteString uses. */
    method VerifyWebhook(ctx: Web.Context, date: string, writeErr: Option<string>) returns (e: Option<Web.HTTPError>)
      modifies ctx
      ensures Verifies(ctx.request) ==> (
        var challenge := Web.FormValue(ctx.request, "hub.challenge");
        ctx.header == Web.DefaultHeaders(old(ctx.header), date)["Content-Length" := [IntToString(Utf8Len(challenge))]] &&
        ctx.body == old(ctx.body) + (if writeErr.None? then challenge else "") &&
        ctx.status == (if old(ctx.status).None? then Some(Web.StatusOK) else old(ctx.status)) &&
        e == (if writeErr.Some? then Some(Web.ServerError(writeErr.value)) else None))
      ensures !Verifies(ctx.request) ==> (
        e == None && ctx.header == old(ctx.header) && ctx.body == old(ctx.body) && ctx.status == old(ctx.status))
    {
      e := None;
      if Web.FormValue(ctx.request, "hub.mode") == "subscribe" {
        if Web.FormValue(ctx.request, "hub.verify_token") == verifyToken {
          e := ctx.WriteString(Web.FormValue(ctx.request, "hub.challenge"), date, writeErr);
        }
      }
    }

    /** processEntry: every event of every entry, in order, gets its sender's profile (`profile`
        stands for GetSenderProfile) and is pushed onto the queue of its kind. */
    method ProcessEntry(fs: seq<Entry>, profile: string -> Option<Models.User>)
      modifies this
      ensures queues == Enqueue(old(queues), Events(fs, profile))
    {
      var i := 0;
      while i < |fs|
        invariant 0 <= i <= |fs|
        invariant queues == Enqueue(old(queues), Events(fs[..i], profile))
      {
        QueueEvents(fs[i].messaging, profile);
        EnqueueStep(old(queues), fs, i, profile);
        i := i + 1;
      }
      assert fs[..i] == fs;
    }

    /** The inner loop of processEntry: the events of one entry, in order. */
    method QueueEvents(ms: seq<Messaging>, profile: string -> Option<Models.User>)
      modifies this
      ensures queues == Enqueue(old(queues), WithProfiles(ms, profile))
    {
      var j := 0;
      while j < |ms|
        invariant 0 <= j <= |ms|
        invariant queues == Enqueue(old(queues), WithProfiles(ms[..j], profile))
      {
        var msg := ms[j];
        msg := msg.(sender := msg.sender.(profile := profile(msg.sender.id)));
        ghost var done := WithProfiles(ms[..j], profile);
        assert WithProfiles(ms[..j + 1], profile) == done + [msg];
        EnqueueSnoc(old(queues), done, msg);
        if msg.message.Some? {
          queues := queues.(messages := queues.messages + [msg]);
        } else if msg.delivery.Some? {
          queues := queues.(deliveries := queues.deliveries + [msg]);
        } else if msg.postback.Some? {
          queues := queues.(postbacks := queues.postbacks + [msg]);
        }
        j := j + 1;
      }
      assert ms[..j] == ms;
    }
  }

  /** The queues after pushing events one after the other. */
  function Enqueue(qs: Queues, ms: seq<Messaging>): Queues {
    if ms == [] then qs else Push(Enqueue(qs, ms[..|ms| - 1]), ms[|ms| - 1])
  }

  lemma EnqueueSnoc(qs: Queues, ms: seq<Messaging>, m: Messaging)
    ensures Enqueue(qs, ms + [m]) == Push(Enqueue(qs, ms), m)
  {
    assert (ms + [m])[..|ms|] == ms;
  }

  lemma {:induction false} EnqueueAppend(qs: Queues, a: seq<Messaging>, b: seq<Messaging>)
    ensures Enqueue(qs, a + b) == Enqueue(Enqueue(qs, a), b)
    decreases |b|
  {
    if b == [] {
      assert a + b == a;
    } else {
      assert (a + b)[..|a + b| - 1] == a + b[..|b| - 1];
      EnqueueAppend(qs, a, b[..|b| - 1]);
    }
  }

  /** Pushing a sequence of events appends to each queue exactly the events routed to it. */
  lemma {:induction false} EnqueueSpec(qs: Queues, ms: seq<Messaging>)
    ensures Enqueue(qs, ms).messages == qs.messages + Routed(ms, MessageQueue)
    ensures Enqueue(qs, ms).deliveries == qs.deliveries + Routed(ms, DeliveryQueue)
    ensures Enqueue(qs, ms).postbacks == qs.postbacks + Routed(ms, PostbackQueue)
  {
    if ms != [] {
      EnqueueSpec(qs, ms[..|ms| - 1]);
    }
  }

  /** One more entry pushes that entry's events after the earlier ones. */
  lemma EnqueueStep(qs: Queues, fs: seq<Entry>, i: int, profile: string -> Option<Models.User>)
    requires 0 <= i < |fs|
    ensures Enqueue(qs, Events(fs[..i + 1], profile)) == Enqueue(Enqueue(qs, Events(fs[..i], profile)), WithProfiles(fs[i].messaging, profile))
  {
    EventsSnoc(fs, i, profile);
    EnqueueAppend(qs, Events(fs[..i], profile), WithProfiles(fs[i].messaging, profile));
  }

  /** The events of one more entry. */
  lemma EventsSnoc(fs: seq<Entry>, i: int, profile: string -> Option<Models.User>)
    requires 0 <= i < |fs|
    ensures Events(fs[..i + 1], profile) == Events(fs[..i], profile) + WithProfiles(fs[i].messaging, profile)
  {
    assert fs[..i + 1][..i] == fs[..i];
  }

  /** Events of more entries follow those of the first ones. */
  lemma {:induction false} EventsAppend(a: seq<Entry>, b: seq<Entry>, profile: string -> Option<Models.User>)
    ensures Events(a + b, profile) == Events(a, profile) + Events(b, profile)
    decreases |b|
  {
    if b == [] {
      assert a + b == a;
    } else {
      var ab, b' := a + b, b[..|b| - 1];
      assert ab[..|ab| - 1] == a + b';
      assert ab[|ab| - 1] == b[|b| - 1];
      var tail := WithProfiles(b[|b| - 1].messaging, profile);
      assert Events(ab, profile) == Events(a + b', profile) + tail;
      assert Events(b, profile) == Events(b', profile) + tail;
      EventsAppend(a, b', profile);
    }
  }

  /** Entries are handled in order: the events of a later entry are queued after those of an
      earlier one. */
  lemma EntriesInOrder(a: seq<Entry>, b: seq<Entry>, profile: string -> Option<Models.User>, q: Queue)
    ensures Routed(Events(a + b, profile), q) == Routed(Events(a, profile), q) + Routed(Events(b, profile), q)
  {
    EventsAppend(a, b, profile);
    RoutedAppend(Events(a, profile), Events(b, profile), q);
  }

  /** FacebookError */
  datatype FacebookError = FacebookError(code: int, fbtraceID: string, message: string, kind: string)

  /** FacebookError.Error */
  function FacebookErrorText(e: FacebookError): string {
    "FB Error: Type " + e.kind + ": " + e.message + "; FB trace ID: " + e.fbtraceID
  }

  /** The error text names the error type right after its prefix and ends with the trace ID. */
  lemma FacebookErrorTextSpec(e: FacebookError)
    ensures var out := FacebookErrorText(e);
      "FB Error: Type " + e.kind <= out && |out| >= |e.fbtraceID| + 15 &&
      out[|out| - |e.fbtraceID| - 15..] == "; FB trace ID: " + e.fbtraceID
  {
    var out := FacebookErrorText(e);
    assert out == ("FB Error: Type " + e.kind) + (": " + e.message + "; FB trace ID: " + e.fbtraceID);
    assert out == ("FB Error: Type " + e.kind + ": " + e.message) + ("; FB trace ID: " + e.fbtraceID);
  }

  datatype FacebookResponse = FacebookResponse(messageID: string, recipientID: string)

  /** FacebookResponse.String */
  function ResponseString(r: FacebookResponse): string {
    "FB response: " + r.messageID + " " + r.recipientID
  }

  /** The body of a response from the Graph API as JSON decoding leaves it. */
  datatype RawResponse = RawResponse(messageID: string, recipientID: string, error: Option<FacebookError>)

  /** decodeResponse after the JSON decoder: `decoded` is the decoder's result, its failure
      text the decoder's error. */
  function DecodeResponse(decoded: Result<RawResponse, string>): (r: (FacebookResponse, Option<string>))
    ensures r.1.None? <==> decoded.Success? && decoded.value.error.None?
    ensures r.1.None? ==> r.0 == FacebookResponse(decoded.value.messageID, decoded.value.recipientID)
    ensures r.1.Some? ==> r.0 == FacebookResponse("", "")
    ensures decoded.Success? && decoded.value.error.Some? ==> r.1 == Some(FacebookErrorText(decoded.value.error.value))
    ensures decoded.Failure? ==> r.1 == Some(decoded.error)
  {
    match decoded
    case Failure(err) => (FacebookResponse("", ""), Some(err))
    case Success(raw) =>
      if raw.error.Some? then (FacebookResponse("", ""), Some(FacebookErrorText(raw.error.value)))
      else (FacebookResponse(raw.messageID, raw.recipientID), None)
  }

  /** A decoded response prints its two IDs, and an error leaves the IDs empty. */
  lemma DecodeResponseString(raw: RawResponse)
    ensures var (resp, err) := DecodeResponse(Success(raw));
      (raw.error.None? ==> ResponseString(resp) == "FB response: " + raw.messageID + " " + raw.recipientID) &&
      (raw.error.Some? ==> resp.messageID == "" && resp.recipientID == "")
  {
  }

  const WebURLType := "web_url"
  const PostBackType := "postback"
  const NestedType := "nested"

  /** GetStarted: the payload of the Get Started button. */
  datatype GetStarted = GetStarted(payload: string)

  /** NewGetStarted */
  function NewGetStarted(): (g: GetStarted)
    ensures g.payload == "get_started"
  {
    GetStarted("get_started")
  }

  datatype GreetingText = GreetingText(locale: string, text: string)

  /** NewGreetingText */
  function NewGreetingText(): (g: GreetingText)
    ensures g.locale == "default" && g.text == C.GreetingTextMsg
  {
    GreetingText("default", C.GreetingTextMsg)
  }

  /** A menu action; fields the constructors leave out are "" or empty. */
  datatype Action = Action(kind: string, title: string, payload: string, url: string, webView: string, actions: seq<Action>)

  /** newWebURLAction */
  function NewWebURLAction(title: string, url: string): (a: Action)
    ensures a.kind == WebURLType && a.title == title && a.url == url && a.payload == "" && a.actions == []
  {
    Action(WebURLType, title, "", url, "", [])
  }

  /** newPostBackAction */
  function NewPostBackAction(title: string, payload: string): (a: Action)
    ensures a.kind == PostBackType && a.title == title && a.payload == payload && a.url == "" && a.actions == []
  {
    Action(PostBackType, title, payload, "", "", [])
  }

  datatype Menu = Menu(locale: string, composerInputDisabled: bool, actions: seq<Action>)

  /** The actions of the default menu, in order; each action's title is its payload. */
  const DefaultActions := [NewPostBackAction("Latest news", "Latest news"), NewPostBackAction("Manage Alerts", "Manage Alerts"),
                           NewPostBackAction("Help", "Help")]

  /** PersistentMenu: its menus, of which AddAction extends the first. */
  class PersistentMenu {
    var menus: seq<Menu>

    /** NewPersistentMenu: one menu, locale "default", composer input enabled, no actions. */
    constructor ()
      ensures menus == [Menu("default", false, [])]
    {
      menus := [Menu("default", false, [])];
    }

    /** AddAction appends to the first menu's actions; the other menus stay as they are. */
    method AddAction(a: Action)
      requires |menus| > 0
      modifies this
      ensures |menus| == |old(menus)| && menus[1..] == old(menus)[1..]
      ensures menus[0] == old(menus)[0].(actions := old(menus)[0].actions + [a])
    {
      menus := menus[0 := menus[0].(actions := menus[0].actions + [a])];
    }
  }

  /** GetDefaultMenu: the new menu with the three postback actions. */
  method GetDefaultMenu() returns (pm: PersistentMenu)
    ensures fresh(pm)
    ensures pm.menus == [Menu("default", false, DefaultActions)]
  {
    pm := new PersistentMenu();
    pm.AddAction(NewPostBackAction("Latest news", "Latest news"));
    pm.AddAction(NewPostBackAction("Manage Alerts", "Manage Alerts"));
    pm.AddAction(NewPostBackAction("Help", "Help"));
    assert pm.menus[0].actions == DefaultActions;
    assert pm.menus == [pm.menus[0]];
  }

  /** The default actions are three postbacks whose titles are their payloads. */
  lemma DefaultActionsSpec()
    ensures |DefaultActions| == 3
    ensures forall i :: 0 <= i < 3 ==> DefaultActions[i].kind == PostBackType && DefaultActions[i].title == DefaultActions[i].payload
    ensures DefaultActions[0].title == "Latest news" && DefaultActions[1].title == "Manage Alerts" && DefaultActions[2].title == "Help"
  {
  }
}
