/** The chatbot: the statement a user's input becomes, the logic adapters that answer it and the
    selection of the adapter that does. What DialogFlow returns for a query, what the datastore
    returns for the article and subscription queries, and the presentation helpers an article
    element needs (the host, the encoded key, the sub-text) are inputs. */
module Chatbot {
  import opened Wrappers
  import opened Strings
  import Utils
  import Msg = Messages
  import Models
  import C = Constants

  /** A string-keyed parameter map, as DialogFlow passes action parameters. */
  type Params = map<string, Utils.Value>

  /** The text messages of a list of texts, all addressed to one user, in order. */
  function TextResponses(uid: string, texts: seq<string>): (r: seq<Msg.Message>)
    ensures |r| == |texts|
    ensures forall i :: 0 <= i < |texts| ==> r[i] == Msg.Text(Msg.NewTextMessage(uid, texts[i]))
  {
    seq(|texts|, i requires 0 <= i < |texts| => Msg.Text(Msg.NewTextMessage(uid, texts[i])))
  }

  lemma TextResponsesSnoc(uid: string, texts: seq<string>, i: int)
    requires 0 <= i < |texts|
    ensures TextResponses(uid, texts[..i + 1]) == TextResponses(uid, texts[..i]) + [Msg.Text(Msg.NewTextMessage(uid, texts[i]))]
  {
    assert |TextResponses(uid, texts[..i + 1])| == i + 1;
    assert forall j :: 0 <= j < i ==> TextResponses(uid, texts[..i + 1])[j] == TextResponses(uid, texts[..i])[j];
  }

  // ---- Statements ----

  /** Statement: the user's text, the postback payload, the user, the responses so far and the metadata. */
  class Statement {
    var text: string
    var payload: string
    var userID: string
    var responses: seq<Msg.Message>
    var meta: Params

    /** NewStatement: the text trimmed, no responses, empty metadata. */
    constructor (t: string, userID: string)
      ensures text == TrimSpace(t) && this.userID == userID && payload == "" && responses == [] && meta == map[]
    {
      text := TrimSpace(t);
      this.userID := userID;
      payload := "";
      responses := [];
      meta := map[];
    }

    /** AddResponse: one more response at the end. */
    method AddResponse(r: Msg.Message)
      modifies this
      ensures responses == old(responses) + [r]
      ensures text == old(text) && payload == old(payload) && userID == old(userID) && meta == old(meta)
    {
      responses := responses + [r];
    }

    /** SetPayload changes the payload and nothing else. */
    method SetPayload(p: string)
      modifies this
      ensures payload == p
      ensures text == old(text) && userID == old(userID) && responses == old(responses) && meta == old(meta)
    {
      payload := p;
    }

    /** AddTextResponse: a text message to the statement's user. */
    method AddTextResponse(t: string)
      modifies this
      ensures responses == old(responses) + [Msg.Text(Msg.NewTextMessage(userID, t))]
      ensures text == old(text) && payload == old(payload) && userID == old(userID) && meta == old(meta)
    {
      AddResponse(Msg.Text(Msg.NewTextMessage(userID, t)));
    }

    /** addMessageResponseFromDialog: one text message per fulfilment speech, in order. */
    method AddMessageResponseFromDialog(speeches: seq<string>)
      modifies this
      ensures responses == old(responses) + TextResponses(userID, speeches)
      ensures text == old(text) && payload == old(payload) && userID == old(userID) && meta == old(meta)
    {
      var i := 0;
      while i < |speeches|
        invariant 0 <= i <= |speeches|
        invariant responses == old(responses) + TextResponses(userID, speeches[..i])
        invariant text == old(text) && payload == old(payload) && userID == old(userID) && meta == old(meta)
      {
        TextResponsesSnoc(userID, speeches, i);
        AddTextResponse(speeches[i]);
        i := i + 1;
      }
      assert speeches[..i] == speeches;
    }
  }

  // ---- The postback logic ----

  /** The actions the postback logic's pattern alternates between. */
  const PostBackActions := [C.PostBackGetStarted, C.PostBackGetSummary]

  /** canProcess: the unanchored pattern "Get Started|Summary" matches somewhere in the text. */
  predicate PostBackAccepts(text: string) {
    exists i :: 0 <= i < |PostBackActions| && Contains(text, PostBackActions[i])
  }

  lemma PostBackAcceptsSpec(text: string)
    ensures PostBackAccepts(text) <==> Contains(text, C.PostBackGetStarted) || Contains(text, C.PostBackGetSummary)
  {
    if Contains(text, C.PostBackGetStarted) {
      assert Contains(text, PostBackActions[0]);
    } else if Contains(text, C.PostBackGetSummary) {
      assert Contains(text, PostBackActions[1]);
    }
    if PostBackAccepts(text) {
      var i :| 0 <= i < |PostBackActions| && Contains(text, PostBackActions[i]);
      assert i == 0 || i == 1;
    }
  }

  /** The responses the postback logic adds: the two greeting texts and the subscribe menu for
      "Get Started"; one text per summary sentence of the article named by the payload for
      "Summary", none when the article cannot be loaded; none for any other text. */
  function PostBackResponses(text: string, uid: string, article: Result<Models.Article, string>): seq<Msg.Message> {
    if text == C.PostBackGetStarted then
      [Msg.Text(Msg.NewTextMessage(uid, C.GetStartedMsg)), Msg.Text(Msg.NewTextMessage(uid, C.SubscribeText)),
       Msg.QuickReplies(Msg.NewSubscribeMenu(uid))]
    else if text == C.PostBackGetSummary && article.Success? then TextResponses(uid, article.value.summary)
    else []
  }

  /** Dispatch is by exact equality, acceptance by substring: an accepted text that is neither
      action gets no response. */
  lemma AcceptedButUnanswered(uid: string, article: Result<Models.Article, string>)
    ensures PostBackAccepts("Summary please")
    ensures PostBackResponses("Summary please", uid, article) == []
  {
    var t := "Summary please";
    assert OccursAt(t, C.PostBackGetSummary, 0) by {
      assert t[0..7] == C.PostBackGetSummary;
    }
    ContainsAt(t, C.PostBackGetSummary);
    assert Contains(t, PostBackActions[1]);
  }

  /** The postback responses: three for "Get Started", the article's summary for "Summary",
      and nothing when the text is neither or the article lookup failed. */
  lemma PostBackResponsesSpec(text: string, uid: string, article: Result<Models.Article, string>)
    ensures text == C.PostBackGetStarted ==> (|PostBackResponses(text, uid, article)| == 3 &&
      Msg.String(PostBackResponses(text, uid, article)[0]) == C.GetStartedMsg &&
      Msg.String(PostBackResponses(text, uid, article)[1]) == C.SubscribeText &&
      PostBackResponses(text, uid, article)[2] == Msg.QuickReplies(Msg.NewSubscribeMenu(uid)))
    ensures text == C.PostBackGetSummary ==>
      PostBackResponses(text, uid, article) == (if article.Success? then TextResponses(uid, article.value.summary) else [])
    ensures text != C.PostBackGetStarted && text != C.PostBackGetSummary ==> PostBackResponses(text, uid, article) == []
  {
  }

  /** PostBackLogic: the bot it belongs to and the actions of its pattern. */
  class PostBackLogic {
    var bot: Option<string>
    const actions: seq<string>

    /** NewPostBackLogic */
    constructor ()
      ensures actions == PostBackActions && bot == None
    {
      actions := PostBackActions;
      bot := None;
    }

    method SetChatbot(b: string)
      modifies this
      ensures bot == Some(b)
    {
      bot := Some(b);
    }

    /** Process: the postback responses are added to the statement, which is returned.
        The article lookup for "Summary" reads the store. */
    method Process(st: Statement, s: Models.Store) returns (r: Statement)
      modifies st
      ensures r == st
      ensures st.responses == old(st.responses) + PostBackResponses(old(st.text), old(st.userID), Models.GetArticle(s, old(st.payload)))
      ensures st.text == old(st.text) && st.payload == old(st.payload) && st.userID == old(st.userID) && st.meta == old(st.meta)
    {
      if st.text == C.PostBackGetStarted {
        st.AddTextResponse(C.GetStartedMsg);
        st.AddTextResponse(C.SubscribeText);
        var reply := Msg.NewSubscribeMenu(st.userID);
        st.AddResponse(Msg.QuickReplies(reply));
      } else if st.text == C.PostBackGetSummary {
        var article := Models.GetArticle(s, st.payload);
        if article.Success? {
          var summary := article.value.summary;
          var i := 0;
          while i < |summary|
            invariant 0 <= i <= |summary|
            invariant st.responses == old(st.responses) + TextResponses(st.userID, summary[..i])
            invariant st.text == old(st.text) && st.payload == old(st.payload) && st.userID == old(st.userID) && st.meta == old(st.meta)
          {
            TextResponsesSnoc(st.userID, summary, i);
            st.AddTextResponse(summary[i]);
            i := i + 1;
          }
          assert summary[..i] == summary;
        }
      }
      r := st;
    }
  }

  // ---- The DialogFlow logic ----

  /** What DialogFlow returns for a query: its ID and timestamp, the fulfilment speeches, the
      action and the action's parameters. */
  datatype DialogResponse = DialogResponse(id: string, timestamp: string, speeches: seq<string>, action: string, parameters: Params)

  /** The answers of the services an action consults: the article query, GetTopics (already
      shuffled), GetUserSubscriptions (with IDs set), and the presentation helpers of an article. */
  datatype Services = Services(found: Result<seq<(Models.Key, Models.Article)>, string>, topics: seq<Models.Topic>,
                               subscriptions: Result<seq<Models.Subscription>, string>, host: string,
                               encode: Models.Key -> string, subText: Models.Article -> string)

  /** The subscriptions GetUnsubscribedTopics and stopSubscription work on: none after an error. */
  function Subscriptions(env: Services): seq<Models.Subscription> {
    if env.subscriptions.Success? then env.subscriptions.value else []
  }

  /** Without subscriptions, GetUnsubscribedTopics slices the topics at limit, which panics
      when there are fewer. */
  predicate Sliceable(env: Services, limit: nat) {
    |Subscriptions(env)| < 1 ==> limit <= |env.topics|
  }

  /** The topics GetUnsubscribedTopics returns. */
  function Unsubscribed(env: Services, limit: nat): seq<Models.Topic>
    requires Sliceable(env, limit)
  {
    if |Subscriptions(env)| < 1 then env.topics[..limit] else Models.FirstDistinct(env.topics, limit)
  }

  /** The parameter types the search asserts: a string category and keyword, an int page. */
  predicate Typed(p: Params) {
    Models.CategoryWellTyped(p) && Models.KeywordWellTyped(p) && ("page" in p ==> p["page"].Int?)
  }

  /** The per-user state holds only parameters the search accepts. */
  predicate StateTyped(state: map<string, Params>) {
    forall u :: u in state ==> Typed(state[u])
  }

  /** The user's stored parameters; empty for a user with none. */
  function StoredParams(state: map<string, Params>, uid: string): Params {
    if uid in state then state[uid] else map[]
  }

  /** The stored page; 1 when none is stored. */
  function StoredPage(p: Params): int
    requires "page" in p ==> p["page"].Int?
  {
    Utils.Lookup(p, "page", Utils.Int(1)).i
  }

  predicate IsSearchAction(a: string) {
    a == C.ActionNewsSearch || a == C.ActionNewsSearchNext || a == C.ActionNewsSearchPrevious || a == C.ActionNewsSearchRepeat
  }

  /** The parameters and the page each search action searches with: the response's
      parameters and page 1 for a new search; the stored parameters and the stored page plus
      one, minus one or unchanged for next, previous and repeat. */
  function SearchArgs(state: map<string, Params>, uid: string, resp: DialogResponse): (r: Option<(Params, int)>)
    requires StateTyped(state)
    requires resp.action == C.ActionNewsSearch ==> Models.CategoryWellTyped(resp.parameters) && Models.KeywordWellTyped(resp.parameters)
    ensures r.Some? <==> IsSearchAction(resp.action)
    ensures r.Some? ==> Typed(r.value.0)
  {
    if resp.action == C.ActionNewsSearch then Some((resp.parameters["page" := Utils.Int(1)], 1))
    else if IsSearchAction(resp.action) then
      var p := StoredParams(state, uid);
      var d := if resp.action == C.ActionNewsSearchNext then 1 else if resp.action == C.ActionNewsSearchPrevious then -1 else 0;
      Some((p, StoredPage(p) + d))
    else None
  }

  /** What a response needs to be processed without a failed type assertion or slice. */
  predicate DialogReady(resp: DialogResponse, env: Services) {
    (resp.action == C.ActionNewsSearch ==> Models.CategoryWellTyped(resp.parameters) && Models.KeywordWellTyped(resp.parameters)) &&
    ((resp.action == C.ActionStop || resp.action == C.ActionSubscribe) && "topic" in resp.parameters ==> resp.parameters["topic"].Str?) &&
    (resp.action == C.ActionTopics ==> Sliceable(env, 5)) &&
    (IsSearchAction(resp.action) && env.found.Success? && |env.found.value| > 0 ==> Sliceable(env, 4))
  }

  /** The articles of a query answer, each with its ID set from its key. */
  function Loaded(found: seq<(Models.Key, Models.Article)>): (r: seq<Models.Article>)
    ensures |r| == |found|
  {
    seq(|found|, i requires 0 <= i < |found| => found[i].1.(id := found[i].0.name))
  }

  /** The element of an article. */
  function NewsElement(uid: string, a: Models.Article, env: Services): Msg.Element {
    Models.ToMessengerElement(a, uid, env.host, env.encode(Models.ArticleKey(a)), env.subText(a))
  }

  /** The generic message of the search results: one element per article, in order. */
  function NewsMessage(uid: string, articles: seq<Models.Article>, env: Services): Msg.GenericMessage {
    Msg.NewGenericMessage(uid).(elements := seq(|articles|, i requires 0 <= i < |articles| => NewsElement(uid, articles[i], env)))
  }

  const MorePrompt := "You can view more of this news or other topics"
  const MoreNews := "Show me more"
  const NoArticles := "No articles found"

  /** The reply of a topic suggested after a search. */
  function TopicReply(t: Models.Topic): (string, string) {
    (Title(t.name) + " news", Title(t.name) + " news")
  }

  /** The topic suggestions after a search: every topic except those named like the category. */
  function TopicReplies(topics: seq<Models.Topic>, cat: string): seq<(string, string)> {
    if topics == [] then []
    else
      var t := topics[|topics| - 1];
      TopicReplies(topics[..|topics| - 1], cat) + (if t.name == cat then [] else [TopicReply(t)])
  }

  /** Every suggestion comes from a topic not named like the category, and every such topic is suggested. */
  lemma {:induction false} TopicRepliesSpec(topics: seq<Models.Topic>, cat: string)
    ensures |TopicReplies(topics, cat)| <= |topics|
    ensures forall r :: r in TopicReplies(topics, cat) ==> exists t :: t in topics && t.name != cat && r == TopicReply(t)
    ensures forall t :: t in topics && t.name != cat ==> TopicReply(t) in TopicReplies(topics, cat)
  {
    if topics != [] {
      var init := topics[..|topics| - 1];
      TopicRepliesSpec(init, cat);
      assert topics == init + [topics[|topics| - 1]];
      forall r | r in TopicReplies(init, cat) ensures exists t :: t in topics && t.name != cat && r == TopicReply(t) {
        var t :| t in init && t.name != cat && r == TopicReply(t);
        assert t in topics;
      }
    }
  }

  /** The quick replies after a search: "Show me more", then the topic suggestions. */
  function SearchReply(uid: string, topics: seq<Models.Topic>, cat: string): Msg.QuickReplyMessage {
    Msg.NewQuickReply(uid, MorePrompt).(replies := Msg.TextReplies([(MoreNews, MoreNews)] + TopicReplies(topics, cat)))
  }

  /** What searchNews does: the error of the query or of an empty answer, with no response and
      nothing stored; otherwise the results message and the quick replies, and the parameters
      with the page used stored for the user. */
  datatype SearchResult = SearchResult(responses: seq<Msg.Message>, stored: Option<Params>, err: Option<string>)

  function SearchOutcome(uid: string, params: Params, page: int, env: Services): SearchResult
    requires Typed(params)
    requires env.found.Success? && |env.found.value| > 0 ==> Sliceable(env, 4)
  {
    match env.found
    case Failure(e) => SearchResult([], None, Some(e))
    case Success(rows) =>
      if |rows| < 1 then SearchResult([], None, Some(NoArticles))
      else
        var cat := Utils.Lookup(params, "category", Utils.Str("")).s;
        SearchResult([Msg.Generic(NewsMessage(uid, Loaded(rows), env)), Msg.QuickReplies(SearchReply(uid, Unsubscribed(env, 4), cat))],
                     Some(params["page" := Utils.Int(page)]), None)
  }

  /** A failed or empty search adds nothing and stores nothing; a successful one adds the
      results, one element per article in answer order, then the replies, led by "Show me
      more", and stores the parameters with the page used. */
  lemma SearchOutcomeSpec(uid: string, params: Params, page: int, env: Services)
    requires Typed(params)
    requires env.found.Success? && |env.found.value| > 0 ==> Sliceable(env, 4)
    ensures var r := SearchOutcome(uid, params, page, env);
      (env.found.Failure? || |env.found.value| == 0 <==> r.err.Some?) &&
      (r.err.Some? ==> r.responses == [] && r.stored == None) &&
      (r.err.None? ==> (
        r.stored == Some(params["page" := Utils.Int(page)]) && Typed(r.stored.value) && |r.responses| == 2 &&
        r.responses[0].Generic? && |r.responses[0].g.elements| == |env.found.value| &&
        (forall i :: 0 <= i < |env.found.value| ==>
          r.responses[0].g.elements[i] == NewsElement(uid, env.found.value[i].1.(id := env.found.value[i].0.name), env)) &&
        r.responses[1].QuickReplies? && r.responses[1].q.replies[0] == Msg.QuickReply(Msg.QuickReplyTextType, MoreNews, MoreNews, "")))
  {
  }

  /** Every state the search leaves holds only accepted parameters. */
  lemma SearchKeepsStateTyped(state: map<string, Params>, uid: string, params: Params, page: int, env: Services)
    requires StateTyped(state) && Typed(params)
    requires env.found.Success? && |env.found.value| > 0 ==> Sliceable(env, 4)
    ensures var r := SearchOutcome(uid, params, page, env); r.stored.Some? ==> StateTyped(state[uid := r.stored.value])
  {
  }

  /** The keys of the subscriptions stopSubscription deletes: those on the topic, or all when the topic is "". */
  function StopKeys(subs: seq<Models.Subscription>, topic: string): set<Models.Key> {
    set sub | sub in subs && (topic == sub.topic.name || topic == "") :: Models.EntityKey(Models.SubscriptionEntity(sub))
  }

  /** The store after stopSubscription. */
  function Stopped(s: Models.Store, subs: seq<Models.Subscription>, topic: string): (r: Models.Store)
    requires Models.Valid(s)
    ensures Models.Valid(r)
  {
    if subs == [] then s
    else
      var r := Stopped(s, subs[..|subs| - 1], topic);
      var sub := subs[|subs| - 1];
      if topic == sub.topic.name || topic == "" then Models.Delete(r, Models.EntityKey(Models.SubscriptionEntity(sub))) else r
  }

  /** stopSubscription deletes exactly the keys of the matching subscriptions. */
  lemma {:induction false} StoppedSpec(s: Models.Store, subs: seq<Models.Subscription>, topic: string)
    requires Models.Valid(s)
    ensures Stopped(s, subs, topic).rows == s.rows - StopKeys(subs, topic)
    ensures Stopped(s, subs, topic).nextId == s.nextId
  {
    if subs != [] {
      var init := subs[..|subs| - 1];
      StoppedSpec(s, init, topic);
      assert subs == init + [subs[|subs| - 1]];
      var sub := subs[|subs| - 1];
      if topic == sub.topic.name || topic == "" {
        assert StopKeys(subs, topic) == StopKeys(init, topic) + {Models.EntityKey(Models.SubscriptionEntity(sub))};
      } else {
        assert StopKeys(subs, topic) == StopKeys(init, topic);
      }
    }
  }

  /** An empty topic stops every subscription of the user. */
  lemma StopAllOnEmptyTopic(s: Models.Store, subs: seq<Models.Subscription>)
    requires Models.Valid(s)
    ensures forall sub :: sub in subs ==> Models.EntityKey(Models.SubscriptionEntity(sub)) !in Stopped(s, subs, "").rows
  {
    StoppedSpec(s, subs, "");
  }

  /** The follow-up question after subscribing. */
  function FollowUp(uid: string): Msg.QuickReplyMessage {
    var reply := Msg.NewQuickReply(uid, "Do you want to subscribe to anything else?");
    Msg.AddTextQuickReply(Msg.AddTextQuickReply(reply, "No, thanks!", "No, thanks!"), "Other topics", "Other topics")
  }

  /** The alerts message: one element per subscription, with its description and stop button. */
  function AlertsMessage(uid: string, subs: seq<Models.Subscription>): Msg.GenericMessage {
    Msg.NewGenericMessage(uid).(elements := seq(|subs|, i requires 0 <= i < |subs| =>
      Msg.NewElement(subs[i].topic.name, Models.Description(subs[i]), "", "", Models.StopButton(subs[i]))))
  }

  /** The topic list: one reply per unsubscribed topic, titled and answered by its name. */
  function TopicNames(topics: seq<Models.Topic>): seq<(string, string)> {
    seq(|topics|, i requires 0 <= i < |topics| => (topics[i].name, topics[i].name))
  }

  function TopicsReply(uid: string, topics: seq<Models.Topic>): Msg.QuickReplyMessage {
    Msg.NewQuickReply(uid, Msg.OptionsPrompt).(replies := Msg.TextReplies(TopicNames(topics)))
  }

  /** What Process leaves after the speeches: the action's responses, the per-user state, the
      store, and the article query it ran. */
  datatype Outcome = Outcome(responses: seq<Msg.Message>, state: map<string, Params>, store: Models.Store, query: Option<Models.Query>)

  /** The action switch of Process. */
  function Act(state: map<string, Params>, uid: string, resp: DialogResponse, env: Services, s: Models.Store, now: Models.Time): (o: Outcome)
    requires Models.Valid(s) && StateTyped(state) && DialogReady(resp, env)
    ensures Models.Valid(o.store) && StateTyped(o.state)
  {
    match SearchArgs(state, uid, resp)
    case Some((params, page)) =>
      var (rs, state', q) := SearchAct(state, uid, params, page, env);
      Outcome(rs, state', s, Some(q))
    case None =>
      var (rs, s') := OtherAct(uid, resp, env, s, now);
      Outcome(rs, state, s', None)
  }

  /** A search action: the search's responses, the state with what it stored, and the query. */
  function SearchAct(state: map<string, Params>, uid: string, params: Params, page: int, env: Services)
    : (r: (seq<Msg.Message>, map<string, Params>, Models.Query))
    requires StateTyped(state) && Typed(params)
    requires env.found.Success? && |env.found.value| > 0 ==> Sliceable(env, 4)
    ensures StateTyped(r.1)
  {
    var o := SearchOutcome(uid, params, page, env);
    SearchKeepsStateTyped(state, uid, params, page, env);
    (o.responses, if o.stored.Some? then state[uid := o.stored.value] else state, Models.ArticleSearchQuery(params, page))
  }

  /** The other actions, which leave the state alone and run no article query: their responses and the store. */
  function OtherAct(uid: string, resp: DialogResponse, env: Services, s: Models.Store, now: Models.Time): (r: (seq<Msg.Message>, Models.Store))
    requires Models.Valid(s) && DialogReady(resp, env)
    ensures Models.Valid(r.1)
  {
    var ps := resp.parameters;
    if resp.action == C.ActionStop then
      ([], if "topic" in ps then Stopped(s, Subscriptions(env), ps["topic"].s) else s)
    else if resp.action == C.ActionReset then
      ([Msg.QuickReplies(Msg.NewSubscribeMenu(uid))], s)
    else if resp.action == C.ActionTopics then
      ([Msg.QuickReplies(TopicsReply(uid, Unsubscribed(env, 5)))], s)
    else if resp.action == C.ActionSubscribe then
      var s1 := if "topic" in ps then Models.Saved(s, Models.SubscriptionEntity(Models.NewSubscription(uid, ps["topic"].s)), now).0 else s;
      var several := env.subscriptions.Success? && |env.subscriptions.value| > 1;
      (if several then [] else [Msg.QuickReplies(FollowUp(uid))], s1)
    else if resp.action == C.ActionManageAlerts then
      if env.subscriptions.Success? && |env.subscriptions.value| > 0 then
        ([Msg.Generic(AlertsMessage(uid, env.subscriptions.value))], s)
      else
        ([Msg.Text(Msg.NewTextMessage(uid, C.NoSubscriptionText)), Msg.QuickReplies(Msg.NewSubscribeMenu(uid))], s)
    else ([], s)
  }

  /** Only a successful search changes the state, and then only the user's entry, which
      records the page searched; exactly the search actions run an article query. */
  lemma ActSpec(state: map<string, Params>, uid: string, resp: DialogResponse, env: Services, s: Models.Store, now: Models.Time)
    requires Models.Valid(s) && StateTyped(state) && DialogReady(resp, env)
    ensures var o := Act(state, uid, resp, env, s, now);
      (o.state != state ==> (IsSearchAction(resp.action) && o.state == state[uid := o.state[uid]] &&
        o.state[uid] == SearchArgs(state, uid, resp).value.0["page" := Utils.Int(SearchArgs(state, uid, resp).value.1)] &&
        SearchOutcome(uid, SearchArgs(state, uid, resp).value.0, SearchArgs(state, uid, resp).value.1, env).err.None?)) &&
      (o.query.Some? <==> IsSearchAction(resp.action))
  {
  }

  /** Paging: next, previous and repeat search the stored page plus one, minus one and
      unchanged; a new search starts at page 1; a page of 1 or below reads from offset 0. */
  lemma PagingSpec(state: map<string, Params>, uid: string, resp: DialogResponse)
    requires StateTyped(state) && IsSearchAction(resp.action)
    requires resp.action == C.ActionNewsSearch ==> Models.CategoryWellTyped(resp.parameters) && Models.KeywordWellTyped(resp.parameters)
    ensures var (params, page) := SearchArgs(state, uid, resp).value;
      var stored := StoredPage(StoredParams(state, uid));
      (resp.action == C.ActionNewsSearch ==> page == 1 && params == resp.parameters["page" := Utils.Int(1)]) &&
      (resp.action == C.ActionNewsSearchNext ==> page == stored + 1) &&
      (resp.action == C.ActionNewsSearchPrevious ==> page == stored - 1) &&
      (resp.action == C.ActionNewsSearchRepeat ==> page == stored) &&
      (page <= 1 ==> Models.ArticleSearchQuery(params, page).offset == 0) &&
      Models.ArticleSearchQuery(params, page).limit == Models.PageSize
  {
  }

  /** A user with no stored search starts at page 1, so next searches page 2. */
  lemma NextWithoutState(state: map<string, Params>, uid: string, resp: DialogResponse)
    requires StateTyped(state) && uid !in state && resp.action == C.ActionNewsSearchNext
    ensures SearchArgs(state, uid, resp) == Some((map[], 2))
  {
  }

  /** subscribe asks the follow-up question unless the lookup found more than one subscription;
      manage.alerts lists the subscriptions when there is one, and otherwise says there is none
      and offers the subscribe menu. */
  lemma SubscriptionActionsSpec(state: map<string, Params>, uid: string, resp: DialogResponse, env: Services, s: Models.Store, now: Models.Time)
    requires Models.Valid(s) && StateTyped(state) && DialogReady(resp, env)
    ensures var r := Act(state, uid, resp, env, s, now).responses;
      var several := env.subscriptions.Success? && |env.subscriptions.value| > 1;
      var some := env.subscriptions.Success? && |env.subscriptions.value| > 0;
      (resp.action == C.ActionSubscribe ==> (r == [] <==> several) && (!several ==> r == [Msg.QuickReplies(FollowUp(uid))])) &&
      (resp.action == C.ActionManageAlerts && some ==> |r| == 1 && r[0].Generic? && |r[0].g.elements| == |env.subscriptions.value|) &&
      (resp.action == C.ActionManageAlerts && !some ==> |r| == 2 && Msg.String(r[0]) == C.NoSubscriptionText)
  {
  }

  /** subscribe saves the new subscription of the parameter's topic, and stop deletes the keys
      of the matching subscriptions; the other actions leave the store unchanged. */
  lemma ActStoreSpec(state: map<string, Params>, uid: string, resp: DialogResponse, env: Services, s: Models.Store, now: Models.Time)
    requires Models.Valid(s) && StateTyped(state) && DialogReady(resp, env)
    ensures var st := Act(state, uid, resp, env, s, now).store; var ps := resp.parameters;
      (resp.action == C.ActionStop && "topic" in ps ==> st.rows == s.rows - StopKeys(Subscriptions(env), ps["topic"].s)) &&
      (resp.action == C.ActionSubscribe && "topic" in ps ==> (
        var (s', doc', key) := Models.Saved(s, Models.SubscriptionEntity(Models.NewSubscription(uid, ps["topic"].s)), now);
        st == s' && key in st.rows && key !in s.rows && key.kind == Models.SubscriptionKind)) &&
      (resp.action != C.ActionStop && resp.action != C.ActionSubscribe ==> st == s)
  {
    var ps := resp.parameters;
    if resp.action == C.ActionStop && "topic" in ps {
      StoppedSpec(s, Subscriptions(env), ps["topic"].s);
    }
    if resp.action == C.ActionSubscribe && "topic" in ps {
      Models.SavedSpec(s, Models.SubscriptionEntity(Models.NewSubscription(uid, ps["topic"].s)), now);
    }
  }

  /** DialogFlowLogic: the bot it belongs to and the search parameters stored per user. */
  class DialogFlowLogic {
    var bot: Option<string>
    var state: map<string, Params>

    constructor ()
      ensures state == map[] && bot == None && Valid()
    {
      bot := None;
      state := map[];
    }

    predicate Valid()
      reads this
    {
      StateTyped(state)
    }

    method SetChatbot(b: string)
      modifies this
      ensures bot == Some(b) && state == old(state)
    {
      bot := Some(b);
    }

    /** Process: records the response's ID and timestamp in the metadata, adds the speeches,
        then runs the action. */
    method Process(st: Statement, resp: DialogResponse, env: Services, s: Models.Store, now: Models.Time)
      returns (r: Statement, s': Models.Store, query: Option<Models.Query>)
      requires Valid() && Models.Valid(s) && DialogReady(resp, env)
      modifies this, st
      ensures Valid() && r == st && bot == old(bot)
      ensures var o := Act(old(state), old(st.userID), resp, env, s, now);
        st.responses == old(st.responses) + TextResponses(old(st.userID), resp.speeches) + o.responses &&
        state == o.state && s' == o.store && query == o.query
      ensures st.meta == old(st.meta)["dialog_flow_id" := Utils.Str(resp.id)]["timestamp" := Utils.Str(resp.timestamp)]
      ensures st.text == old(st.text) && st.payload == old(st.payload) && st.userID == old(st.userID)
    {
      st.meta := st.meta["dialog_flow_id" := Utils.Str(resp.id)]["timestamp" := Utils.Str(resp.timestamp)];
      st.AddMessageResponseFromDialog(resp.speeches);
      if IsSearchAction(resp.action) {
        s' := s;
        query := SearchAction(st, resp, env, s, now);
      } else {
        s' := OtherAction(st, resp, env, s, now);
        query := None;
      }
      r := st;
    }

    /** The four search actions: the parameters and the page, then searchNews. */
    method SearchAction(st: Statement, resp: DialogResponse, env: Services, ghost s: Models.Store, ghost now: Models.Time)
      returns (query: Option<Models.Query>)
      requires Valid() && Models.Valid(s) && DialogReady(resp, env) && IsSearchAction(resp.action)
      modifies this, st
      ensures Valid() && bot == old(bot)
      ensures var o := Act(old(state), old(st.userID), resp, env, s, now);
        st.responses == old(st.responses) + o.responses && state == o.state && query == o.query && o.store == s
      ensures st.text == old(st.text) && st.payload == old(st.payload) && st.userID == old(st.userID) && st.meta == old(st.meta)
    {
      var params, page;
      if resp.action == C.ActionNewsSearch {
        params := resp.parameters["page" := Utils.Int(1)];
        page := 1;
      } else {
        params := if st.userID in state then state[st.userID] else map[];
        page := Utils.Lookup(params, "page", Utils.Int(1)).i;
        if resp.action == C.ActionNewsSearchNext {
          page := page + 1;
        } else if resp.action == C.ActionNewsSearchPrevious {
          page := page - 1;
        }
      }
      assert SearchArgs(state, st.userID, resp) == Some((params, page));
      var q, _ := SearchNews(st, params, page, env);
      query := Some(q);
    }

    /** The actions other than searches. */
    method OtherAction(st: Statement, resp: DialogResponse, env: Services, s: Models.Store, now: Models.Time) returns (s': Models.Store)
      requires Valid() && Models.Valid(s) && DialogReady(resp, env) && !IsSearchAction(resp.action)
      modifies st
      ensures var o := Act(state, old(st.userID), resp, env, s, now);
        st.responses == old(st.responses) + o.responses && s' == o.store && o.state == state && o.query == None
      ensures st.text == old(st.text) && st.payload == old(st.payload) && st.userID == old(st.userID) && st.meta == old(st.meta)
    {
      s' := s;
      var action := resp.action;
      if action == C.ActionStop {
        if "topic" in resp.parameters {
          s' := StopSubscription(Subscriptions(env), resp.parameters["topic"].s, s);
        }
      } else if action == C.ActionReset {
        var reply := Msg.NewSubscribeMenu(st.userID);
        st.AddResponse(Msg.QuickReplies(reply));
      } else if action == C.ActionTopics {
        var topics := Models.GetUnsubscribedTopics(env.topics, Subscriptions(env), 5);
        var reply := BuildTopicsReply(st.userID, topics);
        st.AddResponse(Msg.QuickReplies(reply));
      } else if action == C.ActionSubscribe {
        if "topic" in resp.parameters {
          var sub := Models.NewSubscription(st.userID, resp.parameters["topic"].s);
          var saved, key;
          s', saved, key := Models.Save(s, Models.SubscriptionEntity(sub), now);
        }
        if !(env.subscriptions.Success? && |env.subscriptions.value| > 1) {
          st.AddResponse(Msg.QuickReplies(FollowUp(st.userID)));
        }
      } else if action == C.ActionManageAlerts {
        if env.subscriptions.Success? && |env.subscriptions.value| > 0 {
          var gm := BuildAlerts(st.userID, env.subscriptions.value);
          st.AddResponse(Msg.Generic(gm));
        } else {
          st.AddTextResponse(C.NoSubscriptionText);
          st.AddResponse(Msg.QuickReplies(Msg.NewSubscribeMenu(st.userID)));
        }
      }
    }

    /** searchNews: runs the search; on an error or an empty answer returns the error and adds
        nothing; otherwise adds the results and the quick replies and stores the parameters
        with the page used for the user. */
    method SearchNews(st: Statement, params: Params, page: int, env: Services) returns (q: Models.Query, err: Option<string>)
      requires Valid() && Typed(params)
      requires env.found.Success? && |env.found.value| > 0 ==> Sliceable(env, 4)
      modifies this, st
      ensures Valid() && bot == old(bot)
      ensures q == Models.ArticleSearchQuery(params, page)
      ensures var r := SearchOutcome(old(st.userID), params, page, env);
        st.responses == old(st.responses) + r.responses && err == r.err &&
        state == (if r.stored.Some? then old(state)[old(st.userID) := r.stored.value] else old(state))
      ensures st.text == old(st.text) && st.payload == old(st.payload) && st.userID == old(st.userID) && st.meta == old(st.meta)
    {
      var articles;
      q, articles, err := Models.SearchArticle(params, page, env.found);
      if err.Some? {
        return;
      }
      if |articles| < 1 {
        err := Some(NoArticles);
        return;
      }
      ShowResults(st, articles, params, page, env);
    }

    /** The successful end of searchNews: the results, the replies, and the parameters stored
        with the page used. */
    method ShowResults(st: Statement, articles: seq<Models.Article>, params: Params, page: int, env: Services)
      requires Valid() && Typed(params)
      requires env.found.Success? && |env.found.value| > 0 && Sliceable(env, 4)
      requires articles == Loaded(env.found.value)
      modifies this, st
      ensures Valid() && bot == old(bot)
      ensures var r := SearchOutcome(old(st.userID), params, page, env);
        st.responses == old(st.responses) + r.responses && r.stored.Some? && state == old(state)[old(st.userID) := r.stored.value]
      ensures st.text == old(st.text) && st.payload == old(st.payload) && st.userID == old(st.userID) && st.meta == old(st.meta)
    {
      var gm := BuildNewsMessage(st.userID, articles, env);
      st.AddResponse(Msg.Generic(gm));
      var cat := Utils.Lookup(params, "category", Utils.Str("")).s;
      var topics := Models.GetUnsubscribedTopics(env.topics, Subscriptions(env), 4);
      var reply := BuildSearchReply(st.userID, topics, cat);
      st.AddResponse(Msg.QuickReplies(reply));
      SearchKeepsStateTyped(state, st.userID, params, page, env);
      state := state[st.userID := params["page" := Utils.Int(page)]];
    }

    /** stopSubscription: deletes, one by one, the subscriptions on the topic, or all of them when the topic is "". */
    method StopSubscription(subs: seq<Models.Subscription>, topic: string, s: Models.Store) returns (s': Models.Store)
      requires Models.Valid(s)
      ensures s' == Stopped(s, subs, topic)
    {
      s' := s;
      var i := 0;
      while i < |subs|
        invariant 0 <= i <= |subs|
        invariant Models.Valid(s') && s' == Stopped(s, subs[..i], topic)
      {
        var sub := subs[i];
        assert subs[..i + 1][..i] == subs[..i];
        if topic == sub.topic.name {
          s' := Models.Delete(s', Models.EntityKey(Models.SubscriptionEntity(sub)));
        } else if topic == "" {
          s' := Models.Delete(s', Models.EntityKey(Models.SubscriptionEntity(sub)));
        }
        i := i + 1;
      }
      assert subs[..i] == subs;
    }
  }

  /** The results loop of searchNews. */
  method BuildNewsMessage(uid: string, articles: seq<Models.Article>, env: Services) returns (gm: Msg.GenericMessage)
    ensures gm == NewsMessage(uid, articles, env)
  {
    gm := Msg.NewGenericMessage(uid);
    var i := 0;
    while i < |articles|
      invariant 0 <= i <= |articles|
      invariant gm == Msg.NewGenericMessage(uid).(elements := seq(i, j requires 0 <= j < i => NewsElement(uid, articles[j], env)))
    {
      gm := Msg.AddElement(gm, NewsElement(uid, articles[i], env));
      i := i + 1;
    }
  }

  /** The quick-reply loop of searchNews: topics named like the category are skipped. */
  method BuildSearchReply(uid: string, topics: seq<Models.Topic>, cat: string) returns (reply: Msg.QuickReplyMessage)
    ensures reply == SearchReply(uid, topics, cat)
  {
    reply := Msg.NewQuickReply(uid, MorePrompt);
    reply := Msg.AddTextQuickReply(reply, MoreNews, MoreNews);
    assert reply.replies == Msg.TextReplies([(MoreNews, MoreNews)] + TopicReplies(topics[..0], cat));
    var i := 0;
    while i < |topics|
      invariant 0 <= i <= |topics|
      invariant reply == Msg.NewQuickReply(uid, MorePrompt).(replies := Msg.TextReplies([(MoreNews, MoreNews)] + TopicReplies(topics[..i], cat)))
    {
      var topic := topics[i];
      assert topics[..i + 1][..i] == topics[..i];
      ghost var pairs := [(MoreNews, MoreNews)] + TopicReplies(topics[..i], cat);
      if topic.name == cat {
        i := i + 1;
        continue;
      }
      var txt := Title(topic.name) + " news";
      Msg.TextRepliesAppend(pairs, [(txt, txt)]);
      assert pairs + [(txt, txt)] == [(MoreNews, MoreNews)] + TopicReplies(topics[..i + 1], cat);
      reply := Msg.AddTextQuickReply(reply, txt, txt);
      i := i + 1;
    }
    assert topics[..i] == topics;
  }

  /** The loop of the topics.lists action. */
  method BuildTopicsReply(uid: string, topics: seq<Models.Topic>) returns (reply: Msg.QuickReplyMessage)
    ensures reply == TopicsReply(uid, topics)
  {
    reply := Msg.NewQuickReply(uid, Msg.OptionsPrompt);
    var i := 0;
    while i < |topics|
      invariant 0 <= i <= |topics|
      invariant reply == Msg.NewQuickReply(uid, Msg.OptionsPrompt).(replies := Msg.TextReplies(TopicNames(topics[..i])))
    {
      Msg.TextRepliesAppend(TopicNames(topics[..i]), [(topics[i].name, topics[i].name)]);
      assert TopicNames(topics[..i + 1]) == TopicNames(topics[..i]) + [(topics[i].name, topics[i].name)];
      reply := Msg.AddTextQuickReply(reply, topics[i].name, topics[i].name);
      i := i + 1;
    }
    assert topics[..i] == topics;
  }

  /** The loop of the manage.alerts action. */
  method BuildAlerts(uid: string, subs: seq<Models.Subscription>) returns (gm: Msg.GenericMessage)
    ensures gm == AlertsMessage(uid, subs)
  {
    gm := Msg.NewGenericMessage(uid);
    var i := 0;
    while i < |subs|
      invariant 0 <= i <= |subs|
      invariant gm == Msg.NewGenericMessage(uid).(elements := seq(i, j requires 0 <= j < i =>
        Msg.NewElement(subs[j].topic.name, Models.Description(subs[j]), "", "", Models.StopButton(subs[j]))))
    {
      var sub := subs[i];
      gm := Msg.AddNewElement(gm, sub.topic.name, Models.Description(sub), "", "", Models.StopButton(sub));
      i := i + 1;
    }
  }

  // ---- The best logic ----

  /** The adapters the best logic chooses among. */
  datatype Adapter = PostBack | DialogFlow

  /** The default list: postback first, then DialogFlow. */
  const DefaultLogics := [PostBack, DialogFlow]

  /** canProcess of each adapter; DialogFlow accepts everything. */
  predicate Accepts(a: Adapter, text: string) {
    match a
    case PostBack => PostBackAccepts(text)
    case DialogFlow => true
  }

  /** The position of the first adapter that accepts the text, if any. */
  function FirstAccepting(logics: seq<Adapter>, text: string): (r: Option<nat>)
    ensures r.Some? ==> r.value < |logics|
  {
    if logics == [] then None
    else if Accepts(logics[0], text) then Some(0)
    else
      match FirstAccepting(logics[1..], text)
      case None => None
      case Some(i) => Some(i + 1)
  }

  /** The selected adapter accepts and no earlier one does; there is none only when no adapter accepts. */
  lemma {:induction false} FirstAcceptingSpec(logics: seq<Adapter>, text: string)
    ensures FirstAccepting(logics, text).None? <==> forall j :: 0 <= j < |logics| ==> !Accepts(logics[j], text)
    ensures FirstAccepting(logics, text).Some? ==> (
      var i := FirstAccepting(logics, text).value;
      i < |logics| && Accepts(logics[i], text) && forall j :: 0 <= j < i ==> !Accepts(logics[j], text))
  {
    if logics != [] && !Accepts(logics[0], text) {
      FirstAcceptingSpec(logics[1..], text);
      assert forall j :: 1 <= j < |logics| ==> logics[j] == logics[1..][j - 1];
    }
  }

  /** The default bot always answers: the postback logic when its pattern matches, DialogFlow otherwise. */
  lemma DefaultSelection(text: string)
    ensures FirstAccepting(DefaultLogics, text) == if PostBackAccepts(text) then Some(0) else Some(1)
  {
    assert DefaultLogics[1..] == [DialogFlow];
  }

  /** BestLogic: the bot, the adapter list and the two adapters. */
  class BestLogic {
    var bot: Option<string>
    const logics: seq<Adapter>
    const postback: PostBackLogic
    const dialogFlow: DialogFlowLogic

    /** NewBestLogic: the default adapter list. */
    constructor ()
      ensures logics == DefaultLogics && bot == None && Valid()
      ensures fresh(postback) && fresh(dialogFlow) && dialogFlow.state == map[]
    {
      bot := None;
      logics := DefaultLogics;
      postback := new PostBackLogic();
      dialogFlow := new DialogFlowLogic();
    }

    predicate Valid()
      reads this, dialogFlow
    {
      postback.actions == PostBackActions && dialogFlow.Valid()
    }

    /** setChatbot: the bot is set on the best logic and on every adapter. */
    method SetChatbot(b: string)
      modifies this, postback, dialogFlow
      ensures bot == Some(b) && postback.bot == Some(b) && dialogFlow.bot == Some(b)
      ensures dialogFlow.state == old(dialogFlow.state)
    {
      bot := Some(b);
      postback.SetChatbot(b);
      dialogFlow.SetChatbot(b);
    }

    /** The loop of Process: the first adapter in list order whose canProcess is true. */
    method Select(text: string) returns (r: Option<nat>)
      ensures r == FirstAccepting(logics, text)
    {
      r := None;
      var i := 0;
      while i < |logics|
        invariant 0 <= i <= |logics|
        invariant forall j :: 0 <= j < i ==> !Accepts(logics[j], text)
      {
        if Accepts(logics[i], text) {
          r := Some(i);
          break;
        }
        i := i + 1;
      }
      FirstAcceptingSpec(logics, text);
    }

    /** Process: the statement processed by the first accepting adapter, or null when none accepts. */
    method Process(st: Statement, resp: DialogResponse, env: Services, s: Models.Store, now: Models.Time)
      returns (response: Statement?, s': Models.Store, query: Option<Models.Query>)
      requires Valid() && Models.Valid(s) && DialogReady(resp, env)
      modifies st, dialogFlow
      ensures Valid()
      ensures var sel := FirstAccepting(logics, old(st.text));
        (sel.None? ==> (response == null && st.responses == old(st.responses) && s' == s &&
          dialogFlow.state == old(dialogFlow.state) && query == None)) &&
        (sel.Some? ==> response == st) &&
        (sel.Some? && logics[sel.value] == PostBack ==> (
          st.responses == old(st.responses) + PostBackResponses(old(st.text), old(st.userID), Models.GetArticle(s, old(st.payload))) &&
          s' == s && dialogFlow.state == old(dialogFlow.state) && query == None)) &&
        (sel.Some? && logics[sel.value] == DialogFlow ==> (
          var o := Act(old(dialogFlow.state), old(st.userID), resp, env, s, now);
          st.responses == old(st.responses) + TextResponses(old(st.userID), resp.speeches) + o.responses &&
          dialogFlow.state == o.state && s' == o.store && query == o.query))
      ensures st.text == old(st.text) && st.payload == old(st.payload) && st.userID == old(st.userID)
      ensures var sel := FirstAccepting(logics, old(st.text));
        (sel.Some? && logics[sel.value] == DialogFlow ==>
          st.meta == old(st.meta)["dialog_flow_id" := Utils.Str(resp.id)]["timestamp" := Utils.Str(resp.timestamp)]) &&
        (!(sel.Some? && logics[sel.value] == DialogFlow) ==> st.meta == old(st.meta))
    {
      FirstAcceptingSpec(logics, st.text);
      var sel := Select(st.text);
      response, s', query := null, s, None;
      if sel.Some? {
        if logics[sel.value] == PostBack {
          response := postback.Process(st, s);
        } else {
          response, s', query := dialogFlow.Process(st, resp, env, s, now);
        }
      }
    }
  }
}
