# newsbot core in Dafny

This project models the sequential core of newsbot, a Go news chatbot for Facebook Messenger. newsbot crawls RSS feeds of Ghanaian news sites and stores the articles in Google Cloud Datastore. It answers chat users through a chain of logic adapters: a postback matcher and a DialogFlow client. It sends replies as Messenger text, generic-template and quick-reply messages.

The model has one Dafny module per Go package or file group:

| module | Go source | form |
|---|---|---|
| `Wrappers` | — | `Option` and `Result` |
| `Strings` | Go's `strings` and `strconv` as the core uses them | functions and lemmas: TrimSpace, ToLower, Title, Fields, Split and Join, decimal digits, UTF-8 length |
| `Base64` | `encoding/base64` StdEncoding, section 4 of RFC 4648 | `Encode`, a non-strict `Decode`, and the round trip between them |
| `Utils` | `utils/utils.go` | a `Map` class for `utils.Map`; value functions and methods with loops for the list helpers |
| `Messages` | `utils/message.go` | datatypes for messages, elements, buttons and quick replies; builders are functions on values |
| `Logging` | `utils/logging.go` | a `Logger` class whose `Output` assembles one line in `buf` and records the write |
| `Constants` | `utils/constants.go` | the action names and texts the chatbot uses |
| `Models` | `models/*.go` | entity datatypes, datastore keys, and the datastore as a value `Store` (a map from key to entity plus a counter for fresh IDs) |
| `Crawler` | `crawler/feed.go` and the `link` type of `crawler/crawler.go` | a `FeedSpider` class whose `Process` loop is proved equal to the specification `ProcessAll` |
| `Chatbot` | `chatbot/statement.go`, `best_logic.go`, `postback_logic.go`, `dialogflow_logic.go` | the `Statement`, `PostBackLogic`, `DialogFlowLogic` and `BestLogic` classes |
| `Messenger` | `messenger/messenger.go`, `facebook.go`, `setup.go` | the `Messenger` class with its three queues; event formatting, routing, response decoding and the persistent menu |
| `Web` | `web/context.go`, `web/exception.go` | a `Context` class over a header map; `HTTPError`; Basic credential parsing |

Several things the Go code reaches out for become parameters of the model:
- **Datastore answers.** `found`, `subscriptions` and a `Store` value. A query's result is given as input, and its `Query` value is returned so that its shape can be stated.
- **The clock.** `now`, `date`, and a `Clock` record for log timestamps.
- **A fetched page.** Its og-meta list and a body-selector function.
- **The text analysis.** `analyze`, which gives keywords and ranked sentences.
- **The DialogFlow response.**
- **The fetched sender profile.**
- **The writer's error.**

Go type assertions that would panic become preconditions. For example, `BodySelector` must be a string, and the `page` value in the stored search parameters must be an `int`.

## Model

| member | source | states |
|---|---|---|
| Utils.Lookup | utils/utils.go:28-33 | Map.Get on a value map: the stored value when the key is present, the default otherwise |
| Utils.Map.constructor | utils/utils.go:28-33 | a new map is empty |
| Utils.Map.Get | utils/utils.go:28-33 | the stored value when the key exists, the supplied default otherwise |
| Utils.Map.Set | utils/utils.go:36-38 | the entry for the key is the new value and every other entry is unchanged |
| Utils.Map.Remove | utils/utils.go:41-46 | exactly the listed keys are gone, every other entry keeps its value, and the same map is returned |
| Utils.Map.FilterKeys | utils/utils.go:49-55 | the result has exactly the listed keys, each with Get's value for it (nil when absent) |
| Utils.AppendIfMissing | utils/utils.go:58-65 | the slice is unchanged when the item is present; otherwise the item is appended once at the end |
| Utils.DistinctSpec | utils/utils.go:68-78 | the distinct elements have no duplicates, are exactly the input's elements, and keep first-occurrence order |
| Utils.FirstIndex | utils/utils.go:68-78 | the first position of an element: it holds the element and no earlier position does |
| Utils.FirstIndexPrefix | utils/utils.go:68-78 | appending elements does not move the first occurrence of an element already present |
| Utils.SliceUniqMap | utils/utils.go:68-78 | the seen-map loop returns the distinct elements in first-occurrence order |
| Utils.TrimAll | utils/utils.go:96-106 | every element trimmed, position by position |
| Utils.TrimmedNonEmptyClean | utils/utils.go:96-106 | the output is no longer than the input, and every element is trimmed and non-empty |
| Utils.TrimmedNonEmptyOrder | utils/utils.go:96-106 | the output is a subsequence of the trimmed input, so input order is kept |
| Utils.TrimmedNonEmptyComplete | utils/utils.go:96-106 | every input element that trims to something non-empty is in the output |
| Utils.TrimSpacesList | utils/utils.go:96-106 | the accumulator loop returns the trimmed non-empty elements in order |
| Utils.SubsequenceBoth | utils/utils.go:96-106 | appending the same element to both sides keeps the subsequence relation |
| Utils.SubsequenceExtend | utils/utils.go:96-106 | appending to the larger sequence keeps the subsequence relation |
| Utils.SubsequenceDropLast | models/subscription.go:108-119 | dropping the last element of a subsequence keeps it a subsequence |
| Utils.MetaTagsHasKey | utils/utils.go:117-131 | every kept tag (property with the prefix, non-empty trimmed name and value) gives a key of the result |
| Utils.MetaTagsKeySource | utils/utils.go:117-131 | every key of the result comes from a kept tag |
| Utils.MetaTagsKeys | utils/utils.go:117-131 | a key is in the result exactly when some kept tag has that name |
| Utils.MetaTagsLast | utils/utils.go:117-131 | the value of a key is the content of the last kept tag with that name, so later tags overwrite earlier ones |
| Utils.TagTrimmed | utils/utils.go:122-124 | the name (prefix stripped) and the content of a tag are trimmed |
| Utils.MetaTagsClean | utils/utils.go:117-131 | every key and every value of the result is a non-empty trimmed string |
| Utils.ExtractMetaTags | utils/utils.go:117-131 | the loop returns the og-meta map, and the error is always nil |
| Utils.ReplaceInvalid | utils/utils.go:184-199 | same length; a rune is kept exactly when it is in [A-Za-z0-9_-], otherwise it becomes '-' |
| Utils.CollapseDashes | utils/utils.go:184-199 | no "--" is left, both end runes are kept, and only slug runes stay slug runes |
| Utils.CollapseUnchanged | utils/utils.go:184-199 | a string without "--" is left unchanged by the collapse |
| Utils.TrimDashEnds | utils/utils.go:184-199 | the result neither starts nor ends with '-' and still has no "--" |
| Utils.SlugSpec | utils/utils.go:184-199 | Slug("") is ""; every slug rune is in [a-z0-9_-]; no "--"; no '-' at either end |
| Utils.SlugExample | utils/utils.go:184-199 | Slug("this is a slug") is "this-is-a-slug" |
| Utils.SlugExampleReplace | utils/utils.go:184-199 | the replacement step turns "this is a slug" into "this-is-a-slug" |
| Utils.SlugExampleDashes | utils/utils.go:184-199 | "this-is-a-slug" has no "--" |
| Utils.SlugExampleLower | utils/utils.go:184-199 | lower-casing leaves "this-is-a-slug" unchanged |
| Utils.BreakdownSpec | utils/utils.go:241-261 | for a non-negative duration: seconds under a minute, minutes under an hour, hours and minutes under a day, else days, hours and minutes; the parts add back up to the whole seconds, with hours under 24 and minutes under 60 |
| Utils.HumanizeDurationSpec | utils/utils.go:241-261 | the printed unit follows the size of the whole seconds: "<s> seconds" below a minute, "<m> min" below an hour, "<h> hours <m> min" below a day, else "<d> days <h> hours <m> minutes" |
| Messages.NewElement | utils/message.go:158-170 | the element carries exactly the given title, subtitle, URLs and buttons |
| Messages.NewWebURLButton | utils/message.go:173-179 | type web_url with the given title and URL and no payload |
| Messages.NewPostbackButton | utils/message.go:182-188 | type postback with the given title and payload and no URL |
| Messages.NewShareButton | utils/message.go:191-195 | type element_share and no other field |
| Messages.ButtonKindsDiffer | utils/message.go:173-195 | the three button constructors give three different types |
| Messages.AddButtonSpec | utils/message.go:198-213 | each Add*Button appends exactly one button of its own type after the existing ones and changes nothing else |
| Messages.NewTextMessage | utils/message.go:218-223 | a text message to the user with the text |
| Messages.StringSpec | utils/message.go:130-140 | a text or quick-reply message prints as its text and a generic one as its attachment type "template", and adding elements or replies does not change that |
| Messages.NewGenericMessage | utils/message.go:227-237 | attachment type "template", template "generic", sharable, no elements |
| Messages.AddNewElement | utils/message.go:145-147 | AddElement of an element carrying the given fields: that element appended, the rest of the message unchanged |
| Messages.AddElementSpec | utils/message.go:151-153 | one element appended at the end, earlier elements and the message's String untouched |
| Messages.NewQuickReply | utils/message.go:240-248 | a quick-reply message to the user with the text and no replies |
| Messages.AddTextQuickReply | utils/message.go:262-269 | AddQuickReply with content type "text" and no image |
| Messages.TextReplies | utils/message.go:262-269 | one text reply per (title, payload) pair, in order |
| Messages.TextRepliesAppend | utils/message.go:262-269 | the replies of two lists of pairs are those of the first, then those of the second |
| Messages.AddTextQuickReplySpec | utils/message.go:262-269 | one text reply appended; recipient, text and earlier replies kept |
| Messages.AddQuickReplySpec | utils/message.go:250-259 | one reply with the given title, payload, content type and image appended; recipient, text, earlier replies and String kept |
| Messages.SubscribeMenuSpec | utils/message.go:272-278 | exactly two replies, ("Subscribe","Subscribe") then ("Other Topics","Topics"), under the options prompt |
| Logging.GetColor | utils/logging.go:110-123 | INFO cyan, WARN orange, DEBUG purple, ERROR red; every other level, CRITICAL included, blue |
| Logging.LineEnds | utils/logging.go:143-166 | with colour the line starts with the level's colour and ends with the reset code; without colour it runs from '[' to the newline |
| Logging.LineHoldsMessage | utils/logging.go:143-166 | the message occurs in the line |
| Logging.Logger.constructor | utils/logging.go:47-64 | in deployment mode colour and timestamp are off and reporting on; otherwise colour and timestamp on and reporting off; writers stdout and stderr |
| Logging.Logger.SetWriter | utils/logging.go:69-72 | both writers are the given sink and nothing else changes |
| Logging.Logger.WithColor | utils/logging.go:75-80 | only the colour flag changes, to on, and the logger itself is returned |
| Logging.Logger.WithoutColor | utils/logging.go:83-88 | only the colour flag changes, to off |
| Logging.Logger.WithoutTimestamp | utils/logging.go:91-96 | only the timestamp flag changes, to off |
| Logging.Logger.WithReport | utils/logging.go:99-104 | only the reporting flag changes, to on |
| Logging.Logger.Output | utils/logging.go:138-173 | the buffer is reset and holds exactly the current line; one write of it goes to errWriter for ERROR and CRITICAL and to outWriter otherwise; flags and writers unchanged |
| Models.NamedEntityKey | models/article.go:103-113 | a named key of the kind; incomplete exactly when the ID is empty |
| Models.EncodedEntityKey | models/subscription.go:24-38 | an entity with an encoded key uses it; without one, an incomplete key of the kind |
| Models.SetIDOfOwnKey | models/topic.go:24-39 | SetID of an entity's own key leaves the entity unchanged |
| Models.KeyOfSetID | models/user.go:39-54 | after SetID from a named key of the entity's kind, Key gives that key back |
| Models.StampSpec | models/db.go:161-166 | Updated is always now; Created is now exactly when asked for, otherwise kept; the key is unchanged |
| Models.Get | models/db.go:128-131 | a lookup succeeds exactly for a complete key that is stored, and then gives the stored entity |
| Models.Put | models/db.go:155-174 | the entity is written under a complete key as given, or under a fresh complete key of the same kind; nothing else changes |
| Models.Delete | models/db.go:177-179 | exactly the key is removed |
| Models.Saved | models/db.go:155-174 | saving keeps the store well formed |
| Models.Save | models/db.go:155-174 | DataStore.Save is the Saved specification: stamp, put, set the ID from the returned key |
| Models.SavedSpec | models/db.go:161-171 | Created is set only for an incomplete key, Updated always; a complete key is kept, an incomplete one becomes a new key of the kind; no other row changes |
| Models.SavedEncodedKeepsKey | models/db.go:171 | an entity whose ID encodes its key refers to the written row after saving |
| Models.SavedNamedForgetsNumericKey | models/db.go:171 | a name-keyed entity saved with an empty ID still reports an incomplete key, so saving it again writes a second row |
| Models.NewFilter | models/db.go:60-62 | the filter carries the key and the value |
| Models.FilterStringSpec | models/db.go:64-66 | String is the key, a space, then the value; the key is its first space-separated field |
| Models.NewQuery | models/db.go:69-82 | kind, filters, limit and order kept; the offset is limit*(page-1) when that is positive, else 0, so never negative |
| Models.NewQueryPages | models/db.go:71-74 | pages of 1 or below read from offset 0, and each next page moves the offset by the limit |
| Models.NewBaseQuery | models/db.go:85-90 | zero limit, zero offset, no order |
| Models.BuildQuery | models/db.go:134-152 | GetAll always applies the offset, applies the limit only when it is non-zero, and keeps filters and order |
| Models.NewArticle | models/article.go:58-70 | the guid argument is the ID, and title, description, link, domain, image, published time and tags are copied |
| Models.ArticleKeySpec | models/article.go:103-113 | an Articles key, incomplete exactly when the ID is empty, otherwise named by the ID |
| Models.GetArticle | models/article.go:121-131 | succeeds exactly when an article is stored under the named key of a non-empty ID, and gives it that ID |
| Models.TagFiltersSpec | models/article.go:155-160 | one "Tags =" filter per word, in word order |
| Models.KeywordTagFilters | models/article.go:155-160 | one "Tags =" filter per whitespace-separated word of the keyword, lower-cased |
| Models.WordTrimmed | models/article.go:157 | trimming a word of Fields changes nothing |
| Models.AppendTagFilters | models/article.go:155-160 | the loop appends the tag filters of the words after the existing filters |
| Models.SearchQueryShape | models/article.go:174 | the search query is on Articles with page size 6 and sort "-Published"; its offset is 6*(page-1) clamped at 0 |
| Models.SearchCategoryFilter | models/article.go:150-154 | a category gives the first filter, "TopicKey =", keyed by the lower-cased category |
| Models.SearchKeywordFilters | models/article.go:155-160 | the keyword filters follow the category filter in word order |
| Models.SearchFiltersBody | models/article.go:150-172 | the filters are category, keywords, date-time and source in this order, or the top-stories filter when that list is empty |
| Models.SearchFilterOrder | models/article.go:150-166 | unless the default applies, the filters are category, keywords, date-time, source |
| Models.SearchDefaultTopStories | models/article.go:169-172 | with no parameters set, the only filter is on the "top stories" topic |
| Models.SearchArticle | models/article.go:145-181 | the query built step by step is the search specification; an error is returned with no articles; otherwise each returned article has its key's name as ID, in answer order |
| Models.LoadAll | models/article.go:176-180 | the SetID loop: one article per result with the key name as ID, or the error |
| Models.ToMessengerElement | models/article.go:184-191 | title, subtext, link and image, and exactly three buttons: Summary postback with the article ID, "Read More" web URL, share |
| Models.NewTopic | models/topic.go:46-48 | the ID is the lower-cased name; name and tags unchanged |
| Models.TopicString | models/topic.go:41-43 | String is the Title-cased name, equal to the name up to case |
| Models.TopicKeySpec | models/topic.go:75-78 | GetTopicKey names the key by the lower-cased name, so names that differ only in case, or a name and its Title form, give one key |
| Models.GetTopicSpec | models/topic.go:50-55 | a topic is found exactly when the lower-cased name is non-empty and a topic is stored under its key; it comes back with that name as ID, and names that differ only in case find the same topic |
| Models.GetOrCreate | models/topic.go:58-66 | get-or-create keeps the store well formed |
| Models.GetOrCreateTopic | models/topic.go:58-66 | the method is the GetOrCreate specification |
| Models.GetOrCreateSpec | models/topic.go:58-66 | a stored topic is returned without writing; a missing one is created and saved under its name's key; a second call finds it and changes nothing |
| Models.GetOrCreateTouchesTopicsOnly | models/topic.go:58-66 | the topic has its name's key, and rows of other kinds are unchanged |
| Models.GetOrCreateEmptyName | models/topic.go:58-66 | a name that lower-cases to "" gives an incomplete key, so every call adds another row |
| Models.NewSubscription | models/subscription.go:46-50 | keyed to the user named by uid and the topic named by the lower-cased topic |
| Models.StopButton | models/subscription.go:62-65 | one postback button whose title and payload are both "Stop <name>" |
| Models.NewSubscriptionString | models/subscription.go:52-59 | String is the lower-cased topic, and Description is "You'll receive <topic> news throughout the day" |
| Models.UserSubscriptionsQuery | models/subscription.go:80-95 | one "User =" filter on the user's key, no limit, no offset |
| Models.FirstDistinctSpec | models/subscription.go:108-119 | at most limit topics, no ID twice, a subsequence of the input in its order |
| Models.FirstDistinctComplete | models/subscription.go:108-119 | a topic is left out only when its ID is already taken or limit topics are taken |
| Models.GetUnsubscribedTopics | models/subscription.go:98-121 | with no subscriptions the first limit topics; otherwise the first distinct topics up to limit, whatever the subscriptions are |
| Models.UnsubscribedIgnoresSubscriptions | models/subscription.go:108-119 | for any non-empty subscriptions, even one to the topic itself, a topic is left out only when an earlier topic had its ID or limit topics were taken, and a subscribed first topic is always returned first |
| Models.FirstDistinctHead | models/subscription.go:108-119 | with a positive limit the first topic is the first one returned |
| Models.FirstDistinctSingleId | models/subscription.go:108-119 | topics all of one ID give just the first of them |
| Models.NewUser | models/user.go:57-68 | every argument is copied into its field |
| Models.UserStringSpec | models/user.go:70-72 | a user prints as "first last", and a first name without a space is the first field of it |
| Models.GetUserKey | models/user.go:88-91 | the Users key named by the ID |
| Models.UserKeySpec | models/user.go:39-54 | incomplete exactly when the ID is empty; the named Users key otherwise; SetID of it leaves the user unchanged |
| Models.NewUserAction | models/user.go:116-122 | UserKey is GetUserKey(userID); the item key and action are copied; no ID |
| Models.NewMessage | models/message.go:52-57 | User from rid; text, mids, response and meta copied; no delivery time |
| Models.MessageStringSpec | models/message.go:47-49 | a message prints as the text it was made with |
| Models.MidFilters | models/message.go:76-78 | one "MID =" filter per mid, in input order |
| Models.PutDeliveredSpec | models/message.go:88-92 | every retrieved message is written back under its key with only the delivery time changed; other rows stay |
| Models.MarkMessageDelivered | models/message.go:73-94 | the query has limit 0 and offset 0; a lookup error is returned and nothing is written; otherwise every message gets the same delivery time and the error of the write-back is returned |
| Crawler.LinkStringSplit | crawler/crawler.go:64-66 | a link's String starts with its category, ahead of the first ':' |
| Crawler.SentencesSpec | utils/text.go:63-72 | at most three summary sentences, each non-empty and trimmed |
| Crawler.DraftSkips | crawler/feed.go:72-106 | an item is skipped exactly when its page fails to load, it has no og:image, UseMetaDesc is true and it has no og:description, or the body text is empty |
| Crawler.DraftSpec | crawler/feed.go:85-116 | a drafted article has ID = GUID, the spider's domain, a non-empty og:image, the og:description when UseMetaDesc is true and the feed description otherwise, the author only when given, distinct tags, at most three sentences |
| Crawler.Filed | crawler/feed.go:110 | filing the article under its topic keeps the store well formed |
| Crawler.Step | crawler/feed.go:72-124 | one item's step keeps the store well formed |
| Crawler.ProcessAll | crawler/feed.go:68-125 | the feed loop keeps the store well formed |
| Crawler.StepSpec | crawler/feed.go:109-124 | a published item is filed under the link's category; the counter rises exactly when no article was stored under its GUID; the article is then stored under the GUID |
| Crawler.StepKeepsArticles | crawler/feed.go:124 | processing an item never removes a stored article |
| Crawler.ProcessAllKeepsArticles | crawler/feed.go:68-125 | processing a feed never removes a stored article |
| Crawler.ProcessAllStores | crawler/feed.go:124 | every item that is not skipped ends up stored under its GUID, new or not |
| Crawler.ProcessAllKnown | crawler/feed.go:119-123 | when every published item's GUID is already stored, the counter does not move |
| Crawler.ReprocessCountsNothing | crawler/feed.go:119-123 | processing the same feed again against the updated store adds zero |
| Crawler.ProcessAllAppend | crawler/feed.go:68 | items are visited in feed order: a feed in two parts is the first part, then the second |
| Crawler.FailedFetchSkipsOnlyIt | crawler/feed.go:72-77 | an item whose page fails to load is skipped alone, and the rest is processed as if it were absent |
| Crawler.PresetConfig | crawler/feed.go:129-227 | every preset sets UseMetaDesc to a boolean and BodySelector to a string |
| Crawler.PresetsSpec | crawler/feed.go:129-227 | only citinewsroom sets UseMetaDesc true; names are distinct; each preset has feeds and a selector |
| Crawler.FeedSpider.constructor | crawler/feed.go:22-30 | name, domain and links as given, with an empty config |
| Crawler.FeedSpider.DraftItem | crawler/feed.go:72-116 | the skip checks and the article construction are the Draft specification |
| Crawler.FeedSpider.ProcessItem | crawler/feed.go:72-124 | one iteration of the loop is the Step specification |
| Crawler.FeedSpider.Process | crawler/feed.go:62-126 | the loop over the feed items is the ProcessAll specification |
| Crawler.NewPresetSpider | crawler/feed.go:129-227 | a preset spider has its name, domain, feeds and the preset config |
| Chatbot.TextResponses | chatbot/statement.go:59-63 | one text message to the user per text, in order |
| Chatbot.TextResponsesSnoc | chatbot/statement.go:59-63 | one more text adds one more message at the end |
| Chatbot.Statement.constructor | chatbot/statement.go:24-31 | the text is trimmed; no responses, empty payload and empty Meta |
| Chatbot.Statement.AddResponse | chatbot/statement.go:40-42 | exactly one response appended at the end; nothing else changes |
| Chatbot.Statement.SetPayload | chatbot/statement.go:50-52 | only the payload changes |
| Chatbot.Statement.AddTextResponse | chatbot/statement.go:55-57 | one text message to the statement's user appended |
| Chatbot.Statement.AddMessageResponseFromDialog | chatbot/statement.go:59-63 | one text message per dialog message appended, in order |
| Chatbot.PostBackAcceptsSpec | chatbot/postback_logic.go:20-35 | canProcess holds exactly when the text contains "Get Started" or "Summary" |
| Chatbot.AcceptedButUnanswered | chatbot/postback_logic.go:41-70 | "Summary please" is accepted but gets no response, because dispatch is by exact equality |
| Chatbot.PostBackResponsesSpec | chatbot/postback_logic.go:41-70 | "Get Started" adds the greeting text, the subscribe text and the subscribe menu; "Summary" adds the article's summary sentences, or nothing when the lookup fails; any other text adds nothing |
| Chatbot.PostBackLogic.constructor | chatbot/postback_logic.go:20-27 | the pattern's alternatives are the two postback actions; no bot |
| Chatbot.PostBackLogic.SetChatbot | chatbot/postback_logic.go:29-31 | the bot is set |
| Chatbot.PostBackLogic.Process | chatbot/postback_logic.go:38-74 | the responses of the text are appended, nothing else in the statement changes, and the same statement is returned |
| Chatbot.SearchArgs | chatbot/dialogflow_logic.go:62-92 | exactly the four search actions give search arguments, whose page is an int |
| Chatbot.PagingSpec | chatbot/dialogflow_logic.go:63-92 | news.search uses page 1; next, previous and repeat use the stored page plus one, minus one and unchanged; pages of 1 or below read offset 0 |
| Chatbot.NextWithoutState | chatbot/dialogflow_logic.go:71-77 | a user with no stored search gets page 2 on next, with empty parameters |
| Chatbot.Loaded | chatbot/dialogflow_logic.go:170 | one loaded article per row of the answer |
| Chatbot.TopicRepliesSpec | chatbot/dialogflow_logic.go:189-196 | the topic suggestions are exactly the "<Title> news" replies of the topics other than the category |
| Chatbot.SearchOutcomeSpec | chatbot/dialogflow_logic.go:168-204 | an error or no articles adds nothing and stores nothing; otherwise a generic message with one element per article in order, then the quick replies led by "Show me more", and the parameters with the page used are stored |
| Chatbot.SearchKeepsStateTyped | chatbot/dialogflow_logic.go:199-201 | the stored parameters keep an int page |
| Chatbot.Stopped | chatbot/dialogflow_logic.go:156-166 | the deletions keep the store well formed |
| Chatbot.StoppedSpec | chatbot/dialogflow_logic.go:156-166 | exactly the keys of the subscriptions on the topic, or all of them for "", are deleted |
| Chatbot.StopAllOnEmptyTopic | chatbot/dialogflow_logic.go:162-163 | with an empty topic no subscription of the user remains |
| Chatbot.Act | chatbot/dialogflow_logic.go:62-149 | the action switch keeps the store well formed and the state typed |
| Chatbot.SearchAct | chatbot/dialogflow_logic.go:63-92 | a search action keeps the state typed |
| Chatbot.OtherAct | chatbot/dialogflow_logic.go:93-146 | the other actions keep the store well formed |
| Chatbot.ActSpec | chatbot/dialogflow_logic.go:62-149 | only a successful search changes the state, and only the user's entry, to the parameters with the page used; exactly the search actions run a query |
| Chatbot.SubscriptionActionsSpec | chatbot/dialogflow_logic.go:117-143 | subscribe asks the follow-up unless the lookup found more than one subscription; manage.alerts lists every subscription, or gives the no-subscription text and then the menu |
| Chatbot.ActStoreSpec | chatbot/dialogflow_logic.go:93-146 | subscribe saves a new subscription, stop deletes the matching ones, every other action leaves the store alone |
| Chatbot.DialogFlowLogic.constructor | chatbot/dialogflow_logic.go:25-33 | no stored state and no bot |
| Chatbot.DialogFlowLogic.SetChatbot | chatbot/dialogflow_logic.go:35-37 | the bot is set and the state kept |
| Chatbot.DialogFlowLogic.Process | chatbot/dialogflow_logic.go:44-149 | Meta gets the dialog ID and timestamp; fulfilment speeches are appended before the action's responses; state, store and query are Act's |
| Chatbot.DialogFlowLogic.SearchAction | chatbot/dialogflow_logic.go:62-92 | a search action appends Act's responses and leaves Act's state |
| Chatbot.DialogFlowLogic.OtherAction | chatbot/dialogflow_logic.go:93-146 | the other actions append Act's responses and leave Act's store |
| Chatbot.DialogFlowLogic.SearchNews | chatbot/dialogflow_logic.go:168-204 | the query is the article search; responses, stored state and error are those of the SearchOutcome specification |
| Chatbot.DialogFlowLogic.ShowResults | chatbot/dialogflow_logic.go:178-201 | a non-empty answer adds the results and the replies and stores the page |
| Chatbot.DialogFlowLogic.StopSubscription | chatbot/dialogflow_logic.go:156-166 | the deletion loop is the Stopped specification |
| Chatbot.BuildNewsMessage | chatbot/dialogflow_logic.go:179-183 | the loop builds one element per article, in order |
| Chatbot.BuildSearchReply | chatbot/dialogflow_logic.go:186-196 | the loop builds "Show me more" and the topic suggestions |
| Chatbot.BuildTopicsReply | chatbot/dialogflow_logic.go:105-113 | the loop builds one reply per unsubscribed topic, titled and answered by its name |
| Chatbot.BuildAlerts | chatbot/dialogflow_logic.go:134-140 | the loop builds one element per subscription with its description and stop button |
| Chatbot.FirstAccepting | chatbot/best_logic.go:31-43 | the selected position is within the list |
| Chatbot.FirstAcceptingSpec | chatbot/best_logic.go:31-43 | the selected adapter accepts and no earlier one does; none is selected exactly when no adapter accepts |
| Chatbot.DefaultSelection | chatbot/best_logic.go:10-17 | with the default list the postback logic answers when its pattern matches and DialogFlow otherwise, so there is always an answer |
| Chatbot.BestLogic.constructor | chatbot/best_logic.go:10-17 | the default list, postback then DialogFlow |
| Chatbot.BestLogic.SetChatbot | chatbot/best_logic.go:19-24 | the bot is set on the best logic and on every adapter |
| Chatbot.BestLogic.Select | chatbot/best_logic.go:34-41 | the loop with its early break selects the first accepting adapter |
| Chatbot.BestLogic.Process | chatbot/best_logic.go:31-43 | the first accepting adapter processes the statement and is the only one consulted; the statement's text, payload and user are kept, and only the DialogFlow branch records the response ID and timestamp in its metadata; with none, nil is returned and nothing changes |
| Messenger.EndPoint | messenger/messenger.go:73-76 | known path names go through the endpoint table; any other path is used as given |
| Messenger.BuildURL | messenger/messenger.go:72-86 | base, "/", the endpoint, then "?access_token=" and the token |
| Messenger.BuildURLInjective | messenger/messenger.go:72-86 | equal URLs under one base and token have equal endpoints |
| Messenger.BuildURLExamples | messenger/messenger.go:72-86 | the messages path maps to "me/messages", an unknown path is kept, and an empty TestURL selects the API URL |
| Messenger.RecipientString | messenger/facebook.go:21-26 | without a profile, the ID |
| Messenger.Mid | messenger/facebook.go:49-54 | "" when there is no message |
| Messenger.MessagingStringExample | messenger/facebook.go:37-46 | a message event prints "From: <sender>, Text: <text>" |
| Messenger.MessagingStringSpec | messenger/facebook.go:37-46 | a message event prints its sender and ends with its text; else a postback prints its sender and ends with its title; else a delivery report is its mids joined by ", "; else "" |
| Messenger.Route | messenger/messenger.go:106-113 | an event goes to the message queue when it has a message, else the delivery queue, else the postback queue, else nowhere |
| Messenger.RouteDisagreesWithString | messenger/facebook.go:37-46 | an event with a delivery and a postback is queued as a delivery but printed as a postback |
| Messenger.WithProfiles | messenger/messenger.go:103-105 | every event of the entry with the sender's profile attached, in order |
| Messenger.RoutedAppend | messenger/messenger.go:102-113 | routing a concatenation routes each part in turn |
| Messenger.RoutedSpec | messenger/messenger.go:106-113 | a queue holds exactly the events routed to it, in their order |
| Messenger.RoutedPartition | messenger/messenger.go:106-113 | every event goes to exactly one queue or is dropped |
| Messenger.Messenger.constructor | messenger/messenger.go:49-70 | tokens and page ID as given, three empty queues |
| Messenger.Messenger.URL | messenger/messenger.go:72-86 | buildURL with the configured token |
| Messenger.Messenger.VerifyWebhook | messenger/messenger.go:89-98 | the challenge is written only when hub.mode is "subscribe" and the token matches; otherwise nothing is written and the result is nil |
| Messenger.Messenger.ProcessEntry | messenger/messenger.go:100-116 | the queues are the old ones extended by the events of every entry, in order |
| Messenger.Messenger.QueueEvents | messenger/messenger.go:103-114 | one entry's events are enqueued in order |
| Messenger.EnqueueSnoc | messenger/messenger.go:106-113 | enqueuing one more event pushes it last |
| Messenger.EnqueueAppend | messenger/messenger.go:102-103 | enqueuing a concatenation enqueues the parts in turn |
| Messenger.EnqueueSpec | messenger/messenger.go:106-113 | each queue grows by exactly the events routed to it, in order |
| Messenger.EnqueueStep | messenger/messenger.go:102-103 | one more entry enqueues its events after those of the earlier entries |
| Messenger.EventsSnoc | messenger/messenger.go:102-103 | one more entry adds its events at the end |
| Messenger.EventsAppend | messenger/messenger.go:102-103 | the events of two lists of entries are the first list's, then the second's |
| Messenger.EntriesInOrder | messenger/messenger.go:102-103 | entries are handled in order, and events within each entry in order |
| Messenger.DecodeResponse | messenger/facebook.go:135-156 | a decoded error field gives an empty response and that error; otherwise MessageID and RecipientID are copied; a decoder failure is returned |
| Messenger.DecodeResponseString | messenger/facebook.go:108-110 | a decoded response prints "FB response: <mid> <rid>"; an error leaves both IDs empty |
| Messenger.FacebookErrorTextSpec | messenger/facebook.go:120-123 | the error text starts with the error type after "FB Error: Type " and ends with "; FB trace ID: <id>" |
| Messenger.NewGetStarted | messenger/setup.go:57-61 | payload "get_started" |
| Messenger.NewGreetingText | messenger/setup.go:64-71 | locale "default" with the greeting text |
| Messenger.NewWebURLAction | messenger/setup.go:91-97 | type web_url with the title and URL |
| Messenger.NewPostBackAction | messenger/setup.go:99-105 | type postback with the title and payload |
| Messenger.PersistentMenu.constructor | messenger/setup.go:74-84 | exactly one menu, locale "default", composer input enabled, no actions |
| Messenger.PersistentMenu.AddAction | messenger/setup.go:87-89 | the action is appended to the first menu only |
| Messenger.GetDefaultMenu | messenger/setup.go:108-115 | one default menu holding the default actions |
| Messenger.DefaultActionsSpec | messenger/setup.go:108-115 | three postback actions, "Latest news", "Manage Alerts", "Help", each with title equal to payload |
| Web.NewHTTPError | web/exception.go:22-24 | the error, message and code as given |
| Web.ServerError | web/exception.go:26-28 | code 500, with the message equal to the error's text |
| Web.BadRequestError | web/exception.go:30-33 | code 400, with both the message and the error text equal to msg |
| Web.NotFoundError | web/exception.go:35-37 | code 404 with the given message, not the error's text |
| Web.ErrorStringInjective | web/exception.go:16-18 | "<code> - <message>" determines both the code and the message |
| Web.SpaceDelimited | web/exception.go:16-18 | a digit string followed by text starting with a space splits in one way only |
| Web.NatToStringInjective | web/exception.go:16-18 | different codes print differently |
| Web.NoSpaceInDigits | web/exception.go:16-18 | a printed code has no space |
| Web.FirstField | web/context.go:196 | the first space-separated field of "d rest" is d when d has no space |
| Web.WithHeader | web/context.go:146-152 | the header then has the name, and only it added |
| Web.FormValueSpec | web/context.go:159-162 | a field in the form gives its value and a missing one "", as for the query "?x=y" |
| Web.WithHeaderSpec | web/context.go:146-152 | unique replaces every value by the new one; otherwise the value is appended and Get keeps the first; other names unchanged |
| Web.Extension | web/context.go:134-136 | the extension always starts with '.' |
| Web.ContentTypeFor | web/context.go:129-142 | a value holding '/' is used as given; otherwise the MIME type of its '.'-prefixed extension, or "" when there is none |
| Web.WrittenHeadersSpec | web/context.go:50-60 | Content-Length is the content's byte length, the default headers are set, and other headers are unchanged |
| Web.Context.constructor | web/context.go:37-42 | nothing written yet |
| Web.Context.SetHeader | web/context.go:146-152 | the header map becomes WithHeader's; status and body unchanged |
| Web.Context.ContentType | web/context.go:129-142 | Content-Type is set from ContentTypeFor, and the header is untouched when that is empty |
| Web.Context.SetDefaultHeaders | web/context.go:78-85 | the six default headers are set, each replacing old values |
| Web.Context.WriteHeader | web/context.go:50-54 | the first status written sticks |
| Web.Context.WriteString | web/context.go:50-60 | the defaults and Content-Length are set, status 200 unless one was sent, the content is appended unless the writer fails, and a failure becomes a server error |
| Web.GetBasicAuth | web/context.go:191-209 | no Authorization header, a first field other than "Basic", or bad base64 each give their error; decoded text succeeds exactly when it holds one ':' and otherwise gives the malformed-input error naming the encoded text; a success is a colon-free user and password whose join with ':' is the decoded text |
| Web.BasicRequestFields | web/context.go:195-200 | any "Basic <base64>" value splits into the fields "Basic" and the encoding |
| Web.AuthRequestFields | web/context.go:195-200 | the header SetBasicAuth writes has the fields "Basic" and the base64 of user ':' password |
| Web.SplitOneSeparator | web/context.go:204-207 | two colon-free parts joined by one ':' split back into exactly those two |
| Web.BasicAuthRoundTrip | web/context.go:191-209 | a header built from a user and password without ':' parses back to that pair |
| Web.UserPasswordExample | web/context.go:208 | "user" and "password" parse back to that pair |
| Web.ColonInPasswordRejected | web/context.go:204-207 | every password containing ':' is rejected |
| Web.ColonInPasswordExample | web/context.go:204-207 | user "u" with password "a:b" is rejected |
| Web.NoColonRejected | web/context.go:204-207 | decoded text without any ':' is rejected with the malformed-input error naming the encoded text |
| Web.NoColonExample | web/context.go:204-207 | the credentials "user" with no ':' are rejected |
| Web.CutFirst | web/context.go:204-207 | the cut at the first separator: absent exactly when there is none; otherwise a separator-free head, the separator, and the rest |
| Web.CutFirstUnique | web/context.go:204-207 | the cut at the first separator is unique |
| Web.GetBasicAuthFirstColon | web/context.go:191-209 | the same errors as GetBasicAuth; a success is the decoded text cut at its first ':' |
| Web.FirstColonRoundTrip | web/context.go:191-209 | any password, ':' included, with a colon-free user parses back to that pair |
| Web.FirstColonAgrees | web/context.go:191-209 | wherever the source's parse succeeds, the first-colon parse gives the same pair |
| Strings.TrimSpaceEmpty | utils/utils.go:99-102 | TrimSpace gives "" exactly for an all-space string |
| Strings.TrimSpaceOfTrimmed | utils/utils.go:99 | a trimmed string is its own TrimSpace |
| Strings.TrimSpaceIdempotent | utils/utils.go:99 | trimming twice is trimming once |
| Strings.TrimPrefix | utils/utils.go:123 | a present prefix is removed and the rest kept; otherwise the string is unchanged |
| Strings.ToLowerIdempotent | models/topic.go:47 | lower-casing twice is lower-casing once |
| Strings.LowerOfTitle | models/topic.go:41-43 | Title changes only case |
| Strings.FieldsAreWords | models/article.go:156 | every field is non-empty and has no space |
| Strings.TrimLeftSuffix | models/article.go:156 | TrimLeft drops a leading run of spaces only |
| Strings.WordPrefixMaximal | models/article.go:156 | a word runs up to the next space or the end |
| Strings.JoinSplit | web/context.go:204 | joining the split parts with the separator gives the text back |
| Strings.SplitAtLeastTwo | web/context.go:204-207 | a text holding the separator splits into at least two parts |
| Strings.SplitNone | web/context.go:204 | a text without the separator splits into itself alone |
| Strings.SplitAfter | web/context.go:204 | a separator-free head then the separator split off as the first part |
| Strings.DigitsOfNat | web/exception.go:16-18 | the decimal digits of a number read back as that number |
| Strings.Utf8Len | web/context.go:52 | the byte length is between one and four bytes per rune |
| Base64.CharIndexOfIndexChar | web/context.go:200 | every alphabet index maps to a character that maps back to it |
| Base64.EncodeLength | web/context.go:200 | padded encoding has 4 characters per started 3-byte group |
| Base64.DecodedLength | web/context.go:200 | decodable text has a length that is a multiple of 4, and at most 3 bytes per 4 characters |
| Base64.EncodeHasNoBreaks | web/context.go:200 | encoded text has no line break and no space |
| Base64.DecodeGroupsEncode | web/context.go:200 | decoding the groups of an encoding gives the bytes back |
| Base64.DecodeEncode | web/context.go:200-203 | Decode(Encode(b)) is b, as section 4 of RFC 4648 requires of padded base64 |

## Left out

- `crawler/crawler.go` orchestration (Run, Crawl, Listen, Stop, the WaitGroup, the channels, goroutines, atomic counters, the re-arming timer): concurrency. Only the `link` type and the category names are modelled. The discovery counter is a plain `nat`, so the uint64 wrap-around of `atomic.AddUint64` is not modelled.
- Network and HTTP I/O:
  - the per-item page fetch `LinkToDoc` and the feed parser: they are inputs (`pages`, `items`);
  - `makeFbRequest`, SendMessage, sender actions and SetupPage;
  - GetSenderProfile: its result is the `profile` parameter;
  - the web server, middleware, views and routes;
  - `messenger/handler.go`;
  - `chatbot/bot.go`;
  - cookies and redirects.
- Datastore client calls: the store is a value. Query execution is not modelled, so its answers are inputs. Key encode/decode is modelled only as a key carried in the entity's encoded-ID field. `web/cache.go` and `models/audit.go` are left out.
- Floating point and text analysis: TextRank, prose, ReadingTime, AddAssessment, the score updates and Statement.SetScore. The analysis is the `analyze` parameter, giving keywords and up to three ranked sentences.
- ShuffleTopics: randomness.
- JSON and formats:
  - Map.String, SerializeResponse, DecodeRequest, Base64EncodeMap/DecodeMap, Urlencode;
  - the JSON decoding in decodeResponse, whose result is an input;
  - time formatting: dates and formatted timestamps are parameters. Log timestamps are modelled as unpadded decimal numbers.
- ProcessTags: its regular expression comes from the caller.
- Logger side effects: the mutex, rollbar reporting, and the panic/exit of Panic and Critical. `Output` records each write in `written` and takes the writer's error as a parameter.
- The asynchronous saves in `chatbot/postback_logic.go:62-67`; the DialogFlow client error, which is only logged. The DialogFlow response is a parameter of Process.
- Messaging events are values. The address of the Go range variable taken at `messenger/messenger.go:108-112` is not modelled.
- Header names are not canonicalised. Headers set after the status is sent are still recorded.
- The byte offset in base64's error text is not modelled: any decode failure is the error "illegal base64 data".
- Slug is modelled over ASCII runes only; Unicode letters are not classified.
- Strings.ToLower and Strings.Title: ASCII case mapping only.
- Web.GetBasicAuth: requires `AuthIndexable`. A header whose first field is "Basic" but that has no second field makes the Go code index past the end of the slice (a panic), and the model excludes that input.
- Web.FormValueSpec: the form is a map holding one value per field, the first value as Go's `Request.FormValue` gives it. Fields with several values are not modelled, and neither is the lookup order in which POST body values are preferred over query values; both are folded into that map.
- Models.GetUnsubscribedTopics: with no subscriptions it requires `limit <= |ts|`. The Go expression `ts[:limit]` panics only when limit exceeds the slice's capacity; because `ts` is built by appends, that capacity can exceed its length, and for a limit between the two Go returns `limit` entries whose tail is nil `*Topic` values that a later caller dereferences. The model excludes both inputs.
- Models.GetUnsubscribedTopics: the key comparison at `models/subscription.go:113` compares pointers to freshly allocated keys. It is always true, so subscriptions never exclude a topic, and the model says so.
- Models.MarkMessageDelivered: the outcome of `Client.PutMulti` is an input. A failed write is taken to have written nothing, so rows that a partly failed PutMulti did write are not modelled.
- Chatbot.DialogFlowLogic.Process and Chatbot.BestLogic.Process require `DialogReady`. That precondition holds the type assertions of the Go code: topic parameters are strings and stored pages are ints.
- Crawler.FeedSpider.Process requires BodySelector to be a string (the cast at `crawler/feed.go:103`). Every preset sets it (Crawler.PresetConfig).
- Messenger.RecipientString: the contract states only the case without a profile. With a profile it is the user's "FirstName LastName", which is Models.UserString.
- Messenger.Mid: the contract states only the case without a message. With a message the result is that message's mid.
- Logging.Logger.Output: the report to rollbar for error levels is not modelled.
- models/db.go Connect, Close and NewKey: client setup, with no logic of its own.

## Findings

| source | as written | input that shows it | evidently intended | confidence | as-written member | corrected member |
|---|---|---|---|---|---|---|
| web/context.go:204-207 | the decoded credentials are split on every ':' and exactly two parts are demanded | user "u" with password "a:b" (header "Basic dTphOmI=") is rejected | split at the first ':' only, so the password may hold ':' (section 2 of RFC 7617) | not executed | Web.GetBasicAuth, shown by Web.ColonInPasswordRejected and Web.ColonInPasswordExample (with Web.NoColonRejected for the other side of the two-part test) | Web.GetBasicAuthFirstColon, proved by Web.FirstColonRoundTrip and Web.FirstColonAgrees |
