/** The models package: datastore keys, the bot's entities, queries and the model-layer rules.
    The datastore is a value: a map from complete keys to entities plus the next numeric id
    it hands out. Query execution happens inside the datastore client, so a query's answer
    is an input of the operations that run one. */
module Models {
  import opened Wrappers
  import opened Strings
  import Utils
  import Msg = Messages
  import Constants

  const ArticleKind := "Articles"
  const TopicKind := "Topics"
  const SubscriptionKind := "Subscriptions"
  const UserKind := "Users"
  const UserActionKind := "UserActions"
  const MessageKind := "Messages"
  const PageSize := 6

  /** A datastore key without parent: a kind and either a name or a numeric id. */
  datatype Key = Key(kind: string, name: string, id: int)

  /** datastore.IncompleteKey */
  function IncompleteKey(kind: string): Key {
    Key(kind, "", 0)
  }

  /** datastore.NameKey */
  function NameKey(kind: string, name: string): Key {
    Key(kind, name, 0)
  }

  /** Key.Incomplete: neither a name nor an id. */
  predicate Incomplete(k: Key) {
    k.name == "" && k.id == 0
  }

  /** Key.String for a key without parent: "/Kind,name", or "/Kind,id" when it has no name. */
  function KeyString(k: Key): string {
    "/" + k.kind + "," + (if k.name != "" then k.name else IntToString(k.id))
  }

  /** Instants, as the clock reads them. */
  type Time = int

  datatype Article = Article(id: string, title: string, description: string, summary: seq<string>, link: string,
                             domain: string, topicKey: Option<Key>, author: string, image: string, tags: seq<string>,
                             published: Option<Time>, created: Option<Time>, updated: Option<Time>)

  datatype Topic = Topic(id: string, name: string, tags: seq<string>, created: Option<Time>, updated: Option<Time>)

  /** The entities whose ID is an encoded key hold the key itself. */
  datatype Subscription = Subscription(id: Option<Key>, user: Key, topic: Key, created: Option<Time>, updated: Option<Time>)

  datatype User = User(id: string, firstName: string, lastName: string, avatar: string, locale: string,
                       timeZone: int, gender: string, created: Option<Time>, updated: Option<Time>)

  datatype UserAction = UserAction(id: Option<Key>, userKey: Key, itemKey: Key, action: string,
                                   created: Option<Time>, updated: Option<Time>)

  datatype Message = Message(id: Option<Key>, user: Key, text: string, mid: seq<string>, response: string, meta: string,
                             deliveryTime: Option<Time>, created: Option<Time>, updated: Option<Time>)

  /** EntitySpec: any stored entity. */
  datatype Entity = ArticleEntity(article: Article) | TopicEntity(topic: Topic) | SubscriptionEntity(subscription: Subscription)
                  | UserEntity(user: User) | UserActionEntity(userAction: UserAction) | MessageEntity(message: Message)

  // ---- Keys and IDs ----

  /** The Key rule of the name-keyed entities: an incomplete key of the kind when the ID is
      empty, otherwise the key named by the ID. */
  function NamedEntityKey(kind: string, id: string): (k: Key)
    ensures Incomplete(k) <==> id == ""
    ensures k.kind == kind && k.name == id
  {
    if id == "" then IncompleteKey(kind) else NameKey(kind, id)
  }

  /** The Key rule of the entities whose ID encodes a key. */
  function EncodedEntityKey(kind: string, id: Option<Key>): (k: Key)
    ensures id.None? ==> k == IncompleteKey(kind)
    ensures id.Some? ==> k == id.value
  {
    if id.None? then IncompleteKey(kind) else id.value
  }

  /** EntitySpec.Key */
  function EntityKey(e: Entity): Key {
    match e
    case ArticleEntity(a) => NamedEntityKey(ArticleKind, a.id)
    case TopicEntity(t) => NamedEntityKey(TopicKind, t.id)
    case SubscriptionEntity(s) => EncodedEntityKey(SubscriptionKind, s.id)
    case UserEntity(u) => NamedEntityKey(UserKind, u.id)
    case UserActionEntity(a) => EncodedEntityKey(UserActionKind, a.id)
    case MessageEntity(m) => EncodedEntityKey(MessageKind, m.id)
  }

  /** EntitySpec.SetID: name-keyed entities keep the key's name, the others the key itself. */
  function SetEntityID(e: Entity, k: Key): Entity {
    match e
    case ArticleEntity(a) => ArticleEntity(a.(id := k.name))
    case TopicEntity(t) => TopicEntity(t.(id := k.name))
    case SubscriptionEntity(s) => SubscriptionEntity(s.(id := Some(k)))
    case UserEntity(u) => UserEntity(u.(id := k.name))
    case UserActionEntity(a) => UserActionEntity(a.(id := Some(k)))
    case MessageEntity(m) => MessageEntity(m.(id := Some(k)))
  }

  /** Setting the ID from the entity's own key changes nothing; for the name-keyed entities
      this holds even when the key is incomplete, because its name is empty. */
  lemma SetIDOfOwnKey(e: Entity)
    requires !e.SubscriptionEntity? && !e.UserActionEntity? && !e.MessageEntity?
    ensures SetEntityID(e, EntityKey(e)) == e
  {
  }

  /** After SetID the entity's key is the given key, for every complete named key and for
      every key of the entities whose ID encodes a key. */
  lemma KeyOfSetID(e: Entity, k: Key)
    requires e.SubscriptionEntity? || e.UserActionEntity? || e.MessageEntity? || (k.name != "" && k.kind == EntityKey(e).kind && k.id == 0)
    ensures EntityKey(SetEntityID(e, k)) == k
  {
  }

  /** Save sets Created only on an entity with an incomplete key, and Updated always. */
  function Stamp(e: Entity, setCreated: bool, now: Time): Entity {
    match e
    case ArticleEntity(a) => ArticleEntity(a.(created := if setCreated then Some(now) else a.created, updated := Some(now)))
    case TopicEntity(t) => TopicEntity(t.(created := if setCreated then Some(now) else t.created, updated := Some(now)))
    case SubscriptionEntity(s) => SubscriptionEntity(s.(created := if setCreated then Some(now) else s.created, updated := Some(now)))
    case UserEntity(u) => UserEntity(u.(created := if setCreated then Some(now) else u.created, updated := Some(now)))
    case UserActionEntity(a) => UserActionEntity(a.(created := if setCreated then Some(now) else a.created, updated := Some(now)))
    case MessageEntity(m) => MessageEntity(m.(created := if setCreated then Some(now) else m.created, updated := Some(now)))
  }

  function Created(e: Entity): Option<Time> {
    match e
    case ArticleEntity(a) => a.created
    case TopicEntity(t) => t.created
    case SubscriptionEntity(s) => s.created
    case UserEntity(u) => u.created
    case UserActionEntity(a) => a.created
    case MessageEntity(m) => m.created
  }

  function Updated(e: Entity): Option<Time> {
    match e
    case ArticleEntity(a) => a.updated
    case TopicEntity(t) => t.updated
    case SubscriptionEntity(s) => s.updated
    case UserEntity(u) => u.updated
    case UserActionEntity(a) => a.updated
    case MessageEntity(m) => m.updated
  }

  /** Stamping touches the two timestamps only: the key is unchanged. */
  lemma StampSpec(e: Entity, setCreated: bool, now: Time)
    ensures Updated(Stamp(e, setCreated, now)) == Some(now)
    ensures Created(Stamp(e, setCreated, now)) == if setCreated then Some(now) else Created(e)
    ensures EntityKey(Stamp(e, setCreated, now)) == EntityKey(e)
  {
  }

  // ---- The datastore ----

  datatype Store = Store(rows: map<Key, Entity>, nextId: nat)

  /** Every stored key is complete, and the numeric ids of the stored keys without a name are below nextId. */
  predicate Valid(s: Store) {
    s.nextId >= 1 && forall k :: k in s.rows ==> !Incomplete(k) && (k.name == "" ==> k.id < s.nextId)
  }

  const ErrInvalidKey := "datastore: invalid key"
  const ErrNoSuchEntity := "datastore: no such entity"

  /** Client.Get: an incomplete key is invalid; a missing key is ErrNoSuchEntity. */
  function Get(s: Store, k: Key): (r: Result<Entity, string>)
    ensures r.Success? <==> !Incomplete(k) && k in s.rows
    ensures r.Success? ==> r.value == s.rows[k]
  {
    if Incomplete(k) then Failure(ErrInvalidKey)
    else if k in s.rows then Success(s.rows[k])
    else Failure(ErrNoSuchEntity)
  }

  /** Client.Put: a complete key is written as it is; an incomplete one gets a fresh id of its kind.
      The allocator never hands out an id already in use. */
  function Put(s: Store, k: Key, e: Entity): (r: (Store, Key))
    requires Valid(s)
    ensures Valid(r.0) && !Incomplete(r.1) && r.0.rows == s.rows[r.1 := e] && r.0.nextId >= s.nextId
    ensures !Incomplete(k) ==> r.1 == k
    ensures Incomplete(k) ==> r.1.kind == k.kind && r.1.name == "" && r.1 !in s.rows
  {
    if Incomplete(k) then
      var key := Key(k.kind, "", s.nextId);
      (Store(s.rows[key := e], s.nextId + 1), key)
    else (Store(s.rows[k := e], if k.name == "" && k.id >= s.nextId then k.id + 1 else s.nextId), k)
  }

  /** Client.Delete */
  function Delete(s: Store, k: Key): (r: Store)
    requires Valid(s)
    ensures Valid(r) && r.rows == s.rows - {k} && r.nextId == s.nextId
  {
    Store(s.rows - {k}, s.nextId)
  }

  /** What DataStore.Save leaves: the store, the entity after stamping and SetID, and the key. */
  function Saved(s: Store, doc: Entity, now: Time): (r: (Store, Entity, Key))
    requires Valid(s)
    ensures Valid(r.0)
  {
    var key := EntityKey(doc);
    var stamped := Stamp(doc, Incomplete(key), now);
    var (s', k) := Put(s, key, stamped);
    (s', SetEntityID(stamped, k), k)
  }

  /** DataStore.Save: Created is set only when the key is incomplete, Updated always; the
      stamped entity is written under its key, or a fresh one, and its ID is set from the key written. */
  method Save(s: Store, doc: Entity, now: Time) returns (s': Store, doc': Entity, key: Key)
    requires Valid(s)
    ensures (s', doc', key) == Saved(s, doc, now)
  {
    key := EntityKey(doc);
    // Created only for an incomplete key; Updated always.
    doc' := Stamp(doc, Incomplete(key), now);
    var r := Put(s, key, doc');
    s', key := r.0, r.1;
    doc' := SetEntityID(doc', key);
  }

  /** The Save rule: the row written is the entity with Created set exactly when its key was
      incomplete and Updated set always; a complete key is kept, an incomplete one becomes a
      fresh key of the same kind; nothing else in the store changes. */
  lemma SavedSpec(s: Store, doc: Entity, now: Time)
    requires Valid(s)
    ensures var (s', doc', key) := Saved(s, doc, now);
      Valid(s') && key in s'.rows && Updated(s'.rows[key]) == Some(now) &&
      Created(s'.rows[key]) == (if Incomplete(EntityKey(doc)) then Some(now) else Created(doc)) &&
      (!Incomplete(EntityKey(doc)) ==> key == EntityKey(doc)) &&
      (Incomplete(EntityKey(doc)) ==> key !in s.rows && key.kind == EntityKey(doc).kind) &&
      (forall k :: k != key ==> (k in s'.rows <==> k in s.rows)) &&
      (forall k :: k != key && k in s.rows ==> s'.rows[k] == s.rows[k])
  {
    StampSpec(doc, Incomplete(EntityKey(doc)), now);
  }

  /** A saved entity whose ID encodes a key refers to its row afterwards, so saving it again
      overwrites that row instead of adding one. */
  lemma SavedEncodedKeepsKey(s: Store, doc: Entity, now: Time)
    requires Valid(s) && (doc.SubscriptionEntity? || doc.UserActionEntity? || doc.MessageEntity?)
    ensures EntityKey(Saved(s, doc, now).1) == Saved(s, doc, now).2
  {
  }

  /** A name-keyed entity saved with an empty ID gets a numeric key, but SetID copies the
      key's empty name: the entity keeps reporting an incomplete key, and saving it again adds a second row. */
  lemma SavedNamedForgetsNumericKey(s: Store, doc: Entity, now: Time)
    requires Valid(s) && (doc.ArticleEntity? || doc.TopicEntity? || doc.UserEntity?) && Incomplete(EntityKey(doc))
    ensures Incomplete(EntityKey(Saved(s, doc, now).1))
    ensures var (s', d', k) := Saved(s, doc, now); Saved(s', d', now).2 != k
  {
    var (s', d', k) := Saved(s, doc, now);
    assert k in s'.rows;
  }

  // ---- Filters and queries ----

  /** A filter value: a key or a plain value. */
  datatype Arg = KeyArg(key: Key) | ValArg(value: Utils.Value)

  datatype Filter = Filter(key: string, value: Arg)

  function NewFilter(key: string, value: Arg): (f: Filter)
    ensures f.key == key && f.value == value
  {
    Filter(key, value)
  }

  /** fmt's %s of a filter value: a key through its String method, a string as it is, and
      any other value in the %!s(type=value) form. */
  function ArgString(a: Arg): string {
    match a
    case KeyArg(k) => KeyString(k)
    case ValArg(Str(s)) => s
    case ValArg(Int(i)) => "%!s(int=" + IntToString(i) + ")"
    case ValArg(Bool(b)) => "%!s(bool=" + (if b then "true" else "false") + ")"
    case ValArg(Nil) => "%!s(<nil>)"
  }

  /** Filter.String */
  function FilterString(f: Filter): string {
    f.key + " " + ArgString(f.value)
  }

  /** Filter.String is the key, one space, then the value: the key is recovered up to the first space
      when it has none itself. */
  lemma FilterStringSpec(f: Filter)
    requires ' ' !in f.key
    ensures |FilterString(f)| > |f.key| && FilterString(f)[..|f.key|] == f.key && FilterString(f)[|f.key|] == ' '
    ensures Split(FilterString(f), ' ')[0] == f.key
  {
    var s := FilterString(f);
    assert s == f.key + [' '] + ArgString(f.value);
    SplitAfter(f.key, ' ', ArgString(f.value));
  }

  datatype Query = Query(kind: string, filters: seq<Filter>, limit: int, offset: int, order: seq<string>)

  /** NewQuery: the offset of the page, never negative. */
  function NewQuery(kind: string, fs: seq<Filter>, limit: int, page: int, sort: seq<string>): (q: Query)
    ensures q.kind == kind && q.filters == fs && q.limit == limit && q.order == sort
    ensures q.offset >= 0
    ensures q.offset == if limit * (page - 1) < 1 then 0 else limit * (page - 1)
  {
    var offset := limit * (page - 1);
    Query(kind, fs, limit, if offset < 1 then 0 else offset, sort)
  }

  /** Pages up to the first start at offset 0; later pages skip limit items per page. */
  lemma NewQueryPages(kind: string, fs: seq<Filter>, limit: nat, page: int)
    ensures page <= 1 ==> NewQuery(kind, fs, limit, page, []).offset == 0
    ensures page >= 1 ==> NewQuery(kind, fs, limit, page + 1, []).offset == NewQuery(kind, fs, limit, page, []).offset + limit
  {
    if page <= 1 {
      assert limit * (page - 1) <= 0;
    }
  }

  /** NewBaseQuery: no limit, no offset, no order. */
  function NewBaseQuery(kind: string, fs: seq<Filter>): (q: Query)
    ensures q.kind == kind && q.filters == fs && q.limit == 0 && q.offset == 0 && q.order == []
  {
    Query(kind, fs, 0, 0, [])
  }

  /** The query GetAll hands to the client. */
  datatype DsQuery = DsQuery(kind: string, offset: int, limit: Option<int>, filters: seq<Filter>, orders: seq<string>)

  /** The query building of DataStore.GetAll: the offset always, a limit only when it is not zero,
      then every filter and every order, in order. */
  method BuildQuery(opts: Query) returns (q: DsQuery)
    ensures q.kind == opts.kind && q.offset == opts.offset
    ensures q.limit == if opts.limit != 0 then Some(opts.limit) else None
    ensures q.filters == opts.filters && q.orders == opts.order
  {
    q := DsQuery(opts.kind, opts.offset, None, [], []);
    if opts.limit != 0 {
      q := q.(limit := Some(opts.limit));
    }
    var i := 0;
    while i < |opts.filters|
      invariant 0 <= i <= |opts.filters|
      invariant q.kind == opts.kind && q.offset == opts.offset && q.orders == []
      invariant q.limit == if opts.limit != 0 then Some(opts.limit) else None
      invariant q.filters == opts.filters[..i]
    {
      q := q.(filters := q.filters + [opts.filters[i]]);
      i := i + 1;
    }
    var j := 0;
    while j < |opts.order|
      invariant 0 <= j <= |opts.order|
      invariant q.kind == opts.kind && q.offset == opts.offset && q.filters == opts.filters
      invariant q.limit == if opts.limit != 0 then Some(opts.limit) else None
      invariant q.orders == opts.order[..j]
    {
      q := q.(orders := q.orders + [opts.order[j]]);
      j := j + 1;
    }
  }

  // ---- Articles ----

  /** NewArticle: the guid becomes the ID. */
  function NewArticle(title: string, guid: string, desc: string, link: string, domain: string, img: string,
                      pub: Option<Time>, ts: seq<string>, now: Time): (a: Article)
    ensures a.id == guid && a.title == title && a.description == desc && a.link == link && a.domain == domain
    ensures a.image == img && a.published == pub && a.tags == ts && a.created == Some(now)
    ensures a.summary == [] && a.author == "" && a.topicKey == None && a.updated == None
  {
    Article(guid, title, desc, [], link, domain, None, "", img, ts, pub, Some(now), None)
  }

  function ArticleKey(a: Article): Key {
    EntityKey(ArticleEntity(a))
  }

  /** An article's key is an incomplete Articles key exactly when its ID is empty, and otherwise the Articles key named by the ID. */
  lemma ArticleKeySpec(a: Article)
    ensures ArticleKey(a).kind == ArticleKind
    ensures Incomplete(ArticleKey(a)) <==> a.id == ""
    ensures a.id != "" ==> ArticleKey(a) == NameKey(ArticleKind, a.id)
  {
  }

  /** GetArticleKey */
  function GetArticleKey(id: string): Key {
    ArticleKey(Article(id, "", "", [], "", "", None, "", "", [], None, None, None))
  }

  /** GetArticle: the stored article under the ID's key; the ID itself is not stored and stays the one asked for. */
  function GetArticle(s: Store, id: string): (r: Result<Article, string>)
    ensures r.Success? ==> r.value.id == id
    ensures r.Success? <==> id != "" && NameKey(ArticleKind, id) in s.rows && s.rows[NameKey(ArticleKind, id)].ArticleEntity?
  {
    match Get(s, GetArticleKey(id))
    case Success(ArticleEntity(a)) => Success(a.(id := id))
    case Success(_) => Failure(ErrNoSuchEntity)
    case Failure(e) => Failure(e)
  }

  /** A category filter: on the topic key of the Title-cased category. */
  function CategoryFilters(params: map<string, Utils.Value>): seq<Filter>
    requires CategoryWellTyped(params)
  {
    var c := Utils.Lookup(params, "category", Utils.Str(""));
    if c != Utils.Str("") then [NewFilter("TopicKey =", KeyArg(GetTopicKey(Title(c.s))))] else []
  }

  /** One "Tags =" filter per whitespace-separated keyword, trimmed and lower-cased. */
  function KeywordFilters(params: map<string, Utils.Value>): seq<Filter>
    requires KeywordWellTyped(params)
  {
    var k := Utils.Lookup(params, "keyword", Utils.Str(""));
    if k != Utils.Str("") then TagFilters(Fields(k.s)) else []
  }

  /** The filter of one keyword. */
  function TagFilter(w: string): Filter {
    NewFilter("Tags =", ValArg(Utils.Str(ToLower(TrimSpace(w)))))
  }

  function TagFilters(words: seq<string>): seq<Filter> {
    if words == [] then [] else TagFilters(words[..|words| - 1]) + [TagFilter(words[|words| - 1])]
  }

  /** One filter per word, in word order. */
  lemma {:induction false} TagFiltersSpec(words: seq<string>)
    ensures |TagFilters(words)| == |words|
    ensures forall i :: 0 <= i < |words| ==> TagFilters(words)[i] == TagFilter(words[i])
  {
    if words != [] {
      var init := words[..|words| - 1];
      TagFiltersSpec(init);
      assert TagFilters(words) == TagFilters(init) + [TagFilter(words[|words| - 1])];
      forall i | 0 <= i < |init| ensures TagFilters(words)[i] == TagFilter(words[i]) {
        assert words[i] == init[i];
      }
    }
  }

  /** A filter on a parameter that is sent whatever its type. */
  function ValueFilters(params: map<string, Utils.Value>, name: string, key: string): seq<Filter> {
    var v := Utils.Lookup(params, name, Utils.Str(""));
    if v != Utils.Str("") then [NewFilter(key, ValArg(v))] else []
  }

  /** The category is asserted to be a string whenever it is present and not "". */
  predicate CategoryWellTyped(params: map<string, Utils.Value>) {
    "category" in params && params["category"] != Utils.Str("") ==> params["category"].Str?
  }

  /** The keyword is asserted to be a string whenever it is present and not "". */
  predicate KeywordWellTyped(params: map<string, Utils.Value>) {
    "keyword" in params && params["keyword"] != Utils.Str("") ==> params["keyword"].Str?
  }

  /** The filters of SearchArticle: category, keywords, date-time, source; the Top stories topic when there is none. */
  function SearchFilters(params: map<string, Utils.Value>): seq<Filter>
    requires CategoryWellTyped(params) && KeywordWellTyped(params)
  {
    var fs := CategoryFilters(params) + KeywordFilters(params) + ValueFilters(params, "date-time", "Published >=") +
      ValueFilters(params, "source", "Domain =");
    if |fs| < 1 then [NewFilter("TopicKey =", KeyArg(GetTopicKey(Constants.TopStories)))] else fs
  }

  /** The query SearchArticle runs. */
  function ArticleSearchQuery(params: map<string, Utils.Value>, page: int): Query
    requires CategoryWellTyped(params) && KeywordWellTyped(params)
  {
    NewQuery(ArticleKind, SearchFilters(params), PageSize, page, ["-Published"])
  }

  /** The page size is 6, the newest articles come first, and the page decides the offset. */
  lemma SearchQueryShape(params: map<string, Utils.Value>, page: int)
    requires CategoryWellTyped(params) && KeywordWellTyped(params)
    ensures ArticleSearchQuery(params, page).kind == ArticleKind
    ensures ArticleSearchQuery(params, page).limit == 6 && ArticleSearchQuery(params, page).order == ["-Published"]
    ensures ArticleSearchQuery(params, page).offset == if page <= 1 then 0 else 6 * (page - 1)
  {
  }

  /** A category yields exactly one leading "TopicKey =" filter, on the Topics key named by the
      lower-cased category, however it is capitalised. */
  lemma SearchCategoryFilter(params: map<string, Utils.Value>)
    requires CategoryWellTyped(params) && KeywordWellTyped(params)
    requires "category" in params && params["category"].Str? && params["category"].s != ""
    ensures SearchFilters(params)[0] == NewFilter("TopicKey =", KeyArg(NamedEntityKey(TopicKind, ToLower(params["category"].s))))
  {
    LowerOfTitle(params["category"].s);
  }

  /** The keyword filters come right after the category filters (KeywordTagFilters says what they are). */
  lemma SearchKeywordFilters(params: map<string, Utils.Value>)
    requires CategoryWellTyped(params) && KeywordWellTyped(params) && KeywordFilters(params) != []
    ensures |SearchFilters(params)| >= |CategoryFilters(params)| + |KeywordFilters(params)|
    ensures forall i :: 0 <= i < |KeywordFilters(params)| ==>
      SearchFilters(params)[|CategoryFilters(params)| + i] == KeywordFilters(params)[i]
  {
    var cat, kwd := CategoryFilters(params), KeywordFilters(params);
    var rest := ValueFilters(params, "date-time", "Published >=") + ValueFilters(params, "source", "Domain =");
    SearchFiltersBody(params);
    assert |cat + kwd + rest| > 0;
    assert SearchFilters(params) == cat + kwd + rest;
    ConcatIndex(cat, kwd, rest);
  }

  /** Unless every part is empty, the search filters are the four parts in order. */
  lemma SearchFiltersBody(params: map<string, Utils.Value>)
    requires CategoryWellTyped(params) && KeywordWellTyped(params)
    ensures var fs := CategoryFilters(params) + KeywordFilters(params) +
      (ValueFilters(params, "date-time", "Published >=") + ValueFilters(params, "source", "Domain ="));
      fs == [] || SearchFilters(params) == fs
  {
  }

  lemma ConcatIndex<T>(a: seq<T>, b: seq<T>, c: seq<T>)
    ensures |a + b + c| >= |a| + |b|
    ensures forall i :: 0 <= i < |b| ==> (a + b + c)[|a| + i] == b[i]
  {
  }

  /** The filters of a keyword string, as KeywordFilters makes them: one per whitespace-separated word,
      in word order, the word lower-cased. */
  lemma KeywordTagFilters(k: string)
    ensures |TagFilters(Fields(k))| == |Fields(k)|
    ensures forall i :: 0 <= i < |Fields(k)| ==> TagFilters(Fields(k))[i] == NewFilter("Tags =", ValArg(Utils.Str(ToLower(Fields(k)[i]))))
  {
    var words := Fields(k);
    FieldsAreWords(k);
    TagFiltersSpec(words);
    forall i | 0 <= i < |words| ensures TrimSpace(words[i]) == words[i] {
      WordTrimmed(words[i]);
    }
  }

  /** A word has no white space, so trimming it changes nothing. */
  lemma WordTrimmed(w: string)
    requires IsWord(w)
    ensures TrimSpace(w) == w
  {
    TrimSpaceOfTrimmed(w);
  }

  /** Filters come in the order category, keywords, date-time, source. */
  lemma SearchFilterOrder(params: map<string, Utils.Value>)
    requires CategoryWellTyped(params) && KeywordWellTyped(params)
    requires SearchFilters(params) != [NewFilter("TopicKey =", KeyArg(GetTopicKey(Constants.TopStories)))] ||
      |CategoryFilters(params) + KeywordFilters(params) + ValueFilters(params, "date-time", "Published >=") + ValueFilters(params, "source", "Domain =")| > 0
    ensures SearchFilters(params) == CategoryFilters(params) + KeywordFilters(params) +
      ValueFilters(params, "date-time", "Published >=") + ValueFilters(params, "source", "Domain =")
  {
  }

  /** Without category, keyword, date-time and source the search asks for the Top stories topic only. */
  lemma SearchDefaultTopStories(params: map<string, Utils.Value>)
    requires forall n :: n in ["category", "keyword", "date-time", "source"] ==> n !in params || params[n] == Utils.Str("")
    ensures CategoryWellTyped(params) && KeywordWellTyped(params)
    ensures SearchFilters(params) == [NewFilter("TopicKey =", KeyArg(NameKey(TopicKind, "top stories")))]
  {
    LowerOfTitle(Constants.TopStories);
    assert ToLower(Constants.TopStories) == "top stories";
  }

  /** SearchArticle: builds the filters step by step, runs the query, and sets each article's ID
      from its key. `found` is the datastore's answer to the query. */
  method SearchArticle(params: map<string, Utils.Value>, page: int, found: Result<seq<(Key, Article)>, string>)
    returns (q: Query, articles: seq<Article>, err: Option<string>)
    requires CategoryWellTyped(params) && KeywordWellTyped(params)
    ensures q == ArticleSearchQuery(params, page)
    ensures found.Failure? ==> articles == [] && err == Some(found.error)
    ensures found.Success? ==> (err == None && |articles| == |found.value| &&
      forall i :: 0 <= i < |found.value| ==> articles[i] == found.value[i].1.(id := found.value[i].0.name))
  {
    var filters: seq<Filter> := [];
    var c := Utils.Lookup(params, "category", Utils.Str(""));
    if c != Utils.Str("") {
      var name := Title(c.s);
      var topic := GetTopicKey(name);
      filters := filters + [NewFilter("TopicKey =", KeyArg(topic))];
    }
    ghost var cat := filters;
    assert cat == CategoryFilters(params);
    var kwd := Utils.Lookup(params, "keyword", Utils.Str(""));
    if kwd != Utils.Str("") {
      filters := AppendTagFilters(filters, Fields(kwd.s));
    }
    ghost var head := cat + KeywordFilters(params);
    assert filters == head;
    var dt := Utils.Lookup(params, "date-time", Utils.Str(""));
    if dt != Utils.Str("") {
      filters := filters + [NewFilter("Published >=", ValArg(dt))];
    }
    assert filters == head + ValueFilters(params, "date-time", "Published >=");
    var src := Utils.Lookup(params, "source", Utils.Str(""));
    if src != Utils.Str("") {
      filters := filters + [NewFilter("Domain =", ValArg(src))];
    }
    assert filters == head + ValueFilters(params, "date-time", "Published >=") + ValueFilters(params, "source", "Domain =");
    if |filters| < 1 {
      var topic := GetTopicKey(Constants.TopStories);
      filters := filters + [NewFilter("TopicKey =", KeyArg(topic))];
    }
    assert filters == SearchFilters(params);
    q := NewQuery(ArticleKind, filters, PageSize, page, ["-Published"]);
    articles, err := LoadAll(found);
  }

  /** The keyword loop of SearchArticle: one "Tags =" filter per word, appended in word order. */
  method AppendTagFilters(filters: seq<Filter>, words: seq<string>) returns (r: seq<Filter>)
    ensures r == filters + TagFilters(words)
  {
    r := filters;
    var i := 0;
    while i < |words|
      invariant 0 <= i <= |words|
      invariant r == filters + TagFilters(words[..i])
    {
      var w := ToLower(TrimSpace(words[i]));
      assert words[..i + 1][..i] == words[..i];
      assert TagFilters(words[..i + 1]) == TagFilters(words[..i]) + [TagFilter(words[i])];
      r := r + [NewFilter("Tags =", ValArg(Utils.Str(w)))];
      i := i + 1;
    }
    assert words[..i] == words;
  }

  /** Runs SetID over the articles a query returned, with their keys. */
  method LoadAll(found: Result<seq<(Key, Article)>, string>) returns (articles: seq<Article>, err: Option<string>)
    ensures found.Failure? ==> articles == [] && err == Some(found.error)
    ensures found.Success? ==> (err == None && |articles| == |found.value| &&
      forall i :: 0 <= i < |found.value| ==> articles[i] == found.value[i].1.(id := found.value[i].0.name))
  {
    if found.Failure? {
      return [], Some(found.error);
    }
    articles := [];
    var i := 0;
    while i < |found.value|
      invariant 0 <= i <= |found.value| && |articles| == i
      invariant forall j :: 0 <= j < i ==> articles[j] == found.value[j].1.(id := found.value[j].0.name)
    {
      var (key, a) := found.value[i];
      articles := articles + [a.(id := key.name)];
      i := i + 1;
    }
    err := None;
  }

  /** GetMessengerLink: host, "/ns/", the encoded article key and the user ID. */
  function MessengerLink(host: string, encodedKey: string, userID: string): string {
    host + "/ns/" + encodedKey + "/" + userID
  }

  /** ToMessengerElement: the article's title, sub-text, link and image, with a Summary postback
      carrying the article ID, a "Read More" link and a share button. The host, the encoded key
      and the sub-text are supplied by the caller. */
  function ToMessengerElement(a: Article, userID: string, host: string, encodedKey: string, subText: string): (e: Msg.Element)
    ensures e.title == a.title && e.subtitle == subText && e.itemURL == a.link && e.imageURL == a.image
    ensures |e.buttons| == 3
    ensures e.buttons[0] == Msg.NewPostbackButton(Constants.PostBackGetSummary, a.id)
    ensures e.buttons[1] == Msg.NewWebURLButton("Read More", MessengerLink(host, encodedKey, userID))
    ensures e.buttons[2] == Msg.NewShareButton()
  {
    var bs := [Msg.NewPostbackButton(Constants.PostBackGetSummary, a.id), Msg.NewWebURLButton("Read More", MessengerLink(host, encodedKey, userID)),
               Msg.NewShareButton()];
    Msg.NewElement(a.title, subText, a.link, a.image, bs)
  }

  // ---- Topics ----

  /** NewTopic: the ID is the lower-cased name. */
  function NewTopic(n: string, ts: seq<string>, now: Time): (t: Topic)
    ensures t.id == ToLower(n) && t.name == n && t.tags == ts && t.created == Some(now) && t.updated == None
  {
    Topic(ToLower(n), n, ts, Some(now), None)
  }

  function TopicKey(t: Topic): Key {
    EntityKey(TopicEntity(t))
  }

  /** Topic.String: the Title-cased name, which differs from the name in case only. */
  function TopicString(t: Topic): (s: string)
    ensures ToLower(s) == ToLower(t.name)
  {
    LowerOfTitle(t.name);
    Title(t.name)
  }

  /** GetTopicKey: the key of a topic whose ID is the lower-cased name. */
  function GetTopicKey(name: string): Key {
    TopicKey(Topic(ToLower(name), "", [], None, None))
  }

  /** GetTopicKey names the key by the lower-cased name, so names that differ in case only
      give the same key, and a new topic's key is the key of its name. */
  lemma TopicKeySpec(a: string, b: string, ts: seq<string>, now: Time)
    ensures GetTopicKey(a) == NamedEntityKey(TopicKind, ToLower(a))
    ensures ToLower(a) == ToLower(b) ==> GetTopicKey(a) == GetTopicKey(b)
    ensures TopicKey(NewTopic(a, ts, now)) == GetTopicKey(a)
    ensures GetTopicKey(Title(a)) == GetTopicKey(a)
  {
    LowerOfTitle(a);
  }

  /** GetTopic: the stored topic under the lower-cased name, keeping that ID. */
  function GetTopic(s: Store, name: string): Result<Topic, string> {
    match Get(s, GetTopicKey(name))
    case Success(TopicEntity(t)) => Success(t.(id := ToLower(name)))
    case Success(_) => Failure(ErrNoSuchEntity)
    case Failure(e) => Failure(e)
  }

  /** GetTopic finds a topic exactly when the lower-cased name is not empty and a topic is stored
      under its key, and gives
      it that name as its ID; names that differ in case only find the same topic. */
  lemma GetTopicSpec(s: Store, a: string, b: string)
    ensures GetTopic(s, a).Success? <==>
      ToLower(a) != "" && GetTopicKey(a) in s.rows && s.rows[GetTopicKey(a)].TopicEntity?
    ensures GetTopic(s, a).Success? ==> GetTopic(s, a).value == s.rows[GetTopicKey(a)].topic.(id := ToLower(a))
    ensures ToLower(a) == ToLower(b) ==> GetTopic(s, a) == GetTopic(s, b)
  {
    TopicKeySpec(a, b, [], 0);
  }

  /** What GetOrCreateTopic leaves: the stored topic and the store unchanged when the lookup
      succeeds, otherwise a new topic saved into the store. */
  function GetOrCreate(s: Store, name: string, ts: seq<string>, now: Time): (r: (Store, Topic))
    requires Valid(s)
    ensures Valid(r.0)
  {
    match GetTopic(s, name)
    case Success(t) => (s, t)
    case Failure(_) =>
      var (s', e, _) := Saved(s, TopicEntity(NewTopic(name, ts, now)), now);
      (s', e.topic)
  }

  /** GetOrCreateTopic */
  method GetOrCreateTopic(s: Store, name: string, ts: seq<string>, now: Time) returns (s': Store, topic: Topic)
    requires Valid(s)
    ensures (s', topic) == GetOrCreate(s, name, ts, now)
  {
    var r := GetTopic(s, name);
    if r.Failure? {
      var e: Entity, k: Key;
      s', e, k := Save(s, TopicEntity(NewTopic(name, ts, now)), now);
      topic := e.topic;
      return;
    }
    s', topic := s, r.value;
  }

  /** A stored topic is returned without writing; a missing one is created under the key of
      its name, so a second call finds it and creates nothing. */
  lemma GetOrCreateSpec(s: Store, name: string, ts: seq<string>, now: Time, later: Time)
    requires Valid(s) && ToLower(name) != ""
    ensures var (s', t) := GetOrCreate(s, name, ts, now);
      Valid(s') && t.id == ToLower(name) && GetTopicKey(name) in s'.rows &&
      (GetTopic(s, name).Success? ==> s' == s && t == GetTopic(s, name).value) &&
      (GetTopic(s, name).Failure? ==> (t == NewTopic(name, ts, now).(updated := Some(now)) &&
        s'.rows == s.rows[GetTopicKey(name) := TopicEntity(t)])) &&
      GetOrCreate(s', name, ts, later) == (s', t)
  {
    var k := GetTopicKey(name);
    assert k == NameKey(TopicKind, ToLower(name));
    if GetTopic(s, name).Failure? {
      var t := NewTopic(name, ts, now);
      StampSpec(TopicEntity(t), false, now);
    }
  }

  /** The topic returned has the key of its name, and only rows of kind Topics are written. */
  lemma GetOrCreateTouchesTopicsOnly(s: Store, name: string, ts: seq<string>, now: Time)
    requires Valid(s)
    ensures TopicKey(GetOrCreate(s, name, ts, now).1) == GetTopicKey(name)
    ensures forall k: Key :: k.kind != TopicKind ==>
      (k in GetOrCreate(s, name, ts, now).0.rows <==> k in s.rows) &&
      (k in s.rows ==> GetOrCreate(s, name, ts, now).0.rows[k] == s.rows[k])
  {
    if GetTopic(s, name).Failure? {
      SavedSpec(s, TopicEntity(NewTopic(name, ts, now)), now);
    }
  }

  /** With a name that lower-cases to "", the key is incomplete: every call creates another topic. */
  lemma GetOrCreateEmptyName(s: Store, name: string, ts: seq<string>, now: Time)
    requires Valid(s) && ToLower(name) == ""
    ensures |GetOrCreate(s, name, ts, now).0.rows.Keys| == |s.rows.Keys| + 1
  {
    var (s', e, k) := Saved(s, TopicEntity(NewTopic(name, ts, now)), now);
    assert s'.rows.Keys == s.rows.Keys + {k};
  }

  // ---- Subscriptions ----

  /** NewSubscription: keyed by the user's ID and the topic's lower-cased name. */
  function NewSubscription(uid: string, topic: string): (s: Subscription)
    ensures s.user == GetUserKey(uid) && s.topic == GetTopicKey(topic) && s.id == None
    ensures s.topic.name == ToLower(topic) && s.user.name == uid
    ensures s.created == None && s.updated == None
  {
    Subscription(None, GetUserKey(uid), GetTopicKey(topic), None, None)
  }

  /** Subscription.String: the topic key's name. */
  function SubscriptionString(s: Subscription): string {
    s.topic.name
  }

  /** Subscription.Description */
  function Description(s: Subscription): string {
    "You'll receive " + s.topic.name + " news throughout the day"
  }

  /** Subscription.StopButton: one postback whose title and payload are both "Stop <name>". */
  function StopButton(s: Subscription): (bs: seq<Msg.Button>)
    ensures |bs| == 1 && bs[0].kind == Msg.ButtonTypePostback
    ensures bs[0].title == "Stop " + s.topic.name && bs[0].payload == bs[0].title
  {
    var title := "Stop " + s.topic.name;
    [Msg.NewPostbackButton(title, title)]
  }

  /** A new subscription reports the lower-cased topic it was made for. */
  lemma NewSubscriptionString(uid: string, topic: string)
    ensures SubscriptionString(NewSubscription(uid, topic)) == ToLower(topic)
    ensures Description(NewSubscription(uid, topic)) == "You'll receive " + ToLower(topic) + " news throughout the day"
  {
  }

  /** GetUserSubscriptions: the query for the user's subscriptions (no limit, no offset). */
  function UserSubscriptionsQuery(uid: string): (q: Query)
    ensures q.kind == SubscriptionKind && q.limit == 0 && q.offset == 0 && q.order == []
    ensures q.filters == [NewFilter("User =", KeyArg(GetUserKey(uid)))]
  {
    NewQuery(SubscriptionKind, [NewFilter("User =", KeyArg(GetUserKey(uid)))], 0, 0, [])
  }

  /** The IDs of some topics. */
  function TopicIds(ts: seq<Topic>): set<string> {
    set t | t in ts :: t.id
  }

  /** The topics GetUnsubscribedTopics returns when the user has subscriptions: in input order,
      the first topic of each ID, until limit topics are taken. Subscriptions take no part,
      because the key comparison in the loop compares freshly allocated pointers. */
  function FirstDistinct(ts: seq<Topic>, limit: int): seq<Topic> {
    if ts == [] then []
    else
      var p := FirstDistinct(ts[..|ts| - 1], limit);
      var t := ts[|ts| - 1];
      if t.id !in TopicIds(p) && |p| < limit then p + [t] else p
  }

  /** At most limit topics, no ID twice, and in the input's order. */
  lemma {:induction false} FirstDistinctSpec(ts: seq<Topic>, limit: int)
    ensures |FirstDistinct(ts, limit)| <= if limit < 0 then 0 else limit
    ensures forall i, j :: 0 <= i < j < |FirstDistinct(ts, limit)| ==> FirstDistinct(ts, limit)[i].id != FirstDistinct(ts, limit)[j].id
    ensures Utils.Subsequence(FirstDistinct(ts, limit), ts)
  {
    if ts == [] {
      assert Utils.Subsequence<Topic>([], []);
    } else {
      var init, t := ts[..|ts| - 1], ts[|ts| - 1];
      FirstDistinctSpec(init, limit);
      var p := FirstDistinct(init, limit);
      assert init + [t] == ts;
      if t.id !in TopicIds(p) && |p| < limit {
        Utils.SubsequenceBoth(p, init, t);
        forall i | 0 <= i < |p| ensures p[i].id != t.id {
          assert p[i] in p;
        }
      } else {
        Utils.SubsequenceExtend(p, init, t);
      }
    }
  }

  /** A topic is left out only when an earlier one had its ID or the limit was reached. */
  lemma {:induction false} FirstDistinctComplete(ts: seq<Topic>, limit: int, i: int)
    requires 0 <= i < |ts| && ts[i].id !in TopicIds(FirstDistinct(ts, limit))
    ensures |FirstDistinct(ts, limit)| >= limit
  {
    var init, t := ts[..|ts| - 1], ts[|ts| - 1];
    var p := FirstDistinct(init, limit);
    if i < |ts| - 1 {
      assert init[i] == ts[i];
      assert TopicIds(p) <= TopicIds(FirstDistinct(ts, limit));
      FirstDistinctComplete(init, limit, i);
    } else {
      assert TopicIds(p) <= TopicIds(FirstDistinct(ts, limit));
    }
  }

  /** GetUnsubscribedTopics over the topics GetTopics returned (already shuffled) and the user's
      subscriptions. Without subscriptions the topics are sliced at limit, which the model
      allows only up to their number (above it Go gives nil entries or panics). */
  method GetUnsubscribedTopics(ts: seq<Topic>, subs: seq<Subscription>, limit: int) returns (topics: seq<Topic>)
    requires |subs| < 1 ==> 0 <= limit <= |ts|
    ensures |subs| < 1 ==> topics == ts[..limit]
    ensures |subs| >= 1 ==> topics == FirstDistinct(ts, limit)
  {
    if |subs| < 1 {
      return ts[..limit];
    }
    topics := [];
    var seen: map<string, bool> := map[];
    var i := 0;
    while i < |ts|
      invariant 0 <= i <= |ts|
      invariant topics == FirstDistinct(ts[..i], limit)
      invariant seen.Keys == TopicIds(topics)
    {
      var topic := ts[i];
      assert ts[..i + 1][..i] == ts[..i];
      ghost var before := topics;
      var j := 0;
      while j < |subs|
        invariant 0 <= j <= |subs|
        invariant seen.Keys == TopicIds(topics)
        invariant j == 0 ==> topics == before
        invariant j > 0 ==> topics == FirstDistinct(ts[..i + 1], limit)
      {
        // sub.Topic != topic.Key() compares a stored key pointer with one Key has just allocated: always true.
        if topic.id !in seen {
          if |topics| < limit {
            topics := topics + [topic];
            seen := seen[topic.id := true];
          }
        }
        j := j + 1;
      }
      i := i + 1;
    }
    assert ts[..i] == ts;
  }

  /** With a positive limit the first topic is always the first one taken. */
  lemma {:induction false} FirstDistinctHead(ts: seq<Topic>, limit: int)
    requires ts != [] && 0 < limit
    ensures |FirstDistinct(ts, limit)| > 0 && FirstDistinct(ts, limit)[0] == ts[0]
  {
    var init := ts[..|ts| - 1];
    if init != [] {
      FirstDistinctHead(init, limit);
      assert init[0] == ts[0];
    }
  }

  /** A topic the user is subscribed to is still offered, since the key comparison excludes
      nothing: it is left out only when an earlier topic had its ID or limit topics were already
      taken, and a subscribed first topic is always offered. GetUnsubscribedTopics returns
      FirstDistinct(ts, limit) whenever there is a subscription. */
  lemma UnsubscribedIgnoresSubscriptions(ts: seq<Topic>, subs: seq<Subscription>, limit: int, i: int)
    requires |subs| >= 1 && 0 <= i < |ts|
    requires exists s :: s in subs && s.topic == TopicKey(ts[i])
    ensures ts[i].id in TopicIds(FirstDistinct(ts, limit)) || |FirstDistinct(ts, limit)| >= limit
    ensures i == 0 && 0 < limit ==> |FirstDistinct(ts, limit)| > 0 && FirstDistinct(ts, limit)[0] == ts[0]
  {
    if ts[i].id !in TopicIds(FirstDistinct(ts, limit)) {
      FirstDistinctComplete(ts, limit, i);
    }
    if i == 0 && 0 < limit {
      FirstDistinctHead(ts, limit);
    }
  }

  lemma {:induction false} FirstDistinctSingleId(ts: seq<Topic>, limit: int, id: string)
    requires ts != [] && 0 < limit && forall u :: u in ts ==> u.id == id
    ensures FirstDistinct(ts, limit) == [ts[0]]
  {
    var init := ts[..|ts| - 1];
    if init != [] {
      assert forall u :: u in init ==> u in ts;
      FirstDistinctSingleId(init, limit, id);
      assert init[0] == ts[0];
      assert ts[0].id in TopicIds([ts[0]]);
    }
  }

  // ---- Users ----

  /** NewUser copies every argument. */
  function NewUser(id: string, firstName: string, lastName: string, avatar: string, locale: string, gender: string,
                   timezone: int, now: Time): (u: User)
    ensures u.id == id && u.firstName == firstName && u.lastName == lastName && u.avatar == avatar
    ensures u.locale == locale && u.gender == gender && u.timeZone == timezone && u.created == Some(now) && u.updated == None
  {
    User(id, firstName, lastName, avatar, locale, timezone, gender, Some(now), None)
  }

  /** User.String */
  function UserString(u: User): string {
    u.firstName + " " + u.lastName
  }

  /** A new user prints as "first last", and a first name without a space is its first field. */
  lemma UserStringSpec(id: string, first: string, last: string, avatar: string, locale: string, gender: string,
                       timezone: int, now: Time)
    ensures UserString(NewUser(id, first, last, avatar, locale, gender, timezone, now)) == first + " " + last
    ensures ' ' !in first ==> Split(UserString(NewUser(id, first, last, avatar, locale, gender, timezone, now)), ' ')[0] == first
  {
    if ' ' !in first {
      SplitAfter(first, ' ', last);
    }
  }

  function UserKey(u: User): Key {
    EntityKey(UserEntity(u))
  }

  /** GetUserKey: the Users key named by the ID (incomplete for ""). */
  function GetUserKey(id: string): (k: Key)
    ensures k == NamedEntityKey(UserKind, id)
  {
    UserKey(User(id, "", "", "", "", 0, "", None, None))
  }

  /** A user's key is incomplete exactly when the ID is empty; its name is the ID, so SetID of
      the user's own key leaves the user unchanged. */
  lemma UserKeySpec(u: User)
    ensures Incomplete(UserKey(u)) <==> u.id == ""
    ensures UserKey(u) == GetUserKey(u.id)
    ensures SetEntityID(UserEntity(u), UserKey(u)) == UserEntity(u)
  {
  }

  /** NewUserAction: keyed to the user, with the item and the action; no ID yet. */
  function NewUserAction(userID: string, itemKey: Key, action: string): (a: UserAction)
    ensures a.userKey == GetUserKey(userID) && a.itemKey == itemKey && a.action == action && a.id == None
    ensures a.created == None && a.updated == None
  {
    UserAction(None, GetUserKey(userID), itemKey, action, None, None)
  }

  // ---- Messages ----

  /** NewMessage: from the recipient's user key, with no delivery time. */
  function NewMessage(rid: string, text: string, res: string, meta: string, mids: seq<string>): (m: Message)
    ensures m.user == GetUserKey(rid) && m.text == text && m.response == res && m.meta == meta && m.mid == mids
    ensures m.deliveryTime == None && m.id == None && m.created == None && m.updated == None
  {
    Message(None, GetUserKey(rid), text, mids, res, meta, None, None, None)
  }

  /** Message.String */
  function MessageString(m: Message): string {
    m.text
  }

  /** A new message prints as the text it was made with. */
  lemma MessageStringSpec(rid: string, text: string, res: string, meta: string, mids: seq<string>)
    ensures MessageString(NewMessage(rid, text, res, meta, mids)) == text
  {
  }

  /** The "MID =" filters of MarkMessageDelivered, one per mid in order. */
  function MidFilters(mids: seq<string>): (fs: seq<Filter>)
    ensures |fs| == |mids|
    ensures forall i :: 0 <= i < |mids| ==> fs[i] == NewFilter("MID =", ValArg(Utils.Str(mids[i])))
  {
    seq(|mids|, i requires 0 <= i < |mids| => NewFilter("MID =", ValArg(Utils.Str(mids[i]))))
  }

  /** Writes every message under its key with the delivery time set (Client.PutMulti). */
  function PutDelivered(rows: map<Key, Entity>, found: seq<(Key, Message)>, now: Time): map<Key, Entity> {
    if found == [] then rows
    else
      var (k, m) := found[|found| - 1];
      PutDelivered(rows, found[..|found| - 1], now)[k := MessageEntity(m.(deliveryTime := Some(now)))]
  }

  /** Every written row is the retrieved message with only its delivery time changed, and other rows stay. */
  lemma {:induction false} PutDeliveredSpec(rows: map<Key, Entity>, found: seq<(Key, Message)>, now: Time, k: Key)
    ensures (exists i :: 0 <= i < |found| && found[i].0 == k) ==> (k in PutDelivered(rows, found, now) &&
      exists i :: 0 <= i < |found| && found[i].0 == k &&
        PutDelivered(rows, found, now)[k] == MessageEntity(found[i].1.(deliveryTime := Some(now))))
    ensures (forall i :: 0 <= i < |found| ==> found[i].0 != k) ==>
      (k in PutDelivered(rows, found, now) <==> k in rows) &&
      (k in rows ==> PutDelivered(rows, found, now)[k] == rows[k])
  {
    if found != [] {
      var init := found[..|found| - 1];
      PutDeliveredSpec(rows, init, now, k);
      var n := |found| - 1;
      if found[n].0 != k {
        assert forall i :: 0 <= i < n ==> found[i] == init[i];
        if exists i :: 0 <= i < |found| && found[i].0 == k {
          var i :| 0 <= i < |found| && found[i].0 == k;
          assert init[i].0 == k;
        }
      }
    }
  }

  /** MarkMessageDelivered: builds one "MID =" filter per mid, runs a query with no limit and no
      offset, returns a lookup error at once without writing, and otherwise writes every retrieved
      message back under its key with the same delivery time, returning the write's own error.
      `found` is the datastore's answer to the query and `putErr` the outcome of Client.PutMulti;
      a failed write is taken to have written nothing. */
  method MarkMessageDelivered(s: Store, mids: seq<string>, found: Result<seq<(Key, Message)>, string>, now: Time,
                              putErr: Option<string>)
    returns (s': Store, q: Query, err: Option<string>)
    requires Valid(s) && (found.Success? ==> forall i :: 0 <= i < |found.value| ==> found.value[i].0 in s.rows)
    ensures q == NewQuery(MessageKind, MidFilters(mids), 0, 0, []) && q.limit == 0 && q.offset == 0
    ensures found.Failure? ==> s' == s && err == Some(found.error)
    ensures found.Success? ==> err == putErr
    ensures found.Success? && putErr.None? ==> s' == Store(PutDelivered(s.rows, found.value, now), s.nextId) && Valid(s')
    ensures found.Success? && putErr.Some? ==> s' == s
  {
    var fs: seq<Filter> := [];
    var i := 0;
    while i < |mids|
      invariant 0 <= i <= |mids|
      invariant fs == MidFilters(mids[..i])
    {
      fs := fs + [NewFilter("MID =", ValArg(Utils.Str(mids[i])))];
      i := i + 1;
    }
    assert mids[..i] == mids;
    q := NewQuery(MessageKind, fs, 0, 0, []);
    if found.Failure? {
      return s, q, Some(found.error);
    }
    var keys := seq(|found.value|, j requires 0 <= j < |found.value| => found.value[j].0);
    var messages := seq(|found.value|, j requires 0 <= j < |found.value| => found.value[j].1);
    var k := 0;
    while k < |messages|
      invariant 0 <= k <= |messages| && |messages| == |found.value|
      invariant forall j :: 0 <= j < k ==> messages[j] == found.value[j].1.(deliveryTime := Some(now))
      invariant forall j :: k <= j < |messages| ==> messages[j] == found.value[j].1
    {
      messages := messages[k := messages[k].(deliveryTime := Some(now))];
      k := k + 1;
    }
    var rows := s.rows;
    var w := 0;
    while w < |keys|
      invariant 0 <= w <= |keys|
      invariant rows == PutDelivered(s.rows, found.value[..w], now)
      invariant rows.Keys == s.rows.Keys
    {
      assert found.value[..w + 1][..w] == found.value[..w];
      rows := rows[keys[w] := MessageEntity(messages[w])];
      w := w + 1;
    }
    assert found.value[..w] == found.value;
    s' := if putErr.None? then Store(rows, s.nextId) else s;
    err := putErr;
  }
}
