/**
  * The posts/categories service of the admin client: listing posts, the
  * fallback chain that lists categories, creating a post and publishing it,
  * creating a category with its second endpoint, and the plain mutations.
  * Every call sends `Authorization: Bearer <token>`; the two list calls refuse
  * an empty token before sending anything.
  */
module PostsApi {
  import opened Wrappers
  import opened Text
  import opened Http

  // ---------------------------------------------------------------- entities

  /** The category a post embeds (`post.category`). */
  datatype PostCategory = PostCategory(id: Option<int>, documentId: string, text: string)

  datatype Media = Media(id: int, documentId: string, url: string)

  /** A post; optional text fields are `None` when null or undefined. */
  datatype Post = Post(
    id: int,
    documentId: string,
    title: string,
    description: Option<string>,
    content: Option<string>,
    slug: string,
    publishedAt: Option<string>,
    createdAt: string,
    updatedAt: string,
    status: string,
    category: Option<PostCategory>,
    image: Option<Media>)

  /** A category as the client shows it; a field the producer leaves undefined is "". */
  datatype Category = Category(
    id: int,
    documentId: string,
    name: string,
    slug: string,
    description: string,
    createdAt: string,
    updatedAt: string,
    publishedAt: string,
    status: string)

  datatype FileRef = FileRef(name: string)

  /** The post form's fields. */
  datatype PostFormData = PostFormData(
    title: string,
    description: string,
    content: string,
    slug: string,
    categoryId: string,
    image: Option<FileRef>)

  /** The category form's fields. */
  datatype CategoryFormData = CategoryFormData(name: string, slug: string)

  /** JavaScript truthiness of an optional string. */
  predicate Truthy(s: Option<string>) {
    s.Some? && s.value != ""
  }

  const PostsPath := "/content-manager/collection-types/api::post.post"
  const CategoriesPath := "/content-manager/collection-types/api::category.category"
  const RestCategoriesPath := "/api/categories"

  function AuthHeaders(authToken: string): seq<Header> {
    [Bearer(authToken), JsonContentType]
  }

  /** The error a failed response throws: the backend's `error.message`, else `<prefix><status>`. */
  function StatusError(status: int, backendMessage: string, prefix: string): Error {
    Error(Or(backendMessage, prefix + IntToString(status)))
  }

  // ---------------------------------------------------------------- loadPosts

  const PageSizeParam := "pagination[pageSize]"
  const PageParam := "pagination[page]"
  const TitleFilterParam := "filters[title][$containsi]"

  datatype Pagination = Pagination(page: Option<int>, pageSize: Option<int>, pageCount: Option<int>, total: Option<int>)

  /** `meta?.pagination?.page`. */
  function PageOf(pagination: Option<Pagination>): Option<int> {
    if pagination.Some? then pagination.value.page else None
  }

  /** `meta?.pagination?.pageCount`. */
  function PageCountOf(pagination: Option<Pagination>): Option<int> {
    if pagination.Some? then pagination.value.pageCount else None
  }

  /** The `{}` that stands in for a missing pagination. */
  const NoPagination := Pagination(None, None, None, None)

  /** The body of a post listing: `results` and `pagination`, each possibly missing. */
  datatype PostsBody = PostsBody(results: Option<seq<Post>>, pagination: Option<Pagination>)

  datatype PostsPage = PostsPage(posts: seq<Post>, pagination: Pagination)

  function LoadPostsQuery(page: int, searchTerm: string): seq<Param> {
    [ (PageParam, IntToString(page)),
      (PageSizeParam, "10"),
      ("populate[category]", "true"),
      ("populate[image]", "true"),
      ("populate[blocks]", "true"),
      ("sort", "createdAt:desc"),
      ("status", "draft") ]
    + (if searchTerm != "" then [(TitleFilterParam, searchTerm)] else [])
  }

  /** Every listing asks for ten posts, newest first, and filters by title exactly when a search term is given. */
  lemma LoadPostsQueryFacts(page: nat, searchTerm: string)
    ensures var q := LoadPostsQuery(page, searchTerm);
      && Lookup(q, PageSizeParam) == Some("10")
      && Lookup(q, "sort") == Some("createdAt:desc")
      && Lookup(q, PageParam).Some?
      && (forall i :: 0 <= i < |Lookup(q, PageParam).value| ==> IsDigit(Lookup(q, PageParam).value[i]))
      && ParseNat(Lookup(q, PageParam).value) == page
      && (Lookup(q, TitleFilterParam).Some? <==> searchTerm != "")
      && (searchTerm != "" ==> Lookup(q, TitleFilterParam) == Some(searchTerm))
  {
    var q := LoadPostsQuery(page, searchTerm);
    assert Lookup(q, PageParam) == Some(NatToString(page));
    NatToStringRoundTrip(page);
    LookupSkip(q, PageSizeParam, 1);
    LookupSkip(q, "sort", 5);
    LookupSkip(q, TitleFilterParam, 7);
    if searchTerm == "" {
      assert q[7..] == [];
    } else {
      assert q[7..] == [(TitleFilterParam, searchTerm)];
    }
  }

  /** `loadPosts(authToken, page, searchTerm)` given the reply to its one request. */
  function LoadPosts(authToken: string, page: int, searchTerm: string, reply: Reply<PostsBody>): (r: Traced<Result<PostsPage>>)
    ensures authToken == "" ==> r.sent == [] && r.value == Err(Error("No auth token available"))
    ensures authToken != "" ==> r.sent == [Request(GET, PostsPath, LoadPostsQuery(page, searchTerm), AuthHeaders(authToken), None)]
    ensures authToken != "" ==> (r.value.Ok? <==> IsOk(reply))
    ensures r.value.Ok? ==> r.value.value.posts == reply.body.results.GetOr([])
    ensures r.value.Ok? ==> r.value.value.pagination == reply.body.pagination.GetOr(NoPagination)
    ensures reply.Thrown? && authToken != "" ==> r.value == Err(reply.error)
  {
    if authToken == "" then
      Traced(Err(Error("No auth token available")), [])
    else
      var request := Request(GET, PostsPath, LoadPostsQuery(page, searchTerm), AuthHeaders(authToken), None);
      var result :=
        match reply
        case Thrown(e) => Err(e)
        case Response(status, body) =>
          if !IsOk(reply) then Err(Error("Failed to load posts: " + IntToString(status)))
          else Ok(PostsPage(body.results.GetOr([]), body.pagination.GetOr(NoPagination)));
      Traced(result, [request])
  }

  // ---------------------------------------------------------------- loadCategories

  /** A list member of a JSON body: missing, explicitly `null`, or an array. */
  datatype ListField<+T> = Missing | Null | List(items: seq<T>)

  /** The text fields of a raw category, at top level or under `attributes`; "" when absent. */
  datatype CategoryFields = CategoryFields(
    text: string,
    name: string,
    slug: string,
    description: string,
    createdAt: string,
    updatedAt: string,
    publishedAt: string)

  const NoFields := CategoryFields("", "", "", "", "", "", "")

  /** A category as one of the endpoints returns it; a missing `attributes` is `NoFields`. */
  datatype RawCategory = RawCategory(id: int, documentId: string, own: CategoryFields, attributes: CategoryFields)

  datatype CategoriesBody = CategoriesBody(results: ListField<RawCategory>, data: ListField<RawCategory>)

  /** `data.results || data.data || []`: an array, even an empty one, is truthy. */
  function RawCategories(body: CategoriesBody): seq<RawCategory> {
    if body.results.List? then body.results.items
    else if body.data.List? then body.data.items
    else []
  }

  /** The attempt's reply ends the chain: 2xx, and a non-empty list or an explicit `null`. */
  predicate Accepts(reply: Reply<CategoriesBody>) {
    && IsOk(reply)
    && (|RawCategories(reply.body)| > 0 || reply.body.results.Null? || reply.body.data.Null?)
  }

  /** The four endpoints, tried in this order. */
  function CategoryAttempts(authToken: string): (attempts: seq<Request>)
    ensures |attempts| == 4
  {
    var headers := [Bearer(authToken), JsonContentType, AcceptJson];
    [ Request(GET, CategoriesPath, [("status", "draft")], headers, None),
      Request(GET, CategoriesPath, [], headers, None),
      Request(GET, RestCategoriesPath, [("populate", "*")], headers, None),
      Request(GET, RestCategoriesPath, [], headers, None) ]
  }

  /** The index of the first accepted reply, if any. */
  function FirstAccepted(replies: seq<Reply<CategoriesBody>>): (k: Option<nat>)
    ensures k.Some? ==> k.value < |replies| && Accepts(replies[k.value])
    ensures k.Some? ==> forall j :: 0 <= j < k.value ==> !Accepts(replies[j])
    ensures k.None? <==> forall j :: 0 <= j < |replies| ==> !Accepts(replies[j])
  {
    if replies == [] then None
    else if Accepts(replies[0]) then Some(0)
    else
      var rest := FirstAccepted(replies[1..]);
      assert forall j :: 1 <= j < |replies| ==> replies[j] == replies[1..][j - 1];
      match rest
      case None => None
      case Some(k) => Some(k + 1)
  }

  /** How many endpoints the chain contacts. */
  function CategoriesTried(replies: seq<Reply<CategoriesBody>>): nat {
    match FirstAccepted(replies)
    case Some(k) => k + 1
    case None => |replies|
  }

  /** What the chain returns: the normalised list of the first accepted reply, else `[]`. */
  function CategoriesFound(replies: seq<Reply<CategoriesBody>>): seq<Category> {
    match FirstAccepted(replies)
    case Some(k) => NormalizeCategories(RawCategories(replies[k].body))
    case None => []
  }

  /** One raw category in the client's shape, with its name and slug fallbacks. */
  function NormalizeCategory(cat: RawCategory): (c: Category)
    ensures c.id == cat.id && c.documentId == cat.documentId
    ensures c.name == FirstNonEmpty([cat.own.text, cat.own.name, cat.attributes.text, cat.attributes.name], "Unknown Category")
    ensures c.slug == FirstNonEmpty([cat.own.slug, cat.attributes.slug], DashSlug(FirstNonEmpty([cat.own.text, cat.own.name], "unknown")))
    ensures c.name != "" && c.slug != ""
  {
    OrChain([cat.own.text, cat.own.name, cat.attributes.text, cat.attributes.name], "Unknown Category");
    OrChain([cat.own.slug, cat.attributes.slug], DashSlug(Or(cat.own.text, Or(cat.own.name, "unknown"))));
    OrChain([cat.own.text, cat.own.name], "unknown");
    Category(
      cat.id,
      cat.documentId,
      Or(cat.own.text, Or(cat.own.name, Or(cat.attributes.text, Or(cat.attributes.name, "Unknown Category")))),
      Or(cat.own.slug, Or(cat.attributes.slug, DashSlug(Or(cat.own.text, Or(cat.own.name, "unknown"))))),
      Or(cat.own.description, cat.attributes.description),
      Or(cat.own.createdAt, cat.attributes.createdAt),
      Or(cat.own.updatedAt, cat.attributes.updatedAt),
      Or(cat.own.publishedAt, cat.attributes.publishedAt),
      "")
  }

  /** `rawCategories.map(...)`: one category per raw one, in order. */
  function NormalizeCategories(raws: seq<RawCategory>): (cs: seq<Category>)
    ensures |cs| == |raws|
    ensures forall i :: 0 <= i < |raws| ==> cs[i] == NormalizeCategory(raws[i])
  {
    if raws == [] then [] else [NormalizeCategory(raws[0])] + NormalizeCategories(raws[1..])
  }

  /**
    * `loadCategories(authToken)`: tries the endpoints strictly in order, `replies[i]`
    * answering attempt `i`, and stops at the first accepted reply. No error escapes
    * once the token is present: a chain with no accepted reply yields `[]`.
    */
  method LoadCategories(authToken: string, replies: seq<Reply<CategoriesBody>>) returns (r: Result<seq<Category>>, sent: seq<Request>)
    requires |replies| == 4
    ensures authToken == "" ==> sent == [] && r == Err(Error("No auth token available for loading categories"))
    ensures authToken != "" ==> r == Ok(CategoriesFound(replies))
    ensures authToken != "" ==> sent == CategoryAttempts(authToken)[..CategoriesTried(replies)]
  {
    if authToken == "" {
      return Err(Error("No auth token available for loading categories")), [];
    }
    var attempts := CategoryAttempts(authToken);
    sent := [];
    var i := 0;
    while i < |attempts|
      invariant 0 <= i <= |attempts|
      invariant sent == attempts[..i]
      invariant forall j :: 0 <= j < i ==> !Accepts(replies[j])
    {
      assert attempts[..i + 1] == attempts[..i] + [attempts[i]];
      sent := sent + [attempts[i]];
      var reply := replies[i];
      if Accepts(reply) {
        FirstAcceptedIs(replies, i);
        return Ok(NormalizeCategories(RawCategories(reply.body))), sent;
      }
      i := i + 1;
    }
    NoneAccepted(replies);
    assert attempts[..4] == attempts;
    return Ok([]), sent;
  }

  /** The chain stops at the first accepted reply: `i + 1` endpoints, and that reply's categories. */
  lemma FirstAcceptedIs(replies: seq<Reply<CategoriesBody>>, i: nat)
    requires i < |replies| && Accepts(replies[i])
    requires forall j :: 0 <= j < i ==> !Accepts(replies[j])
    ensures FirstAccepted(replies) == Some(i)
    ensures CategoriesTried(replies) == i + 1
    ensures CategoriesFound(replies) == NormalizeCategories(RawCategories(replies[i].body))
  {
  }

  /** With no accepted reply every endpoint is contacted and nothing is found. */
  lemma NoneAccepted(replies: seq<Reply<CategoriesBody>>)
    requires forall j :: 0 <= j < |replies| ==> !Accepts(replies[j])
    ensures CategoriesTried(replies) == |replies| && CategoriesFound(replies) == []
  {
  }

  /**
    * A 2xx reply whose list is empty but not `null` does not end the chain: one
    * more endpoint is contacted and the rest of the chain decides the result.
    */
  lemma {:induction false} EmptyListDoesNotEndChain(reply: Reply<CategoriesBody>, rest: seq<Reply<CategoriesBody>>)
    requires IsOk(reply) && RawCategories(reply.body) == []
    requires !reply.body.results.Null? && !reply.body.data.Null?
    ensures CategoriesFound([reply] + rest) == CategoriesFound(rest)
    ensures CategoriesTried([reply] + rest) == 1 + CategoriesTried(rest)
  {
    assert !Accepts(reply);
    RejectedReplySkipped(reply, rest);
  }

  /** A rejected reply costs one request and leaves the outcome to the replies after it. */
  lemma RejectedReplySkipped(reply: Reply<CategoriesBody>, rest: seq<Reply<CategoriesBody>>)
    requires !Accepts(reply)
    ensures CategoriesFound([reply] + rest) == CategoriesFound(rest)
    ensures CategoriesTried([reply] + rest) == 1 + CategoriesTried(rest)
  {
    var replies := [reply] + rest;
    assert replies[1..] == rest;
    match FirstAccepted(rest)
    case None =>
    case Some(k) => assert replies[k + 1] == rest[k];
  }

  /** An explicit `null` list ends the chain with no categories. */
  lemma NullListEndsChain(rest: seq<Reply<CategoriesBody>>)
    ensures CategoriesFound([Response(200, CategoriesBody(Null, Missing))] + rest) == []
    ensures CategoriesTried([Response(200, CategoriesBody(Null, Missing))] + rest) == 1
  {
    var replies := [Response(200, CategoriesBody(Null, Missing))] + rest;
    FirstAcceptedIs(replies, 0);
  }

  // ---------------------------------------------------------------- createPost and the plain mutations

  /** The body of a create/update response: the post, and `error.message` when it failed. */
  datatype PostReplyBody = PostReplyBody(errorMessage: string, post: Post)

  /** The slug sent on creation: the form's slug, else the title lower-cased with whitespace runs as '-'. */
  function CreationSlug(form: PostFormData): (slug: string)
    ensures form.slug != "" ==> slug == form.slug
    ensures form.slug == "" ==> slug == DashSlug(form.title)
  {
    Or(form.slug, DashSlug(form.title))
  }

  /** The JSON body of a create or update; `category` is left out when no category is chosen. */
  function PostPayload(form: PostFormData, slug: string): Json {
    JObj(
      [ ("title", JStr(form.title)),
        ("description", JStr(form.description)),
        ("content", JStr(form.content)),
        ("slug", JStr(slug)) ]
      + (if form.categoryId != "" then [("category", CategoryConnect(form.categoryId))] else []))
  }

  function CategoryConnect(categoryId: string): Json {
    JObj([("connect", JArr([JObj([("id", JStr(categoryId))])]))])
  }

  /** The category is connected exactly when a category id is chosen. */
  lemma PostPayloadCategory(form: PostFormData, slug: string)
    ensures Member(PostPayload(form, slug), "slug") == Some(JStr(slug))
    ensures Member(PostPayload(form, slug), "category").Some? <==> form.categoryId != ""
    ensures form.categoryId != "" ==> Member(PostPayload(form, slug), "category") == Some(CategoryConnect(form.categoryId))
  {
    var m := PostPayload(form, slug).members;
    FindSkip(m, "slug", 3);
    FindSkip(m, "category", 4);
  }

  function PublishRequest(authToken: string, documentId: string): Request {
    Request(POST, PostsPath + "/" + documentId + "/actions/publish", [], AuthHeaders(authToken), None)
  }

  function UnpublishRequest(authToken: string, documentId: string): Request {
    Request(POST, PostsPath + "/" + documentId + "/actions/unpublish", [], AuthHeaders(authToken), None)
  }

  /**
    * `createPost`: creates the post, then publishes it when the reply carries a
    * `documentId`. A failed publish is swallowed: the created post is returned.
    */
  function CreatePost(authToken: string, form: PostFormData, created: Reply<PostReplyBody>, published: Reply<ErrorBody>): (r: Traced<Result<Post>>)
    ensures 1 <= |r.sent| <= 2
    ensures r.sent[0] == Request(POST, PostsPath, [], [JsonContentType, Bearer(authToken)], Some(PostPayload(form, CreationSlug(form))))
    ensures r.value.Ok? <==> IsOk(created)
    ensures r.value.Ok? ==> r.value.value == created.body.post
    ensures |r.sent| == 2 <==> IsOk(created) && created.body.post.documentId != ""
    ensures |r.sent| == 2 ==> r.sent[1] == PublishRequest(authToken, created.body.post.documentId)
    ensures created.Thrown? ==> r.value == Err(created.error)
  {
    var request := Request(POST, PostsPath, [], [JsonContentType, Bearer(authToken)], Some(PostPayload(form, CreationSlug(form))));
    match created
    case Thrown(e) => Traced(Err(e), [request])
    case Response(status, body) =>
      if !IsOk(created) then
        Traced(Err(StatusError(status, body.errorMessage, "Failed to create post: ")), [request])
      else if body.post.documentId != "" then
        var publish := PublishPost(authToken, body.post.documentId, published);
        Traced(Ok(body.post), [request] + publish.sent)
      else
        Traced(Ok(body.post), [request])
  }

  /** Whatever the publish step answers, `createPost` returns the same outcome. */
  lemma CreatePostIgnoresPublish(authToken: string, form: PostFormData, created: Reply<PostReplyBody>, p1: Reply<ErrorBody>, p2: Reply<ErrorBody>)
    ensures CreatePost(authToken, form, created, p1).value == CreatePost(authToken, form, created, p2).value
  {
  }

  /** `updatePost`: the form's slug is sent as it is; a failed response throws. */
  function UpdatePost(authToken: string, documentId: string, form: PostFormData, reply: Reply<PostReplyBody>): (r: Traced<Result<Post>>)
    ensures r.sent == [Request(PUT, PostsPath + "/" + documentId, [], [JsonContentType, Bearer(authToken)], Some(PostPayload(form, form.slug)))]
    ensures r.value.Ok? <==> IsOk(reply)
    ensures r.value.Ok? ==> r.value.value == reply.body.post
  {
    var request := Request(PUT, PostsPath + "/" + documentId, [], [JsonContentType, Bearer(authToken)], Some(PostPayload(form, form.slug)));
    match reply
    case Thrown(e) => Traced(Err(e), [request])
    case Response(status, body) =>
      if !IsOk(reply) then Traced(Err(StatusError(status, body.errorMessage, "Failed to update post: ")), [request])
      else Traced(Ok(body.post), [request])
  }

  /** `deletePost`: the error of a failed delete names the status only, never the backend's message. */
  function DeletePost(authToken: string, documentId: string, reply: Reply<ErrorBody>): (r: Traced<Result<()>>)
    ensures r.sent == [Request(DELETE, PostsPath + "/" + documentId, [], AuthHeaders(authToken), None)]
    ensures r.value.Ok? <==> IsOk(reply)
    ensures reply.Response? && !IsOk(reply) ==> r.value == Err(Error("Failed to delete post: " + IntToString(reply.status)))
  {
    var request := Request(DELETE, PostsPath + "/" + documentId, [], AuthHeaders(authToken), None);
    match reply
    case Thrown(e) => Traced(Err(e), [request])
    case Response(status, _) =>
      if !IsOk(reply) then Traced(Err(Error("Failed to delete post: " + IntToString(status))), [request])
      else Traced(Ok(()), [request])
  }

  /** `publishPost`. */
  function PublishPost(authToken: string, documentId: string, reply: Reply<ErrorBody>): (r: Traced<Result<()>>)
    ensures r.sent == [PublishRequest(authToken, documentId)]
    ensures r.value.Ok? <==> IsOk(reply)
  {
    match reply
    case Thrown(e) => Traced(Err(e), [PublishRequest(authToken, documentId)])
    case Response(status, body) =>
      if !IsOk(reply) then Traced(Err(StatusError(status, body.errorMessage, "Failed to publish post: ")), [PublishRequest(authToken, documentId)])
      else Traced(Ok(()), [PublishRequest(authToken, documentId)])
  }

  /** `unpublishPost`. */
  function UnpublishPost(authToken: string, documentId: string, reply: Reply<ErrorBody>): (r: Traced<Result<()>>)
    ensures r.sent == [UnpublishRequest(authToken, documentId)]
    ensures r.value.Ok? <==> IsOk(reply)
  {
    match reply
    case Thrown(e) => Traced(Err(e), [UnpublishRequest(authToken, documentId)])
    case Response(status, body) =>
      if !IsOk(reply) then Traced(Err(StatusError(status, body.errorMessage, "Failed to unpublish post: ")), [UnpublishRequest(authToken, documentId)])
      else Traced(Ok(()), [UnpublishRequest(authToken, documentId)])
  }

  // ---------------------------------------------------------------- createCategory

  /** The body of a category creation: `data` when wrapped, the whole object otherwise. */
  datatype CategoryReplyBody = CategoryReplyBody(errorMessage: string, data: Option<RawCategory>, entity: RawCategory)

  /** `{ text, description }`, the description holding the slug or its default. */
  function CategoryPayload(form: CategoryFormData): Json {
    JObj([("text", JStr(form.name)), ("description", JStr(Or(form.slug, DashSlug(form.name))))])
  }

  function CategoryPost(authToken: string, form: CategoryFormData): Request {
    Request(POST, CategoriesPath, [], [JsonContentType, Bearer(authToken)], Some(CategoryPayload(form)))
  }

  function RestCategoryPost(authToken: string, form: CategoryFormData): Request {
    Request(POST, RestCategoriesPath, [], [JsonContentType, Bearer(authToken)], Some(JObj([("data", CategoryPayload(form))])))
  }

  /**
    * `createCategory`: posts to the content-manager endpoint; only when that answers
    * with a non-2xx status is the REST endpoint tried. The last response decides.
    */
  method CreateCategory(authToken: string, form: CategoryFormData, first: Reply<CategoryReplyBody>, second: Reply<CategoryReplyBody>)
    returns (r: Result<RawCategory>, sent: seq<Request>)
    ensures 1 <= |sent| <= 2
    ensures |sent| == 2 <==> first.Response? && !IsOk(first)
    ensures sent[0] == CategoryPost(authToken, form)
    ensures |sent| == 2 ==> sent[1] == RestCategoryPost(authToken, form)
    ensures first.Thrown? ==> r == Err(first.error)
    ensures var last := if |sent| == 2 then second else first;
      && (r.Ok? <==> IsOk(last))
      && (r.Ok? ==> r.value == last.body.data.GetOr(last.body.entity))
  {
    var response := first;
    sent := [CategoryPost(authToken, form)];
    if response.Thrown? {
      return Err(response.error), sent;
    }
    if !IsOk(response) {
      response := second;
      sent := sent + [RestCategoryPost(authToken, form)];
    }
    match response {
      case Thrown(e) =>
        r := Err(e);
      case Response(status, body) =>
        if !IsOk(response) {
          r := Err(StatusError(status, body.errorMessage, "Failed to create category: "));
        } else {
          r := Ok(body.data.GetOr(body.entity));
        }
    }
  }
}
