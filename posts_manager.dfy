/**
  * The posts manager screen: the list of posts with its page numbers, the
  * categories, the loading flag, and the handlers that create, update, delete,
  * publish and unpublish posts and create categories through the server
  * actions. The server actions are not part of this model: each call is
  * recorded as a `ServerAction` and its outcome is an input. A reload that a
  * handler starts without awaiting it is modelled as completing before the
  * handler returns, with its own outcome as a further input.
  */
module PostsManager {
  import opened Wrappers
  import opened Text
  import opened PostsApi
  import PageControls

  // ---------------------------------------------------------------- data

  /** A category item as the categories action returns it; `text` is `None` when undefined. */
  datatype CategoryItem = CategoryItem(id: int, documentId: string, text: Option<string>, createdAt: string, updatedAt: string)

  /** A category as the manager lists it; `name` and `slug` are `None` when the item has no `text`. */
  datatype ListedCategory = ListedCategory(
    id: int,
    documentId: string,
    name: Option<string>,
    slug: Option<string>,
    createdAt: string,
    updatedAt: string,
    status: string)

  /** What the posts action resolves to: `data` (`None` when missing) and `meta.pagination` (`None` when either level is missing). */
  datatype PostsResult = PostsResult(data: Option<seq<Post>>, pagination: Option<Pagination>)

  /** What the categories action resolves to. */
  datatype CategoriesResult = CategoriesResult(data: Option<seq<CategoryItem>>)

  /**
    * The post data handed to the create and update actions. `category` is the
    * form's category id that `parseInt` is applied to, `None` when none was chosen.
    */
  datatype PostData = PostData(title: string, description: string, content: string, slug: string, category: Option<string>)

  /** A call of one of the server actions. */
  datatype ServerAction =
    | GetPosts(page: int, searchTerm: string)
    | GetCategories
    | CreatePostAction(data: PostData)
    | UpdatePostAction(postId: string, data: PostData)
    | DeletePostAction(documentId: string)
    | PublishPostAction(documentId: string)
    | UnpublishPostAction(documentId: string)
    | CreateCategoryAction(text: string)

  // ---------------------------------------------------------------- transforms

  /** A post is published exactly when its `publishedAt` is truthy. */
  function PostStatus(publishedAt: Option<string>): (status: string)
    ensures status == "published" <==> Truthy(publishedAt)
    ensures status == "draft" <==> !Truthy(publishedAt)
  {
    if Truthy(publishedAt) then "published" else "draft"
  }

  /** A listed post: the item with its status derived from `publishedAt`, every other field kept. */
  function TransformPost(item: Post): (p: Post)
    ensures p.status == PostStatus(item.publishedAt)
    ensures p.(status := item.status) == item
  {
    item.(status := PostStatus(item.publishedAt))
  }

  /** The listed posts keep the count and the order of the items. */
  function TransformPosts(items: seq<Post>): (posts: seq<Post>)
    ensures |posts| == |items|
    ensures forall i :: 0 <= i < |items| ==> posts[i] == TransformPost(items[i])
  {
    seq(|items|, i requires 0 <= i < |items| => TransformPost(items[i]))
  }

  /** A listed category: named by its `text`, with the service's default slug of that text, always published. */
  function TransformCategory(item: CategoryItem): (c: ListedCategory)
    ensures c.id == item.id && c.documentId == item.documentId
    ensures c.createdAt == item.createdAt && c.updatedAt == item.updatedAt
    ensures c.name == item.text
    ensures c.slug.Some? <==> item.text.Some?
    ensures c.slug.Some? ==> c.slug.value == DashSlug(item.text.value)
    ensures c.slug.Some? ==> forall i :: 0 <= i < |c.slug.value| ==> !IsSpace(c.slug.value[i]) && !IsUpper(c.slug.value[i])
    ensures c.status == "published"
  {
    var slug := if item.text.Some? then Some(DashSlug(item.text.value)) else None;
    ListedCategory(item.id, item.documentId, item.text, slug, item.createdAt, item.updatedAt, "published")
  }

  function TransformCategories(items: seq<CategoryItem>): (cs: seq<ListedCategory>)
    ensures |cs| == |items|
    ensures forall i :: 0 <= i < |items| ==> cs[i] == TransformCategory(items[i])
  {
    seq(|items|, i requires 0 <= i < |items| => TransformCategory(items[i]))
  }

  /** The post data built from the form; a category is sent exactly when one was chosen. */
  function PostDataOf(form: PostFormData): (data: PostData)
    ensures data.category.Some? <==> form.categoryId != ""
    ensures data.category.Some? ==> data.category.value == form.categoryId
    ensures data.title == form.title && data.description == form.description
    ensures data.content == form.content && data.slug == form.slug
  {
    PostData(form.title, form.description, form.content, form.slug,
             if form.categoryId != "" then Some(form.categoryId) else None)
  }

  // ---------------------------------------------------------------- the list state

  /** The part of the screen a posts load replaces. */
  datatype PostsView = PostsView(posts: seq<Post>, currentPage: int, totalPages: int)

  /**
    * The view after a posts load: on success the transformed posts and the page
    * numbers of the meta, each defaulting to 1; on any failure the view as it was.
    */
  function AfterPostsLoad(view: PostsView, result: Result<PostsResult>): (v: PostsView)
    ensures result.Err? || result.value.data.None? ==> v == view
    ensures result.Ok? && result.value.data.Some? ==>
              && v.posts == TransformPosts(result.value.data.value)
              && v.currentPage == PageControls.PageOr1(PageOf(result.value.pagination))
              && v.totalPages == PageControls.PageOr1(PageCountOf(result.value.pagination))
  {
    match result
    case Err(_) => view
    case Ok(r) =>
      if r.data.None? then view
      else PostsView(TransformPosts(r.data.value), PageControls.PageOr1(PageOf(r.pagination)), PageControls.PageOr1(PageCountOf(r.pagination)))
  }

  /** A successful load whose result carries no pagination shows page 1 of 1, so no pagination controls. */
  lemma LoadWithoutMetaHidesPagination(view: PostsView, items: seq<Post>)
    ensures var v := AfterPostsLoad(view, Ok(PostsResult(Some(items), None)));
      v.currentPage == 1 && v.totalPages == 1 && !PageControls.ShowsControls(v.totalPages)
  {
  }

  class PostsManagerState {
    var posts: seq<Post>
    var categories: seq<ListedCategory>
    var loading: bool
    var currentPage: int
    var totalPages: int

    function View(): PostsView
      reads this
    {
      PostsView(posts, currentPage, totalPages)
    }

    constructor ()
      ensures posts == [] && categories == [] && !loading
      ensures currentPage == 1 && totalPages == 1
    {
      posts := [];
      categories := [];
      loading := false;
      currentPage := 1;
      totalPages := 1;
    }

    /**
      * `loadPostsData(page, searchTerm)`: one posts action; the view follows
      * `AfterPostsLoad`; a failure is reported, not thrown; loading ends false.
      */
    method LoadPostsData(page: int, searchTerm: string, result: Result<PostsResult>) returns (sent: seq<ServerAction>)
      modifies this
      ensures sent == [GetPosts(page, searchTerm)]
      ensures View() == AfterPostsLoad(old(View()), result)
      ensures !loading
      ensures categories == old(categories)
    {
      loading := true;
      sent := [GetPosts(page, searchTerm)];
      if result.Ok? && result.value.data.Some? {
        posts := TransformPosts(result.value.data.value);
        currentPage := PageControls.PageOr1(PageOf(result.value.pagination));
        totalPages := PageControls.PageOr1(PageCountOf(result.value.pagination));
      }
      loading := false;
    }

    /** `loadCategoriesData()`: the transformed categories on success; on failure the list is kept. */
    method LoadCategoriesData(result: Result<CategoriesResult>) returns (sent: seq<ServerAction>)
      modifies this
      ensures sent == [GetCategories]
      ensures result.Ok? && result.value.data.Some? ==> categories == TransformCategories(result.value.data.value)
      ensures result.Err? || result.value.data.None? ==> categories == old(categories)
      ensures View() == old(View()) && loading == old(loading)
    {
      sent := [GetCategories];
      if result.Ok? && result.value.data.Some? {
        categories := TransformCategories(result.value.data.value);
      }
    }

    /** The effect on sign-in: loads the first page without a search term, then the categories. */
    method InitialLoad(isAuthenticated: bool, postsResult: Result<PostsResult>, categoriesResult: Result<CategoriesResult>)
      returns (sent: seq<ServerAction>)
      modifies this
      ensures !isAuthenticated ==> sent == [] && unchanged(this)
      ensures isAuthenticated ==> sent == [GetPosts(1, ""), GetCategories]
      ensures isAuthenticated ==> View() == AfterPostsLoad(old(View()), postsResult) && !loading
      ensures isAuthenticated && categoriesResult.Ok? && categoriesResult.value.data.Some? ==>
                categories == TransformCategories(categoriesResult.value.data.value)
      ensures isAuthenticated && (categoriesResult.Err? || categoriesResult.value.data.None?) ==> categories == old(categories)
    {
      sent := [];
      if isAuthenticated {
        var first := LoadPostsData(1, "", postsResult);
        var second := LoadCategoriesData(categoriesResult);
        sent := first + second;
      }
    }

    /**
      * `handleCreatePost`: on success reloads the first page once; on failure
      * re-throws the action's error and changes nothing.
      */
    method HandleCreatePost(form: PostFormData, outcome: Result<()>, reload: Result<PostsResult>)
      returns (thrown: Option<Error>, sent: seq<ServerAction>)
      modifies this
      ensures outcome.Err? ==> thrown == Some(outcome.error) && sent == [CreatePostAction(PostDataOf(form))] && unchanged(this)
      ensures outcome.Ok? ==> thrown == None && sent == [CreatePostAction(PostDataOf(form)), GetPosts(1, "")]
      ensures outcome.Ok? ==> View() == AfterPostsLoad(old(View()), reload) && !loading && categories == old(categories)
    {
      sent := [CreatePostAction(PostDataOf(form))];
      if outcome.Err? {
        return Some(outcome.error), sent;
      }
      var reloaded := LoadPostsData(1, "", reload);
      sent := sent + reloaded;
      thrown := None;
    }

    /** `handleUpdatePost`: as creation, with the update action. */
    method HandleUpdatePost(postId: string, form: PostFormData, outcome: Result<()>, reload: Result<PostsResult>)
      returns (thrown: Option<Error>, sent: seq<ServerAction>)
      modifies this
      ensures outcome.Err? ==> thrown == Some(outcome.error) && sent == [UpdatePostAction(postId, PostDataOf(form))] && unchanged(this)
      ensures outcome.Ok? ==> thrown == None && sent == [UpdatePostAction(postId, PostDataOf(form)), GetPosts(1, "")]
      ensures outcome.Ok? ==> View() == AfterPostsLoad(old(View()), reload) && !loading && categories == old(categories)
    {
      sent := [UpdatePostAction(postId, PostDataOf(form))];
      if outcome.Err? {
        return Some(outcome.error), sent;
      }
      var reloaded := LoadPostsData(1, "", reload);
      sent := sent + reloaded;
      thrown := None;
    }

    /**
      * `handleDeletePost`: nothing at all unless the user confirms; then the delete
      * action, and a reload only when it succeeds. Errors are reported, never thrown.
      */
    method HandleDeletePost(post: Post, confirmed: bool, outcome: Result<()>, reload: Result<PostsResult>)
      returns (sent: seq<ServerAction>)
      modifies this
      ensures !confirmed ==> sent == [] && unchanged(this)
      ensures confirmed && outcome.Err? ==> sent == [DeletePostAction(post.documentId)] && unchanged(this)
      ensures confirmed && outcome.Ok? ==> sent == [DeletePostAction(post.documentId), GetPosts(1, "")]
      ensures confirmed && outcome.Ok? ==> View() == AfterPostsLoad(old(View()), reload) && !loading && categories == old(categories)
    {
      if !confirmed {
        return [];
      }
      sent := [DeletePostAction(post.documentId)];
      if outcome.Ok? {
        var reloaded := LoadPostsData(1, "", reload);
        sent := sent + reloaded;
      }
    }

    /**
      * `handleTogglePublish`: publishes a post whose `publishedAt` is falsy and
      * unpublishes any other; reloads only after success; never throws.
      */
    method HandleTogglePublish(post: Post, outcome: Result<()>, reload: Result<PostsResult>)
      returns (sent: seq<ServerAction>)
      modifies this
      ensures |sent| >= 1
      ensures sent[0] == if Truthy(post.publishedAt) then UnpublishPostAction(post.documentId) else PublishPostAction(post.documentId)
      ensures outcome.Err? ==> |sent| == 1 && unchanged(this)
      ensures outcome.Ok? ==> sent[1..] == [GetPosts(1, "")]
      ensures outcome.Ok? ==> View() == AfterPostsLoad(old(View()), reload) && !loading && categories == old(categories)
    {
      var isPublishing := !Truthy(post.publishedAt);
      sent := [if isPublishing then PublishPostAction(post.documentId) else UnpublishPostAction(post.documentId)];
      if outcome.Ok? {
        var reloaded := LoadPostsData(1, "", reload);
        sent := sent + reloaded;
      }
    }

    /**
      * `handleCreateCategory`: the category is created from the form's name; on
      * success the categories are reloaded once; on failure the error is re-thrown.
      */
    method HandleCreateCategory(form: CategoryFormData, outcome: Result<()>, reload: Result<CategoriesResult>)
      returns (thrown: Option<Error>, sent: seq<ServerAction>)
      modifies this
      ensures outcome.Err? ==> thrown == Some(outcome.error) && sent == [CreateCategoryAction(form.name)] && unchanged(this)
      ensures outcome.Ok? ==> thrown == None && sent == [CreateCategoryAction(form.name), GetCategories]
      ensures outcome.Ok? && reload.Ok? && reload.value.data.Some? ==> categories == TransformCategories(reload.value.data.value)
      ensures outcome.Ok? && (reload.Err? || reload.value.data.None?) ==> categories == old(categories)
      ensures View() == old(View()) && loading == old(loading)
    {
      sent := [CreateCategoryAction(form.name)];
      if outcome.Err? {
        return Some(outcome.error), sent;
      }
      var reloaded := LoadCategoriesData(reload);
      sent := sent + reloaded;
      thrown := None;
    }
  }
}
