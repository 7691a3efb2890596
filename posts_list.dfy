/**
  * The posts list: the search box, the create, edit and category dialogs, the
  * submitting flag, and the pagination controls. The list reaches the manager
  * through callbacks; each call is recorded as a `Callback` and the outcome of
  * an awaited one is an input.
  */
module PostsList {
  import opened Wrappers
  import opened PostsApi
  import PageControls

  /** A call of one of the list's callbacks, with the defaults of omitted arguments filled in. */
  datatype Callback =
    | LoadPosts(page: int, searchTerm: string)
    | LoadCategories
    | CreatePost(form: PostFormData)
    | UpdatePost(postId: string, form: PostFormData)
    | CreateCategory(categoryForm: CategoryFormData)

  /**
    * The call a pagination button makes, if it is shown and enabled. Only the
    * page is passed, so the request falls back to an empty search term.
    */
  function PageCall(currentPage: int, totalPages: int, forward: bool): (calls: seq<Callback>)
    ensures |calls| <= 1
    ensures |calls| == 1 <==> (if forward then PageControls.NextPage(currentPage, totalPages) else PageControls.PreviousPage(currentPage, totalPages)).Some?
    ensures |calls| == 1 ==> calls[0].LoadPosts? && calls[0].searchTerm == ""
    ensures |calls| == 1 && 1 <= currentPage <= totalPages ==> 1 <= calls[0].page <= totalPages
  {
    var target := if forward then PageControls.NextPage(currentPage, totalPages) else PageControls.PreviousPage(currentPage, totalPages);
    if target.Some? then [LoadPosts(target.value, "")] else []
  }

  class PostsListState {
    var searchTerm: string
    var isCreateModalOpen: bool
    var isEditModalOpen: bool
    var isCategoryModalOpen: bool
    var editingPost: Option<Post>
    var isSubmitting: bool

    /** The edit dialog is only ever open with a post to edit. */
    predicate EditModalHasPost()
      reads this
    {
      isEditModalOpen ==> editingPost.Some?
    }

    constructor ()
      ensures searchTerm == "" && editingPost == None
      ensures !isCreateModalOpen && !isEditModalOpen && !isCategoryModalOpen && !isSubmitting
      ensures EditModalHasPost()
    {
      searchTerm := "";
      isCreateModalOpen := false;
      isEditModalOpen := false;
      isCategoryModalOpen := false;
      editingPost := None;
      isSubmitting := false;
    }

    /** The search effect: with a token, reload the first page for the current term; without one, nothing. */
    function SearchReload(authToken: string): (calls: seq<Callback>)
      reads this
      ensures authToken == "" ==> calls == []
      ensures authToken != "" ==> calls == [LoadPosts(1, searchTerm)]
    {
      if authToken != "" then [LoadPosts(1, searchTerm)] else []
    }

    /** Typing in the search box: the term changes, then the search effect runs. */
    method ChangeSearchTerm(term: string, authToken: string) returns (calls: seq<Callback>)
      modifies this
      ensures searchTerm == term
      ensures calls == SearchReload(authToken)
      ensures isCreateModalOpen == old(isCreateModalOpen) && isEditModalOpen == old(isEditModalOpen)
      ensures isCategoryModalOpen == old(isCategoryModalOpen) && editingPost == old(editingPost)
      ensures isSubmitting == old(isSubmitting)
    {
      searchTerm := term;
      calls := SearchReload(authToken);
    }

    /**
      * `handleCreatePost`: the create dialog closes only when creation succeeds;
      * a failure propagates; the submitting flag ends false either way.
      */
    method HandleCreatePost(form: PostFormData, outcome: Result<()>) returns (thrown: Option<Error>, calls: seq<Callback>)
      modifies this
      ensures calls == [CreatePost(form)]
      ensures thrown == if outcome.Err? then Some(outcome.error) else None
      ensures !isSubmitting
      ensures isCreateModalOpen == (old(isCreateModalOpen) && outcome.Err?)
      ensures isEditModalOpen == old(isEditModalOpen) && isCategoryModalOpen == old(isCategoryModalOpen)
      ensures editingPost == old(editingPost) && searchTerm == old(searchTerm)
      ensures old(EditModalHasPost()) ==> EditModalHasPost()
    {
      isSubmitting := true;
      calls := [CreatePost(form)];
      thrown := None;
      if outcome.Ok? {
        isCreateModalOpen := false;
      } else {
        thrown := Some(outcome.error);
      }
      isSubmitting := false;
    }

    /**
      * `handleUpdatePost`: nothing without a post being edited; otherwise the
      * update, after which success closes the dialog and forgets the post; the
      * submitting flag ends false either way.
      */
    method HandleUpdatePost(form: PostFormData, outcome: Result<()>) returns (thrown: Option<Error>, calls: seq<Callback>)
      modifies this
      ensures old(editingPost).None? ==> calls == [] && thrown == None && unchanged(this)
      ensures old(editingPost).Some? ==>
                && calls == [UpdatePost(old(editingPost).value.documentId, form)]
                && thrown == (if outcome.Err? then Some(outcome.error) else None)
                && !isSubmitting
                && (outcome.Ok? ==> !isEditModalOpen && editingPost == None)
                && (outcome.Err? ==> isEditModalOpen == old(isEditModalOpen) && editingPost == old(editingPost))
      ensures isCreateModalOpen == old(isCreateModalOpen) && isCategoryModalOpen == old(isCategoryModalOpen)
      ensures searchTerm == old(searchTerm)
      ensures old(EditModalHasPost()) ==> EditModalHasPost()
    {
      if editingPost.None? {
        return None, [];
      }
      isSubmitting := true;
      calls := [UpdatePost(editingPost.value.documentId, form)];
      thrown := None;
      if outcome.Ok? {
        isEditModalOpen := false;
        editingPost := None;
      } else {
        thrown := Some(outcome.error);
      }
      isSubmitting := false;
    }

    /** `handleEditPost`: remembers the post and opens the edit dialog. */
    method HandleEditPost(post: Post)
      modifies this
      ensures editingPost == Some(post) && isEditModalOpen
      ensures isCreateModalOpen == old(isCreateModalOpen) && isCategoryModalOpen == old(isCategoryModalOpen)
      ensures isSubmitting == old(isSubmitting) && searchTerm == old(searchTerm)
      ensures EditModalHasPost()
    {
      editingPost := Some(post);
      isEditModalOpen := true;
    }

    /**
      * `handleCreateCategory`: success closes the category dialog and reloads the
      * categories; a failure does neither and propagates; submitting ends false.
      */
    method HandleCreateCategory(form: CategoryFormData, outcome: Result<()>) returns (thrown: Option<Error>, calls: seq<Callback>)
      modifies this
      ensures outcome.Ok? ==> calls == [CreateCategory(form), LoadCategories] && thrown == None && !isCategoryModalOpen
      ensures outcome.Err? ==> calls == [CreateCategory(form)] && thrown == Some(outcome.error) && isCategoryModalOpen == old(isCategoryModalOpen)
      ensures !isSubmitting
      ensures isCreateModalOpen == old(isCreateModalOpen) && isEditModalOpen == old(isEditModalOpen)
      ensures editingPost == old(editingPost) && searchTerm == old(searchTerm)
      ensures old(EditModalHasPost()) ==> EditModalHasPost()
    {
      isSubmitting := true;
      calls := [CreateCategory(form)];
      if outcome.Err? {
        thrown := Some(outcome.error);
      } else {
        isCategoryModalOpen := false;
        calls := calls + [LoadCategories];
        thrown := None;
      }
      isSubmitting := false;
    }
  }

  /**
    * Editing a post and submitting the form successfully leaves the list with
    * no dialog open over the post, one update call for that post, and nothing
    * submitting.
    */
  method EditThenUpdate(list: PostsListState, post: Post, form: PostFormData) returns (calls: seq<Callback>)
    modifies list
    ensures calls == [UpdatePost(post.documentId, form)]
    ensures !list.isEditModalOpen && list.editingPost == None && !list.isSubmitting
  {
    list.HandleEditPost(post);
    var thrown;
    thrown, calls := list.HandleUpdatePost(form, Ok(()));
  }
}
