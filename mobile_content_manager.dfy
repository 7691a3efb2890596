/**
  * The mobile content manager screen: signing in through the content-manager
  * service, choosing a content type, listing its items a page at a time with
  * an optional title search, deleting after confirmation, toggling publication,
  * and signing out. Every network call goes through the one shared service
  * object; replies are inputs. A load that a handler starts without awaiting
  * it is modelled as completing before the handler returns.
  */
module MobileContentManager {
  import opened Wrappers
  import opened Http
  import opened ContentManager
  import PostsApi
  import PageControls

  /** The listing arguments: the page, ten per page, every relation populated, and a title filter only for a search term. */
  function ItemsParamsFor(page: int, searchTerm: string): ItemsParams {
    ItemsParams(Some(page), Some(10), None, if searchTerm != "" then Some([("title", Str(searchTerm))]) else None, Some("*"))
  }

  /** The query of a listing: the page (unless 0), a page size of 10, `populate=*`, and the title filter exactly when searching. */
  function ItemsQueryFor(page: int, searchTerm: string): seq<Param> {
    (if page != 0 then [("pagination[page]", Text.IntToString(page))] else [])
    + [("pagination[pageSize]", "10"), ("populate", "*")]
    + (if searchTerm != "" then [(FilterKey("title"), searchTerm)] else [])
  }

  /** The listing arguments build exactly that query, and building it never throws. */
  lemma ItemsQuery(page: int, searchTerm: string)
    ensures SearchParams(Some(ItemsParamsFor(page, searchTerm))) == Ok(ItemsQueryFor(page, searchTerm))
  {
    var params := ItemsParamsFor(page, searchTerm);
    assert Text.NatToString(1) == "1";
    assert Text.IntToString(10) == Text.NatToString(1) + [Text.DigitChar(0)] == "10";
    assert OptionParams(params) == (if page != 0 then [("pagination[page]", Text.IntToString(page))] else [])
                                   + [("pagination[pageSize]", "10"), ("populate", "*")];
    if searchTerm != "" {
      var entries: seq<(string, FilterValue)> := [("title", Str(searchTerm))];
      assert entries[..|entries| - 1] == [];
      assert FilterParams([]) == Ok([]);
      assert Kept(Str(searchTerm));
      assert FilterParams(entries) == Ok([] + [(FilterKey("title"), searchTerm)]);
      assert [] + [(FilterKey("title"), searchTerm)] == [(FilterKey("title"), searchTerm)];
      assert params.filters == Some(entries);
    } else {
      assert ItemsQueryFor(page, searchTerm) == OptionParams(params) + [] == OptionParams(params);
    }
  }

  /** The GET that lists `page` of a content type with a search term. */
  function ListingRequest(contentType: string, page: int, searchTerm: string, headers: seq<Header>): Request {
    Request(GET, ItemsUrl(contentType, ItemsQueryFor(page, searchTerm)), [], headers, None)
  }

  class MobileContentManagerState {
    var isAuthenticated: bool
    var contentTypes: seq<ContentType>
    var selectedContentType: string
    var contentItems: seq<ContentItem>
    var loading: bool
    var currentPage: int
    var totalPages: int
    var searchTerm: string
    var authLoading: bool
    /** The shared `contentManagerService`. */
    const service: ContentManagerService

    constructor (service: ContentManagerService)
      ensures this.service == service
      ensures !isAuthenticated && contentTypes == [] && selectedContentType == "" && contentItems == []
      ensures !loading && currentPage == 1 && totalPages == 1 && searchTerm == "" && !authLoading
    {
      this.service := service;
      isAuthenticated := false;
      contentTypes := [];
      selectedContentType := "";
      contentItems := [];
      loading := false;
      currentPage := 1;
      totalPages := 1;
      searchTerm := "";
      authLoading := false;
    }

    /** `loadContentTypes`: the types the service returns (it never throws); the first one is selected when there is one. */
    method LoadContentTypes(reply: Reply<ContentTypesBody>) returns (sent: seq<Request>)
      modifies this
      ensures var types := service.GetContentTypes(reply);
        && sent == types.sent
        && contentTypes == types.value
        && selectedContentType == (if |types.value| > 0 then types.value[0].uid else old(selectedContentType))
      ensures isAuthenticated == old(isAuthenticated) && contentItems == old(contentItems)
      ensures loading == old(loading) && currentPage == old(currentPage) && totalPages == old(totalPages)
      ensures searchTerm == old(searchTerm) && authLoading == old(authLoading)
    {
      var types := service.GetContentTypes(reply);
      contentTypes := types.value;
      if |types.value| > 0 {
        selectedContentType := types.value[0].uid;
      }
      sent := types.sent;
    }

    /**
      * `handleLogin`: a successful login signs in and loads the content types with
      * the new token; a failed one leaves the screen and the token as they were.
      * The busy flag ends false either way.
      */
    method HandleLogin(email: string, password: string, loginReply: Reply<AuthBody>, typesReply: Reply<ContentTypesBody>)
      returns (sent: seq<Request>)
      modifies this, service
      ensures !authLoading
      ensures IsOk(loginReply) ==>
                && isAuthenticated
                && service.token == loginReply.body.jwt
                && sent == [AuthRequest(email, password)] + service.GetContentTypes(typesReply).sent
                && contentTypes == service.GetContentTypes(typesReply).value
                && selectedContentType == (if |service.GetContentTypes(typesReply).value| > 0
                                           then service.GetContentTypes(typesReply).value[0].uid
                                           else old(selectedContentType))
      ensures !IsOk(loginReply) ==>
                && sent == [AuthRequest(email, password)]
                && isAuthenticated == old(isAuthenticated)
                && service.token == old(service.token)
                && contentTypes == old(contentTypes) && selectedContentType == old(selectedContentType)
      ensures contentItems == old(contentItems) && currentPage == old(currentPage) && totalPages == old(totalPages)
      ensures searchTerm == old(searchTerm) && loading == old(loading)
    {
      authLoading := true;
      var result;
      result, sent := service.Login(email, password, loginReply);
      if result.Ok? {
        isAuthenticated := true;
        var more := LoadContentTypes(typesReply);
        sent := sent + more;
      }
      authLoading := false;
    }

    /**
      * What a finished listing of `page` leaves on screen: loading is over; a
      * successful reply shows its items at that page with `pageCount` (or 1)
      * pages; a failed one keeps the items and the paging that were shown.
      */
    twostate predicate ListedPage(page: int, reply: Reply<ItemsBody>)
      reads this
    {
      && !loading
      && (IsOk(reply) ==> contentItems == reply.body.data && currentPage == page
                          && totalPages == PageControls.PageOr1(PostsApi.PageCountOf(reply.body.pagination)))
      && (!IsOk(reply) ==> contentItems == old(contentItems) && currentPage == old(currentPage) && totalPages == old(totalPages))
    }

    /** The session, the content types and the selection are as they were. */
    twostate predicate KeepsSession()
      reads this
    {
      isAuthenticated == old(isAuthenticated) && contentTypes == old(contentTypes)
      && selectedContentType == old(selectedContentType) && authLoading == old(authLoading)
    }

    /**
      * `loadContentItems(contentType, page)`: nothing for an empty type; otherwise
      * one listing. Success shows its items at the requested page with `pageCount`
      * (or 1) pages; failure keeps what was shown. Loading ends false.
      */
    method LoadContentItems(contentType: string, page: int, reply: Reply<ItemsBody>) returns (sent: seq<Request>)
      modifies this
      ensures contentType == "" ==> sent == [] && unchanged(this)
      ensures contentType != "" ==>
                && sent == [ListingRequest(contentType, page, old(searchTerm), service.Headers())]
                && ListedPage(page, reply)
      ensures KeepsSession() && searchTerm == old(searchTerm)
    {
      if contentType == "" {
        return [];
      }
      loading := true;
      ItemsQuery(page, searchTerm);
      var result;
      result, sent := service.GetContentItems(contentType, Some(ItemsParamsFor(page, searchTerm)), reply);
      if result.Ok? {
        contentItems := result.value.data;
        currentPage := page;
        totalPages := PageControls.PageOr1(PostsApi.PageCountOf(result.value.pagination));
      }
      loading := false;
    }

    /** The effect on a newly selected content type: its first page, with the current search term. */
    method SelectedTypeChanged(reply: Reply<ItemsBody>) returns (sent: seq<Request>)
      modifies this
      ensures selectedContentType == "" ==> sent == [] && unchanged(this)
      ensures selectedContentType != "" ==>
                && sent == [ListingRequest(selectedContentType, 1, searchTerm, service.Headers())]
                && ListedPage(1, reply)
      ensures KeepsSession() && searchTerm == old(searchTerm)
    {
      sent := LoadContentItems(selectedContentType, 1, reply);
    }

    /** Typing a search term: the term changes and the first page of the selected type is listed with it. */
    method ChangeSearchTerm(term: string, reply: Reply<ItemsBody>) returns (sent: seq<Request>)
      modifies this
      ensures searchTerm == term
      ensures selectedContentType == "" ==>
                && sent == []
                && contentItems == old(contentItems) && currentPage == old(currentPage)
                && totalPages == old(totalPages) && loading == old(loading)
      ensures selectedContentType != "" ==>
                && sent == [ListingRequest(selectedContentType, 1, term, service.Headers())]
                && ListedPage(1, reply)
      ensures KeepsSession()
    {
      searchTerm := term;
      sent := LoadContentItems(selectedContentType, 1, reply);
    }

    /**
      * `handleDelete`: nothing unless confirmed; then one delete, and the current
      * page is listed again only when it succeeds. Failures are reported, not thrown.
      */
    method HandleDelete(id: string, confirmed: bool, reply: Reply<Json>, reload: Reply<ItemsBody>) returns (sent: seq<Request>)
      modifies this
      ensures !confirmed ==> sent == [] && unchanged(this)
      ensures confirmed ==> |sent| >= 1 && sent[0] == ItemRequest(DeleteItem(id), old(selectedContentType), service.Headers())
      ensures confirmed && (!IsOk(reply) || old(selectedContentType) == "") ==> |sent| == 1 && unchanged(this)
      ensures confirmed && IsOk(reply) && old(selectedContentType) != "" ==>
                && sent[1..] == [ListingRequest(old(selectedContentType), old(currentPage), old(searchTerm), service.Headers())]
                && ListedPage(old(currentPage), reload)
      ensures KeepsSession() && searchTerm == old(searchTerm)
    {
      if !confirmed {
        return [];
      }
      var call := service.ItemCall(DeleteItem(id), selectedContentType, reply);
      sent := call.sent;
      if call.value.Ok? {
        var more := LoadContentItems(selectedContentType, currentPage, reload);
        sent := sent + more;
      }
    }

    /**
      * `handlePublishToggle(id, isPublished)`: unpublishes a published item and
      * publishes any other; the current page is listed again only after success.
      */
    method HandlePublishToggle(id: string, isPublished: bool, reply: Reply<Json>, reload: Reply<ItemsBody>) returns (sent: seq<Request>)
      modifies this
      ensures |sent| >= 1
      ensures sent[0] == ItemRequest(if isPublished then UnpublishItem(id) else PublishItem(id), old(selectedContentType), service.Headers())
      ensures !IsOk(reply) || old(selectedContentType) == "" ==> |sent| == 1 && unchanged(this)
      ensures IsOk(reply) && old(selectedContentType) != "" ==>
                && sent[1..] == [ListingRequest(old(selectedContentType), old(currentPage), old(searchTerm), service.Headers())]
                && ListedPage(old(currentPage), reload)
      ensures KeepsSession() && searchTerm == old(searchTerm)
    {
      var op := if isPublished then UnpublishItem(id) else PublishItem(id);
      var call := service.ItemCall(op, selectedContentType, reply);
      sent := call.sent;
      if call.value.Ok? {
        var more := LoadContentItems(selectedContentType, currentPage, reload);
        sent := sent + more;
      }
    }

    /** The toggle button of an item: an item with a truthy `publishedAt` is unpublished, any other published. */
    method ToggleItem(item: ContentItem, reply: Reply<Json>, reload: Reply<ItemsBody>) returns (sent: seq<Request>)
      modifies this
      ensures |sent| >= 1
      ensures PostsApi.Truthy(item.publishedAt) ==> sent[0] == ItemRequest(UnpublishItem(item.documentId), old(selectedContentType), service.Headers())
      ensures !PostsApi.Truthy(item.publishedAt) ==> sent[0] == ItemRequest(PublishItem(item.documentId), old(selectedContentType), service.Headers())
      ensures !IsOk(reply) || old(selectedContentType) == "" ==> |sent| == 1 && unchanged(this)
      ensures IsOk(reply) && old(selectedContentType) != "" ==>
                && sent[1..] == [ListingRequest(old(selectedContentType), old(currentPage), old(searchTerm), service.Headers())]
                && ListedPage(old(currentPage), reload)
      ensures KeepsSession() && searchTerm == old(searchTerm)
    {
      sent := HandlePublishToggle(item.documentId, PostsApi.Truthy(item.publishedAt), reply, reload);
    }

    /** Signing out: signed out, and the service token becomes "" so no later request carries a bearer token; nothing else changes. */
    method SignOut()
      modifies this, service
      ensures !isAuthenticated
      ensures service.token == Some("")
      ensures service.Headers() == [JsonContentType]
      ensures contentTypes == old(contentTypes) && contentItems == old(contentItems) && selectedContentType == old(selectedContentType)
      ensures currentPage == old(currentPage) && totalPages == old(totalPages) && searchTerm == old(searchTerm)
      ensures loading == old(loading) && authLoading == old(authLoading)
    {
      isAuthenticated := false;
      service.SetToken("");
    }

    /**
      * The Previous button: when it is shown and enabled and a type is selected,
      * lists the page before with the current search term; otherwise nothing.
      */
    method GoPrevious(reply: Reply<ItemsBody>) returns (sent: seq<Request>)
      modifies this
      ensures var target := PageControls.PreviousPage(old(currentPage), old(totalPages));
        && (target.None? || selectedContentType == "" ==> sent == [] && unchanged(this))
        && (target.Some? && selectedContentType != "" ==>
              && target.value == old(currentPage) - 1
              && (1 <= old(currentPage) <= old(totalPages) ==> 1 <= target.value <= old(totalPages))
              && sent == [ListingRequest(selectedContentType, target.value, searchTerm, service.Headers())]
              && ListedPage(target.value, reply))
      ensures KeepsSession() && searchTerm == old(searchTerm)
    {
      var target := PageControls.PreviousPage(currentPage, totalPages);
      sent := [];
      if target.Some? {
        sent := LoadContentItems(selectedContentType, target.value, reply);
      }
    }

    /**
      * The Next button: when it is shown and enabled and a type is selected,
      * lists the page after with the current search term; otherwise nothing.
      */
    method GoNext(reply: Reply<ItemsBody>) returns (sent: seq<Request>)
      modifies this
      ensures var target := PageControls.NextPage(old(currentPage), old(totalPages));
        && (target.None? || selectedContentType == "" ==> sent == [] && unchanged(this))
        && (target.Some? && selectedContentType != "" ==>
              && target.value == old(currentPage) + 1
              && (1 <= old(currentPage) <= old(totalPages) ==> 1 <= target.value <= old(totalPages))
              && sent == [ListingRequest(selectedContentType, target.value, searchTerm, service.Headers())]
              && ListedPage(target.value, reply))
      ensures KeepsSession() && searchTerm == old(searchTerm)
    {
      var target := PageControls.NextPage(currentPage, totalPages);
      sent := [];
      if target.Some? {
        sent := LoadContentItems(selectedContentType, target.value, reply);
      }
    }
  }
}
