/**
  * The REST client the mobile content manager uses. One service object holds
  * the JWT of the signed-in user; every call but login sends the headers built
  * from it. Listing content items turns optional paging, sorting, populate and
  * filter arguments into a query string; every item operation turns a failed
  * response into an error that names the operation and the content type.
  */
module ContentManager {
  import opened Wrappers
  import opened Text
  import opened Http
  import PostsApi

  const ApiPrefix := "/api/"

  // ---------------------------------------------------------------- entities

  datatype Kind = CollectionType | SingleType

  /** A content type; its `attributes` schema is not part of this model. */
  datatype ContentType = ContentType(uid: string, displayName: string, singularName: string, pluralName: string, kind: Kind)

  /** A content item; `attributes` is whatever JSON the CMS returns. */
  datatype ContentItem = ContentItem(id: int, documentId: string, attributes: Json, createdAt: string, updatedAt: string, publishedAt: Option<string>)

  /** The body of a list response: `data` and `meta.pagination` (`None` when either level is missing). */
  datatype ItemsBody = ItemsBody(data: seq<ContentItem>, pagination: Option<PostsApi.Pagination>)

  /** The body of `POST /api/auth/local`; `jwt` is `None` when the field is missing. */
  datatype AuthBody = AuthBody(jwt: Option<string>, user: Json)

  /** The body of the content-type listing: `data`, `None` when null or missing. */
  datatype ContentTypesBody = ContentTypesBody(data: Option<seq<ContentType>>)

  /** The list used when the content types cannot be fetched. */
  const FallbackContentTypes: seq<ContentType> := [
    ContentType("api::category.category", "Category", "category", "categories", CollectionType),
    ContentType("api::post.post", "Post", "post", "posts", CollectionType),
    ContentType("api::page.page", "Page", "page", "pages", CollectionType),
    ContentType("api::global.global", "Global", "global", "globals", SingleType)
  ]

  /** The fallback offers four types with distinct uids; only Global is a single type. */
  lemma FallbackContentTypesFacts()
    ensures |FallbackContentTypes| == 4
    ensures forall i, j :: 0 <= i < j < 4 ==> FallbackContentTypes[i].uid != FallbackContentTypes[j].uid
    ensures forall i :: 0 <= i < 4 ==> (FallbackContentTypes[i].kind == SingleType <==> FallbackContentTypes[i].displayName == "Global")
  {
  }

  // ---------------------------------------------------------------- query parameters

  /** A filter value as JavaScript sees it; values of other types are not part of this model. */
  datatype FilterValue = Missing | Null | Str(s: string) | Num(n: int) | Bool(b: bool)

  /** The optional arguments of `getContentItems`; `None` stands for undefined. */
  datatype ItemsParams = ItemsParams(
    page: Option<int>,
    pageSize: Option<int>,
    sort: Option<string>,
    filters: Option<seq<(string, FilterValue)>>,
    populate: Option<string>)

  /** An entry is appended unless its value is undefined or the empty string. */
  predicate Kept(value: FilterValue) {
    value != Missing && value != Str("")
  }

  /** `value.toString()`; on null it throws. */
  function FilterText(value: FilterValue): (r: Result<string>)
    ensures r.Err? <==> value.Null? || value.Missing?
  {
    match value
    case Missing => Err(Error("TypeError: cannot read properties of undefined (reading 'toString')"))
    case Null => Err(Error("TypeError: cannot read properties of null (reading 'toString')"))
    case Str(s) => Ok(s)
    case Num(n) => Ok(IntToString(n))
    case Bool(b) => Ok(if b then "true" else "false")
  }

  function FilterKey(key: string): string {
    "filters[" + key + "][$containsi]"
  }

  const PageKey := "pagination[page]"
  const PageSizeKey := "pagination[pageSize]"
  const SortKey := "sort"
  const PopulateKey := "populate"

  /** The numeric and string arguments, each only when given and truthy, in the order page, pageSize, sort, populate. */
  function OptionParams(params: ItemsParams): (ps: seq<Param>)
    ensures |ps| <= 4
  {
    OptionParam(params.page.Some? && params.page.value != 0, PageKey, if params.page.Some? then IntToString(params.page.value) else "")
    + OptionParam(params.pageSize.Some? && params.pageSize.value != 0, PageSizeKey, if params.pageSize.Some? then IntToString(params.pageSize.value) else "")
    + OptionParam(params.sort.Some? && params.sort.value != "", SortKey, params.sort.GetOr(""))
    + OptionParam(params.populate.Some? && params.populate.value != "", PopulateKey, params.populate.GetOr(""))
  }

  /** One `append(key, value)` when `present`, else nothing. */
  function OptionParam(present: bool, key: string, value: string): (ps: seq<Param>)
    ensures |ps| <= 1
  {
    if present then [(key, value)] else []
  }

  /** `URLSearchParams.get(key)`: the value of the first parameter named `key`, if any. */
  function ValueOf(ps: seq<Param>, key: string): (v: Option<string>)
    ensures v.Some? ==> (key, v.value) in ps
    ensures v.None? <==> forall i :: 0 <= i < |ps| ==> ps[i].0 != key
  {
    if ps == [] then None
    else if ps[0].0 == key then Some(ps[0].1)
    else
      var v := ValueOf(ps[1..], key);
      assert forall i :: 1 <= i < |ps| ==> ps[i] == ps[1..][i - 1];
      v
  }

  lemma {:induction false} ValueOfConcat(s: seq<Param>, t: seq<Param>, key: string)
    ensures ValueOf(s + t, key) == if ValueOf(s, key).Some? then ValueOf(s, key) else ValueOf(t, key)
  {
    if s == [] {
      assert s + t == t;
    } else {
      assert (s + t)[0] == s[0] && (s + t)[1..] == s[1..] + t;
      ValueOfConcat(s[1..], t, key);
    }
  }

  /** Where a key stands in the order page, pageSize, sort, populate; 4 for any other key. */
  function OptionRank(key: string): nat {
    if key == PageKey then 0
    else if key == PageSizeKey then 1
    else if key == SortKey then 2
    else if key == PopulateKey then 3
    else 4
  }

  /** Every key is one of the four and they come in their fixed order, each at most once. */
  predicate InOptionOrder(ps: seq<Param>) {
    && RanksIn(ps, 0, 4)
    && (forall i, j :: 0 <= i < j < |ps| ==> OptionRank(ps[i].0) < OptionRank(ps[j].0))
  }

  /** Every key of `ps` ranks in `lo..hi`. */
  predicate RanksIn(ps: seq<Param>, lo: nat, hi: nat) {
    forall i :: 0 <= i < |ps| ==> lo <= OptionRank(ps[i].0) < hi
  }

  /** One optional append is in order on its own, with its key's rank. */
  lemma OptionParamRanks(present: bool, key: string, value: string)
    requires OptionRank(key) < 4
    ensures InOptionOrder(OptionParam(present, key, value))
    ensures RanksIn(OptionParam(present, key, value), OptionRank(key), OptionRank(key) + 1)
  {
  }

  lemma InOptionOrderConcat(s: seq<Param>, t: seq<Param>, lo: nat, m: nat, hi: nat)
    requires InOptionOrder(s) && InOptionOrder(t)
    requires lo <= m <= hi && RanksIn(s, lo, m) && RanksIn(t, m, hi)
    ensures InOptionOrder(s + t) && RanksIn(s + t, lo, hi)
  {
    forall i | 0 <= i < |s + t|
      ensures lo <= OptionRank((s + t)[i].0) < hi
    {
      if i < |s| {
        assert (s + t)[i] == s[i];
      } else {
        assert (s + t)[i] == t[i - |s|];
      }
    }
    forall i, j | 0 <= i < j < |s + t|
      ensures OptionRank((s + t)[i].0) < OptionRank((s + t)[j].0)
    {
      if j < |s| {
        assert (s + t)[i] == s[i] && (s + t)[j] == s[j];
      } else if i >= |s| {
        assert (s + t)[i] == t[i - |s|] && (s + t)[j] == t[j - |s|];
      } else {
        assert (s + t)[i] == s[i] && (s + t)[j] == t[j - |s|];
      }
    }
  }

  /** Four optional appends whose keys rank 0, 1, 2 and 3 come out in rank order. */
  lemma {:induction false} InOrderFour(a: (bool, string, string), b: (bool, string, string), c: (bool, string, string), d: (bool, string, string))
    requires OptionRank(a.1) == 0 && OptionRank(b.1) == 1 && OptionRank(c.1) == 2 && OptionRank(d.1) == 3
    ensures InOptionOrder(OptionParam(a.0, a.1, a.2) + OptionParam(b.0, b.1, b.2) + OptionParam(c.0, c.1, c.2) + OptionParam(d.0, d.1, d.2))
  {
    var pa, pb, pc, pd := OptionParam(a.0, a.1, a.2), OptionParam(b.0, b.1, b.2), OptionParam(c.0, c.1, c.2), OptionParam(d.0, d.1, d.2);
    OptionParamRanks(a.0, a.1, a.2);
    OptionParamRanks(b.0, b.1, b.2);
    OptionParamRanks(c.0, c.1, c.2);
    OptionParamRanks(d.0, d.1, d.2);
    InOptionOrderConcat(pa, pb, 0, 1, 2);
    InOptionOrderConcat(pa + pb, pc, 0, 2, 3);
    InOptionOrderConcat(pa + pb + pc, pd, 0, 3, 4);
  }

  /** The optional arguments are among page, pageSize, sort and populate, each at most once and in that order. */
  lemma OptionParamsInOrder(params: ItemsParams)
    ensures InOptionOrder(OptionParams(params))
  {
    assert |PageKey| == 16 && |PageSizeKey| == 20 && |SortKey| == 4 && |PopulateKey| == 8;
    var a := (params.page.Some? && params.page.value != 0, PageKey, if params.page.Some? then IntToString(params.page.value) else "");
    var b := (params.pageSize.Some? && params.pageSize.value != 0, PageSizeKey, if params.pageSize.Some? then IntToString(params.pageSize.value) else "");
    var c := (params.sort.Some? && params.sort.value != "", SortKey, params.sort.GetOr(""));
    var d := (params.populate.Some? && params.populate.value != "", PopulateKey, params.populate.GetOr(""));
    assert OptionParams(params) == OptionParam(a.0, a.1, a.2) + OptionParam(b.0, b.1, b.2) + OptionParam(c.0, c.1, c.2) + OptionParam(d.0, d.1, d.2);
    InOrderFour(a, b, c, d);
  }

  /** What `OptionParam` holds: `value` under `key` when present, nothing else. */
  lemma OptionParamValue(present: bool, key: string, value: string, k: string)
    ensures ValueOf(OptionParam(present, key, value), k) == if present && k == key then Some(value) else None
  {
  }

  /** `get` on four optional appends finds the first one present under that key. */
  lemma {:induction false} ValueOfFour(a: (bool, string, string), b: (bool, string, string), c: (bool, string, string), d: (bool, string, string), key: string)
    ensures ValueOf(OptionParam(a.0, a.1, a.2) + OptionParam(b.0, b.1, b.2) + OptionParam(c.0, c.1, c.2) + OptionParam(d.0, d.1, d.2), key)
      == if a.0 && key == a.1 then Some(a.2)
         else if b.0 && key == b.1 then Some(b.2)
         else if c.0 && key == c.1 then Some(c.2)
         else if d.0 && key == d.1 then Some(d.2)
         else None
  {
    var pa, pb, pc, pd := OptionParam(a.0, a.1, a.2), OptionParam(b.0, b.1, b.2), OptionParam(c.0, c.1, c.2), OptionParam(d.0, d.1, d.2);
    ValueOfConcat(pa + pb + pc, pd, key);
    ValueOfConcat(pa + pb, pc, key);
    ValueOfConcat(pa, pb, key);
    OptionParamValue(a.0, a.1, a.2, key);
    OptionParamValue(b.0, b.1, b.2, key);
    OptionParamValue(c.0, c.1, c.2, key);
    OptionParamValue(d.0, d.1, d.2, key);
  }

  /**
    * What `get` returns for each optional argument: page and pageSize exactly when
    * given and non-zero, sort and populate exactly when given and non-empty, each
    * with its value as text.
    */
  lemma OptionParamsPresent(params: ItemsParams)
    ensures var ps := OptionParams(params);
      && ValueOf(ps, PageKey) == (if params.page.Some? && params.page.value != 0 then Some(IntToString(params.page.value)) else None)
      && ValueOf(ps, PageSizeKey) == (if params.pageSize.Some? && params.pageSize.value != 0 then Some(IntToString(params.pageSize.value)) else None)
      && ValueOf(ps, SortKey) == (if params.sort.Some? && params.sort.value != "" then Some(params.sort.value) else None)
      && ValueOf(ps, PopulateKey) == (if params.populate.Some? && params.populate.value != "" then Some(params.populate.value) else None)
  {
    assert |PageKey| == 16 && |PageSizeKey| == 20 && |SortKey| == 4 && |PopulateKey| == 8;
    var a := (params.page.Some? && params.page.value != 0, PageKey, if params.page.Some? then IntToString(params.page.value) else "");
    var b := (params.pageSize.Some? && params.pageSize.value != 0, PageSizeKey, if params.pageSize.Some? then IntToString(params.pageSize.value) else "");
    var c := (params.sort.Some? && params.sort.value != "", SortKey, params.sort.GetOr(""));
    var d := (params.populate.Some? && params.populate.value != "", PopulateKey, params.populate.GetOr(""));
    assert OptionParams(params) == OptionParam(a.0, a.1, a.2) + OptionParam(b.0, b.1, b.2) + OptionParam(c.0, c.1, c.2) + OptionParam(d.0, d.1, d.2);
    ValueOfFour(a, b, c, d, PageKey);
    ValueOfFour(a, b, c, d, PageSizeKey);
    ValueOfFour(a, b, c, d, SortKey);
    ValueOfFour(a, b, c, d, PopulateKey);
  }

  /** The filter parameters of `entries`, in entry order, or the error the first kept null throws. */
  function FilterParams(entries: seq<(string, FilterValue)>): (r: Result<seq<Param>>)
    ensures r.Ok? ==> |r.value| <= |entries|
    decreases |entries|
  {
    if entries == [] then Ok([])
    else
      var (key, value) := entries[|entries| - 1];
      match FilterParams(entries[..|entries| - 1])
      case Err(e) => Err(e)
      case Ok(ps) =>
        if !Kept(value) then Ok(ps)
        else match FilterText(value)
          case Err(e) => Err(e)
          case Ok(text) => Ok(ps + [(FilterKey(key), text)])
  }

  /** What `getContentItems` appends to its `URLSearchParams`, or the error building them throws. */
  function SearchParams(params: Option<ItemsParams>): Result<seq<Param>> {
    if params.None? then Ok([])
    else if params.value.filters.None? then Ok(OptionParams(params.value))
    else match FilterParams(params.value.filters.value)
      case Err(e) => Err(e)
      case Ok(fs) => Ok(OptionParams(params.value) + fs)
  }

  /** The kept entries, in order: the reference the filter parameters are checked against. */
  function KeptEntries(entries: seq<(string, FilterValue)>): (kept: seq<(string, FilterValue)>)
    ensures forall e :: e in kept <==> e in entries && Kept(e.1)
    decreases |entries|
  {
    if entries == [] then []
    else
      var rest := KeptEntries(entries[..|entries| - 1]);
      assert forall e :: e in entries <==> e in entries[..|entries| - 1] || e == entries[|entries| - 1];
      if Kept(entries[|entries| - 1].1) then rest + [entries[|entries| - 1]] else rest
  }

  /** Building the filter parameters throws exactly when some entry is null. */
  lemma {:induction false} FilterParamsFailsOnNull(entries: seq<(string, FilterValue)>)
    ensures FilterParams(entries).Err? <==> exists i :: 0 <= i < |entries| && entries[i].1.Null?
    decreases |entries|
  {
    if entries != [] {
      var init := entries[..|entries| - 1];
      FilterParamsFailsOnNull(init);
      assert forall i :: 0 <= i < |init| ==> init[i] == entries[i];
      if exists i :: 0 <= i < |entries| && entries[i].1.Null? {
        var i :| 0 <= i < |entries| && entries[i].1.Null?;
        if i < |init| {
          assert init[i].1.Null?;
        }
      }
    }
  }

  /** Without nulls, the filter parameters are the kept entries, one `filters[key][$containsi]` each, in order. */
  lemma {:induction false} FilterParamsAreKeptEntries(entries: seq<(string, FilterValue)>)
    requires forall i :: 0 <= i < |entries| ==> !entries[i].1.Null?
    ensures FilterParams(entries).Ok?
    ensures |FilterParams(entries).value| == |KeptEntries(entries)|
    ensures forall j :: 0 <= j < |KeptEntries(entries)| ==>
              FilterParams(entries).value[j] == (FilterKey(KeptEntries(entries)[j].0), FilterText(KeptEntries(entries)[j].1).value)
    decreases |entries|
  {
    if entries != [] {
      var init := entries[..|entries| - 1];
      assert forall i :: 0 <= i < |init| ==> init[i] == entries[i];
      FilterParamsAreKeptEntries(init);
    }
  }

  /** Once an entry has thrown, the entries after it are never reached. */
  lemma {:induction false} FilterErrorPersists(entries: seq<(string, FilterValue)>, n: nat)
    requires n <= |entries|
    requires FilterParams(entries[..n]).Err?
    ensures FilterParams(entries) == FilterParams(entries[..n])
    decreases |entries| - n
  {
    if n < |entries| {
      assert entries[..n + 1][..n] == entries[..n];
      FilterErrorPersists(entries, n + 1);
    } else {
      assert entries[..n] == entries;
    }
  }

  /** `URLSearchParams.toString()`: `key=value` pairs joined by '&' (percent-encoding is not modelled). */
  function QueryString(ps: seq<Param>): (q: string)
    ensures q == [] <==> ps == []
  {
    if ps == [] then ""
    else if |ps| == 1 then ps[0].0 + "=" + ps[0].1
    else ps[0].0 + "=" + ps[0].1 + "&" + QueryString(ps[1..])
  }

  /** The URL of a listing: the query string follows a '?' only when there is one. */
  function ItemsUrl(contentType: string, ps: seq<Param>): string {
    ApiPrefix + contentType + (if QueryString(ps) != "" then "?" + QueryString(ps) else "")
  }

  /** For a content type without '?', the listing URL contains '?' exactly when some parameter was appended. */
  lemma ItemsUrlHasQueryMark(contentType: string, ps: seq<Param>)
    requires '?' !in contentType
    ensures '?' in ItemsUrl(contentType, ps) <==> ps != []
  {
    var url := ItemsUrl(contentType, ps);
    if ps == [] {
      assert url == ApiPrefix + contentType;
      assert '?' !in ApiPrefix;
    } else {
      assert url[|ApiPrefix + contentType|] == '?';
    }
  }

  /**
    * The `forEach` over the filter entries and the appends before it: the
    * parameters `getContentItems` builds, or the error a null filter throws.
    */
  method BuildSearchParams(params: Option<ItemsParams>) returns (r: Result<seq<Param>>)
    ensures r == SearchParams(params)
  {
    if params.None? {
      return Ok([]);
    }
    var ps := OptionParams(params.value);
    if params.value.filters.None? {
      return Ok(ps);
    }
    var entries := params.value.filters.value;
    var i := 0;
    while i < |entries|
      invariant 0 <= i <= |entries|
      invariant FilterParams(entries[..i]).Ok?
      invariant ps == OptionParams(params.value) + FilterParams(entries[..i]).value
    {
      var (key, value) := entries[i];
      assert entries[..i + 1][..i] == entries[..i];
      if Kept(value) {
        var text := FilterText(value);
        if text.Err? {
          assert FilterParams(entries[..i + 1]) == Err(text.error);
          FilterErrorPersists(entries, i + 1);
          return Err(text.error);
        }
        ps := ps + [(FilterKey(key), text.value)];
      }
      i := i + 1;
    }
    assert entries[..i] == entries;
    r := Ok(ps);
  }

  // ---------------------------------------------------------------- item operations

  datatype ItemOp =
    | FetchItem(id: string)
    | CreateItem(data: Json)
    | UpdateItem(id: string, data: Json)
    | DeleteItem(id: string)
    | PublishItem(id: string)
    | UnpublishItem(id: string)

  /** The verb of the operation as its error message says it. */
  function Verb(op: ItemOp): string {
    match op
    case FetchItem(_) => "fetch"
    case CreateItem(_) => "create"
    case UpdateItem(_, _) => "update"
    case DeleteItem(_) => "delete"
    case PublishItem(_) => "publish"
    case UnpublishItem(_) => "unpublish"
  }

  /** The error a failed item operation throws. */
  function ItemFailure(op: ItemOp, contentType: string): Error {
    Error("Failed to " + Verb(op) + " " + contentType + " item")
  }

  function ItemRequest(op: ItemOp, contentType: string, headers: seq<Header>): Request {
    var base := ApiPrefix + contentType;
    match op
    case FetchItem(id) => Request(GET, base + "/" + id, [], headers, None)
    case CreateItem(data) => Request(POST, base, [], headers, Some(JObj([("data", data)])))
    case UpdateItem(id, data) => Request(PUT, base + "/" + id, [], headers, Some(JObj([("data", data)])))
    case DeleteItem(id) => Request(DELETE, base + "/" + id, [], headers, None)
    case PublishItem(id) => Request(POST, base + "/" + id + "/actions/publish", [], headers, None)
    case UnpublishItem(id) => Request(POST, base + "/" + id + "/actions/unpublish", [], headers, None)
  }

  /** The login request: JSON content type only, credentials as `identifier` and `password`. */
  function AuthRequest(email: string, password: string): Request {
    Request(POST, ApiPrefix + "auth/local", [], [JsonContentType],
            Some(JObj([("identifier", JStr(email)), ("password", JStr(password))])))
  }

  // ---------------------------------------------------------------- the service

  class ContentManagerService {
    /** The JWT; `None` for null and undefined. */
    var token: Option<string>

    constructor ()
      ensures token == None
    {
      token := None;
    }

    /** `setToken`. */
    method SetToken(newToken: string)
      modifies this
      ensures token == Some(newToken)
    {
      token := Some(newToken);
    }

    /** `getHeaders()`: the JSON content type, then the bearer token exactly when it is set and non-empty. */
    function Headers(): (hs: seq<Header>)
      reads this
      ensures 1 <= |hs| <= 2 && hs[0] == JsonContentType
      ensures |hs| == 2 <==> PostsApi.Truthy(token)
      ensures |hs| == 2 ==> hs[1] == Bearer(token.value)
    {
      [JsonContentType] + (if PostsApi.Truthy(token) then [Bearer(token.value)] else [])
    }

    /**
      * `login`: a 2xx reply stores its `jwt` (which may be missing) and returns the
      * body; otherwise it throws and the token is kept.
      */
    method Login(email: string, password: string, reply: Reply<AuthBody>) returns (r: Result<AuthBody>, sent: seq<Request>)
      modifies this
      ensures sent == [AuthRequest(email, password)]
      ensures r.Ok? <==> IsOk(reply)
      ensures IsOk(reply) ==> r.value == reply.body && token == reply.body.jwt
      ensures reply.Response? && !IsOk(reply) ==> r == Err(Error("Login failed"))
      ensures reply.Thrown? ==> r == Err(reply.error)
      ensures r.Err? ==> token == old(token)
    {
      sent := [AuthRequest(email, password)];
      if reply.Thrown? {
        return Err(reply.error), sent;
      }
      if !IsOk(reply) {
        return Err(Error("Login failed")), sent;
      }
      token := reply.body.jwt;
      r := Ok(reply.body);
    }

    /** `getContentTypes`: never throws; `data.data` or `[]` on success, the fallback list on any failure. */
    function GetContentTypes(reply: Reply<ContentTypesBody>): (r: Traced<seq<ContentType>>)
      reads this
      ensures r.sent == [Request(GET, ApiPrefix + "content-type-builder/content-types", [], Headers(), None)]
      ensures IsOk(reply) ==> r.value == reply.body.data.GetOr([])
      ensures !IsOk(reply) ==> r.value == FallbackContentTypes
    {
      var sent := [Request(GET, ApiPrefix + "content-type-builder/content-types", [], Headers(), None)];
      if IsOk(reply) then Traced(reply.body.data.GetOr([]), sent)
      else Traced(FallbackContentTypes, sent)
    }

    /**
      * `getContentItems`: builds the query, sends one GET to the listing URL and
      * returns the body of a 2xx reply; a failed reply throws `Failed to fetch <type>`.
      * A null filter throws before anything is sent.
      */
    method GetContentItems(contentType: string, params: Option<ItemsParams>, reply: Reply<ItemsBody>)
      returns (r: Result<ItemsBody>, sent: seq<Request>)
      ensures SearchParams(params).Err? ==> r == Err(SearchParams(params).error) && sent == []
      ensures SearchParams(params).Ok? ==>
                sent == [Request(GET, ItemsUrl(contentType, SearchParams(params).value), [], Headers(), None)]
      ensures SearchParams(params).Ok? && IsOk(reply) ==> r == Ok(reply.body)
      ensures SearchParams(params).Ok? && reply.Response? && !IsOk(reply) ==> r == Err(Error("Failed to fetch " + contentType))
      ensures SearchParams(params).Ok? && reply.Thrown? ==> r == Err(reply.error)
    {
      var ps := BuildSearchParams(params);
      if ps.Err? {
        return Err(ps.error), [];
      }
      sent := [Request(GET, ItemsUrl(contentType, ps.value), [], Headers(), None)];
      match reply
      case Thrown(e) => r := Err(e);
      case Response(_, body) =>
        r := if IsOk(reply) then Ok(body) else Err(Error("Failed to fetch " + contentType));
    }

    /**
      * Fetching, creating, updating, deleting, publishing and unpublishing one item:
      * one request with the current headers; the JSON of a 2xx reply, else the
      * operation's failure.
      */
    function ItemCall(op: ItemOp, contentType: string, reply: Reply<Json>): (r: Traced<Result<Json>>)
      reads this
      ensures r.sent == [ItemRequest(op, contentType, Headers())]
      ensures r.value.Ok? <==> IsOk(reply)
      ensures IsOk(reply) ==> r.value.value == reply.body
      ensures reply.Response? && !IsOk(reply) ==> r.value == Err(ItemFailure(op, contentType))
      ensures reply.Thrown? ==> r.value == Err(reply.error)
    {
      var sent := [ItemRequest(op, contentType, Headers())];
      match reply
      case Thrown(e) => Traced(Err(e), sent)
      case Response(_, body) => Traced(if IsOk(reply) then Ok(body) else Err(ItemFailure(op, contentType)), sent)
    }
  }
}
