# Posts manager and content manager: a Dafny model

This project models the client-side logic of a Next.js admin front end for a
Strapi CMS. Two screens are covered:

- The **posts manager** lists, creates, edits, deletes, publishes and
  unpublishes blog posts, and lists and creates categories.
- The **mobile content manager** browses any content type through a small
  REST service.

The model covers these parts:

- **Session store** (`AuthContext`): the admin login, validating a token,
  logging out, and the start-up revalidation of a session remembered in
  `localStorage`. `localStorage` is a `map<string, string>`.
- **Posts/categories service** (`PostsApi`):
  - listing posts, with the fixed query;
  - the four-endpoint fallback chain that lists categories, and the
    normalisation of what it finds;
  - creating a post and then publishing it on a best-effort basis;
  - creating a category with a second endpoint as fallback;
  - the plain update, delete, publish and unpublish calls.
- **Content-manager service** (`ContentManager`): the JWT it holds, the headers
  built from it, login, the content-type list with its fixed fallback, building
  the listing query (a proven loop), and the per-item operations.
- **Screens** (`PostsManager`, `PostsList`, `MobileContentManager`):
  - which failures are re-thrown and which are only reported;
  - confirmation before delete;
  - choosing between publish and unpublish;
  - page defaults and reloads;
  - dialog and submitting flags;
  - the search reload.
- **Pagination controls** (`PageControls`): shown only with more than one page;
  Previous disabled on page 1 and Next on the last page.
- **Forms** (`PostForm`, `CategoryForm`): the slug derived from a title or name,
  the edit pre-fill and reset, setters that change one field, and the submit
  behaviour.
- **URL helpers** (`Utils`): the CMS base URL and media URLs.
- **Text operations** (`Text`): `toLowerCase`, `replace(/\s+/g, '-')`,
  `replace(/[^a-z0-9-]/g, '')`, `||` on strings and decimal rendering of
  numbers, all restricted to ASCII.

How the model treats the network and the screens:

- Network replies are inputs. A `Reply` is either a response (status and parsed
  body) or a thrown error (`Http`).
- Every operation returns the requests it sent, so "no request" is an empty
  trace.
- The server actions behind the posts manager, and the callbacks the posts list
  receives, are recorded as calls. Their outcomes are inputs.
- A reload that a handler starts without awaiting it is modelled as completing
  before the handler returns. Its outcome is a further input.

Where the documented behaviour and the code differ, the model follows the code:

- The category chain does not stop at a 2xx reply whose list is empty but not
  `null`. It goes on to the next endpoint
  (`client/src/data/services/posts-api.ts:199`). See
  `PostsApi.EmptyListDoesNotEndChain`.
- The signed-in flag does not always imply a token.
  - `login` accepts whatever token the backend returns, even "".
    `AuthContext.AuthProvider.Login` says exactly when the invariant holds
    afterwards.
  - Start-up with a rejected token clears the token but leaves the signed-in
    flag as it was. So the invariant survives start-up only from the signed-out
    state the provider mounts in.
- `validateToken` never throws. The `catch` around it in `initializeAuth`
  cannot run, so the model has no such path.
- The posts list's pagination buttons pass only a page number. A page change
  therefore reloads without the current search term
  (`PostsList.PageCall`).
- The pagination guards compare for equality only. "Never above totalPages"
  holds only while the current page lies in `1..totalPages`
  (`PageControls.NextUnguardedPastLastPage`).

## Model

| member | source | states |
|---|---|---|
| `Text.Dashify` | client/src/data/services/posts-api.ts:205 | the dashed string has no whitespace left, is no longer than the input, and is empty exactly when the input is |
| `Text.DashifyCollapsesRun` | client/src/data/services/posts-api.ts:205 | a whitespace run of any length followed by a non-space becomes exactly one '-' |
| `Text.DashifyWithoutSpaces` | client/src/data/services/posts-api.ts:205 | a string without whitespace is left unchanged |
| `Text.DashifyKeepsNonSpace` | client/src/data/services/posts-api.ts:205 | a character other than whitespace passes through unchanged, ahead of the rest of the dashed string |
| `Text.DashifyConcat` | client/src/data/services/posts-api.ts:205 | cut after a non-space character, a string dashes piece by piece, so every whitespace run is replaced on its own |
| `Text.DashSlug` | client/src/data/services/posts-api.ts:205 | the default slug has no whitespace and no upper-case letter, and is empty only for an empty input |
| `Text.DashSlugOfWord` | client/src/data/services/posts-api.ts:205 | the default slug of a text without whitespace is that text lower-cased |
| `Text.DashSlugJoin` | client/src/data/services/posts-api.ts:205 | two pieces around a whitespace run give their default slugs joined by one '-' |
| `Text.OrChain` | client/src/data/services/posts-api.ts:204 | a `a \|\| b \|\| ... \|\| default` chain picks the first non-empty candidate, else the default |
| `Text.FirstNonEmpty` | client/src/data/services/posts-api.ts:204-205 | the result is the first non-empty candidate (all earlier ones empty), or the default when every candidate is empty |
| `Text.KeepSlugChars` | src/components/posts-manager/post-form.tsx:70 | the filtered string contains only a-z, 0-9 and '-' and is no longer than the input |
| `Text.KeepSlugCharsOfSlug` | src/components/posts-manager/post-form.tsx:70 | a string already made of slug characters loses nothing to the filter |
| `Text.KeepSlugCharsConcat` | src/components/posts-manager/post-form.tsx:70 | the filter keeps a single slug character and drops any other, and works piece by piece across a concatenation, so the kept characters stay in order |
| `Text.FormSlug` | src/components/posts-manager/post-form.tsx:70 | the title-derived slug contains only a-z, 0-9 and '-' |
| `Text.FormSlugOfWord` | src/components/posts-manager/post-form.tsx:70 | the slug of a text without whitespace is its lower-cased slug characters, in order |
| `Text.FormSlugJoin` | src/components/posts-manager/post-form.tsx:70 | two pieces around a whitespace run give their own slugs joined by one '-', so a title's slug is built word by word |
| `Text.FormSlugOfSlug` | src/components/posts-manager/post-form.tsx:70 | deriving the slug from a slug gives that slug back |
| `Text.FormSlugIdempotent` | src/components/posts-manager/post-form.tsx:70 | deriving the slug from a derived slug changes nothing |
| `Text.NatToString` | client/src/data/services/posts-api.ts:103 | a page number renders as a non-empty string of digits without a leading zero |
| `Text.NatToStringRoundTrip` | client/src/data/services/posts-api.ts:103 | reading the rendered digits gives the number back, so distinct pages give distinct parameters |
| `PostsApi.LoadPostsQueryFacts` | client/src/data/services/posts-api.ts:102-114 | the listing asks for page `page` and 10 posts sorted `createdAt:desc`, with a title filter exactly when the search term is non-empty |
| `PostsApi.LoadPosts` | client/src/data/services/posts-api.ts:93-139 | an empty token fails with no request; otherwise one GET, success exactly on 2xx, with `results` or `[]` and `pagination` or `{}` |
| `PostsApi.FirstAccepted` | client/src/data/services/posts-api.ts:177-222 | the first index whose reply ends the chain (2xx with a non-empty list or an explicit null), every earlier reply rejected |
| `PostsApi.LoadCategories` | client/src/data/services/posts-api.ts:142-226 | an empty token fails before any request; otherwise the endpoints are tried strictly in order up to the first accepted reply, whose normalised list is returned, else `[]` with no error |
| `PostsApi.EmptyListDoesNotEndChain` | client/src/data/services/posts-api.ts:192-199 | for any remaining replies, a 2xx whose list is empty and neither `results` nor `data` is `null` contacts one more endpoint and leaves the result to the rest of the chain |
| `PostsApi.NullListEndsChain` | client/src/data/services/posts-api.ts:197-199 | a 2xx whose `results` is `null` ends the chain after one request with no categories |
| `PostsApi.NormalizeCategory` | client/src/data/services/posts-api.ts:201-210 | the name falls back text, name, attributes.text, attributes.name, 'Unknown Category'; the slug falls back slug, attributes.slug, the dashed lower-cased text or name or 'unknown'; both are non-empty |
| `PostsApi.NormalizeCategories` | client/src/data/services/posts-api.ts:201-210 | normalisation keeps the count and the order |
| `PostsApi.CreationSlug` | client/src/data/services/posts-api.ts:234 | the form's slug when given, else the title lower-cased with whitespace runs as '-' |
| `PostsApi.PostPayloadCategory` | client/src/data/services/posts-api.ts:230-237 | the payload carries the slug, and a category `connect` exactly when a category id is chosen |
| `PostsApi.CreatePost` | client/src/data/services/posts-api.ts:229-270 | one create request; success exactly on 2xx; a publish request follows exactly when the created post has a `documentId`; the created post is returned |
| `PostsApi.CreatePostIgnoresPublish` | client/src/data/services/posts-api.ts:258-267 | whatever the publish step answers, the outcome of `createPost` is the same |
| `PostsApi.UpdatePost` | client/src/data/services/posts-api.ts:273-303 | one PUT with the form's own slug; success exactly on 2xx |
| `PostsApi.DeletePost` | client/src/data/services/posts-api.ts:306-324 | one DELETE; success exactly on 2xx; a failure names only the status |
| `PostsApi.PublishPost` | client/src/data/services/posts-api.ts:327-345 | one publish request; success exactly on 2xx |
| `PostsApi.UnpublishPost` | client/src/data/services/posts-api.ts:348-366 | one unpublish request; success exactly on 2xx |
| `PostsApi.CreateCategory` | client/src/data/services/posts-api.ts:369-408 | the REST fallback is posted exactly when the first reply is a non-2xx response; the last reply decides success; the result is `data` when present, else the whole body |
| `AuthContext.AdminLogin` | client/src/components/posts-manager/auth-context.tsx:40-62 | a token exactly for a 2xx reply with one; a failed reply throws the backend message, else `Admin login failed: <status>` |
| `AuthContext.ValidateToken` | client/src/components/posts-manager/auth-context.tsx:94-112 | false for "" with no request; otherwise one request and the answer is `response.ok`; it never throws |
| `AuthContext.Saved` | client/src/components/posts-manager/auth-context.tsx:117-120 | a remembered session exists exactly when both keys are stored and non-empty |
| `AuthContext.AuthProvider.constructor` | client/src/components/posts-manager/auth-context.tsx:34-37 | the provider mounts signed out, initialising, with no email or token |
| `AuthContext.AuthProvider.Login` | client/src/components/posts-manager/auth-context.tsx:64-83 | success holds the token and the email, signs in, and writes both keys exactly when `rememberMe`; failure re-throws and changes nothing |
| `AuthContext.AuthProvider.Logout` | client/src/components/posts-manager/auth-context.tsx:85-92 | both keys removed, signed out, token and email cleared, whatever the state was |
| `AuthContext.AuthProvider.InitializeAuth` | client/src/components/posts-manager/auth-context.tsx:116-148 | validates only a complete remembered session; a valid one signs in with it; an invalid one is removed from storage and memory; initialising ends on every path |
| `AuthContext.StartUp` | client/src/components/posts-manager/auth-context.tsx:116-150 | after mounting and start-up, signed in exactly when a complete session was remembered and its token validates |
| `PageControls.PageOr1` | src/components/posts-manager/posts-manager.tsx:130-131 | a missing or zero page number becomes 1, any other is kept |
| `PageControls.PreviousPage` | src/components/posts-manager/posts-list.tsx:193-202 | Previous requests page-1 exactly when the controls show and the page is not 1, and never goes below 1 from a page in range |
| `PageControls.NextPage` | src/components/posts-manager/posts-list.tsx:193-215 | Next requests page+1 exactly when the controls show and the page is not the last, and never goes above the last from a page in range |
| `PageControls.Click` | src/components/posts-manager/posts-list.tsx:193-213 | one click from a page in range lands in range |
| `PageControls.ClicksStayInRange` | src/components/posts-manager/posts-list.tsx:193-213 | any sequence of clicks from a page in range stays in `1..totalPages` |
| `PageControls.NextUnguardedPastLastPage` | src/components/posts-manager/posts-list.tsx:211-212 | a witness of the equality-only guard: from page 3 of 2 the Next button is enabled and requests page 4 |
| `PostsManager.PostStatus` | src/components/posts-manager/posts-manager.tsx:124 | 'published' exactly when `publishedAt` is truthy, else 'draft' |
| `PostsManager.TransformPost` | src/components/posts-manager/posts-manager.tsx:114-127 | the listed post is the item with only its status replaced |
| `PostsManager.TransformPosts` | src/components/posts-manager/posts-manager.tsx:114-129 | the transform keeps count and order |
| `PostsManager.TransformCategory` | src/components/posts-manager/posts-manager.tsx:145-153 | name is `text`; slug is the lower-cased, dashed `text` (no whitespace, no upper case); status is 'published' |
| `PostsManager.TransformCategories` | src/components/posts-manager/posts-manager.tsx:145-155 | the transform keeps count and order |
| `PostsManager.PostDataOf` | src/components/posts-manager/posts-manager.tsx:173-180 | a category is sent exactly when the form has a category id; the other fields are copied |
| `PostsManager.AfterPostsLoad` | src/components/posts-manager/posts-manager.tsx:110-134 | a successful load shows the transformed posts with page and page count defaulting to 1; any failure leaves the view as it was |
| `PostsManager.LoadWithoutMetaHidesPagination` | src/components/posts-manager/posts-manager.tsx:130-131 | a load without pagination meta shows page 1 of 1, so no pagination controls |
| `PostsManager.PostsManagerState.constructor` | src/components/posts-manager/posts-manager.tsx:101-105 | no posts or categories, not loading, page 1 of 1 |
| `PostsManager.PostsManagerState.LoadPostsData` | src/components/posts-manager/posts-manager.tsx:108-138 | one posts action; the view follows `AfterPostsLoad`; no error escapes; loading ends false |
| `PostsManager.PostsManagerState.LoadCategoriesData` | src/components/posts-manager/posts-manager.tsx:140-160 | one categories action; the transformed categories on success, the old list on failure |
| `PostsManager.PostsManagerState.InitialLoad` | src/components/posts-manager/posts-manager.tsx:163-168 | nothing when signed out; otherwise the first page without search, then the categories |
| `PostsManager.PostsManagerState.HandleCreatePost` | src/components/posts-manager/posts-manager.tsx:171-193 | success reloads page 1 once; failure re-throws the same error and changes nothing |
| `PostsManager.PostsManagerState.HandleUpdatePost` | src/components/posts-manager/posts-manager.tsx:195-215 | success reloads page 1 once; failure re-throws and changes nothing |
| `PostsManager.PostsManagerState.HandleDeletePost` | src/components/posts-manager/posts-manager.tsx:217-229 | no call at all unless confirmed; a reload only after a successful delete; nothing is thrown |
| `PostsManager.PostsManagerState.HandleTogglePublish` | src/components/posts-manager/posts-manager.tsx:231-248 | publish exactly when `publishedAt` is falsy, else unpublish; a reload only after success; nothing is thrown |
| `PostsManager.PostsManagerState.HandleCreateCategory` | src/components/posts-manager/posts-manager.tsx:250-266 | the category is created from the form's name; success reloads the categories once; failure re-throws |
| `PostsList.PageCall` | src/components/posts-manager/posts-list.tsx:193-213 | a pagination click loads a neighbouring page in range, with an empty search term, exactly when its button is shown and enabled |
| `PostsList.PostsListState.constructor` | src/components/posts-manager/posts-list.tsx:44-49 | no search term, every dialog closed, no post being edited, not submitting |
| `PostsList.PostsListState.SearchReload` | src/components/posts-manager/posts-list.tsx:52-58 | with a token, one load of page 1 with the current term; without one, none |
| `PostsList.PostsListState.ChangeSearchTerm` | src/components/posts-manager/posts-list.tsx:52-59 | the term changes and the search reload follows; the flags are untouched |
| `PostsList.PostsListState.HandleCreatePost` | src/components/posts-manager/posts-list.tsx:61-69 | the create dialog closes only on success; a failure propagates; submitting ends false |
| `PostsList.PostsListState.HandleUpdatePost` | src/components/posts-manager/posts-list.tsx:71-81 | nothing without a post being edited; success closes the dialog and forgets the post; submitting ends false |
| `PostsList.PostsListState.HandleEditPost` | src/components/posts-manager/posts-list.tsx:83-86 | the post is remembered and the edit dialog opens |
| `PostsList.PostsListState.HandleCreateCategory` | src/components/posts-manager/posts-list.tsx:88-97 | success closes the dialog and reloads categories; failure does neither and propagates; submitting ends false |
| `PostsList.EditThenUpdate` | src/components/posts-manager/posts-list.tsx:71-86 | editing then a successful update sends one update for that post and leaves no dialog, no edited post and nothing submitting |
| `PostForm.CategoryIdOf` | src/components/posts-manager/post-form.tsx:41-46 | the category's numeric id as text, else its `documentId`, else "" |
| `PostForm.CategoryIdReadsBack` | src/components/posts-manager/post-form.tsx:43 | a pre-filled numeric category id is all digits and reads back as the same number |
| `PostForm.Prefilled` | src/components/posts-manager/post-form.tsx:38-67 | an edited post's title, slug, category id, and description and content or ""; no post gives the all-empty form |
| `PostForm.PostFormState.constructor` | src/components/posts-manager/post-form.tsx:29-36 | the form starts all empty with no image |
| `PostForm.PostFormState.Prefill` | src/components/posts-manager/post-form.tsx:38-67 | the form becomes the pre-filled fields of the post, or the empty form |
| `PostForm.PostFormState.HandleTitleChange` | src/components/posts-manager/post-form.tsx:69-72 | exactly the title and the slug derived from it change |
| `PostForm.PostFormState.SetSlug` | src/components/posts-manager/post-form.tsx:98 | only the slug changes |
| `PostForm.PostFormState.SetDescription` | src/components/posts-manager/post-form.tsx:109 | only the description changes |
| `PostForm.PostFormState.SetContent` | src/components/posts-manager/post-form.tsx:127 | only the content changes |
| `PostForm.PostFormState.SetCategoryId` | src/components/posts-manager/post-form.tsx:148-150 | only the category id changes |
| `PostForm.PostFormState.HandleSubmit` | src/components/posts-manager/post-form.tsx:74-77 | the current fields are handed over unchanged and a failure is passed on |
| `PostForm.TitleGivesStableSlug` | src/components/posts-manager/post-form.tsx:69-72 | after a title change the slug is one that deriving again would not change |
| `CategoryForm.CategoryFormState.constructor` | client/src/components/posts-manager/category-form.tsx:20-23 | the form starts with empty name and slug |
| `CategoryForm.CategoryFormState.HandleNameChange` | client/src/components/posts-manager/category-form.tsx:25-28 | the name and the slug derived from it (only a-z, 0-9 and '-') |
| `CategoryForm.CategoryFormState.SetSlug` | client/src/components/posts-manager/category-form.tsx:55 | only the slug changes |
| `CategoryForm.CategoryFormState.HandleSubmit` | client/src/components/posts-manager/category-form.tsx:30-35 | the fields are handed over; the form is cleared only after success and kept when submission throws |
| `ContentManager.FallbackContentTypesFacts` | src/data/services/content-manager.ts:98-103 | the fallback has four types with distinct uids, and only Global is a single type |
| `ContentManager.FilterText` | src/data/services/content-manager.ts:127 | `toString` fails exactly on null (and undefined) |
| `ContentManager.OptionParamsPresent` | src/data/services/content-manager.ts:118-121 | page and pageSize are appended exactly when given and non-zero, sort and populate exactly when given and non-empty, each with its value as text |
| `ContentManager.OptionParamsInOrder` | src/data/services/content-manager.ts:118-121 | every optional parameter is page, pageSize, sort or populate, each at most once and in that order |
| `ContentManager.FilterParams` | src/data/services/content-manager.ts:124-130 | at most one parameter per filter entry |
| `ContentManager.KeptEntries` | src/data/services/content-manager.ts:126 | an entry is kept exactly when its value is neither undefined nor '' |
| `ContentManager.FilterParamsFailsOnNull` | src/data/services/content-manager.ts:124-129 | building the filters throws exactly when some entry is null |
| `ContentManager.FilterParamsAreKeptEntries` | src/data/services/content-manager.ts:124-129 | without nulls, one `filters[key][$containsi]=String(value)` per kept entry, in entry order |
| `ContentManager.FilterErrorPersists` | src/data/services/content-manager.ts:125-129 | once an entry throws, later entries do not change the outcome |
| `ContentManager.QueryString` | src/data/services/content-manager.ts:132 | the query string is empty exactly when no parameter was appended |
| `ContentManager.ItemsUrlHasQueryMark` | src/data/services/content-manager.ts:132 | the listing URL contains '?' exactly when some parameter was appended |
| `ContentManager.BuildSearchParams` | src/data/services/content-manager.ts:116-130 | the loop appends page, pageSize, sort and populate when truthy, then the kept filters in order, or stops with the error of a null filter |
| `ContentManager.ContentManagerService.constructor` | src/data/services/content-manager.ts:39 | the service starts with no token |
| `ContentManager.ContentManagerService.SetToken` | src/data/services/content-manager.ts:41-43 | the token becomes the given string |
| `ContentManager.ContentManagerService.Headers` | src/data/services/content-manager.ts:45-55 | always the JSON content type, plus `Authorization: Bearer <token>` exactly when the token is non-null and non-empty |
| `ContentManager.ContentManagerService.Login` | src/data/services/content-manager.ts:58-80 | a 2xx stores `data.jwt` and returns the body; a non-2xx throws 'Login failed'; any failure keeps the token |
| `ContentManager.ContentManagerService.GetContentTypes` | src/data/services/content-manager.ts:83-105 | never throws: `data.data` or `[]` on 2xx, the fixed fallback otherwise |
| `ContentManager.ContentManagerService.GetContentItems` | src/data/services/content-manager.ts:108-147 | one GET to the listing URL with the current headers; the body on 2xx; `Failed to fetch <type>` otherwise; a null filter throws before sending |
| `ContentManager.ContentManagerService.ItemCall` | src/data/services/content-manager.ts:150-262 | one request per item operation; the body on 2xx; `Failed to <verb> <type> item` on a non-2xx |
| `Utils.ConfiguredURL` | src/lib/utils.ts:9 | the public variable, else the server variable, else `http://localhost:1337`; "" counts as unset |
| `Utils.WithScheme` | src/lib/utils.ts:10-13 | a URL starting with http:// or https:// is kept, any other gets https:// in front; the result always has a scheme |
| `Utils.WithSchemeIdempotent` | src/lib/utils.ts:10-13 | applying the scheme rule twice is applying it once |
| `Utils.GetStrapiURL` | src/lib/utils.ts:8-14 | the base URL always starts with http:// or https:// |
| `Utils.GetStrapiURLIsFixed` | src/lib/utils.ts:10-13 | the scheme rule leaves the base URL unchanged |
| `Utils.GetStrapiMedia` | src/lib/utils.ts:16-21 | null stays null; URLs starting with data:, http or // are kept; any other is the base URL followed by the URL |
| `Utils.GetStrapiMediaIdempotent` | src/lib/utils.ts:17-20 | resolving a resolved media URL again changes nothing |
| `MobileContentManager.ItemsQuery` | src/components/custom/mobile-content-manager.tsx:84-92 | the listing query is the page (unless 0), pageSize 10, populate *, and the title filter exactly when searching; it never throws |
| `MobileContentManager.MobileContentManagerState.constructor` | src/components/custom/mobile-content-manager.tsx:33-46 | signed out, nothing listed, page 1 of 1, not busy |
| `MobileContentManager.MobileContentManagerState.LoadContentTypes` | src/components/custom/mobile-content-manager.tsx:66-76 | the service's types are shown and the first one is selected exactly when there is one |
| `MobileContentManager.MobileContentManagerState.HandleLogin` | src/components/custom/mobile-content-manager.tsx:49-63 | success signs in, loads the types with the new token and selects the first type's uid when there is one; failure leaves the screen and token as they were; the busy flag ends false |
| `MobileContentManager.MobileContentManagerState.LoadContentItems` | src/components/custom/mobile-content-manager.tsx:79-102 | nothing for an empty type; otherwise one listing of the page with the current term; success shows its items at that page with `pageCount` or 1 pages; failure keeps the items and paging; loading ends false; session, types, selection and term unchanged |
| `MobileContentManager.MobileContentManagerState.SelectedTypeChanged` | src/components/custom/mobile-content-manager.tsx:134-138 | nothing without a selection; otherwise one listing of page 1 with the current term and its outcome as for any listing; session, types, selection and term unchanged |
| `MobileContentManager.MobileContentManagerState.ChangeSearchTerm` | src/components/custom/mobile-content-manager.tsx:140-148 | the term changes; with a selection, page 1 is listed with the new term and its outcome shown; without one, nothing else changes; session, types and selection unchanged |
| `MobileContentManager.MobileContentManagerState.HandleDelete` | src/components/custom/mobile-content-manager.tsx:105-115 | nothing unless confirmed; one delete; only after it succeeds is the current page listed again with the current term, with that listing's outcome; session, types, selection and term unchanged |
| `MobileContentManager.MobileContentManagerState.HandlePublishToggle` | src/components/custom/mobile-content-manager.tsx:118-131 | unpublish exactly when `isPublished`, else publish; only after success is the current page listed again with the current term; session, types, selection and term unchanged |
| `MobileContentManager.MobileContentManagerState.ToggleItem` | src/components/custom/mobile-content-manager.tsx:311 | an item with a truthy `publishedAt` is unpublished, any other published; the current page is listed again with the current term only after a 2xx, otherwise nothing changes |
| `MobileContentManager.MobileContentManagerState.SignOut` | src/components/custom/mobile-content-manager.tsx:219-222 | signed out and the token is "", so the headers no longer carry a bearer token; every other field is unchanged |
| `MobileContentManager.MobileContentManagerState.GoPrevious` | src/components/custom/mobile-content-manager.tsx:352-360 | nothing when Previous is hidden or disabled or no type is selected; otherwise page-1, within `1..totalPages` from a page in range, is listed with the current term |
| `MobileContentManager.MobileContentManagerState.GoNext` | src/components/custom/mobile-content-manager.tsx:366-374 | nothing when Next is hidden or disabled or no type is selected; otherwise page+1, within `1..totalPages` from a page in range, is listed with the current term |

## Left out

- `fetch` and `response.json()` are not modelled. A reply is an input that is either a parsed body or a thrown error. Bodies of unexpected shape, such as a non-array `results`, are not modelled.
- `localStorage` is not modelled as a platform API. It is a map field of the session store.
- The confirmation dialog is not modelled. It is a boolean input.
- Toasts and console logging are not modelled. They do not affect state.
- The CMS base URL is not modelled as part of a request. Request paths are relative to it. `Utils.GetStrapiURL` models how it is chosen.
- ContentManager.QueryString: percent-encoding by `URLSearchParams` is not modelled. Keys and values are joined as they are.
- AuthContext.AdminLogin: a 2xx reply whose `data` is present but has no `token` returns `undefined` in the program; the model treats a missing token like a missing `data` (an error), because tokens are strings here.
- ContentManager.FilterText: filter values other than undefined, null, strings, integers and booleans are not modelled, nor the NaN and fractional renderings of numbers.
- ContentManager.OptionParams: a NaN page or page size, which is also falsy, is not modelled, because numbers are integers here.
- `parseInt` of the category id in the posts manager is not modelled. The id string is recorded as it is handed over.
- The server actions under `src/data/actions/` are not part of this model. Their outcomes are inputs.
- `uploadFile` of the content-manager service is not modelled. It sends multipart form data, which is outside this model.
- Debounce timers, overlapping requests that resolve out of order, and effect cancellation are not modelled. They are timing concerns. Each effect is a method that runs to completion.
- The `loading`, `authLoading` and `isSubmitting` flags are true while a call is awaited. The model cannot observe that intermediate state. It states that each flag is false when the handler returns.
- Content-type `attributes` schemas and the `image` file of the post form are carried, or left out, as opaque data.
- `toLowerCase` and `\s` cover ASCII only. Unicode case mapping is not modelled.

The remaining modules are not part of this model:

- the markdown editor and viewer;
- the SDK wrapper;
- the API-token service;
- the route handlers;
- the mock `simple-content-manager`;
- layouts and presentational components.
