# Discussion-board client: view-state model

A Dafny model of the view-state logic of a React/Redux discussion-board client.
In the client, users browse posts by category, open a post to read its comments,
and add, edit and delete comments. Three components hold all of this logic, and
each is modelled as a state machine. Network calls and store dispatches are
emitted as `Effect` values: `Dispatch(action)`, `Call(request)` or
`Navigate(path)`. Nothing is performed.

- `board.dfy` (module `Board`): the records the components exchange (`Category`,
  `Post`, `Comment`), the actions, requests and effects, and `Find`, the first
  element of a sequence that satisfies a test (`Array.prototype.find`). A
  JavaScript object is a record whose optional `id` / `parentId` is an `Option`.
  The empty object `{}` is `EmptyPost` or `EmptyComment`.
- `post_details.dfy` (module `PostDetails`): the comment-detail view.
  - Pure functions: the displayed comment list (filter by `parentId`, then sort
    descending by the key the sort order names) and the editor's add-or-update
    routing.
  - The class `PostDetailsView` holds the fields `currentPost`, `currentComment`,
    `editModalOpen` and `deleteModalOpen`. Its methods are the modal handlers and
    the mount and update steps, and they return the effects they emit.
  - `Valid()` states that `currentPost` is always an object. Every method keeps
    it.
- `app.dfy` (module `App`): the top-level view.
  - The class `AppView` holds the view's own copy of `selectedCategory` and
    `sortOrder`, with their handlers, the optimistic add-post flow, post
    deletion and the mount step.
  - Pure functions: the routing (`/` and `/:category` render the same view, any
    other path redirects to `/`) and the derivation of the category token, which
    defaults to `'all'`.
- `category_menu.dfy` (module `CategoryMenu`): the stateless category menu.
  - The reconciliation run when the categories change. It selects the URL token
    when the token is `'all'` or exactly some category's path, and otherwise
    navigates to `/`.
  - The click handler and the active-item rule.
- `navigation.dfy` (module `Navigation`): lemmas that join the router's token
  derivation to the menu's reconciliation.

There are two copies of the selected category, and they are separate values
here.
- `AppView.selectedCategory` is the top-level component's state.
- The `selectedCategory` argument of `CategoryMenu.ComponentDidUpdate` and
  `CategoryMenu.Menu` is the store's copy. The menu's store mapping overrides
  the prop the top-level view passes in.
- The menu dispatches the store's `changeCategory` and never calls the
  top-level view's `changeCategory` handler (App.js:85 passes it as
  `onChangeCategory`, which CategoryMenu.js never reads).

"The categories changed" is React's reference test on the array. The
`CategoryList` datatype models it with a reference number `ref`, so a refetch
with equal contents still triggers the check (`EqualContentsStillReconcile`).

Two consequences of the code are worth stating.
- Validation runs when the categories reference changes and the store's
  selection differs from the URL token (CategoryMenu.js:14). An empty fetched
  collection then redirects any token other than `'all'`.
- The not-found message (PostDetails.js:158) is never rendered; see Findings.

## Model

| member | source | states |
|---|---|---|
| `Board.Find` | frontend/src/components/PostDetails.js:67 | The result is the element at the least index that satisfies the test. It is absent exactly when no element does. |
| `PostDetails.SortDescending` | frontend/src/components/PostDetails.js:89 | The sort yields a permutation (equal multisets) of its input in non-increasing order of the sort key. |
| `PostDetails.Insert` | frontend/src/components/PostDetails.js:89 | Inserting into a non-increasing list keeps it non-increasing and adds exactly one copy of the comment. |
| `PostDetails.CommentsOf` | frontend/src/components/PostDetails.js:88 | The parent filter keeps each comment as often as the store holds it when its `parentId` equals the post id, and drops it otherwise. |
| `PostDetails.SortedComments` | frontend/src/components/PostDetails.js:87-89 | The displayed comments are exactly those whose parent is the current post, with their multiplicities and in non-increasing key order. The store's list is an untouched value. |
| `PostDetails.SubmitEffect` | frontend/src/components/PostDetails.js:164-167 | Submitting dispatches `addNewComment(new)` iff the edited comment has no id. Otherwise it dispatches `updateComment(current, new)`. |
| `PostDetails.NewCommentDraft` | frontend/src/components/PostDetails.js:23 | The default draft has no id, and its `parentId` is the current post's id. |
| `PostDetails.DraftIsSubmittedAsNew` | frontend/src/components/PostDetails.js:164-167 | The draft that "add" and "reply" open is always submitted as a new comment. |
| `PostDetails.StoredCommentIsSubmittedAsUpdate` | frontend/src/components/PostDetails.js:52-56 | A comment that has an id is always submitted as an update of itself. |
| `PostDetails.FindPost` | frontend/src/components/PostDetails.js:67 | The found post is the first post in `posts` that carries the route's id. Nothing is found exactly when no post carries that id. |
| `PostDetails.BranchFor` | frontend/src/components/PostDetails.js:93 | The not-found branch is taken only for `undefined`. Every object, `{}` included, takes the post section. |
| `PostDetails.PostDetailsView.constructor` | frontend/src/components/PostDetails.js:16-21 | The initial state is `currentPost = {}` and `currentComment = {}`, with both modals closed. |
| `PostDetails.PostDetailsView.RenderedBranch` | frontend/src/components/PostDetails.js:93-158 | Under the invariant, the render always shows the post section. The not-found message is unreachable. |
| `PostDetails.PostDetailsView.DisplayedComments` | frontend/src/components/PostDetails.js:84-89 | The render lists exactly the comments of `currentPost`, each as often as the store holds it, in non-increasing key order. |
| `PostDetails.PostDetailsView.OpenEditCommentModal` | frontend/src/components/PostDetails.js:23-29 | The edit modal opens. The current comment becomes the given comment, or with no argument the draft `{parentId: currentPost.id}`. The delete flag and the post are unchanged. |
| `PostDetails.PostDetailsView.CloseEditCommentModal` | frontend/src/components/PostDetails.js:31-36 | Only the edit flag is cleared, and the current comment is reset to `{}`. The delete flag and the post are unchanged. |
| `PostDetails.PostDetailsView.OpenDeleteModal` | frontend/src/components/PostDetails.js:38-43 | Only the delete flag and the current comment change. |
| `PostDetails.PostDetailsView.CloseDeleteModal` | frontend/src/components/PostDetails.js:45-50 | Only the delete flag is cleared, and the current comment is reset to `{}`. The edit flag and the post are unchanged. |
| `PostDetails.PostDetailsView.UpdateComment` | frontend/src/components/PostDetails.js:52-56 | Exactly one `updateComment(currentComment, new)` is dispatched, and the state is untouched. |
| `PostDetails.PostDetailsView.ChangeComment` | frontend/src/components/PostDetails.js:164-167 | Exactly one dispatch is emitted. It is an add iff the current comment is new, and otherwise an update through `UpdateComment`. |
| `PostDetails.PostDetailsView.HandleDeleteModalAction` | frontend/src/components/PostDetails.js:58-63 | Exactly one removal of the comment current before the call is emitted. The state then ends with the delete modal closed and the comment `{}`. |
| `PostDetails.PostDetailsView.ComponentDidMount` | frontend/src/components/PostDetails.js:65-72 | If the route's post is found, one comment fetch for it is emitted and it becomes `currentPost`. Otherwise nothing is emitted and nothing changes. |
| `PostDetails.PostDetailsView.ComponentDidUpdate` | frontend/src/components/PostDetails.js:74-81 | A fetch and a refresh happen only when the post is found and the number of posts changed. Otherwise nothing is emitted or changed. |
| `PostDetails.IntendedBranch` | frontend/src/components/PostDetails.js:158 | The not-found message is shown exactly when no post carries the route's id. |
| `PostDetails.MissingPostShowsPostSection` | frontend/src/components/PostDetails.js:93 | With no post for the route id, the view keeps `{}` and shows the post section, where the intended branch is the not-found message. |
| `App.ClassifyAddPostReply` | frontend/src/components/App.js:33-35 | A server reply counts as an insertion failure iff it has no `id`. |
| `App.Route` | frontend/src/components/App.js:65-69 | `/` and `/:category` render the same view, with the parameter absent or present. Every longer path redirects to `/`. |
| `App.MatchedCategory` | frontend/src/components/App.js:77 | The token is the parameter when it is truthy, and otherwise `'all'`. It is never empty. |
| `App.RouteTokenIsSegmentOrAll` | frontend/src/components/App.js:65-77 | After any redirect, every path renders with its single non-empty segment, or else with `'all'`. |
| `App.RootRendersAll` | frontend/src/components/App.js:66-77 | The root path renders with `'all'`. |
| `App.AppView.constructor` | frontend/src/components/App.js:12-15 | Initially `selectedCategory = 'all'` and `sortOrder = 'voteScore'`. |
| `App.AppView.ChangeCategory` | frontend/src/components/App.js:17-24 | Sets `selectedCategory` and keeps `sortOrder`. Emits one categories fetch and one posts fetch. |
| `App.AppView.ChangeOrder` | frontend/src/components/App.js:26-28 | Sets `sortOrder` and keeps `selectedCategory`. |
| `App.AppView.AddNewPost` | frontend/src/components/App.js:30-39 | The store dispatch comes before the server call. The effects are the same whatever the reply, so there is no rollback. The reply is a failure iff it lacks an id. |
| `App.AppView.DeletePost` | frontend/src/components/App.js:41-43 | Emits exactly one store dispatch and no server call. |
| `App.AppView.ComponentDidMount` | frontend/src/components/App.js:45-51 | Emits one categories fetch and one posts fetch, and changes no state. |
| `App.AppView.DoRoute` | frontend/src/components/App.js:74-94 | The routed view receives the view's own selection and order, and a category token that is the parameter when it is non-empty, and otherwise 'all'. |
| `CategoryMenu.CategoryWithPath` | frontend/src/components/CategoryMenu.js:15 | The match is the first category whose path equals the token. There is none exactly when no path equals it. |
| `CategoryMenu.IsValidToken` | frontend/src/components/CategoryMenu.js:15 | A token is valid iff it is `'all'` or exactly equals some category's path. |
| `CategoryMenu.ComponentDidUpdate` | frontend/src/components/CategoryMenu.js:12-24 | With an unchanged reference, or a selection equal to the token, nothing is emitted. Otherwise exactly one `changeCategory(token)` is emitted when the token is valid, and exactly one navigation to `/` when it is not. |
| `CategoryMenu.ReconcileDispatchesOnlyValidTokens` | frontend/src/components/CategoryMenu.js:14-22 | Every emitted effect is a dispatch of a valid token or the navigation to `/`. |
| `CategoryMenu.AllIsAlwaysValid` | frontend/src/components/CategoryMenu.js:15 | `'all'` is valid for every collection, the empty one included. |
| `CategoryMenu.NoPartialMatch` | frontend/src/components/CategoryMenu.js:15 | For any category, its exact path is a valid token, and any other token except `'all'` is not, whether a prefix, an extension or the category's name. |
| `CategoryMenu.EqualContentsStillReconcile` | frontend/src/components/CategoryMenu.js:14 | A new reference with equal contents still runs the reconciliation. |
| `CategoryMenu.Menu` | frontend/src/components/CategoryMenu.js:31-35 | The menu has an `'all'` item linking to `/`, then one item per category named by its path and linking to `/` + path. An item is active iff its name is the selection. |
| `CategoryMenu.AtMostOneActive` | frontend/src/components/CategoryMenu.js:32-34 | With distinct paths that are not `'all'`, at most one item is active. |
| `CategoryMenu.ActiveItemIffValidSelection` | frontend/src/components/CategoryMenu.js:32-34 | Some item is active exactly when the selection is a valid token. |
| `CategoryMenu.ClickDispatchesValidToken` | frontend/src/components/CategoryMenu.js:10 | A click on item i dispatches `'all'` for the first item and the category's path for the others. The dispatched token is always valid. |
| `Navigation.RedirectTargetIsStable` | frontend/src/components/CategoryMenu.js:14-21 | Once redirected to `/`, the reconciliation never redirects again, whatever the categories. |
| `Navigation.SegmentRedirectsIffUnknown` | frontend/src/components/CategoryMenu.js:14-21 | For a one-segment URL, the check redirects iff the segment is neither `'all'` nor a category path. It selects the segment otherwise. |
| `Navigation.UnknownCategoryRedirects` | frontend/src/components/CategoryMenu.js:15-21 | With only the 'reactjs' category, `/nonexistent` is sent to `/`. |
| `Navigation.KnownCategoryIsSelected` | frontend/src/components/CategoryMenu.js:15-19 | With only the 'reactjs' category, `/reactjs` selects 'reactjs'. |

## Findings

| source | as written | input that shows it | evidently intended | confidence | as-written member | corrected member |
|---|---|---|---|---|---|---|
| frontend/src/components/PostDetails.js:93 | The render tests `currentPost ?`. The state starts as `{}` (line 17), and mount and update replace it only with a post that was found, so the test is always true and line 158 is unreachable. | Open the detail view with a route id that no post in the store carries, for example id "7" with no posts loaded. Mount finds nothing, and the view shows the post section for `{}` with an empty comment list. | Show "Post não encontrado." when no post carries the route's id. | medium, not executed | `PostDetails.MissingPostShowsPostSection` (the client method `PostDetails.MissingPostScenario` calls it on a `PostDetailsView`: after mounting, the view keeps `{}` and `RenderedBranch()` is the post section) | `PostDetails.IntendedBranch` |

`PostDetailsView.RenderedBranch` keeps the behaviour as written, because the
class models the component. `IntendedBranch` is the corrected decision. No
other part of the model depends on which branch is rendered.

## Left out

- Store reducers and action creators are not part of this model. They are not
  shown, so the model does not state the store-side effect of any dispatched
  action. This covers the vote arithmetic, comment removal, and whether
  `deletePost` also removes the post's comments.
- Clicking the vote arrows (PostDetails.js:126-130) is left out. It is a single
  `voteComment` dispatch with no view-state logic, and its effect is
  store-side.
- The `fetchData` prop of the detail view is left out. It is declared but never
  called.
- Server calls are effect values only.
  - `Call(GetAllCategories)` and `Call(GetAllPosts)` stand for the call together
    with its continuation, which hands the reply to the store.
  - The ordering of overlapping replies, missing `.catch` handlers and promise
    timing are not modelled. They are concurrency and unhandled failure.
- Console logging, JSX markup, styling and `formatData` are left out. They are
  rendering and diagnostics.
- Store creation, router wiring and service-worker registration in `index.js`
  are left out. That file has no logic of its own.
- React lifecycle scheduling and react-redux prop merging are not modelled. The
  previous and current props are explicit inputs of the update steps, and the
  merge is reflected only in which copy of the selected category the menu
  reads.
- URL parsing is abstracted. A path is given as its sequence of segments, with
  `/` as the empty sequence. Trailing slashes and percent-encoding are not
  modelled.
- PostDetails.SortDescending: states a permutation in non-increasing key order,
  not stability among equal keys. It is an insertion sort that happens to be
  stable, and the `sort-by` library's internals are not modelled.
- PostDetails.SortKey: only the `voteScore` and `timestamp` fields are keys. Any
  other sort-order name makes every key equal, as comparing undefined fields
  does. String-valued sort fields are not modelled.
- Absent text and number fields of `{}` and of drafts are modelled as "" and 0.
  Only the presence of `id` and `parentId` affects the modelled logic.
