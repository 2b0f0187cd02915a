/** The top-level view (frontend/src/components/App.js): its own copy of the
    selected category and the sort order, the handlers that change them, the
    optimistic add-post flow, and the routing that derives the category token
    from the URL. */
module App {
  import opened Board

  /** How a server reply to `addPost` is read: a reply without an `id` is an
      insertion failure, which is only logged. */
  datatype AddPostOutcome = Inserted | InsertionFailed

  function ClassifyAddPostReply(reply: Post): (o: AddPostOutcome)
    ensures o == InsertionFailed <==> reply.id.None?
  {
    if reply.id.Some? then Inserted else InsertionFailed
  }

  /** The router's `<Switch>`: both `/` and `/:category` render the same view
      (with the `category` parameter absent or present); any other path
      redirects to `/`. A path is its sequence of segments, `/` being []. */
  datatype RouteOutcome = Render(categoryParam: Option<string>) | RedirectToRoot

  function Route(path: seq<string>): (r: RouteOutcome)
    ensures r.Render? <==> |path| <= 1
    ensures r.Render? ==> (r.categoryParam.Some? <==> |path| == 1)
    ensures r.Render? && |path| == 1 ==> r.categoryParam.value == path[0]
  {
    if |path| == 0 then Render(None)
    else if |path| == 1 then Render(Some(path[0]))
    else RedirectToRoot
  }

  /** `matchedCategory` in `doRoute`: the `category` parameter when it is
      truthy (present and not empty), otherwise the sentinel 'all'. */
  function MatchedCategory(categoryParam: Option<string>): (token: string)
    ensures token != ""
    ensures categoryParam.Some? && categoryParam.value != "" ==> token == categoryParam.value
    ensures categoryParam.None? || categoryParam == Some("") ==> token == "all"
  {
    if categoryParam.Some? && categoryParam.value != "" then categoryParam.value else "all"
  }

  /** The token the view finally renders with for a path, after following the
      router's redirect when there is one. */
  function RouteToken(path: seq<string>): (token: string)
  {
    match Route(path)
    case Render(param) => MatchedCategory(param)
    case RedirectToRoot => MatchedCategory(Route([]).categoryParam)
  }

  /** Every path yields the single non-empty segment it names, or 'all'. */
  lemma RouteTokenIsSegmentOrAll(path: seq<string>)
    ensures RouteToken(path) == if |path| == 1 && path[0] != "" then path[0] else "all"
  {
  }

  /** The root path always renders the 'all' token. */
  lemma RootRendersAll()
    ensures Route([]) == Render(None) && RouteToken([]) == "all"
  {
  }

  /** Props `doRoute` hands to the category menu and the post list. */
  datatype RouteProps = RouteProps(selectedCategory: string, matchedCategory: string, sortOrder: string)

  class AppView {
    var selectedCategory: string
    var sortOrder: string

    /** The initial `state`. */
    constructor ()
      ensures selectedCategory == "all" && sortOrder == "voteScore"
    {
      selectedCategory := "all";
      sortOrder := "voteScore";
    }

    /** `changeCategory(category)`: refetch categories and posts and select
        `category` in this component's copy; the order is kept. */
    method ChangeCategory(category: string) returns (fx: seq<Effect>)
      modifies this
      ensures selectedCategory == category && sortOrder == old(sortOrder)
      ensures fx == [Call(GetAllCategories), Call(GetAllPosts)]
    {
      fx := [Call(GetAllCategories), Call(GetAllPosts)];
      selectedCategory := category;
    }

    /** `changeOrder(order)`: only the order changes. */
    method ChangeOrder(order: string)
      modifies this
      ensures sortOrder == order && selectedCategory == old(selectedCategory)
    {
      sortOrder := order;
    }

    /** `addNewPost(post)` with the server's `reply`: the post is dispatched to
        the store before the server call, and the emitted effects are the same
        whatever the reply; a reply without an id is only classified as a
        failure, with no rollback. The state is left as it was. */
    method AddNewPost(post: Post, reply: Post) returns (fx: seq<Effect>, outcome: AddPostOutcome)
      ensures fx == [Dispatch(Action.AddNewPost(post)), Call(AddPost(post))]
      ensures outcome == InsertionFailed <==> reply.id.None?
    {
      fx := [Dispatch(Action.AddNewPost(post)), Call(AddPost(post))];
      outcome := ClassifyAddPostReply(reply);
    }

    /** `deletePost(post)`: a store dispatch and no server call. */
    method DeletePost(post: Post) returns (fx: seq<Effect>)
      ensures fx == [Dispatch(Action.DeletePost(post))]
      ensures forall e :: e in fx ==> !e.IsServerCall()
    {
      fx := [Dispatch(Action.DeletePost(post))];
    }

    /** `componentDidMount`: fetch categories and posts; the selection and the
        order are not touched (the method modifies nothing). */
    method ComponentDidMount() returns (fx: seq<Effect>)
      ensures fx == [Call(GetAllCategories), Call(GetAllPosts)]
    {
      fx := [Call(GetAllCategories), Call(GetAllPosts)];
    }

    /** `doRoute`: the props of the routed view for a category parameter. */
    function DoRoute(categoryParam: Option<string>): (props: RouteProps)
      reads this
      ensures props.selectedCategory == selectedCategory && props.sortOrder == sortOrder
      ensures props.matchedCategory != ""
      ensures props.matchedCategory == "all" || categoryParam == Some(props.matchedCategory)
      ensures categoryParam.Some? && categoryParam.value != "" ==> props.matchedCategory == categoryParam.value
      ensures categoryParam.None? || categoryParam == Some("") ==> props.matchedCategory == "all"
    {
      RouteProps(selectedCategory, MatchedCategory(categoryParam), sortOrder)
    }
  }
}
