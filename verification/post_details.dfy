/** The comment-detail view of one post (frontend/src/components/PostDetails.js):
    the derived comment list, the add-or-update routing of the comment editor,
    and the view's own state (current post, current comment, two modal flags)
    as a class whose handlers return the effects they emit. */
module PostDetails {
  import opened Board

  // ---------------------------------------------------------------------------
  // The derived comment list: filter by parent, then sort descending by a key.
  // ---------------------------------------------------------------------------

  /** The value `sortBy('-' + sortOrder)` compares: the comment field named by
      the sort order. A field name the comments do not carry leaves every key
      equal (undefined), which is 0 here. */
  function SortKey(c: Comment, sortOrder: string): (key: int)
  {
    if sortOrder == "voteScore" then c.voteScore
    else if sortOrder == "timestamp" then c.timestamp
    else 0
  }

  /** Every comment's key is at least that of every comment after it. */
  predicate NonIncreasing(s: seq<Comment>, sortOrder: string)
  {
    forall i, j :: 0 <= i < j < |s| ==> SortKey(s[j], sortOrder) <= SortKey(s[i], sortOrder)
  }

  /** Prepending a comment whose key bounds every later key keeps the order. */
  lemma PrependKeepsOrder(h: Comment, t: seq<Comment>, sortOrder: string)
    requires NonIncreasing(t, sortOrder)
    requires forall x :: x in t ==> SortKey(x, sortOrder) <= SortKey(h, sortOrder)
    ensures NonIncreasing([h] + t, sortOrder)
  {
  }

  /** Every comment of a rearrangement of `t` plus `c` has a key bounded by
      any bound on the keys of `t` and of `c`. */
  lemma BoundCarriesOver(rest: seq<Comment>, t: seq<Comment>, c: Comment, bound: int, sortOrder: string)
    requires multiset(rest) == multiset(t) + multiset{c}
    requires forall x :: x in t ==> SortKey(x, sortOrder) <= bound
    requires SortKey(c, sortOrder) <= bound
    ensures forall x :: x in rest ==> SortKey(x, sortOrder) <= bound
  {
    forall x | x in rest ensures SortKey(x, sortOrder) <= bound {
      assert x in multiset(rest);
      if x != c {
        assert x in multiset(t);
      }
    }
  }

  /** Places `c` before the first comment whose key does not exceed its own. */
  function Insert(c: Comment, s: seq<Comment>, sortOrder: string): (r: seq<Comment>)
    requires NonIncreasing(s, sortOrder)
    ensures NonIncreasing(r, sortOrder)
    ensures multiset(r) == multiset(s) + multiset{c}
  {
    if s == [] then [c]
    else if SortKey(s[0], sortOrder) <= SortKey(c, sortOrder) then
      PrependKeepsOrder(c, s, sortOrder);
      [c] + s
    else
      var t := s[1..];
      assert s == [s[0]] + t;
      var rest := Insert(c, t, sortOrder);
      assert forall x :: x in t ==> SortKey(x, sortOrder) <= SortKey(s[0], sortOrder) by {
        forall x | x in t ensures SortKey(x, sortOrder) <= SortKey(s[0], sortOrder) {
          var k :| 0 <= k < |t| && t[k] == x;
          assert s[k + 1] == x;
        }
      }
      BoundCarriesOver(rest, t, c, SortKey(s[0], sortOrder), sortOrder);
      PrependKeepsOrder(s[0], rest, sortOrder);
      [s[0]] + rest
  }

  /** The descending sort `.sort(sortBy('-' + sortOrder))`: a permutation of
      its input in non-increasing key order. */
  function SortDescending(s: seq<Comment>, sortOrder: string): (r: seq<Comment>)
    ensures NonIncreasing(r, sortOrder)
    ensures multiset(r) == multiset(s)
  {
    if s == [] then []
    else
      assert s == [s[0]] + s[1..];
      Insert(s[0], SortDescending(s[1..], sortOrder), sortOrder)
  }

  /** `comments.filter(c => c.parentId === postId)`: each comment keeps its
      multiplicity when its parent is `postId` and is dropped otherwise. */
  function CommentsOf(comments: seq<Comment>, postId: Option<Id>): (r: seq<Comment>)
    ensures forall c :: multiset(r)[c] == if c.parentId == postId then multiset(comments)[c] else 0
  {
    if comments == [] then []
    else
      assert comments == [comments[0]] + comments[1..];
      var rest := CommentsOf(comments[1..], postId);
      if comments[0].parentId == postId then [comments[0]] + rest else rest
  }

  /** `sortedComments` (render): exactly the comments whose parent is the
      current post, each as often as in the store, in non-increasing order of
      the sort key. The store's sequence is a value and is left as it was. */
  function SortedComments(comments: seq<Comment>, postId: Option<Id>, sortOrder: string): (r: seq<Comment>)
    ensures NonIncreasing(r, sortOrder)
    ensures forall c :: multiset(r)[c] == if c.parentId == postId then multiset(comments)[c] else 0
    ensures forall c :: c in r <==> c in comments && c.parentId == postId
  {
    var r := SortDescending(CommentsOf(comments, postId), sortOrder);
    assert forall c :: c in r <==> c in multiset(r);
    assert forall c :: c in comments <==> c in multiset(comments);
    r
  }

  // ---------------------------------------------------------------------------
  // Routing of the comment editor's submit.
  // ---------------------------------------------------------------------------

  /** `isNewComment`: the comment has no own `id` property. */
  predicate IsNewComment(c: Comment)
  {
    c.id.None?
  }

  /** `onChangeComment` applied to the edited comment: a comment without an id
      is created with `addNewComment`, one with an id is replaced through
      `updateComment(currentComment, newComment)`. */
  function SubmitEffect(current: Comment, newComment: Comment): (e: Effect)
    ensures e.Dispatch?
    ensures IsNewComment(current) <==> e.action.AddNewComment?
    ensures IsNewComment(current) ==> e.action.comment == newComment
    ensures !IsNewComment(current) ==> e.action == UpdateComment(current, newComment)
  {
    if current.id.Some? then Dispatch(UpdateComment(current, newComment))
    else Dispatch(AddNewComment(newComment))
  }

  /** The draft `{ parentId: currentPost.id }` that the editor opens with when
      no comment is given. */
  function NewCommentDraft(parent: Option<Id>): (d: Comment)
    ensures IsNewComment(d) && d.parentId == parent
  {
    Comment(None, parent, "", "", 0, 0)
  }

  /** Submitting a fresh draft creates a comment, whatever its parent. */
  lemma DraftIsSubmittedAsNew(parent: Option<Id>, newComment: Comment)
    ensures SubmitEffect(NewCommentDraft(parent), newComment) == Dispatch(AddNewComment(newComment))
  {
  }

  /** Submitting while editing a stored comment (it has an id) updates it. */
  lemma StoredCommentIsSubmittedAsUpdate(stored: Comment, newComment: Comment)
    requires stored.id.Some?
    ensures SubmitEffect(stored, newComment) == Dispatch(UpdateComment(stored, newComment))
  {
  }

  // ---------------------------------------------------------------------------
  // Finding the post named by the route.
  // ---------------------------------------------------------------------------

  /** `posts.find(p => p.id === match.params.id)`. */
  function FindPost(posts: seq<Post>, routeId: Id): (r: Option<Post>)
    ensures r.Some? ==> r.value in posts && r.value.id == Some(routeId)
    ensures r.None? <==> forall p :: p in posts ==> p.id != Some(routeId)
    ensures forall i :: 0 <= i < |posts| && posts[i].id == Some(routeId) && (forall j :: 0 <= j < i ==> posts[j].id != Some(routeId)) ==>
              r == Some(posts[i])
  {
    Find(posts, (p: Post) => p.id == Some(routeId))
  }

  // ---------------------------------------------------------------------------
  // The view's state.
  // ---------------------------------------------------------------------------

  /** A JavaScript value that is either `undefined` or an object holding a post. */
  datatype PostValue = Undefined | Object(post: Post)

  /** Which of the two branches of the render's `currentPost ? … : …` is shown. */
  datatype Branch = PostSection | NotFoundMessage

  /** The render test as written: every object, `{}` included, is truthy. */
  function BranchFor(current: PostValue): (b: Branch)
    ensures b == NotFoundMessage <==> current == Undefined
  {
    if current.Object? then PostSection else NotFoundMessage
  }

  class PostDetailsView {
    var currentPost: PostValue
    var currentComment: Comment
    var editModalOpen: bool
    var deleteModalOpen: bool

    /** `currentPost` is always an object: it starts as `{}` and is only ever
        replaced by a post that was found. */
    ghost predicate Valid()
      reads this
    {
      currentPost.Object?
    }

    /** The initial `state`. */
    constructor ()
      ensures Valid()
      ensures currentPost == Object(EmptyPost) && currentComment == EmptyComment
      ensures !editModalOpen && !deleteModalOpen
    {
      currentPost := Object(EmptyPost);
      currentComment := EmptyComment;
      editModalOpen := false;
      deleteModalOpen := false;
    }

    /** The render branch shown for the current state. */
    function RenderedBranch(): (b: Branch)
      reads this
      requires Valid()
      ensures b == PostSection
    {
      BranchFor(currentPost)
    }

    /** The comments the render lists for the current post. */
    function DisplayedComments(comments: seq<Comment>, sortOrder: string): (r: seq<Comment>)
      reads this
      requires Valid()
      ensures forall c :: c in r <==> c in comments && c.parentId == currentPost.post.id
      ensures forall c :: multiset(r)[c] == if c.parentId == currentPost.post.id then multiset(comments)[c] else 0
      ensures NonIncreasing(r, sortOrder)
    {
      SortedComments(comments, currentPost.post.id, sortOrder)
    }

    /** `openEditCommentModal(comment)`; `None` is the call without argument,
        which opens a new draft under the current post. */
    method OpenEditCommentModal(comment: Option<Comment>)
      requires Valid()
      modifies this
      ensures Valid()
      ensures editModalOpen
      ensures currentComment == match comment
                                case Some(c) => c
                                case None => NewCommentDraft(old(currentPost).post.id)
      ensures deleteModalOpen == old(deleteModalOpen) && currentPost == old(currentPost)
    {
      editModalOpen := true;
      currentComment := match comment
                        case Some(c) => c
                        case None => NewCommentDraft(currentPost.post.id);
    }

    /** `closeEditCommentModal`. */
    method CloseEditCommentModal()
      requires Valid()
      modifies this
      ensures Valid()
      ensures !editModalOpen && currentComment == EmptyComment
      ensures deleteModalOpen == old(deleteModalOpen) && currentPost == old(currentPost)
    {
      editModalOpen := false;
      currentComment := EmptyComment;
    }

    /** `openDeleteModal(comment)`. */
    method OpenDeleteModal(comment: Comment)
      requires Valid()
      modifies this
      ensures Valid()
      ensures deleteModalOpen && currentComment == comment
      ensures editModalOpen == old(editModalOpen) && currentPost == old(currentPost)
    {
      deleteModalOpen := true;
      currentComment := comment;
    }

    /** `closeDeleteModal`, the deletion dialog's cancel. */
    method CloseDeleteModal()
      requires Valid()
      modifies this
      ensures Valid()
      ensures !deleteModalOpen && currentComment == EmptyComment
      ensures editModalOpen == old(editModalOpen) && currentPost == old(currentPost)
    {
      deleteModalOpen := false;
      currentComment := EmptyComment;
    }

    /** `updateComment(newComment)`: replace the comment being edited. */
    method UpdateComment(newComment: Comment) returns (fx: seq<Effect>)
      ensures fx == [Dispatch(Action.UpdateComment(currentComment, newComment))]
    {
      fx := [Dispatch(Action.UpdateComment(currentComment, newComment))];
    }

    /** The editor's `onChangeComment(newComment)`: routed by whether the
        comment being edited has an id. */
    method ChangeComment(newComment: Comment) returns (fx: seq<Effect>)
      ensures fx == [SubmitEffect(currentComment, newComment)]
      ensures |fx| == 1 && (fx[0].action.AddNewComment? <==> IsNewComment(currentComment))
    {
      if currentComment.id.Some? {
        fx := UpdateComment(newComment);
      } else {
        fx := [Dispatch(AddNewComment(newComment))];
      }
    }

    /** `handleDeleteModalAction`, the deletion dialog's confirm: remove the
        current comment, then close the dialog. */
    method HandleDeleteModalAction() returns (fx: seq<Effect>)
      requires Valid()
      modifies this
      ensures Valid()
      ensures fx == [Dispatch(RemoveComment(old(currentComment)))]
      ensures !deleteModalOpen && currentComment == EmptyComment
      ensures editModalOpen == old(editModalOpen) && currentPost == old(currentPost)
    {
      fx := [Dispatch(RemoveComment(currentComment))];
      CloseDeleteModal();
    }

    /** `componentDidMount`: when the route's post is found, fetch its comments
        and make it the current post; otherwise do nothing. */
    method ComponentDidMount(posts: seq<Post>, routeId: Id) returns (fx: seq<Effect>)
      requires Valid()
      modifies this
      ensures Valid()
      ensures match FindPost(posts, routeId)
              case Some(p) => fx == [Dispatch(FetchPostComments(p))] && currentPost == Object(p)
              case None => fx == [] && currentPost == old(currentPost)
      ensures currentComment == old(currentComment)
      ensures editModalOpen == old(editModalOpen) && deleteModalOpen == old(deleteModalOpen)
    {
      fx := [];
      var found := FindPost(posts, routeId);
      if found.Some? {
        fx := [Dispatch(FetchPostComments(found.value))];
        currentPost := Object(found.value);
      }
    }

    /** `componentDidUpdate(prevProps)`: re-fetch and refresh the current post
        only when the post is found and the number of posts changed. */
    method ComponentDidUpdate(prevPosts: seq<Post>, posts: seq<Post>, routeId: Id) returns (fx: seq<Effect>)
      requires Valid()
      modifies this
      ensures Valid()
      ensures match FindPost(posts, routeId)
              case Some(p) =>
                if |prevPosts| != |posts| then fx == [Dispatch(FetchPostComments(p))] && currentPost == Object(p)
                else fx == [] && currentPost == old(currentPost)
              case None => fx == [] && currentPost == old(currentPost)
      ensures currentComment == old(currentComment)
      ensures editModalOpen == old(editModalOpen) && deleteModalOpen == old(deleteModalOpen)
    {
      fx := [];
      var found := FindPost(posts, routeId);
      if found.Some? && |prevPosts| != |posts| {
        fx := [Dispatch(FetchPostComments(found.value))];
        currentPost := Object(found.value);
      }
    }
  }

  /** A client of the view: a reply opens a new draft that is submitted as
      new; editing a stored comment submits an update; confirming a deletion
      removes that comment and closes the dialog. */
  method CommentEditingScenario(stored: Comment, edited: Comment)
    requires stored.id.Some?
  {
    var post := Post(Some("1"), "t", "b", "a", "reactjs", 0, 3, 1);
    var view := new PostDetailsView();
    var fx := view.ComponentDidMount([post], "1");
    assert fx == [Dispatch(FetchPostComments(post))];

    view.OpenEditCommentModal(None);
    assert view.currentComment.parentId == Some("1");
    fx := view.ChangeComment(edited);
    assert fx == [Dispatch(AddNewComment(edited))];
    view.CloseEditCommentModal();

    view.OpenEditCommentModal(Some(stored));
    fx := view.ChangeComment(edited);
    assert fx == [Dispatch(Action.UpdateComment(stored, edited))];
    view.CloseEditCommentModal();

    view.OpenDeleteModal(stored);
    fx := view.HandleDeleteModalAction();
    assert fx == [Dispatch(RemoveComment(stored))];
    assert !view.deleteModalOpen && !view.editModalOpen && view.currentPost == Object(post);
  }

  /** A client of the view: mounted on an id no post carries, it still shows
      the post section, for the empty post `{}`. */
  method MissingPostScenario(posts: seq<Post>, routeId: Id)
    requires forall p :: p in posts ==> p.id != Some(routeId)
  {
    var view := new PostDetailsView();
    var fx := view.ComponentDidMount(posts, routeId);
    assert fx == [] && view.currentPost == Object(EmptyPost);
    assert view.RenderedBranch() == PostSection;
    MissingPostShowsPostSection(posts, routeId);
    assert IntendedBranch(posts, routeId) == NotFoundMessage;
  }

  // ---------------------------------------------------------------------------
  // The unreachable "post not found" message, and the branch it was meant for.
  // ---------------------------------------------------------------------------

  /** The branch meant by the not-found message: shown exactly when no post
      carries the route's id. */
  function IntendedBranch(posts: seq<Post>, routeId: Id): (b: Branch)
    ensures b == NotFoundMessage <==> forall p :: p in posts ==> p.id != Some(routeId)
  {
    if FindPost(posts, routeId).Some? then PostSection else NotFoundMessage
  }

  /** With no post for the route id, the mounted view keeps `{}` as its current
      post and shows the post section, where the not-found message was meant. */
  lemma MissingPostShowsPostSection(posts: seq<Post>, routeId: Id)
    requires forall p :: p in posts ==> p.id != Some(routeId)
    ensures FindPost(posts, routeId) == None
    ensures BranchFor(Object(EmptyPost)) == PostSection
    ensures IntendedBranch(posts, routeId) == NotFoundMessage
  {
  }
}
