/** Records the discussion-board client passes around, and the effects its
    components emit. A JavaScript object literal is a record here: an `id` or
    `parentId` that may be absent is an `Option`, and the text and number fields
    the view logic never inspects are "" and 0 when absent. */
module Board {

  datatype Option<+T> = None | Some(value: T)

  type Id = string

  /** A category as the server lists it; `path` is the routing key. */
  datatype Category = Category(name: string, path: string)

  /** A post; `id` is absent in the empty object `{}` and in a failed server reply. */
  datatype Post = Post(id: Option<Id>, title: string, body: string, author: string,
                       category: string, timestamp: int, voteScore: int, commentCount: int)

  /** The empty object `{}` standing for a post. */
  const EmptyPost := Post(None, "", "", "", "", 0, 0, 0)

  /** A comment; a draft that is not yet on the server has no `id`. */
  datatype Comment = Comment(id: Option<Id>, parentId: Option<Id>, body: string,
                             author: string, timestamp: int, voteScore: int)

  /** The empty object `{}` standing for a comment. */
  const EmptyComment := Comment(None, None, "", "", 0, 0)

  /** Actions dispatched to the store. What the store does with them (its
      reducers and thunks) is outside this model. */
  datatype Action =
    | FetchPostComments(post: Post)
    | AddNewComment(comment: Comment)
    | UpdateComment(oldComment: Comment, newComment: Comment)
    | RemoveComment(comment: Comment)
    | AddNewPost(post: Post)
    | DeletePost(post: Post)
    | ChangeCategory(category: string)

  /** Server calls. `GetAllCategories` and `GetAllPosts` stand for the call
      together with its continuation, which hands the reply to the store. */
  datatype Request = GetAllCategories | GetAllPosts | AddPost(post: Post)

  /** One observable thing a handler does, instead of doing it. */
  datatype Effect =
    | Dispatch(action: Action)
    | Call(request: Request)
    | Navigate(path: string)
  {
    predicate IsServerCall() { Call? }
  }

  /** `Array.prototype.find`: the first element that satisfies `p`, if any. */
  function Find<T>(s: seq<T>, p: T -> bool): (r: Option<T>)
    ensures r.Some? ==> r.value in s && p(r.value)
    ensures r.None? <==> forall x :: x in s ==> !p(x)
    ensures forall i :: 0 <= i < |s| && p(s[i]) && (forall j :: 0 <= j < i ==> !p(s[j])) ==>
              r == Some(s[i])
  {
    if s == [] then None
    else if p(s[0]) then Some(s[0])
    else
      var r := Find(s[1..], p);
      assert forall i :: 1 <= i < |s| ==> s[i] == s[1..][i - 1];
      r
  }
}
