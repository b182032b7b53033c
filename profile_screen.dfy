/** The profile screen: the signed-in author's data and posts, the three list
    edits done after a successful request (remove by id, prepend, replace by
    id), the non-empty-field guard on the post form, and the create/edit modal
    state machine that the submit button dispatches on. */
module ProfileScreen {
  import opened Common

  datatype UserData = UserData(id: string, name: string, email: string)

  datatype Category = Category(id: string, name: string)

  // ---------------------------------------------------------------------------
  // List edits
  // ---------------------------------------------------------------------------

  /** `posts.filter(post => post.id !== postId)`. */
  function WithoutId(posts: seq<Post>, postId: PostId): (r: seq<Post>)
    ensures |r| <= |posts|
    ensures forall p :: p in r <==> p in posts && p.id != postId
  {
    if posts == [] then []
    else
      var rest := WithoutId(posts[1..], postId);
      assert forall p :: p in posts <==> p == posts[0] || p in posts[1..];
      if posts[0].id != postId then [posts[0]] + rest else rest
  }

  /** `posts.map(post => post.id === updated.id ? updated : post)`. */
  function ReplaceById(posts: seq<Post>, updated: Post): (r: seq<Post>)
    ensures |r| == |posts|
    ensures forall i :: 0 <= i < |posts| ==>
      if posts[i].id == updated.id then r[i] == updated else r[i] == posts[i]
  {
    if posts == [] then []
    else [if posts[0].id == updated.id then updated else posts[0]] + ReplaceById(posts[1..], updated)
  }

  /** Removing by id keeps the other posts in their order. */
  lemma {:induction false} WithoutIdIsSubsequence(posts: seq<Post>, postId: PostId)
    ensures IsSubsequence(WithoutId(posts, postId), posts)
    decreases |posts|
  {
    if posts != [] {
      WithoutIdIsSubsequence(posts[1..], postId);
      var r := WithoutId(posts, postId);
      if posts[0].id != postId {
        assert r[1..] == WithoutId(posts[1..], postId);
      } else if r != [] {
        assert r[0] in r;
      }
    }
  }

  /** Every copy of a post with another id stays; no copy with that id does. */
  lemma {:induction false} WithoutIdCounts(posts: seq<Post>, postId: PostId, p: Post)
    ensures multiset(WithoutId(posts, postId))[p] == if p.id != postId then multiset(posts)[p] else 0
    decreases |posts|
  {
    if posts != [] {
      WithoutIdCounts(posts[1..], postId, p);
      assert posts == [posts[0]] + posts[1..];
    }
  }

  /** Removing an id that no post carries changes nothing. */
  lemma {:induction false} WithoutAbsentId(posts: seq<Post>, postId: PostId)
    requires forall p :: p in posts ==> p.id != postId
    ensures WithoutId(posts, postId) == posts
    decreases |posts|
  {
    if posts != [] {
      assert posts[0] in posts;
      WithoutAbsentId(posts[1..], postId);
    }
  }

  /** Deleting a post just created (with a fresh id) restores the list. */
  lemma CreateThenDelete(created: Post, posts: seq<Post>)
    requires forall p :: p in posts ==> p.id != created.id
    ensures WithoutId([created] + posts, created.id) == posts
  {
    assert ([created] + posts)[1..] == posts;
    WithoutAbsentId(posts, created.id);
  }

  /** Deleting after an update of the same id is deleting alone. */
  lemma {:induction false} UpdateThenDelete(posts: seq<Post>, updated: Post)
    ensures WithoutId(ReplaceById(posts, updated), updated.id) == WithoutId(posts, updated.id)
    decreases |posts|
  {
    if posts != [] {
      UpdateThenDelete(posts[1..], updated);
      assert ReplaceById(posts, updated)[1..] == ReplaceById(posts[1..], updated);
    }
  }

  /** Replacing again with the same post changes nothing. */
  lemma ReplaceIdempotent(posts: seq<Post>, updated: Post)
    ensures ReplaceById(ReplaceById(posts, updated), updated) == ReplaceById(posts, updated)
  {
    var once := ReplaceById(posts, updated);
    var twice := ReplaceById(once, updated);
    assert forall i :: 0 <= i < |posts| ==> twice[i] == once[i];
  }

  /** Replacing by an id that no post carries changes nothing. */
  lemma ReplaceAbsentId(posts: seq<Post>, updated: Post)
    requires forall p :: p in posts ==> p.id != updated.id
    ensures ReplaceById(posts, updated) == posts
  {
    var r := ReplaceById(posts, updated);
    forall i | 0 <= i < |posts| ensures r[i] == posts[i] {
      assert posts[i] in posts;
    }
  }

  // ---------------------------------------------------------------------------
  // Guards and messages
  // ---------------------------------------------------------------------------

  /** `newPostTitle && newPostContent && categoryId`: all three fields filled. */
  predicate FormComplete(title: string, content: string, categoryId: string)
    ensures FormComplete(title, content, categoryId) <==> |title| > 0 && |content| > 0 && |categoryId| > 0
  {
    Truthy(title) && Truthy(content) && Truthy(categoryId)
  }

  const UpdateFallbackMessage: string := "Erro ao atualizar post"

  /** `errorData.message || "Erro ao atualizar post"`: the server's message
      when it sent a non-empty one, the fixed text otherwise. */
  function UpdateErrorMessage(serverMessage: Option<string>): (m: string)
    ensures Truthy(m)
    ensures serverMessage.Some? && Truthy(serverMessage.value) ==> m == serverMessage.value
    ensures serverMessage.None? || !Truthy(serverMessage.value) ==> m == UpdateFallbackMessage
  {
    match serverMessage
    case Some(text) => if Truthy(text) then text else UpdateFallbackMessage
    case None => UpdateFallbackMessage
  }

  /** `getUserIdFromToken`: read the `"@user"` slot, decode it as a JWT and
      take its `id`. `decode` stands for `jwtDecode`: None when it throws.
      An empty slot and a failed decode both give None. */
  function UserIdFromToken(stored: Option<string>, decode: string -> Option<string>): (id: Option<string>)
    ensures id.Some? <==> stored.Some? && Truthy(stored.value) && decode(stored.value).Some?
    ensures id.Some? ==> id == decode(stored.value)
  {
    if stored.Some? && Truthy(stored.value) then decode(stored.value) else None
  }

  /** `if (userIdFromToken)`: a looked-up id that may be used in a request. */
  predicate UsableId(id: Option<string>)
    ensures UsableId(id) <==> id.Some? && |id.value| > 0
  {
    id.Some? && Truthy(id.value)
  }

  // ---------------------------------------------------------------------------
  // Screen state
  // ---------------------------------------------------------------------------

  class Profile {
    var userData: Option<UserData>
    var posts: seq<Post>
    var categories: seq<Category>
    var isLoading: bool
    var modalVisible: bool
    var newPostTitle: string
    var newPostContent: string
    var categoryId: string
    var isEditing: bool
    var currentPost: Option<Post>

    /** The modal is in edit mode exactly when it holds the post being edited. */
    ghost predicate Valid()
      reads this
    {
      isEditing <==> currentPost.Some?
    }

    /** The screen's initial state. */
    constructor ()
      ensures Valid()
      ensures userData == None && posts == [] && categories == [] && isLoading
      ensures !modalVisible && newPostTitle == "" && newPostContent == "" && categoryId == ""
      ensures !isEditing && currentPost == None
    {
      userData, posts, categories := None, [], [];
      isLoading, modalVisible := true, false;
      newPostTitle, newPostContent, categoryId := "", "", "";
      isEditing, currentPost := false, None;
    }

    /** `fetchUserData`: with a usable id from the stored token, the profile
        body (whatever `response.json()` gave; None when the request threw)
        becomes `userData`; with no id nothing changes. */
    method FetchUserData(stored: Option<string>, decode: string -> Option<string>, profile: Option<UserData>)
      requires Valid()
      modifies this`userData
      ensures Valid()
      ensures userData == if UsableId(UserIdFromToken(stored, decode)) && profile.Some? then profile else old(userData)
    {
      var userId := UserIdFromToken(stored, decode);
      if UsableId(userId) {
        if profile.Some? {
          userData := profile;
        }
      }
    }

    /** `fetchUserPosts`: the same lookup, then the author's posts. */
    method FetchUserPosts(stored: Option<string>, decode: string -> Option<string>, userPosts: Option<seq<Post>>)
      requires Valid()
      modifies this`posts
      ensures Valid()
      ensures posts == if UsableId(UserIdFromToken(stored, decode)) && userPosts.Some? then userPosts.value else old(posts)
    {
      var userId := UserIdFromToken(stored, decode);
      if UsableId(userId) {
        if userPosts.Some? {
          posts := userPosts.value;
        }
      }
    }

    /** `fetchCategories`: no id is needed. */
    method FetchCategories(fetched: Option<seq<Category>>)
      requires Valid()
      modifies this`categories
      ensures Valid()
      ensures categories == if fetched.Some? then fetched.value else old(categories)
    {
      if fetched.Some? {
        categories := fetched.value;
      }
    }

    /** The end of the mount effect: the spinner is dropped. */
    method FinishLoading()
      requires Valid()
      modifies this`isLoading
      ensures Valid() && !isLoading
    {
      isLoading := false;
    }

    /** `handleEditUser`: the PUT's answer replaces `userData` only when ok. */
    method HandleEditUser(response: Response<UserData>)
      requires Valid()
      modifies this`userData
      ensures Valid()
      ensures userData == if response.Ok? then Some(response.body) else old(userData)
    {
      if response.Ok? {
        userData := Some(response.body);
      }
    }

    /** `handleDeletePost`: on an ok answer every post with that id goes;
        on a failed request or a non-ok answer nothing changes. */
    method HandleDeletePost(postId: PostId, response: Response<()>)
      requires Valid()
      modifies this`posts
      ensures Valid()
      ensures posts == if response.Ok? then WithoutId(old(posts), postId) else old(posts)
    {
      if response.Ok? {
        posts := WithoutId(posts, postId);
      }
    }

    /** `openEditPostModal`: load the post into the form, enter edit mode. */
    method OpenEditPostModal(post: Post)
      requires Valid()
      modifies this`currentPost, this`newPostTitle, this`newPostContent, this`categoryId,
               this`isEditing, this`modalVisible
      ensures Valid()
      ensures currentPost == Some(post) && isEditing && modalVisible
      ensures newPostTitle == post.title && newPostContent == post.content && categoryId == post.categoryId
    {
      currentPost := Some(post);
      newPostTitle := post.title;
      newPostContent := post.content;
      categoryId := post.categoryId;
      isEditing := true;
      modalVisible := true;
    }

    /** `openCreatePostModal`: an empty form in create mode. */
    method OpenCreatePostModal()
      requires Valid()
      modifies this`currentPost, this`newPostTitle, this`newPostContent, this`categoryId,
               this`isEditing, this`modalVisible
      ensures Valid()
      ensures currentPost == None && !isEditing && modalVisible
      ensures newPostTitle == "" && newPostContent == "" && categoryId == ""
    {
      currentPost := None;
      newPostTitle := "";
      newPostContent := "";
      categoryId := "";
      isEditing := false;
      modalVisible := true;
    }

    /** The form inputs: title, content and category picker. */
    method EditForm(title: string, content: string, category: string)
      requires Valid()
      modifies this`newPostTitle, this`newPostContent, this`categoryId
      ensures Valid()
      ensures newPostTitle == title && newPostContent == content && categoryId == category
    {
      newPostTitle, newPostContent, categoryId := title, content, category;
    }

    /** "Cancelar", or the system back gesture, hides the modal. */
    method CloseModal()
      requires Valid()
      modifies this`modalVisible
      ensures Valid() && !modalVisible
    {
      modalVisible := false;
    }

    /** `createNewPost`: nothing happens unless the form is complete. Reading
        `userData.id` for the request body throws when no profile is loaded,
        and the catch swallows it. On an ok answer the returned post goes in
        front of the list and the modal closes; otherwise nothing changes. */
    method CreateNewPost(response: Response<Post>)
      requires Valid()
      modifies this`posts, this`modalVisible
      ensures Valid()
      ensures var done := FormComplete(newPostTitle, newPostContent, categoryId)
                          && userData.Some? && response.Ok?;
              && posts == (if done then [response.body] + old(posts) else old(posts))
              && modalVisible == (if done then false else old(modalVisible))
    {
      if FormComplete(newPostTitle, newPostContent, categoryId) {
        if userData.Some? {
          if response.Ok? {
            posts := [response.body] + posts;
            modalVisible := false;
          }
        }
      }
    }

    /** `updatePost`: the form must be complete and a post must be under edit.
        On an ok answer every post with the returned id is replaced and the
        modal closes. On a non-ok answer nothing changes and `rejection` is
        the logged message. */
    method UpdatePost(response: Response<Post>) returns (rejection: Option<string>)
      requires Valid()
      modifies this`posts, this`modalVisible
      ensures Valid()
      ensures var sent := FormComplete(newPostTitle, newPostContent, categoryId)
                          && currentPost.Some? && userData.Some?;
              && posts == (if sent && response.Ok? then ReplaceById(old(posts), response.body) else old(posts))
              && modalVisible == (if sent && response.Ok? then false else old(modalVisible))
              && rejection == (if sent && response.NotOk? then Some(UpdateErrorMessage(response.message)) else None)
    {
      rejection := None;
      if FormComplete(newPostTitle, newPostContent, categoryId) && currentPost.Some? {
        if userData.Some? {
          match response
          case Threw =>
          case NotOk(message) =>
            rejection := Some(UpdateErrorMessage(message));
          case Ok(updated) =>
            posts := ReplaceById(posts, updated);
            modalVisible := false;
        }
      }
    }

    /** The modal's submit button: update in edit mode, create otherwise. */
    method Submit(response: Response<Post>) returns (rejection: Option<string>)
      requires Valid()
      modifies this`posts, this`modalVisible
      ensures Valid()
      ensures var complete := FormComplete(newPostTitle, newPostContent, categoryId) && userData.Some?;
              && posts == (if !complete || !response.Ok? then old(posts)
                           else if isEditing then ReplaceById(old(posts), response.body)
                           else [response.body] + old(posts))
              && modalVisible == (if complete && response.Ok? then false else old(modalVisible))
              && rejection == (if isEditing && complete && response.NotOk?
                               then Some(UpdateErrorMessage(response.message)) else None)
    {
      if isEditing {
        rejection := UpdatePost(response);
      } else {
        CreateNewPost(response);
        rejection := None;
      }
    }
  }
}
