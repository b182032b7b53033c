# EducaHub mobile client: a verified model of its client-side state

EducaHub is a React Native app for browsing and writing educational posts.
Almost all of it is rendering and HTTP plumbing. This Dafny project models the
three pieces of it that keep state and make decisions:

- **The post list** (`app/screens/HomeScreen.tsx`, module `HomeScreen`). The
  pure part is `handleFilter`. It keeps the posts whose `categoryName` equals
  the selected category, when one is selected. It then keeps the posts whose
  lower-cased title contains the lower-cased query, when one is typed. The
  imperative part is class `PostList`. It holds the screen state written by the
  two mount-time fetches, each guarded by the `isMounted` flag that the
  effect's cleanup clears.
- **The profile screen** (`app/screens/ProfileScreen.tsx`, module
  `ProfileScreen`). It has three list edits, each applied only after a
  successful answer: remove-by-id on delete, prepend on create, replace-by-id on
  update. It also has the non-empty-field guard of the post form, and the
  create/edit modal state machine that the submit button dispatches on (class
  `Profile`).
- **The session context** (`app/context/AuthContext.tsx`, module
  `AuthContext`). It tracks `user`, `isLoading` and the persisted `"@user"`
  slot. `loadUser`, `login` and `logout` are step functions over a `Session`
  value. Class `AuthProvider` performs the same writes on its fields, in the
  provider's order, and each method is proved equal to its step function.

Network, storage and foreign calls are inputs, in three forms:

- Calls that check `response.ok` take a `Response`: the request threw, it was answered non-ok with an optional `message`, or it was answered ok with a body. These are login, user edit, and post create, update and delete.
- The fetches that do not check `response.ok` take an `Option` of the parsed payload. `None` means the request or its body parse threw. These are the list screen's two mount fetches and the profile screen's three mount fetches.
- Storage calls in the session context take a success flag. The profile screen's token lookup takes the value read from the `"@user"` slot as an `Option`. A `getItem` that throws is caught there and gives the same result as an empty slot, so it is folded into `None`.

`JSON.parse` and `jwtDecode` are function parameters that return an option-like value.

Shared definitions are in module `Common`: `Option`, `Response`, `Post`, the
JavaScript truthiness of strings, and `IsSubsequence`. `IsSubsequence` means
"obtained by deleting elements", with its reflexivity, transitivity and
membership lemmas.

Behaviour of the code that the model keeps:

- `login` on a non-ok answer throws the fixed text `"Credenciais invÃ¡lidas"`
  (the mis-encoding is the code's own). The server's message is ignored.
- `login` writes only the token to `"@user"`, not the user record.
  `loadUser` parses that slot as a user record. `LoginThenRestart` states the
  consequence for a restart after a login.
- A failing storage removal in `logout` escapes, and `user` is left as it was.
- The loading flag is a plain boolean. List edits carry no version check.

## Model

| member | source | states |
|---|---|---|
| `Common.Truthy` | app/screens/HomeScreen.tsx:41 | a string is truthy exactly when it is non-empty, as in `if (filterCategory)` |
| `HomeScreen.Lower` | app/screens/HomeScreen.tsx:46 | lower-casing keeps the length and maps every character through ASCII lower-casing |
| `HomeScreen.ContainsAt` | app/screens/HomeScreen.tsx:46 | `includes` holds exactly when the query occurs at some position of the text |
| `HomeScreen.Contains` | app/screens/HomeScreen.tsx:46 | the empty query is contained in every text; a contained query is no longer than the text |
| `HomeScreen.FirstCharAbsent` | app/screens/HomeScreen.tsx:46 | a non-empty query whose first character is absent from the text is not included |
| `HomeScreen.Accepts` | app/screens/HomeScreen.tsx:42-46 | an inactive criterion accepts every post; a title match needs a query no longer than the title |
| `HomeScreen.ActiveCriterion` | app/screens/HomeScreen.tsx:41-46 | the criterion accepts a post iff it has the selected category (when one is set) and its lower-cased title contains the lower-cased query (when one is typed) |
| `HomeScreen.SelectCounts` | app/screens/HomeScreen.tsx:42 | a filter step keeps every copy of an accepted post and no copy of a rejected one |
| `HomeScreen.Select` | app/screens/HomeScreen.tsx:41-47 | a `.filter` step keeps exactly the posts that its criterion accepts, and never lengthens the list (copies: `SelectCounts`) |
| `HomeScreen.HandleFilter` | app/screens/HomeScreen.tsx:38-50 | soundness and completeness: a post is in the result iff it is in `posts`, has the selected category (when one is set) and its lower-cased title contains the lower-cased query (when one is typed) |
| `HomeScreen.SelectIsSubsequence` | app/screens/HomeScreen.tsx:42 | one filter step yields an order-preserving subsequence of its input |
| `HomeScreen.SelectThenSelect` | app/screens/HomeScreen.tsx:41-47 | two filter steps in sequence equal one step with both criteria |
| `HomeScreen.SelectSameAcceptance` | app/screens/HomeScreen.tsx:41-47 | criteria that accept the same posts select the same list |
| `HomeScreen.SelectEverything` | app/screens/HomeScreen.tsx:39 | an inactive filter step returns the list unchanged |
| `HomeScreen.SelectIdempotent` | app/screens/HomeScreen.tsx:41-47 | re-applying a filter step to its own result changes nothing |
| `HomeScreen.HandleFilterIsSelect` | app/screens/HomeScreen.tsx:38-50 | the two conditional steps equal one pass over `posts` with the active criteria combined, so the result depends on `posts` and the two inputs only |
| `HomeScreen.HandleFilterNoInputs` | app/screens/HomeScreen.tsx:38-49 | with both inputs empty the result is exactly `posts`, same order |
| `HomeScreen.HandleFilterSubsequence` | app/screens/HomeScreen.tsx:39-47 | the result is an order-preserving subsequence of `posts`: nothing added, duplicated or reordered |
| `HomeScreen.HandleFilterCounts` | app/screens/HomeScreen.tsx:39-47 | each post occurs in the result as often as in `posts` when it passes the active inputs, and never otherwise |
| `HomeScreen.HandleFilterOrderIndependent` | app/screens/HomeScreen.tsx:41-47 | filtering by title first and category second gives the same list |
| `HomeScreen.HandleFilterIdempotent` | app/screens/HomeScreen.tsx:39-47 | filtering the result again with the same inputs yields the same list |
| `HomeScreen.AlgebraMatchesAlg` | app/screens/HomeScreen.tsx:46 | title "Algebra" matches query "alg" case-insensitively |
| `HomeScreen.PoetryMissesAlg` | app/screens/HomeScreen.tsx:46 | title "Poetry" does not match query "alg" |
| `HomeScreen.AlgebraPoetryByTitle` | app/screens/HomeScreen.tsx:38-50 | over [Algebra/Math, Poetry/Art], query "alg" keeps only Algebra |
| `HomeScreen.AlgebraPoetryByCategory` | app/screens/HomeScreen.tsx:38-50 | over the same list, category "Art" keeps only Poetry |
| `HomeScreen.PostList.constructor` | app/screens/HomeScreen.tsx:6-14 | all lists and inputs start empty, the modal hidden, `isMounted` set |
| `HomeScreen.PostList.ShownIsSubsequence` | app/screens/HomeScreen.tsx:38-50 | in every reachable state the displayed list is an order-preserving subsequence of `posts`, no longer and with no post outside it |
| `HomeScreen.PostList.CategoriesArrived` | app/screens/HomeScreen.tsx:16-21 | a completed categories fetch sets `categories` only while mounted and only on success; nothing else changes |
| `HomeScreen.PostList.PostsArrived` | app/screens/HomeScreen.tsx:23-31 | a completed posts fetch while mounted sets both `posts` and `filteredPosts` to the data; after unmount or on failure neither changes |
| `HomeScreen.PostList.Unmount` | app/screens/HomeScreen.tsx:33-35 | cleanup clears `isMounted` and nothing else |
| `HomeScreen.PostList.SetFilterTitle` | app/screens/HomeScreen.tsx:58-59 | typing sets `filterTitle` only |
| `HomeScreen.PostList.SetShowModal` | app/screens/HomeScreen.tsx:64 | the filter buttons set `showModal` only |
| `HomeScreen.PostList.Filter` | app/screens/HomeScreen.tsx:38-50 | `filteredPosts` becomes the filter of `posts` by the current inputs; `posts` and every other field are unchanged |
| `HomeScreen.PostList.SelectCategory` | app/screens/HomeScreen.tsx:84 | choosing a category sets it, hides the modal and filters `posts` with it |
| `ProfileScreen.WithoutId` | app/screens/ProfileScreen.tsx:119 | keeps exactly the posts whose id differs from `postId` (copies: `WithoutIdCounts`) |
| `ProfileScreen.ReplaceById` | app/screens/ProfileScreen.tsx:196 | same length; every post with the returned id is replaced by it, every other post is untouched at its index |
| `ProfileScreen.WithoutIdCounts` | app/screens/ProfileScreen.tsx:119 | every copy of a post with another id stays; no copy with the deleted id does |
| `ProfileScreen.WithoutIdIsSubsequence` | app/screens/ProfileScreen.tsx:119 | removal keeps the remaining posts in their order |
| `ProfileScreen.WithoutAbsentId` | app/screens/ProfileScreen.tsx:119 | removing an id no post carries leaves the list unchanged |
| `ProfileScreen.CreateThenDelete` | app/screens/ProfileScreen.tsx:111-170 | deleting a just-created post with a fresh id restores the previous list |
| `ProfileScreen.UpdateThenDelete` | app/screens/ProfileScreen.tsx:111-202 | deleting after updating the same id equals deleting alone |
| `ProfileScreen.ReplaceIdempotent` | app/screens/ProfileScreen.tsx:196 | replacing twice with the same post equals replacing once |
| `ProfileScreen.ReplaceAbsentId` | app/screens/ProfileScreen.tsx:196 | replacing by an id no post carries leaves the list unchanged |
| `ProfileScreen.FormComplete` | app/screens/ProfileScreen.tsx:144 | the create and update guard holds exactly when title, content and category are all non-empty |
| `ProfileScreen.UpdateErrorMessage` | app/screens/ProfileScreen.tsx:189-192 | the logged update error is the server's non-empty `message`, else "Erro ao atualizar post"; it is never empty |
| `ProfileScreen.UserIdFromToken` | app/screens/ProfileScreen.tsx:30-42 | no id when the slot is empty or decoding throws; otherwise the decoded id |
| `ProfileScreen.UsableId` | app/screens/ProfileScreen.tsx:46 | a looked-up id is used only when present and non-empty |
| `ProfileScreen.Profile.constructor` | app/screens/ProfileScreen.tsx:16-25 | the initial state: no profile, no posts, loading, modal hidden, empty form, create mode |
| `ProfileScreen.Profile.FetchUserData` | app/screens/ProfileScreen.tsx:44-59 | the profile is replaced only with a usable id and a completed fetch; otherwise nothing changes |
| `ProfileScreen.Profile.FetchUserPosts` | app/screens/ProfileScreen.tsx:61-74 | the posts are replaced only with a usable id and a completed fetch; otherwise nothing changes |
| `ProfileScreen.Profile.FetchCategories` | app/screens/ProfileScreen.tsx:76-84 | the categories are replaced only by a completed fetch |
| `ProfileScreen.Profile.FinishLoading` | app/screens/ProfileScreen.tsx:89 | the effect clears `isLoading` |
| `ProfileScreen.Profile.HandleEditUser` | app/screens/ProfileScreen.tsx:92-109 | `userData` is replaced only on an ok answer |
| `ProfileScreen.Profile.HandleDeletePost` | app/screens/ProfileScreen.tsx:111-123 | on ok, every post with that id is removed and the rest kept in order; on failure `posts` is unchanged |
| `ProfileScreen.Profile.OpenEditPostModal` | app/screens/ProfileScreen.tsx:125-132 | the form gets the post's title, content and categoryId; `currentPost` is set, edit mode on, modal shown |
| `ProfileScreen.Profile.OpenCreatePostModal` | app/screens/ProfileScreen.tsx:134-141 | empty form, no `currentPost`, create mode, modal shown |
| `ProfileScreen.Profile.EditForm` | app/screens/ProfileScreen.tsx:251-282 | the form inputs set the three form fields only |
| `ProfileScreen.Profile.CloseModal` | app/screens/ProfileScreen.tsx:289-291 | cancel hides the modal only |
| `ProfileScreen.Profile.CreateNewPost` | app/screens/ProfileScreen.tsx:143-170 | only with a complete form and a loaded profile, and only on ok: the returned post goes before the previous posts and the modal closes; otherwise `posts` and `modalVisible` are unchanged |
| `ProfileScreen.Profile.UpdatePost` | app/screens/ProfileScreen.tsx:172-202 | only with a complete form, a current post and a loaded profile: on ok, replace-by-id and close; on non-ok, nothing changes and the logged message is returned |
| `ProfileScreen.Profile.Submit` | app/screens/ProfileScreen.tsx:285-288 | in edit mode the update happens, otherwise the create; the edit/create invariant `isEditing <==> currentPost != null` is kept |
| `AuthContext.Initial` | app/context/AuthContext.tsx:22-23 | a fresh provider has no user and is loading |
| `AuthContext.LoadUserStep` | app/context/AuthContext.tsx:26-32 | a stored value becomes `user` through its parse; nothing stored leaves `user`; either way `isLoading` is cleared; a read or parse error escapes with nothing changed, `isLoading` still set |
| `AuthContext.LoginStep` | app/context/AuthContext.tsx:36-55 | non-ok throws the fixed text and changes nothing; ok sets `user` to the body, then stores its token; a failed write is rethrown with `user` already set; `isLoading` never changes |
| `AuthContext.LogoutStep` | app/context/AuthContext.tsx:57-60 | removes the slot, then clears `user`; a failed removal escapes with nothing changed; `isLoading` never changes |
| `AuthContext.LoadingNeverReturns` | app/context/AuthContext.tsx:23-60 | once `isLoading` is cleared, no sequence of operations sets it again |
| `AuthContext.OnlyLoadUserClearsLoading` | app/context/AuthContext.tsx:36-60 | any sequence of logins and logouts keeps `isLoading` |
| `AuthContext.RejectedLoginsChangeNothing` | app/context/AuthContext.tsx:44-53 | any number of failed logins leave the session exactly as it was |
| `AuthContext.LogoutIdempotent` | app/context/AuthContext.tsx:57-60 | a second successful logout gives the same state as the first |
| `AuthContext.LogoutThenRestart` | app/context/AuthContext.tsx:26-60 | after a logout and a restart, the restore comes up signed out and not loading |
| `AuthContext.LoginThenRestart` | app/context/AuthContext.tsx:26-50 | after a login and a restart, the restored user is the parse of the stored token; when the token is not JSON the restore throws and stays loading, signed out |
| `AuthContext.AuthProvider.constructor` | app/context/AuthContext.tsx:21-23 | the provider's fields start as `Initial` over the device's slot |
| `AuthContext.AuthProvider.LoadUser` | app/context/AuthContext.tsx:26-32 | the field writes equal `LoadUserStep` |
| `AuthContext.AuthProvider.Login` | app/context/AuthContext.tsx:36-55 | the field writes, user before storage, equal `LoginStep` |
| `AuthContext.AuthProvider.Logout` | app/context/AuthContext.tsx:57-60 | the field writes, storage before user, equal `LogoutStep` |

## Left out

- Network and device storage are not modelled as I/O. Each call is given as its outcome, in the three forms listed at the top. Request URLs, headers and bodies (email and password, the post fields, `user?.id` in the profile URL) are not modelled.
- `JSON.parse` and `jwtDecode` are parameters of the model, not definitions in it. Nothing is assumed about what they accept, so the model does not say whether a given token decodes.
- `HomeScreen.Lower` lower-cases ASCII letters only; JavaScript's `toLowerCase` also folds non-ASCII letters.
- React batching and stale closures are left out. Each handler is one atomic step. `HomeScreen.PostList.SelectCategory` filters with the new category, but in the app, line 84 of `app/screens/HomeScreen.tsx` calls `handleFilter` with the category of the previous render. `ProfileScreen.Profile.FinishLoading` is a separate step that may be taken before the fetches complete, as line 89 of `app/screens/ProfileScreen.tsx` does.
- Overlapping completions and unmount races are not modelled beyond the steps themselves. Each fetch completion is one step, and any interleaving of steps is a possible run.
- `ProfileScreen.Profile.FetchUserData`, `ProfileScreen.Profile.FetchUserPosts`, `ProfileScreen.Profile.FetchCategories`, `HomeScreen.PostList.CategoriesArrived` and `HomeScreen.PostList.PostsArrived` do not represent a non-ok answer's error body being stored as data, even though these fetches do not check `response.ok`. The payload is typed as the expected record or list.
- `ProfileScreen.Profile.UpdatePost` does not model one failure case: a non-ok answer whose error body is not JSON. The app then logs the parse error. `Response` has no such case.
- Logging (`console.error`) is not modelled. The one exception is the update rejection text that `UpdatePost` returns.
- Post ids are integers compared with `==`. The app compares ids with `===` and `!==`, where a number id and a string id never match.
- The list screen's categories are strings, and the profile screen's categories are `{id, name}` records, as in the two files.
- Rendering and navigation are not modelled. This covers JSX, styles, `Modal`, the picker and `Platform` branches, `Alert`, `app/screens/LoginScreen.tsx`, `app/components/Toolbar.tsx`, `app/index.tsx` and `App.tsx`.
- The global loading flag in `app/context/LoadingContext.tsx` and the overlay in `app/screens/Loading.tsx` are not modelled. They are a boolean setter and a view.
- The draft screens under `src/screens/` are not part of this model.
- The `useAuth` guard for use outside the provider (`app/context/AuthContext.tsx:69-74`) is React context wiring and is not modelled.
