# Icelandic adventure blog: a Dafny model of its page logic

The repository is a single React page backed by Firebase. Travelers pick one of eight static
profiles, write a post (an accommodation name, a description and a meal) and see a live feed of
everyone's posts. This project models the page's own logic and proves properties of it. Firebase
itself is not modelled. A write is an outcome parameter (`Ok` or `Fail`). A snapshot is a given
list of documents. Timestamps are integers in milliseconds.

Modules, one per part of `src/App.js`:

- `JsString`: JavaScript's `String.prototype.trim`. The composer's blank check depends on it.
  The whitespace set is ECMAScript's WhiteSpace and LineTerminator code points.
- `Meals`: the four meal options and the `mealImageMap`/`mealLabelMap` tables. The tables are
  built by a `reduce` loop (`BuildLookup`) that is proved equal to a left fold (`ReduceToMap`).
- `Records`: the static profiles, the post fields and the snapshot document.
- `Composer`: the `CreatePost` component. `HandleSubmit` is the handler as a transition on the
  six state fields. It returns the new state and the record handed to `addDoc`, if any. The class
  `CreatePost` holds the same six fields. Its `Submit` method performs the handler's assignments
  step by step and keeps a ghost log `writes` of the records it issued.
- `Feed`: the `onSnapshot` callback. Each document is tagged with its id. The list is built in an
  array and sorted in place, newest first, by a stable insertion sort.
- `Page`: the `App` component (`selectedUser`, `posts`, `firebaseUser`) and the `Post`/`PostFeed`
  views. The views are reduced to what they look up and choose.

Four behaviours of the code that the model follows as written:

- `createdAt` is the client's `Timestamp.now()`, not a server timestamp. It is a parameter `now`.
- The handler has no double-submit guard. Only the button's `disabled` attribute stops a second
  submit, so `Submit` has no precondition on `isSubmitting`. Likewise the handler checks for blank
  fields itself, but both inputs carry `required` (src/App.js:214, 218), so in a browser an empty
  field never reaches it. "Please fill in all fields." is then only seen for fields that are all
  whitespace. The model keeps the handler's check for every input.
- The handler does not check for a Firebase identity. When `auth.currentUser` is null, reading
  `.uid` throws while the record is still being built, so `addDoc` is never called. The catch
  clause then shows the failure message. The model logs no write in that case.
- `CreatePost` is only rendered while a profile is selected (src/App.js:288-294). The handler's
  "must be signed in" branch is therefore unreachable from `App`. It is still modelled as written.

## Model

| member | source | states |
|---|---|---|
| JsString.TrimStartShape | src/App.js:164 | the result is the longest suffix of the input that does not start with whitespace, and what it drops is all whitespace |
| JsString.TrimEndShape | src/App.js:164 | the result is the longest prefix of the input that does not end with whitespace, and what it drops is all whitespace |
| JsString.TrimIsSlice | src/App.js:164 | `trim()` returns a slice of the input between an all-whitespace prefix and an all-whitespace suffix, and the slice neither starts nor ends with whitespace |
| JsString.BlankIffAllWhitespace | src/App.js:164 | `!s.trim()` holds exactly when every character of `s` is whitespace (both directions) |
| Meals.ReduceToMapKeys | src/App.js:40-41 | the table built by `reduce` has exactly the options' values as keys |
| Meals.ReduceToMapAt | src/App.js:40-41 | when the option values are distinct, each value maps to its own option's image or label |
| Meals.BuildLookup | src/App.js:40-41 | the in-place accumulator loop builds exactly the left fold `ReduceToMap` |
| Meals.MealValuesAre | src/App.js:33-38 | the option values are exactly fish, lamb, hamburger and other |
| Meals.MealOptionsDistinct | src/App.js:33-38 | no two meal options share a value |
| Meals.FishIsAMeal | src/App.js:33-38 | the composer's default meal `'fish'` is one of the options |
| Meals.MealTablesContents | src/App.js:33-41 | both tables have exactly the option values as keys, and each option's value maps to its `imageUrl` and its `label` |
| Meals.MealTables | src/App.js:40-41 | the two `reduce` loops produce tables keyed by exactly fish, lamb, hamburger and other, holding the published URLs and labels |
| Composer.BlankFieldRejected | src/App.js:164-166 | the handler writes nothing and sets only `error` to "Please fill in all fields." exactly when one of the two fields is all whitespace, whatever the user, uid and store outcome (both directions) |
| Composer.MissingUserRejected | src/App.js:164-169 | the field check comes first; with filled fields and no profile, only `error` changes, to "You must be signed in to post.", and nothing is written |
| Composer.ValidSubmissionWrites | src/App.js:170-183 | a submission that passes both checks with a Firebase user issues exactly one record: the untrimmed fields, the selected meal, the whole profile as author, the uid and the time, with no `id` key |
| Composer.SubmissionSettles | src/App.js:170-196 | after the checks pass: on success the form is `''`, `''`, `'fish'` with no error and the published message; on every failure the three fields are kept, `error` is the failure message and `success` is cleared; `isSubmitting` is false both ways |
| Composer.SuccessThenTimer | src/App.js:185-189 | a successful submission followed by the three-second timer leaves the composer exactly as when it was mounted |
| Composer.SubmitKeepsMealKnown | src/App.js:176-187 | if the form's meal is one of the options, the form keeps such a meal, and any record written carries that meal and no `id` key |
| Composer.CreatePost.constructor | src/App.js:155-160 | a mounted composer starts with `''`, `''`, `'fish'`, not submitting, no messages, no writes |
| Composer.CreatePost.SetAccommodationName | src/App.js:214 | the input's `onChange` replaces only the accommodation name |
| Composer.CreatePost.SetDescription | src/App.js:218 | the textarea's `onChange` replaces only the description |
| Composer.CreatePost.SetMeal | src/App.js:200 | a meal button replaces only the meal, with one of the option values |
| Composer.CreatePost.Submit | src/App.js:162-197 | the step-by-step handler leaves the state that `HandleSubmit` describes, appends to the write log exactly the record `HandleSubmit` issues, and keeps every logged meal a known option |
| Composer.CreatePost.OnSuccessTimer | src/App.js:189 | the timer callback clears `success` and changes nothing else |
| Feed.Tag | src/App.js:268 | a tagged document has `id` equal to the document id, overriding any `id` in the data, and every other field as in the data |
| Feed.SortNewestFirst | src/App.js:269 | the in-place sort leaves the array ordered by `createdAt` non-increasing, is a permutation of the input, and leaves an already ordered array unchanged |
| Feed.PostsFromSnapshot | src/App.js:267-270 | the posts the callback passes to `setPosts` are the tagged documents, each as often as in the snapshot, newest first; an already ordered snapshot keeps its order |
| Feed.FromSnapshotDocs | src/App.js:268 | every post of the result comes from a document of the snapshot and carries that document's id |
| Feed.NewestFirstUnique | src/App.js:269 | when no two posts share a timestamp, two newest-first arrangements of the same posts are equal, so the feed is determined by the snapshot |
| Page.PostFeed | src/App.js:141-151 | the placeholder is shown exactly when there are no posts; otherwise there is one card per post |
| Page.CardShowsMeal | src/App.js:109-124 | a card shows a meal image and label exactly when the post's meal is one of the options, and then that option's image and label |
| Page.KexHostelSubmission | src/App.js:170-183 | submitting "Kex Hostel" / "Great views" with the default meal issues exactly the record with those untrimmed fields, meal fish, the author, the uid and the time |
| Page.KexHostelFeed | src/App.js:267-270 | when that record comes back as the collection's only document, the feed is exactly one card with that content, the fish image and label, and the author's name and picture |
| Page.SingleDocFeed | src/App.js:267-270 | a snapshot of one document yields exactly that document, tagged |
| Page.FishCard | src/App.js:109-124 | a fish post's card shows the fish image and the label "Fish" with the post's title, text and author |
| Page.App.constructor | src/App.js:239-241 | the page starts with no selected profile, no posts and no Firebase user |
| Page.App.OnFirebaseUser | src/App.js:244-258 | a reported or newly signed-in Firebase user becomes `firebaseUser`; the profile and the feed are untouched |
| Page.App.OnSnapshot | src/App.js:261-274 | without a Firebase user no snapshot is applied; with one, `posts` is replaced wholesale by the tagged documents, a permutation ordered newest first |
| Page.App.OnSnapshotError | src/App.js:271 | the subscription's error callback leaves the feed, profile and Firebase user unchanged |
| Page.App.HandleUserSelect | src/App.js:276-278 | selecting a profile sets `selectedUser` to it and changes neither the feed nor the Firebase user |
| Page.App.HandleSignOut | src/App.js:280-283 | "Switch User" clears `selectedUser` and keeps the feed and the Firebase user |
| Page.SwitchUser | src/App.js:276-283 | switching from one profile to another keeps every post, and so every author, unchanged |

## Left out

- Firebase initialisation, the config fallback, the app id and `setLogLevel` (src/App.js:44-53): environment plumbing.
- The auth listener's asynchronous flow and `signInAnonymously`: foreign calls. They are reduced to `OnFirebaseUser`. A failed sign-in only logs, so it has no transition.
- Firestore itself (`addDoc`, `collection`, `query`, the delivery of snapshots and unsubscribing): an external service. It is replaced by the `WriteOutcome` parameter and by the document list given to `OnSnapshot`.
- The collection path `artifacts/${appId}/public/data/posts`: it only names the external collection.
- `Timestamp.now()`, `toMillis()` and `toLocaleDateString()`: clock and locale. `createdAt` is an integer number of milliseconds, and the card does not show the date.
- Rendering markup, CSS classes, image `onError` fallbacks and the `Header` and `UserSelectionPage` markup: presentation only.
- Composer.CreatePost.Submit: the method runs the handler to completion in one step. It does not model edits to the fields while `addDoc` is pending, or a setState arriving after the component has unmounted (Switch User unmounts the composer).
- Composer.CreatePost.OnSuccessTimer: the three-second delay is not modelled. The timer is an explicit event, and the model does not tie it to the submission that started it.
- Page.CardShowsMeal: the meal tables are plain objects, so `mealImageMap[meal]` also finds names inherited from `Object.prototype`. For example, `"constructor"` yields a truthy function, and `"__proto__"` yields an object that makes the label fail to render. `Page.Lookup` treats such names as absent, so for those meals the lemma states less than the code does. Documents come from the shared collection, so such meals can reach the feed.
- Page.PostCard: the card reads `author?.name` and `author?.imageUrl`, which accept a document with no `author`. `Records.Post` always has an author, so author-less documents are not modelled.
- Feed.SortNewestFirst: the contract does not state the relative order of posts with equal `createdAt` except for an already ordered input. The insertion sort is stable, as `Array.prototype.sort` has been required to be since ECMAScript 2019.
- Feed.PostsFromSnapshot: same as for `SortNewestFirst`. A document whose `createdAt` is missing, which would make the comparator throw, is not modelled: every record has an integer timestamp.
