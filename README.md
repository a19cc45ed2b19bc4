# A verified model of a developer-network API and its edit-profile form

This project models the request rules of a small social network for developers.
Users register and log in. Each user keeps a profile with a unique handle, skills and social links.
Users write posts, like and unlike them, and comment on them.
On the client, an edit-profile form turns the fetched profile into form state and turns the form back into the payload it submits.

The database, HTTP, hashing, token signing and the avatar service are not modelled.
In their place the model has:

- a plain store: a sequence of posts, maps of profiles and users;
- function parameters for the foreign libraries: `hash`, `compare`, `sign` and `gravatar`;
- the results of the validators that are not shown, passed in as values: `validatePostInput` and `validateProfileInput`;
- `is-empty` as a function parameter `isEmpty: Value -> bool`. Lemmas that depend on what it does take `Js.IsEmptyContract(isEmpty)` as a hypothesis: undefined, null and "" are empty, and an object is empty exactly when it has no keys.

The authenticated requester arrives as a parameter. Ids and dates that the database would generate also arrive as parameters.

Modules:

- `Js` and `Http` (`js.dfy`): JavaScript values and their truthiness. Built-ins:
  - `indexOf`, `filter` and `splice(start, 1)`;
  - `split(",")` and `join(",")`, with their round trips.

  Also the shape of a route's reply:
  - `Json(body)`;
  - `Fail(status, errors)`;
  - `ServerError`, for a handler that throws before it replies.
- `Posts` (`posts.dfy`): the post routes, over a `PostStore` class. They cover the newest-first feed, creating and deleting posts, likes and comments. Each handler edits a post's embedded lists and saves the post back.
- `Profiles` (`profiles.dfy`), the profile routes:
  - how `profileFields` is built from the request body, field by field;
  - the create-or-update keyed on the requester, over a `ProfileStore` class;
  - the current-profile lookup.
- `Users` (`users.dfy`), the user routes:
  - registration with the duplicate-email check and the in-place password hashing;
  - the login decision;
  - the `/current` projection.
- `EducationValidation` (`education.dfy`): the education validator. It rewrites its four required fields in place and collects a message for each one left empty.
- `EditProfileForm` (`edit_profile.dfy`), the edit-profile component, as a class holding its state:
  - `componentWillReceiveProps` rewrites the received profile in place and loads the form;
  - `onSubmit` builds the payload;
  - `onChange` and the social-links toggle each update one state field.

A JavaScript operation that throws becomes `Threw` (a `Js.Completion`) or `ServerError`, rather than a precondition. Examples are `split` on a non-string, `join` on a non-array, `Validator.isEmpty` on a non-string, and reading a property of `null`.

Three facts about the code that a reader might not expect:

- Login tells an unknown email (404 "User not found") apart from a wrong password (400 "Password incorrect").
- Register replies with the saved user document, password hash included.
- The education validator is exported under the name `validateExperienceInput`.

## Model

| member | source | states |
|---|---|---|
| Js.FalsyValues | routes/api/profiles.js:115-132 | the values the `if (request.body.x)` tests skip are exactly undefined, null, false and "" (`Js.Truthy`); arrays and objects, even empty ones, are copied |
| Js.JoinWithComma | client/src/components/edit-profile/EditProfile.js:51 | `join(",")` turns [] into "" and starts with the first piece |
| Js.JoinCount | client/src/components/edit-profile/EditProfile.js:51 | joining n comma-free pieces puts exactly n - 1 commas into the string |
| Js.IndexOf | routes/api/posts.js:140 | `indexOf` gives -1 exactly when the element is absent; otherwise it gives the first position holding it |
| Js.Filter | routes/api/posts.js:105 | the filtered list holds exactly the elements of the input that pass, and is empty exactly when no element passes, which is what the like guards test |
| Js.SpliceOne | routes/api/posts.js:142 | `splice(start, 1)` removes the element at the resolved start; the elements before it stay and the ones after shift down by one; a start past the end removes nothing |
| Js.SplitOnComma | routes/api/profiles.js:124 | `split(",")` yields at least one piece and no piece contains a comma |
| Js.SplitCount | routes/api/profiles.js:124 | `split(",")` yields exactly one more piece than the string has commas |
| Js.JoinSplit | client/src/components/edit-profile/EditProfile.js:51 | joining the pieces of a split with "," gives back the original string, for every string |
| Js.SplitJoin | routes/api/profiles.js:124 | splitting the join of a non-empty list of comma-free pieces gives back the list |
| Js.SplitCommaFree | routes/api/profiles.js:124 | a comma-free string splits into itself alone |
| Js.SplitAfterPiece | routes/api/profiles.js:124 | splitting `a + "," + t` with a comma-free `a` yields `a` and then the pieces of `t` |
| Js.JoinCons | client/src/components/edit-profile/EditProfile.js:51 | joining a piece in front of a non-empty list puts exactly one comma after it |
| Js.JoinPrependChar | client/src/components/edit-profile/EditProfile.js:51 | a character in front of the first piece ends up in front of the joined string |
| Posts.HasLikedMeans | routes/api/posts.js:105 | the filter-length guard holds exactly when some like carries the requester's id |
| Posts.HasCommentMeans | routes/api/posts.js:193 | the filter-length guard holds exactly when some comment carries the id |
| Posts.Liked | routes/api/posts.js:110 | after `unshift`, the requester's like is at index 0, the list is one longer, the old likes follow in order and nothing else of the post changes |
| Posts.Unliked | routes/api/posts.js:140-142 | the splice changes only the likes and removes exactly one entry from a non-empty list; for a user with no like, `indexOf` gives -1 and the last like would go, which the guard on line 135 prevents |
| Posts.LikeKeepsOneLikePerUser | routes/api/posts.js:105-110 | liking a post the requester has not liked keeps at most one like per user |
| Posts.UnlikeEffect | routes/api/posts.js:140-142 | unliking removes exactly the first like by the requester; the list is one shorter and the others keep their order |
| Posts.UnlikeKeepsOneLikePerUser | routes/api/posts.js:140-142 | unliking keeps at most one like per user, and afterwards the requester has no like |
| Posts.UnlikeUndoesLike | routes/api/posts.js:110 | like followed by unlike by a user who had not liked the post restores the original likes list exactly |
| Posts.Commented | routes/api/posts.js:173 | the new comment is at index 0, the old comments follow in order and nothing else of the post changes |
| Posts.Uncommented | routes/api/posts.js:197-198 | the splice changes only the comments and removes exactly one entry from a non-empty list; an id that is not there would drop the last comment, which the guard on line 193 prevents |
| Posts.CommentKeepsDistinctIds | routes/api/posts.js:173 | prepending a comment with a fresh id keeps comment ids distinct |
| Posts.UncommentEffect | routes/api/posts.js:197-198 | deleting a comment removes exactly the first comment with that id; the others keep their order and ids stay distinct |
| Posts.InsertByDate | routes/api/posts.js:18 | inserting into a newest-first list keeps it newest first and adds exactly the one post |
| Posts.SortByDateDesc | routes/api/posts.js:18 | the sort is newest first and a permutation of its input |
| Posts.PostStore.Feed | routes/api/posts.js:16-26 | the feed holds every post exactly once, newest first |
| Posts.PostStore.Create | routes/api/posts.js:49-61 | invalid input gives 400 with the validator's errors and no change; otherwise a post by the requester with no likes and no comments is appended and returned |
| Posts.PostStore.Delete | routes/api/posts.js:69-89 | a missing post gives 404 `noPost`; a non-owner gets 401 `notAuthorized` and the post stays; the owner's post is removed and the others keep their order |
| Posts.PostStore.LikePost | routes/api/posts.js:96-119 | a missing post gives 404; a repeat like gives 400 `alreadyLiked` and no change; otherwise only that post changes, to the liked post; the store invariant holds throughout |
| Posts.PostStore.UnlikePost | routes/api/posts.js:126-151 | a missing post gives 404; with no like by the requester, 400 `notLiked` and no change; otherwise only that post changes, with the first like by the requester removed |
| Posts.PostStore.AddComment | routes/api/posts.js:158-182 | invalid input gives 400 and no change; a missing post gives 404 `postNotFound`; otherwise a comment carrying the requester's id is put first on that post, and nothing else changes |
| Posts.PostStore.DeleteComment | routes/api/posts.js:189-207 | a missing post gives 404; an absent comment id gives 404 `commentNotFound` and no change; otherwise the first comment with that id is removed and the requester is not consulted |
| Profiles.TruthyFields | routes/api/profiles.js:115-121 | a key is copied exactly when it is one of the named keys and truthy in the body, and it keeps the body's value |
| Profiles.ProfileFieldsOf | routes/api/profiles.js:113-132 | `user` is the requester; each text field is present exactly when truthy; `skills` is present exactly when defined and is its comma split; `social` is always an object holding exactly the truthy links; a defined non-string `skills` throws |
| Profiles.BuildProfileFields | routes/api/profiles.js:113-132 | the successive conditional assignments build exactly the object `ProfileFieldsOf` describes |
| Profiles.CopyTextFields | routes/api/profiles.js:113-121 | the seven conditional copies leave `user` and exactly the truthy text fields |
| Profiles.CopySocialLinks | routes/api/profiles.js:127-132 | the five conditional copies leave exactly the truthy links in `social` |
| Profiles.SkillsJoinBack | routes/api/profiles.js:123-125 | the stored skills joined with "," give back the submitted string |
| Profiles.SetFields | routes/api/profiles.js:137 | `$set` replaces every top-level key of the update, `social` as a whole, and keeps the other stored keys |
| Profiles.HandleTaken | routes/api/profiles.js:144 | a defined handle is taken exactly when some profile holds it; with no handle in `profileFields` the query is `{ handle: undefined }`, which Mongoose treats as `{}`, so it finds a profile exactly when there is any profile at all |
| Profiles.CreateKeepsUniqueHandles | routes/api/profiles.js:144-154 | a create that passes the handle check keeps handles unique |
| Profiles.ProfileStore.Current | routes/api/profiles.js:25-39 | the requester's profile, or 404 `noProfile` exactly when the requester has none |
| Profiles.ProfileStore.Update | routes/api/profiles.js:134-139 | the requester's profile becomes the `$set` of the new fields and is returned; no handle check is made; the number of profiles is unchanged |
| Profiles.ProfileStore.Create | routes/api/profiles.js:140-155 | a taken handle gives 400 `handle` and saves nothing; otherwise the new profile is saved under the requester; unique handles are preserved |
| Profiles.ProfileStore.CreateAsWritten | routes/api/profiles.js:144-154 | as written, a taken handle still gets its 400, but the profile is saved regardless |
| Profiles.ProfileStore.Upsert | routes/api/profiles.js:106-158 | the route with the corrected create path: invalid input gives 400 with the validator's errors and no change; a defined non-string `skills` aborts with no change; an existing profile is updated; a new one is saved only when its handle is free |
| Profiles.ProfileStore.UpsertAsWritten | routes/api/profiles.js:106-158 | the route as written: the same, except that a new profile whose handle is taken is answered 400 and saved all the same |
| Profiles.DuplicateHandleAsWritten | routes/api/profiles.js:144-154 | the as-written create path ends with two users holding the same handle while answering 400 |
| Profiles.DuplicateHandleByUpdate | routes/api/profiles.js:134-139 | the update path can copy another user's handle, even with the corrected create path |
| Users.CurrentUser | routes/api/users.js:126-136 | `/current` sends exactly id, name and email, never the password or the avatar |
| Users.UserStore.Register | routes/api/users.js:25-58 | a taken email gives 400 `email` and adds nobody; otherwise the user is saved with the gravatar of its email (200, pg, mm) and the hash of the password under the salt, and the saved document is sent back |
| Users.UserStore.Login | routes/api/users.js:65-119 | exactly one of four outcomes: 404 `User not found` exactly when the email is unknown; 400 `Password incorrect` exactly when compare fails; success exactly when signing succeeds, with "Bearer " plus the token signed over id, name and avatar for 3600 seconds; a signing error, which gives 400 `Error during signing token` |
| Users.RegisterTwice | routes/api/users.js:26-29 | registering the same email twice in a row: the second attempt is always rejected and the first user stays as saved |
| Users.RegisterThenLogin | routes/api/users.js:43-99 | a user who just registered and logs in with the same password gets the Bearer token, when compare recognises its own hash and signing succeeds |
| EducationValidation.ValidatorIsEmpty | validation/education.js:12 | `Validator.isEmpty` is true exactly for "" and throws on a non-string |
| EducationValidation.NormalisedData | validation/education.js:7-10 | each required field becomes "" when empty and keeps its value otherwise; every other field is untouched |
| EducationValidation.ErrorsOf | validation/education.js:12-26 | a required field gets its fixed message exactly when it holds ""; no other key appears |
| EducationValidation.VerdictOf | validation/education.js:4-29 | the validator throws exactly when a normalised required field is not a string; otherwise error keys are required fields with their fixed messages, present exactly when the normalised field is "" |
| EducationValidation.NormaliseRequired | validation/education.js:7-10 | the four in-place reassignments leave the data normalised |
| EducationValidation.Validate | validation/education.js:4-29 | the in-place run leaves the data normalised and returns the verdict `VerdictOf` describes |
| EducationValidation.ErrorsExactlyForEmptyFields | validation/education.js:12-26 | given the is-empty contract, a required field gets a message exactly when it is empty |
| EducationValidation.ValidIffAllFieldsFilled | validation/education.js:28 | given the is-empty contract, `isValid` holds exactly when the error map is empty, and exactly when all four fields are non-empty |
| EducationValidation.ThrowsIffNonEmptyNonString | validation/education.js:7-24 | given the is-empty contract, the validator throws exactly when a required field is non-empty and not a string |
| EducationValidation.NormaliseIdempotent | validation/education.js:7-10 | normalising twice is normalising once, and validating normalised data gives the original verdict |
| EducationValidation.ValidateTwice | validation/education.js:4-29 | a second run on the rewritten data leaves it unchanged and gives the same verdict |
| EditProfileForm.InitialState | client/src/components/edit-profile/EditProfile.js:16-32 | every form field starts as "", the social inputs hidden and no errors |
| EditProfileForm.EditProfile.constructor | client/src/components/edit-profile/EditProfile.js:14-36 | the component starts in the initial state |
| EditProfileForm.Defaulted | client/src/components/edit-profile/EditProfile.js:54-59 | company, website, location, githubUsername and bio become "" when empty; `social` becomes {} when empty; every other field is untouched |
| EditProfileForm.Linked | client/src/components/edit-profile/EditProfile.js:60-64 | each of the five links is copied from `social` to the top level, "" when empty; every other field is untouched |
| EditProfileForm.FormOf | client/src/components/edit-profile/EditProfile.js:67-81 | the state update holds exactly the thirteen form fields, with `skills` the joined string and the others read from the profile |
| EditProfileForm.ProfileToForm | client/src/components/edit-profile/EditProfile.js:48-81 | loading throws exactly when `skills` is not an array or `social` cannot be read; otherwise: `skills` is the joined list; handle and status are copied; the blanked fields and links are "" when empty |
| EditProfileForm.WithErrors | client/src/components/edit-profile/EditProfile.js:43-45 | truthy errors replace `errors` in state; otherwise nothing changes |
| EditProfileForm.EditProfile.ReceiveProps | client/src/components/edit-profile/EditProfile.js:42-83 | with no profile, only `errors` may change; with one, the profile is rewritten in place and the form fields become the loaded form, unless loading throws |
| EditProfileForm.Rewritten | client/src/components/edit-profile/EditProfile.js:51-64 | the received profile after the in-place rewrite: untouched when `skills.join` throws; otherwise `social` is defaulted (`{}` when empty), the five fields are blanked when empty and, when `social` is readable, the five links are copied from it; when it is not readable the result is exactly the defaulted profile; no other field changes and no key outside those eleven is added |
| EditProfileForm.LoadProfile | client/src/components/edit-profile/EditProfile.js:48-81 | the in-place rewrite of the profile ends where `Rewritten` says and returns the form `ProfileToForm` describes |
| EditProfileForm.ApplyDefaults | client/src/components/edit-profile/EditProfile.js:54-59 | the six in-place reassignments leave the profile as `Defaulted` describes |
| EditProfileForm.BlankEmptyFields | client/src/components/edit-profile/EditProfile.js:54-58 | the five in-place reassignments blank exactly the five fields when empty |
| EditProfileForm.BlankField | client/src/components/edit-profile/EditProfile.js:54-58 | one `profile.k = !isEmpty(profile.k) ? profile.k : ""` blanks k and keeps the fields blanked before it |
| EditProfileForm.CopyLinks | client/src/components/edit-profile/EditProfile.js:60-64 | the five in-place reassignments leave the profile as `Linked` describes |
| EditProfileForm.PayloadOf | client/src/components/edit-profile/EditProfile.js:85-103 | the payload holds exactly the thirteen form fields of the state, never `errors` or `displaySocialInputs` |
| EditProfileForm.PayloadOfLoadedForm | client/src/components/edit-profile/EditProfile.js:87-101 | once a form is loaded, the payload is exactly that form, whatever else the state holds |
| EditProfileForm.EditProfile.OnChange | client/src/components/edit-profile/EditProfile.js:105-107 | only the field named by the event changes, to the typed value |
| EditProfileForm.Toggled | client/src/components/edit-profile/EditProfile.js:254-257 | `displaySocialInputs` becomes the negation of its old value and nothing else changes |
| EditProfileForm.EditProfile.ToggleSocialInputs | client/src/components/edit-profile/EditProfile.js:254-257 | the button's state update is the toggle |
| EditProfileForm.ToggleTwice | client/src/components/edit-profile/EditProfile.js:254-257 | toggling twice restores the state |
| EditProfileForm.SkillsRoundTripFromServer | client/src/components/edit-profile/EditProfile.js:51 | skills the server split come back into the form as the exact string that was submitted |
| EditProfileForm.SkillsRoundTripFromForm | routes/api/profiles.js:123-125 | a non-empty list of comma-free skills, loaded into the form and submitted unchanged, is stored again as the same list |
| EditProfileForm.EmptySkillsComeBackAsOneBlank | routes/api/profiles.js:123-125 | an empty skills list, loaded and submitted unchanged, comes back as one empty skill |
| EditProfileForm.LoadThrowsOnlyOnSkills | client/src/components/edit-profile/EditProfile.js:51-64 | given the is-empty contract, loading a profile throws exactly when its skills are not an array |

## Left out

- `server.js`, the Redux actions, `CreateProfile.js`, every `render()` and the routing: these are wiring and UI, with no rule to state.
- The database's internals are left out: persistence, `populate("user", ...)`, generated ids and dates, and promise chaining. The store is a value in memory; ids and dates are parameters.
- The `.catch` branches for a failed lookup and a failed save are left out. They are database failures, and the model's store operations do not fail.
- Users.UserStore.Register: email and password are strings, so a body that lacks either is outside the model. Without a password, `bcrypt.hash` reports an error, and `throw err` at routes/api/users.js:45 escapes the callback. Without an email, `User.findOne({ email: undefined })` at routes/api/users.js:26 matches any user.
- Users.UserStore.Login: email and password are strings, so a body that lacks either is outside the model. Without a password, `bcrypt.compare` rejects and the handler answers 400 "Error while comparing" (routes/api/users.js:108-112). Without an email, the lookup at routes/api/users.js:70 matches any user.
- The `Profile.findOne` lookups of the requester's profile in the delete, like and unlike handlers (routes/api/posts.js:70, 97, 127) are left out. Their results are unused, and they fail only on a database error.
- The feed's `!posts` 404 branch (routes/api/posts.js:20-22) is left out. `find` always gives an array, so the branch cannot be taken.
- The other routes are not part of this model: `GET /:id` of posts, and the profile routes `/test`, `/all`, `/handle/:handle` and `/user/:user_id`.
- The internals of bcrypt, jsonwebtoken, gravatar and Passport are left out. They are foreign libraries and arrive as function parameters; the authenticated user arrives as an id.
- `validatePostInput`, `validateProfileInput` and `is-empty` are not part of this model. Their results, or the function itself, are parameters.
- Concurrency is left out: the check-then-insert races on email and handle, and lost updates to likes. Requests are handled one at a time.
- Numeric body values are outside the model: `Js.Value` has no numbers. In the source, 0 is falsy, so the `if (request.body.x)` tests at routes/api/profiles.js:115-132 skip it and copy every other number. `isEmpty` keeps a number such as `from: 2015`, and `Validator.isEmpty` then throws on it (validation/education.js:12-24). Dates are integers, and `expiresIn` is the constant 3600.
- React's handling of an exception thrown inside `componentWillReceiveProps` is left out. The model reports `threw`, and the form fields keep their values.
- Profiles.ProfileStore.Upsert: it uses the corrected create path, so a taken handle saves nothing. `Profiles.ProfileStore.UpsertAsWritten` is the route as written, where the profile is saved regardless.
- Posts.SortByDateDesc: the database does not say how posts with equal dates are ordered. The model fixes one tie order, so only newest-first and the permutation are promised.
- Users.UserStore.Register: the model does not prove that the stored password differs from the plaintext. `hash` is an arbitrary parameter; what is proved is that the stored field is `hash(password, salt)`.
- Users.UserStore.Register: it requires an unused id for the new user. The id stands for the identifier the database generates.
- Posts.PostStore.AddComment: it requires a comment id not yet used. The id stands for the identifier the database generates.
- Posts.PostStore.Create: it requires a post id not yet used. The id stands for the identifier the database generates.
- Profiles.HandleTaken: follows Mongoose dropping filter keys whose value is undefined, so `{ handle: undefined }` is `{}`; were undefined sent as null, the lookup would match only profiles without a handle.

## Findings

| source | as written | input that shows it | evidently intended | confidence | as-written member | corrected member |
|---|---|---|---|---|---|---|
| routes/api/profiles.js:144-154 | after the 400 for a taken handle there is no `return`, so the new profile is still saved | user "a" holds handle "h"; user "b", with no profile yet, posts a profile with handle "h" | a taken handle answers 400 and saves nothing, keeping handles unique | not executed | Profiles.DuplicateHandleAsWritten | Profiles.ProfileStore.Create |
