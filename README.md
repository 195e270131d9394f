# Vitalize companion — a verified model of its client logic

Vitalize is a Next.js fitness app on Firebase. This project models in Dafny the parts of it that make decisions:

- **Markdown renderer.** `renderMarkdown` is shared, letter for letter, by the workout and meal suggester cards. It turns a generated plan into HTML line by line, carrying a `listOpen` flag.
- **Suggester cards.** Their form rule and the state updates of `onSubmit`.
- **First-contact quiz.** It tallies A/B/C answers and picks a plan.
- **Progress tracker.** Its form rules, calendar bounds and the day-keyed write of `onSubmit`.
- **Login page.** The user record created on first sign-in, the check of the session route's answer, and the texts shown when sign-up, login or Google sign-in fails.
- **Profile page.** Its two forms, the merge of name and photo into the user record, and the password change.
- **Session route** `/api/auth/session`. Bearer-token extraction, the 200/401/500 outcome and the cookie options for POST, and the cookie clearing of DELETE.
- **Community feed.** Pagination and the composer's greeting.
- **User card and header.** Their name, handle, avatar and photo fallbacks, and the sign-out sequence.

The progress chart plots the constant table at `src/components/dashboard/progress-tracker.tsx` lines 48-55; no BMI or lean-mass value is computed anywhere in the code.

## How things are modelled

- **Firestore** is one class, `Firestore.Store`, holding a `map` from document path to document (a `map` from field to `Value`).
  - `SetDoc` replaces a document.
  - `SetDocMerge` writes only the given fields.
  - `Replaced`, `Merged` and `CreatedIfAbsent` state each resulting store exactly, including that every other document is unchanged.
- **React state** is a class per component with one field per `useState`.
  - Every `set` call of a loading flag is recorded in a log, so "true during the save, false afterwards" is a statement about the log.
  - Toasts and `router.push` calls are recorded as sequences.
- **Firebase Auth, Firestore's accept-or-throw verdict, Firebase Admin, `fetch` and the Genkit service** are oracles. What they return or throw is a parameter of the handler; the session route takes the token verifier and the cookie minter as functions. An `ErrorValue(code, message)` stands for a thrown error, with "" standing for an absent property (both are falsy in the source's conditions).
- **The renderer** is specified on a sequence of fragments (`Markdown.Fragment`) whose HTML is their concatenation. `Markdown.RenderMarkdown` is the source's loop over the lines, proved to build exactly `Html(Render(text))`; the tag balance is proved about `Render`.
  - The bold regex `/\*\*(.*?)\*\*/g` is written out as a left-to-right scan. Its `.` does not match the line terminators \n, \r, U+2028 and U+2029.
  - `split('\n')` has a proved inverse.
- **zod schemas** are functions returning the list of issues (path, message). Their contracts say when the list is empty (both directions) and which issue appears for which broken rule.
  - zod's URL test is the parameter `isUrl`.
  - A failing `url().or(literal(""))` reports the URL message.
  - The password refinement runs even when a length rule failed, so all broken rules are reported together.
- **The progress entry's id** is `format(date, "yyyy-MM-dd")`, written out as zero-padded decimal tokens. Reading a token back gives its number, so two days share an id exactly when they are the same day.
- **The meal card**: the meal service's answer has no `mealPlan` field, so the card always receives the `Success(None)` case of `Suggesters.Suggester.OnSubmit`.

## Model

| member | source | states |
|---|---|---|
| Markdown.SplitLines | src/components/dashboard/workout-suggester.tsx:71 | splitting at '\n' gives at least one piece and no piece contains '\n' |
| Markdown.JoinExtendsFirst | src/components/dashboard/workout-suggester.tsx:70-71 | putting a character in front of the first line puts it in front of the joined text |
| Markdown.JoinSplitLines | src/components/dashboard/workout-suggester.tsx:70-71 | joining the pieces of a split with '\n' gives the text back, so every character of the plan reaches exactly one line |
| Markdown.SplitJoinLines | src/components/dashboard/workout-suggester.tsx:71 | splitting a '\n'-join of lines without '\n' gives the lines back |
| Markdown.ReplaceBold | src/components/dashboard/workout-suggester.tsx:79 | `replace(/\*\*(.*?)\*\*/g, '<strong>$1</strong>')` as a left-to-right scan: an opening `**` with a reachable closing `**` (by `FindClose`) becomes a `<strong>` element and the scan resumes after the closing pair; anything else is copied one character at a time |
| Markdown.FindClose | src/components/dashboard/workout-suggester.tsx:79 | the lazy match: the result is the first `**` after the opening reached without crossing a line terminator; None exactly when no such `**` exists |
| Markdown.BoldCopiesStarFreePrefix | src/components/dashboard/workout-suggester.tsx:79 | text without '*' passes the bold replacement unchanged, and so does a '*'-free prefix of any text |
| Markdown.BoldPairReplaced | src/components/dashboard/workout-suggester.tsx:79 | a `**t**` pair whose text holds no `**`, does not end in '*' and has no line terminator becomes `<strong>t</strong>`, and the replacement continues after the pair (left to right, no overlap) |
| Markdown.BoldEmptyIff | src/components/dashboard/workout-suggester.tsx:79 | a line is empty after bold replacement exactly when it was empty, so the paragraph test sees the same emptiness as the raw line |
| Markdown.MarkersExclusive | src/components/dashboard/workout-suggester.tsx:74-76 | a line starting "### " starts with neither "## " nor "# ", and a "## " line does not start with "# ": the longest marker is tested first and "### x" is never an h3 |
| Markdown.RenderLine | src/components/dashboard/workout-suggester.tsx:72-101 | the per-line step as fragments: headings by the longest marker first, then list items and paragraphs of the bold-replaced text, with the `listOpen` flag the source's callback leaves |
| Markdown.Render | src/components/dashboard/workout-suggester.tsx:70-105 | the fragments of the whole plan: the lines of `split('\n')` stepped in order from no open list, with a closing `</ul>` when one is still open |
| Markdown.HeadingLine | src/components/dashboard/workout-suggester.tsx:74-76 | "### ", "## " and "# " lines become exactly one h5, h4 or h3 with the marker removed and without bold processing, and the list flag is unchanged, so a heading does not close an open list |
| Markdown.ListItemLine | src/components/dashboard/workout-suggester.tsx:82-89 | a line whose bold-replaced text starts "* " or "- " emits `<li>` with the first two characters removed, preceded by `<ul>` only when no list is open; afterwards a list is open |
| Markdown.OtherLine | src/components/dashboard/workout-suggester.tsx:91-100 | any other line emits `</ul>` first if a list is open, then a paragraph of its bold-replaced text unless it is empty; afterwards no list is open |
| Markdown.PlainLineParagraph | src/components/dashboard/workout-suggester.tsx:99 | a non-empty line without '*' and without a marker becomes `<p>line</p>` verbatim: text is not escaped |
| Markdown.HtmlAppend | src/components/dashboard/workout-suggester.tsx:102 | the HTML of consecutive fragment runs is the concatenation of their HTML, with no separator |
| Markdown.RenderLineHtml | src/components/dashboard/workout-suggester.tsx:72-101 | the per-line callback returns the HTML of the line's fragments and the new `listOpen`, as `Markdown.RenderLine` defines them |
| Markdown.PrefixThenRest | src/components/dashboard/workout-suggester.tsx:72-103 | mapping the lines in order with the captured flag is a fold: the fragments of all lines are those of the first n lines followed by those of the rest, started from the flag the first n leave |
| Markdown.RenderNextLine | src/components/dashboard/workout-suggester.tsx:72-103 | one call of the callback on the next line extends the HTML of the lines so far by that line's HTML and sets the flag to the one after it |
| Markdown.RenderMarkdown | src/components/dashboard/workout-suggester.tsx:68-105 | the loop over the lines, with a final `</ul>` if a list is still open, builds exactly the HTML of the fragments of all lines in order (the meal card, `meal-suggester.tsx` lines 68-105, has the identical renderer) |
| Markdown.ListStateAppend | src/components/dashboard/workout-suggester.tsx:69-105 | the list discipline of two consecutive fragment runs is read by running the second from the state the first ends in |
| Markdown.RenderLinesDiscipline | src/components/dashboard/workout-suggester.tsx:84-105 | from either list state, the rendered fragments never open a list inside a list, never close one that is not open, put items only inside a list and paragraphs only outside, and end with no list open |
| Markdown.ListStateCounts | src/components/dashboard/workout-suggester.tsx:84-95 | along a run that keeps the discipline, `<ul>` and `</ul>` counts differ exactly by the lists open at its two ends |
| Markdown.RenderBalanced | src/components/dashboard/workout-suggester.tsx:105 | the rendered plan keeps the list discipline and has exactly as many `<ul>` as `</ul>` (the same holds for the meal card's identical copy) |
| Suggesters.MinLengthIssues | src/components/dashboard/workout-suggester.tsx:31-33 | a single-field `min` rule reports nothing exactly when the text is long enough, and otherwise exactly one issue on that field with its message |
| Suggesters.EquipmentRule | src/components/dashboard/workout-suggester.tsx:32 | the equipment text is accepted exactly when it has at least 2 characters |
| Suggesters.IngredientsRule | src/components/dashboard/meal-suggester.tsx:32 | the ingredients text is accepted exactly when it has at least 3 characters |
| Suggesters.Suggester.Workout | src/components/dashboard/workout-suggester.tsx:37-40 | the workout card starts with no plan, not loading, and uses its own failure text |
| Suggesters.Suggester.Meal | src/components/dashboard/meal-suggester.tsx:37-40 | the meal card starts with no plan, not loading, and uses its own failure text |
| Suggesters.Suggester.OnSubmit | src/components/dashboard/workout-suggester.tsx:49-65 | loading is set true then false; the plan is cleared before the request; on success it becomes the service's plan (absent stays absent); on failure it stays cleared and one error toast is shown; the meal card (`meal-suggester.tsx` lines 49-65) runs the same sequence with its own failure text |
| Quiz.AnswerChange | src/app/quiz/page.tsx:96-98 | the answered question gets the value; its key is added; every other answer is unchanged |
| Quiz.ReanswerReplaces | src/app/quiz/page.tsx:96-98 | answering again replaces the earlier answer and adds no key |
| Quiz.AllQuestionsAnswered | src/app/quiz/page.tsx:117 | the result button is enabled when the answer map has as many keys as there are questions (5) |
| Quiz.AllAnsweredMeansEveryQuestion | src/app/quiz/page.tsx:117 | with answers only for the quiz's questions, the key count equals 5 exactly when every question q1..q5 is answered |
| Quiz.FirstMaximal | src/app/quiz/page.tsx:106-112 | the chosen plan letter is one of A, B, C |
| Quiz.MajorityIsMaximal | src/app/quiz/page.tsx:106-112 | the chosen letter's count is at least the count of each of A, B and C |
| Quiz.MajorityTieBreak | src/app/quiz/page.tsx:106-112 | A wins every tie it is part of; B wins when it beats A and ties or beats C; C is chosen exactly when it beats both |
| Quiz.CountedStep | src/app/quiz/page.tsx:102-104 | counting one more answer bumps exactly its own letter's count, and none when it is not a letter |
| Quiz.TallyAnswers | src/app/quiz/page.tsx:101-104 | the counting loop over the answers leaves, for each of A, B and C, the number of questions answered with it |
| Quiz.MajorityLetter | src/app/quiz/page.tsx:100-112 | the counts and the two strict comparisons pick the first maximal letter of the true tallies of A, B and C |
| Quiz.CountsSum | src/app/quiz/page.tsx:101-104 | over any set of questions whose answers are all letters, the three counts add up to the number of questions |
| Quiz.TallySum | src/app/quiz/page.tsx:101-104 | when every answer is a letter, the three tallies add up to the number of answers |
| Quiz.QuizPage.constructor | src/app/quiz/page.tsx:92-93 | no answers and no result at first |
| Quiz.QuizPage.HandleAnswerChange | src/app/quiz/page.tsx:96-98 | the answers become the functional update and the result is untouched |
| Quiz.QuizPage.CalculateResult | src/app/quiz/page.tsx:100-115 | with all questions answered, the result is the `results` entry of the first maximal letter of the tallies |
| Quiz.QuizPage.CloseDialog | src/app/quiz/page.tsx:167 | closing the dialog resets the result and keeps the answers |
| Firestore.StrOrNull | src/app/login/page.tsx:47-50 | an absent user property is stored as null, a present one as that string |
| Firestore.Replaced | src/components/dashboard/progress-tracker.tsx:112-117 | `setDoc` leaves exactly the given data at the path and every other document as it was |
| Firestore.Merged | src/app/dashboard/profile/page.tsx:90-93 | a merge writes the given fields, keeps the document's other fields, creates the document if absent and leaves other documents alone |
| Firestore.CreatedIfAbsent | src/app/login/page.tsx:44-54 | an existing document is left as it is; a missing one is written as a replacement |
| Firestore.CreateIfAbsentIdempotent | src/app/login/page.tsx:42-55 | creating if absent twice is the same as once, whatever the second data, and the document then exists |
| Firestore.ReplaceOverwrites | src/components/dashboard/progress-tracker.tsx:108-117 | a second `setDoc` at the same path overwrites the first and adds no document |
| Firestore.Store.Exists | src/app/login/page.tsx:44-45 | `getDoc(ref)` followed by `exists()`: whether a document is stored at the path |
| Firestore.Store.SetDoc | src/components/dashboard/progress-tracker.tsx:112 | the store after the write is the replacement |
| Firestore.Store.SetDocMerge | src/app/dashboard/profile/page.tsx:90-93 | the store after the write is the merge |
| Progress.Digits | src/components/dashboard/progress-tracker.tsx:108 | the decimal rendering of a number is non-empty and all digits |
| Progress.Pad | src/components/dashboard/progress-tracker.tsx:108 | a `yyyy`/`MM`/`dd` token is all digits and at least as wide as the token |
| Progress.DigitsRoundTrip | src/components/dashboard/progress-tracker.tsx:108 | reading the decimal rendering of a number gives the number |
| Progress.PadRoundTrip | src/components/dashboard/progress-tracker.tsx:108 | reading a zero-padded token gives its number back |
| Progress.DateKey | src/components/dashboard/progress-tracker.tsx:108 | the document id `format(date, 'yyyy-MM-dd')`: the four-digit year, two-digit month and two-digit day joined by '-' |
| Progress.ProgressPath | src/components/dashboard/progress-tracker.tsx:109-110 | the entry's path `usuarios/{uid}/progresso/{yyyy-MM-dd}` |
| Progress.DateKeyInjective | src/components/dashboard/progress-tracker.tsx:108-110 | two days have the same `yyyy-MM-dd` id exactly when they are the same day |
| Progress.ProgressIssues | src/components/dashboard/progress-tracker.tsx:64-76 | a submission passes exactly when weight is positive, body fat is positive or absent (the absent case has no input in the source, see below) and a date is given; each broken rule reports its own message |
| Progress.DateDisabled | src/components/dashboard/progress-tracker.tsx:202-204 | a day can be picked exactly when it lies between 1900-01-01 and today |
| Progress.StoredBodyFat | src/components/dashboard/progress-tracker.tsx:114 | a zero body fat is stored as null, any other value as that number; absent is also stored as null (the form never produces it) |
| Progress.ProgressDoc | src/components/dashboard/progress-tracker.tsx:112-117 | the entry holds exactly weight, bodyFat, date and createdAt with the submitted values |
| Progress.AtMostOneEntryPerDate | src/components/dashboard/progress-tracker.tsx:108-117 | in a collection filed by date, two entries of one user with the same date are the same document |
| Progress.SavePreservesKeyed | src/components/dashboard/progress-tracker.tsx:108-117 | saving an entry keeps every entry filed under the id of its own date |
| Progress.SaveTouchesOnlyItsDay | src/components/dashboard/progress-tracker.tsx:108-117 | saving one day leaves the entry of every other day unchanged |
| Progress.ProgressTracker.OnSubmit | src/components/dashboard/progress-tracker.tsx:95-133 | without a user only the sign-in toast is added and neither loading nor the store changes; with one, loading goes true then false, and either the day's entry is replaced and the success toast shown, or nothing is written and the failure toast shown; filing by date is kept |
| Login.NewUserDoc | src/app/login/page.tsx:46-53 | the record written for a new user: uid, email, displayName and photoURL (null when absent), createdAt and the role "user" |
| Login.NewUserDocFields | src/app/login/page.tsx:46-53 | a new user record holds exactly uid, email, displayName, photoURL, createdAt and the role "user" |
| Login.SaveUserToFirestore | src/app/login/page.tsx:42-55 | the record is written only when none exists for the uid; a backend error writes nothing and is passed on |
| Login.SecondSaveKeepsFirstRecord | src/app/login/page.tsx:44-54 | a second sign-in leaves the record of the first untouched, including its createdAt |
| Login.AuthSuccessError | src/app/login/page.tsx:57-70 | the session step fails exactly when the request throws or the reply is not ok; a refusal carries the server's message, or the fixed fallback when it has none, and no code |
| Login.SignUpDescription | src/app/login/page.tsx:86-95 | a coded sign-up error is described only by its code (two codes have their own text, all others the default, even with a message); an uncoded one by its message, else the default |
| Login.LoginDescription | src/app/login/page.tsx:119-126 | the user-not-found, wrong-password and invalid-credential codes share one text; other codes give the default; an uncoded error gives its message, else the default |
| Login.SessionRefusalShown | src/app/login/page.tsx:66-69 | a refused session shows the server's message (or the fallback) on both forms |
| Login.CompleteSignIn | src/app/login/page.tsx:74-77 | after the account call, the record step and the session step run in order, the first error stops them and is the one returned, and the record is created only after a successful account call whose backend calls succeed |
| Login.SignInError | src/app/login/page.tsx:74-77 | a sign-in succeeds exactly when auth, the record step and the session step all do; the first failure is the one reported |
| Login.LoginPage.HandleSignUp | src/app/login/page.tsx:72-104 | loading goes true then false; the record is created if absent after a successful auth; success toasts and navigates to "/"; any failure toasts its sign-up description and does not navigate |
| Login.LoginPage.HandleLogin | src/app/login/page.tsx:106-136 | loading goes true then false; nothing is written; success toasts and navigates to "/"; any failure toasts its login description and does not navigate |
| Login.LoginPage.HandleGoogleSignIn | src/app/login/page.tsx:139-162 | the Google loading flag goes true then false; the record is created if absent; success toasts and navigates; every failure shows the one fixed Google message |
| Profile.ProfileIssues | src/app/dashboard/profile/page.tsx:29-32 | the profile form passes exactly when a given name has at least 2 characters and a given photo is "" or a URL; each broken rule reports its own message |
| Profile.PasswordIssues | src/app/dashboard/profile/page.tsx:34-41 | the password form passes exactly when the current password is non-empty, the new one has at least 6 characters and the confirmation equals it; a mismatch is reported on confirmPassword |
| Profile.ResetNameNeedsEditing | src/app/dashboard/profile/page.tsx:63-70 | a user without a profile name gets "" in the form, which the two-character rule rejects |
| Profile.PasswordErrorDescription | src/app/dashboard/profile/page.tsx:125-128 | the wrong-password code, and only it, gives the "senha atual incorreta" text; everything else the generic one |
| Profile.ProfileFields | src/app/dashboard/profile/page.tsx:90-93 | the merged fields are exactly displayName and photoURL |
| Profile.ProfileMergeKeepsRecord | src/app/dashboard/profile/page.tsx:89-93 | the merge sets name and photo and keeps every other field of the record (uid, email, createdAt, role) and every other document |
| Profile.ProfilePage.OnAuthStateChanged | src/app/dashboard/profile/page.tsx:63-76 | a signed-in user fills the form with the name and photo, "" when absent; no user navigates to /login |
| Profile.ProfilePage.HandleProfileUpdate | src/app/dashboard/profile/page.tsx:78-108 | without a user nothing changes; otherwise loading goes true then false and either the merge is written with a success toast, or nothing is written and the error's own message is shown |
| Profile.ProfilePage.HandlePasswordUpdate | src/app/dashboard/profile/page.tsx:110-137 | without a user or an e-mail nothing changes; otherwise loading goes true then false; success clears the three password fields, failure keeps them and shows the mapped text |
| Session.NextBearer | src/app/api/auth/session/route.ts:9 | the result is the first occurrence of "Bearer " at or after the start position; None exactly when there is none |
| Session.BearerToken | src/app/api/auth/session/route.ts:9 | `split('Bearer ')[1]` is the text right after the prefix, up to the next separator, and never contains the separator |
| Session.BearerRoundTrip | src/app/api/auth/session/route.ts:8-9 | the header `Bearer ${idToken}` yields the token back exactly when the token does not contain "Bearer " |
| Session.Post | src/app/api/auth/session/route.ts:5-33 | 401 with the unauthorized body exactly without a bearer header; 200 exactly when verification and minting succeed, with the session cookie (httpOnly, path "/", maxAge = 432,000,000, the millisecond lifetime used as the cookie's age in seconds, secure in production); 500 otherwise, with the prefixed message and no cookie; after a successful verification, a failed minting gives exactly the 500 of the minter's own error (the verifier's case is Session.VerifyBeforeMint) |
| Session.ServerError | src/app/api/auth/session/route.ts:28-31 | a thrown error gives 500 with "Internal Server Error: " and its message, or the default text when it has none |
| Session.VerifyBeforeMint | src/app/api/auth/session/route.ts:10-13 | a rejected token gives the verifier's 500 whatever the minter would do |
| Session.UnauthorizedWithoutOracles | src/app/api/auth/session/route.ts:7-27 | without a bearer header the answer depends on neither oracle nor the environment |
| Session.Delete | src/app/api/auth/session/route.ts:35-39 | DELETE answers ok with a success body and exactly one cookie: name "session", empty value, maxAge -1, path "/", neither httpOnly nor secure |
| Session.DeleteClearsPostCookie | src/app/api/auth/session/route.ts:14-39 | DELETE's cookie has the name and path of POST's, an empty value and a negative age |
| Session.Reply | src/app/login/page.tsx:66 | the client reads `ok` from the status and the body's message |
| Session.SignInOpensSession | src/app/login/page.tsx:57-70 | with a verifiable token the route answers 200 and the login page's check passes, and the cookie holds the minted value |
| Session.RefusalShownOnLogin | src/app/api/auth/session/route.ts:28-31 | a rejected token reaches the login form as the route's "Internal Server Error: …" message |
| Feed.Shown | src/components/dashboard/community-feed.tsx:76 | the feed shows the first min(visible, posts) posts in their order |
| Feed.LoadMoreShown | src/components/dashboard/community-feed.tsx:95 | the load-more footer is rendered when `visiblePosts < posts.length` |
| Feed.LoadMoreIffHidden | src/components/dashboard/community-feed.tsx:95-101 | the load-more footer is there exactly while some post is hidden; without it all posts are shown |
| Feed.VisibleAfter | src/components/dashboard/community-feed.tsx:46-58 | after k presses the counter is 2 + 2k; the card's constructor starts at k = 0 and each `HandleLoadMore` moves from k to k + 1 |
| Feed.PressesReveal | src/components/dashboard/community-feed.tsx:56-58 | after k presses the footer shows exactly while 2 + 2k is below the post count; a press keeps the shown posts as a prefix and shows more while any is hidden |
| Feed.SampleFeedOneClick | src/components/dashboard/community-feed.tsx:20-42 | with the three sample posts two show at first, and one press shows all three and hides the footer |
| Feed.Placeholder | src/components/dashboard/community-feed.tsx:60-72 | the composer greets the user by the card's display name |
| Feed.CommunityFeed.SetUser | src/components/dashboard/community-feed.tsx:49-54 | the listener stores the user and keeps the counter |
| Feed.CommunityFeed.HandleLoadMore | src/components/dashboard/community-feed.tsx:56-58 | a press adds 2 to the counter, moving it from `VisibleAfter(k)` to `VisibleAfter(k + 1)`, keeps the shown posts as a prefix and shows more while any is hidden |
| Common.OrElse | src/components/dashboard/user-profile.tsx:39 | `o \|\| fallback` is the value when it is present and non-empty, else the fallback |
| Common.ToUpperAscii | src/components/dashboard/user-profile.tsx:40 | lower-case ASCII letters become upper case; every other character is unchanged |
| UserProfile.LocalPart | src/components/dashboard/user-profile.tsx:31-32 | `split('@')[0]` is the longest prefix without '@', ending right before the first '@' |
| UserProfile.EmailLocalPart | src/components/dashboard/user-profile.tsx:31-32 | the local part exists exactly when there is a user with an e-mail |
| UserProfile.LocalPartOfAddress | src/components/dashboard/user-profile.tsx:31-32 | the local part of name@domain is name, whatever the domain holds |
| UserProfile.DisplayName | src/components/dashboard/user-profile.tsx:31 | the profile name if non-empty, else the e-mail's local part if non-empty, else "Usuário"; never empty (the community feed, `community-feed.tsx` line 60, uses the same chain) |
| UserProfile.UserName | src/components/dashboard/user-profile.tsx:32 | the e-mail's local part if non-empty, else "usuario"; never empty |
| UserProfile.Handle | src/components/dashboard/user-profile.tsx:57 | the handle is "@" followed by the user name |
| UserProfile.AvatarInitial | src/components/dashboard/user-profile.tsx:40 | the avatar letter is exactly one character, the upper-cased first character of the display name |
| UserProfile.Photo | src/components/dashboard/user-profile.tsx:39 | the photo is the user's photoURL when non-empty, else the default picture (the header's avatar, `header.tsx` line 53, uses the same fallback) |
| UserProfile.NameAndHandleAgree | src/components/dashboard/user-profile.tsx:31-32 | without a profile name, the title is the handle without '@' when the local part is non-empty, and otherwise both fall back to their defaults |
| Header.HeaderInitial | src/components/dashboard/header.tsx:54 | the avatar letter is one character: the upper-cased first character of the e-mail, or "U" without a user or a non-empty e-mail |
| Header.MenuName | src/components/dashboard/header.tsx:61 | the menu shows the profile name when non-empty, else "Usuário" |
| Header.InitialsAgreeWithoutProfileName | src/components/dashboard/header.tsx:54 | for a user without a profile name whose e-mail does not start with '@', the header and the user card show the same letter |
| Header.SignOut | src/components/dashboard/header.tsx:23-38 | the DELETE is sent exactly when signing out of Firebase succeeds; /login is opened exactly when that DELETE answered ok; otherwise nothing happens |
| Header.SignOutReachesLogin | src/components/dashboard/header.tsx:23-34 | against the session route's own DELETE, a sign-out that succeeds always reaches /login |

## Left out

- Firebase Auth, Firebase Admin's `verifyIdToken` and `createSessionCookie`, the Genkit flows and `fetch` are not modelled. They appear only as the results or errors they hand to the modelled code.
- Console logging is not modelled.
- React rendering, JSX and the `dangerouslySetInnerHTML` sink are left out. Only the HTML string the renderer builds is modelled.
- The handlers are asynchronous. Each is modelled as running to completion; interleaved submissions are not modelled.
- The auth-state subscriptions are method calls in the model. Unsubscribing is not modelled.
- The meal card's result section reads an undeclared `workoutPlan`, so it is not modelled.
- The meal card's `onSubmit` receives the service's answer as an optional plan. The answer has no `mealPlan` field, so in practice that plan is always absent.
- The Genkit prompts and their output schemas are not modelled. They only pass a template to an external model.
- Progress.ProgressIssues: the form runs `parseFloat` on the weight and body-fat text before the checks. The model takes the parsed numbers as reals and does not model text that parses to NaN. Such text includes an empty body-fat field, which the number check then rejects. The preprocess first runs `z.string().parse` on the raw value, which throws on `undefined` and on the numeric default values; so `None` for body fat stands for an input the source cannot produce, and non-string values are not modelled.
- Progress.DateDisabled: compares calendar days. The source compares instants: the floor is parsed as UTC midnight and today is the current time. The model does not capture how that boundary shifts with the time zone.
- Progress.ProgressTracker.OnSubmit: `createdAt` is given as a millisecond timestamp parameter. Firestore's conversion of `Date` values into timestamps is not modelled.
- Profile.ProfileIssues: zod's URL test is the parameter `isUrl`. Its parser is not modelled.
- Profile.ProfileIssues: string lengths are counted in characters. zod counts UTF-16 code units, so text with characters beyond the Basic Multilingual Plane is not modelled.
- Suggesters.MinLengthIssues and Profile.PasswordIssues count lengths the same way as Profile.ProfileIssues.
- Profile.ProfilePage.HandleProfileUpdate: the form always holds strings, so the `undefined` values that `setDoc` would reject never reach it. The change `updateProfile` makes to the Firebase user object is not modelled.
- Common.ToUpperAscii: upper-cases ASCII letters only. `charAt(0)` on a character outside the Basic Multilingual Plane is not modelled. `toUpperCase` can return two characters ('ß' gives "SS"), so the "exactly one character" of UserProfile.AvatarInitial and Header.HeaderInitial holds for this ASCII model only.
- The DELETE route's 500 branch is not modelled. It is reached only if building the response itself throws.
- Static content is not modelled: the content library, the achievements, the activity log, the chart's constant data and its axis domains.
- The pass-through pages and the middleware are not modelled.
