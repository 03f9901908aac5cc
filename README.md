# Threaded comments of a blog site, in Dafny

This project models the client-side logic of a blog site's comment thread and
the small decisions around it:

- **the comment forest** (`CommentForest`): the comment section turns the flat
  list of a post's comments into a forest in two passes. The first pass makes a
  node with an empty `children` list for every comment. The second pass appends
  each node to its parent's children, or to the root list when its `parentId`
  is falsy or names no fetched comment. `BuildForest` is a method over mutable
  `Node` objects. It is specified by the position lists `RootsUpTo` and
  `ChildrenUpTo`, and the lemmas prove what the builder promises about them:
  placement exactly once, the count, the root and orphan policy, order, and a
  parent cycle.
- **the expanded-id set** (`Expansion`): a set of comment ids whose replies are
  shown, held in a state cell `ExpansionSet`. The comment section holds one of
  its own and toggles it. A comment item is given one, with its setter, by the
  component that renders it, and expands and collapses it. The source files
  do not connect the two: the section renders its own inline comment
  component, not the comment item.
- **the comment section** (`CommentSection.Section`): the fetched list, the
  draft of a new comment, and the reply being composed, with the posting flags.
- **one comment item** (`CommentItem`): who may edit a comment, the
  expand/collapse buttons, the reply form, and which children it renders.
- **the edit dialogs** (`UpdateComment`, `UpdateUserName`): open/draft/updating
  state machines.
- **the account form** (`AccountDetailsForm`): its defaults, its name rule, and
  the cleaning of blank strings before sending.
- **the middleware** (`Middleware`): rewrite, redirect or pass a request through.

Asynchronous handlers are split at the server call. `Begin…` runs up to the
call and returns the request it sends (`None` when it sends none). `Finish…`
receives what became of the call. `!s.trim()` is the predicate `JsText.IsBlank`.

## Model

| member | source | states |
|---|---|---|
| JsText.TrimStart | components/PostCommentSection.tsx:73 | `trimStart` drops exactly the leading whitespace: the result is a suffix, starts with a non-whitespace character or is empty, and everything dropped is whitespace |
| JsText.TrimEnd | components/PostCommentSection.tsx:73 | `trimEnd` drops exactly the trailing whitespace: the result is a prefix, ends with a non-whitespace character or is empty, and everything dropped is whitespace |
| JsText.BlankIffAllWhitespace | components/PostCommentSection.tsx:73 | `!s.trim()` holds exactly when every character of s is whitespace |
| JsText.Truthy | components/PostCommentSection.tsx:46 | only "" is a falsy string, so a falsy string is blank and a non-blank string is truthy |
| JsText.Utf16Length | components/AccountDetailsForm.tsx:24 | a string's JavaScript length lies between its character count and twice that |
| JsText.Utf16LengthBmp | components/AccountDetailsForm.tsx:24 | for characters within the Basic Multilingual Plane the JavaScript length is the character count |
| CommentForest.Node.constructor | utils/types.ts:3-14 | a node carries its comment's record unchanged and starts with no children |
| CommentForest.RootsUpTo | components/PostCommentSection.tsx:43-56 | the root positions among the first n comments are positions of those comments |
| CommentForest.ChildrenUpTo | components/PostCommentSection.tsx:43-56 | the positions appended under a parent id among the first n comments are positions of those comments |
| CommentForest.RootsIncreasing | components/PostCommentSection.tsx:43-56 | the root positions strictly increase, so the root list keeps input order |
| CommentForest.ChildrenIncreasing | components/PostCommentSection.tsx:43-56 | each children list's positions strictly increase, so it keeps input order |
| CommentForest.BuildForest | components/PostCommentSection.tsx:29-59 | one fresh node per comment, carrying that comment; the roots and every node's children are exactly the nodes at the positions RootsUpTo and ChildrenUpTo list (so an empty list gives no roots) |
| CommentForest.IndexNodes | components/PostCommentSection.tsx:32-39 | the first pass maps every id to a fresh childless node for that comment |
| CommentForest.AttachNodes | components/PostCommentSection.tsx:41-56 | the second pass leaves the roots and every children list as RootsUpTo and ChildrenUpTo say |
| CommentForest.AttachOne | components/PostCommentSection.tsx:44-55 | one comment goes to the end of its parent's children when its parent reference is truthy and found, and to the end of the roots otherwise; no other list changes |
| CommentForest.RootMembership | components/PostCommentSection.tsx:46-54 | a comment is a root iff its parentId is falsy (null, absent or "") or names no fetched comment |
| CommentForest.ChildMembership | components/PostCommentSection.tsx:46-49 | a comment is under p iff its parentId is truthy, equals p, and p is a fetched id |
| CommentForest.ParentCountIsOneUnlessRoot | components/PostCommentSection.tsx:43-56 | with distinct ids a comment sits in no children list when it is a root and in exactly one otherwise |
| CommentForest.PlacementCount | components/PostCommentSection.tsx:43-56 | the root list and all children lists together hold exactly as many entries as there are comments |
| CommentForest.PlacedOnce | components/PostCommentSection.tsx:43-56 | each comment is a root iff it is in no children list, and it is in the children of at most one node |
| CommentForest.ThreadScenario | components/PostCommentSection.tsx:29-59 | C1, C2 replying to C1, and C3 give roots C1 and C3, with C2 under C1 |
| CommentForest.CycleScenario | components/PostCommentSection.tsx:43-56 | with A's parent B and B's parent A, neither is a root and each is placed once, under the other |
| Expansion.Expanded | components/CommentItem.tsx:47-53 | adding an id puts it in the set and leaves every other id as it was |
| Expansion.Collapsed | components/CommentItem.tsx:54-60 | deleting an id takes it out and leaves every other id as it was |
| Expansion.Toggled | components/PostCommentSection.tsx:110-118 | toggling flips the id's membership and leaves every other id as it was |
| Expansion.ExpandIdempotent | components/CommentItem.tsx:47-53 | expanding twice is expanding once |
| Expansion.CollapseIdempotent | components/CommentItem.tsx:54-60 | collapsing twice is collapsing once |
| Expansion.ToggleTwice | components/PostCommentSection.tsx:110-118 | toggling the same id twice restores the set |
| Expansion.ToggleOtherIds | components/PostCommentSection.tsx:110-118 | toggles of two ids commute |
| Expansion.ExpansionSet.constructor | components/PostCommentSection.tsx:25-27 | the expanded set starts empty |
| CommentSection.Section.constructor | components/PostCommentSection.tsx:17-27 | the section starts loading, with no comments, empty drafts, no reply target, nothing posting and nothing expanded |
| CommentSection.Section.FetchComments | components/PostCommentSection.tsx:65-69 | the fetched list, or [] for a null result, is installed and loading stops |
| CommentSection.Section.Comments | components/PostCommentSection.tsx:29-59 | the forest of the current list, as BuildForest states it: one fresh node per comment, the roots and every node's children at the positions RootsUpTo and ChildrenUpTo list |
| CommentSection.Section.EditNewComment | components/PostCommentSection.tsx:270 | typing replaces the new-comment draft |
| CommentSection.Section.EditReply | components/PostCommentSection.tsx:203 | typing replaces the reply draft |
| CommentSection.Section.StartReply | components/PostCommentSection.tsx:163 | Reply makes that comment the reply target |
| CommentSection.Section.CancelReply | components/PostCommentSection.tsx:226-229 | Cancel clears the reply target and the reply draft |
| CommentSection.Section.BeginPostComment | components/PostCommentSection.tsx:71-78 | a blank draft sends nothing and changes nothing; otherwise the posting flag rises and a top-level comment with the draft is sent |
| CommentSection.Section.FinishPostComment | components/PostCommentSection.tsx:78-85 | the posting flag drops on success and on failure; success installs the re-fetched list; the draft is never cleared |
| CommentSection.Section.BeginSubmitReply | components/PostCommentSection.tsx:88-99 | a blank reply sends nothing and leaves the target and draft as they were; otherwise the flag rises and the draft is sent under the reply target |
| CommentSection.Section.FinishSubmitReply | components/PostCommentSection.tsx:100-107 | on success and on failure alike the target becomes null, the flag drops and the draft becomes "" |
| CommentSection.Section.ToggleCollapse | components/PostCommentSection.tsx:110-118 | the installed set is the old set with the id's membership flipped |
| CommentItem.NullableEmail | components/CommentItem.tsx:39 | a stored email read in JavaScript is null or its string, never undefined |
| CommentItem.SessionEmail | components/CommentItem.tsx:39-40 | `session?.user?.email` is undefined without a session or user, and otherwise the user's email as given (absent, null or a string) |
| CommentItem.PostAuthorEmail | components/CommentItem.tsx:40 | `post?.author?.email` is undefined exactly when the post or its author is missing, and otherwise the author's stored email |
| CommentItem.AllowActions | components/CommentItem.tsx:38-40 | for a session email e, actions are allowed iff the comment author's or the post author's email is e; for an absent session email, iff the post or its author is missing; for a null one, iff either stored email is null |
| CommentItem.AllowActionsBothAbsent | components/CommentItem.tsx:38-40 | with no post and no session email, absent equals absent and actions are allowed |
| CommentItem.AllowActionsNullIsNotAbsent | components/CommentItem.tsx:38-40 | an author email that is null does not match a session email that is absent |
| CommentItem.Item.constructor | components/CommentItem.tsx:21-44 | an item starts not replying, not posting, with an empty draft |
| CommentItem.Item.Expand | components/CommentItem.tsx:47-53 | the installed set is the old one with this comment's id added |
| CommentItem.Item.Collapse | components/CommentItem.tsx:54-60 | the installed set is the old one with this comment's id deleted |
| CommentItem.Item.ToggleCollapse | components/CommentItem.tsx:61-67 | collapse when expanded, expand otherwise: membership of this id flips and no other id changes |
| CommentItem.Item.PressReply | components/CommentItem.tsx:146-149 | Reply opens the form and leaves this comment expanded |
| CommentItem.Item.EditReply | components/CommentItem.tsx:179 | typing replaces the reply draft |
| CommentItem.Item.BeginPostReply | components/CommentItem.tsx:69-80 | a request is sent iff the draft is not blank and the post is present (reading a missing post's id throws and is caught); it goes under this comment; the button (line 185) is enabled with the post present exactly when pressing it sends while nothing is in flight |
| CommentItem.Item.FinishPostReply | components/CommentItem.tsx:81-88 | success clears the draft and closes the form; failure keeps both; the flag drops either way |
| CommentItem.Item.CancelReply | components/CommentItem.tsx:199-203 | Cancel closes the form and clears the draft |
| CommentItem.Item.ReplyDisabled | components/CommentItem.tsx:185 | the reply button is disabled for an empty draft and while a reply is in flight; when enabled, the draft holds a non-whitespace character |
| CommentItem.Item.RenderedChildren | components/CommentItem.tsx:214-224 | children render only when the item has children and is expanded; then every child, in order, one level deeper, flagged by whether it has children |
| UpdateComment.Dialog.IsSubmitDisabled | components/UpdateComment.tsx:80 | the button test as written reads only the stored content: a comment stored blank is always disabled, and any other comment's button is enabled while idle, whatever the draft |
| UpdateComment.Dialog.IsIntendedSubmitDisabled | components/UpdateComment.tsx:33-36 | the intended test, on the draft: disabled for an empty draft and while updating; when enabled, the draft holds a non-whitespace character |
| UpdateComment.AsWrittenEnabledButSendsNothing | components/UpdateComment.tsx:27-80 | a dialog for content "hi" whose draft is cleared to spaces shows an enabled button, and pressing it sends nothing |
| UpdateComment.Dialog.constructor | components/UpdateComment.tsx:27-29 | the dialog starts closed and idle, with the draft equal to the existing content ("" when that is falsy) |
| UpdateComment.Dialog.SetOpen | components/UpdateComment.tsx:49 | the dialog's open state follows the trigger, Cancel and close controls |
| UpdateComment.Dialog.EditDraft | components/UpdateComment.tsx:70 | typing replaces the draft |
| UpdateComment.Dialog.BeginSubmit | components/UpdateComment.tsx:31-38 | a blank draft sends nothing and leaves the dialog open; otherwise updating rises and the draft is sent for this comment; under the button test as written (line 80), an enabled button with a blank draft sends nothing; under the intended draft-based test, the button is enabled exactly when pressing it sends while nothing is in flight |
| UpdateComment.Dialog.FinishSubmit | components/UpdateComment.tsx:38-44 | success closes the dialog; failure leaves it open with its draft; updating drops |
| UpdateUserName.Dialog.constructor | components/UpdateUserName.tsx:21-23 | the dialog starts closed and idle with an empty name |
| UpdateUserName.Dialog.SetOpen | components/UpdateUserName.tsx:43 | the dialog's open state follows the trigger, Cancel and close controls |
| UpdateUserName.Dialog.EditName | components/UpdateUserName.tsx:64 | typing replaces the name |
| UpdateUserName.Dialog.IsSubmitDisabled | components/UpdateUserName.tsx:74 | disabled for an empty name and while updating; when enabled, the name holds a non-whitespace character |
| UpdateUserName.Dialog.BeginSubmit | components/UpdateUserName.tsx:25-32 | a blank name sends nothing and leaves the dialog open; otherwise updating rises and the name is sent; the button (line 74) is enabled exactly when pressing it sends while nothing is in flight |
| UpdateUserName.Dialog.FinishSubmit | components/UpdateUserName.tsx:32-38 | success closes the dialog; failure leaves it open with the typed name; updating drops |
| AccountDetailsForm.OrEmpty | components/AccountDetailsForm.tsx:43-47 | a null or empty stored string defaults to "", any other is kept |
| AccountDetailsForm.OrFalse | components/AccountDetailsForm.tsx:48 | only a null day-scholar flag defaults to false; a stored false or true is kept |
| AccountDetailsForm.DefaultValues | components/AccountDetailsForm.tsx:42-54 | the defaults have exactly the form's eleven fields; each text field is a string that is "" iff its stored field is null or empty, and otherwise is the stored value; the checkbox is the stored flag, or false when null |
| AccountDetailsForm.DefaultsWellTyped | components/AccountDetailsForm.tsx:23-54 | the defaults have the schema's types: every field present, no text field a boolean, the checkbox a boolean |
| AccountDetailsForm.CleanValue | components/AccountDetailsForm.tsx:61-63 | a blank string becomes undefined; every other value is kept |
| AccountDetailsForm.Clean | components/AccountDetailsForm.tsx:59-65 | the key set is kept; blank strings become undefined; non-blank strings (untrimmed), booleans and undefined pass unchanged; no blank string remains |
| AccountDetailsForm.CleanIdempotent | components/AccountDetailsForm.tsx:59-65 | cleaning twice is cleaning once |
| AccountDetailsForm.CleanWellTyped | components/AccountDetailsForm.tsx:59-65 | cleaning keeps the checkbox a boolean and the text fields non-boolean |
| AccountDetailsForm.NameValid | components/AccountDetailsForm.tsx:24 | any two characters pass the name rule and an empty name fails; a single character passes only when it lies beyond the Basic Multilingual Plane |
| AccountDetailsForm.Submit | components/AccountDetailsForm.tsx:24 | a form fails validation iff its name is shorter than 2 UTF-16 code units; a valid form is sent cleaned |
| AccountDetailsForm.AstralNameAccepted | components/AccountDetailsForm.tsx:24 | a single character outside the Basic Multilingual Plane is two code units long and passes the name rule |
| AccountDetailsForm.UnnamedUserMustEnterName | components/AccountDetailsForm.tsx:24 | a user with no stored name cannot submit the untouched form |
| AccountDetailsForm.BlankNamePassesThenVanishes | components/AccountDetailsForm.tsx:24 | a name of two spaces passes the length rule and is then sent as undefined |
| AccountDetailsForm.EmptyDefaultsClean | components/AccountDetailsForm.tsx:43-65 | a user with only a name stored sends the name, a false day-scholar flag and every other field undefined |
| AccountDetailsForm.StoredNameKept | components/AccountDetailsForm.tsx:43-63 | a stored name that is not blank is sent unchanged when left untouched |
| AccountDetailsForm.NullDefaultCleansToUndefined | components/AccountDetailsForm.tsx:43-65 | a text field whose stored value is null is sent as undefined when left untouched |
| Middleware.Route | middleware.ts:4-21 | no token gives a rewrite to /unauthorized whatever the path, the unauthorized page included; with a token, a redirect to / exactly for the pathname /unauthorized, and pass-through otherwise |
| Middleware.TrailingSlashPassesThrough | middleware.ts:15 | the path test is exact equality: /unauthorized/ passes through |
| Middleware.RedirectSettles | middleware.ts:15-16 | the redirect target itself passes through, so a signed-in user is redirected at most once |

## Left out

- The server actions (`postComment`, `updateComment`, `updateName`, `getComments`, `updateUserAction`) and `getToken`: they reach the database and the session store. A component returns the request it sends, and is told whether the call succeeded (and, for `getComments`, what it returned).
- React mechanics: `useTransition`, `useMemo` caching, the `useEffect` first fetch, and the interleaving of overlapping submissions. A handler is modelled as a begin step and a finish step.
- Toasts, console logging, animation, rendering and markup, markdown styling and timestamp formatting: they carry no state the logic reads.
- `updateSession()` after saving the account form, and the error message from the save: side effects outside the form's state.
- JavaScript `trim()` is approximated by a fixed whitespace set (`JsText.IsWhitespace`). It covers ASCII whitespace, no-break space and the byte-order mark, but not the other Unicode space separators or the line and paragraph separators.
- CommentForest.BuildForest: requires distinct comment ids. With duplicates, `Map.set` keeps only the last node per id, and the second pass appends that one node once per duplicate; this is not modelled.
- Reachability from the roots: with a parent cycle, the comments on the cycle are placed, but no root leads to them. No cycle guard exists in the code, and the model adds none.
- The middleware's `matcher` pattern, which decides which paths reach the middleware at all: Next.js interprets it.
- The zod URL rules on the social-link fields, and the zod type checks beyond the name length: library behaviour. AccountDetailsForm.Submit checks only the name rule.
- The inline comment renderer inside the comment section, including its nested render: presentational. Its handlers are modelled on CommentSection.Section.
- The comment id and createdAt of a node are carried as plain values; dates are integers.

## Findings

| source | as written | input that shows it | evidently intended | confidence | as-written member | corrected member |
|---|---|---|---|---|---|---|
| components/UpdateComment.tsx:80 | the submit button's disabled test trims the comment's original `content`, not the draft `newContent` | content "hi", draft "  ", not updating: the button is enabled, and pressing it sends nothing (the handler's guard rejects the draft) | disable on a blank draft, as the handler's guard at lines 33-36 and the name dialog at components/UpdateUserName.tsx:74 do | not executed | UpdateComment.AsWrittenEnabledButSendsNothing | UpdateComment.Dialog.BeginSubmit |
