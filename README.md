# NDNA commodity-trading demo — a Dafny model of its core

NDNA is a React single-page demo of a commodity-trading platform: buyers,
sellers (mine owners), intermediaries and an administrator sign in, move
between role-specific views, chat in a deal room, and the administrator works
through a document verification queue in which an AI service (Gemini) gives a
first verdict that a human then confirms or overrides.

This project models the behaviour behind those screens:

- `AdminVerification` (components/AdminVerification.tsx): the verification
  queue as a class holding the document list and the single busy marker
  `analyzingId`. Its methods start a scan, complete it (reply or exception,
  with the `finally` that clears the marker), and apply a manual decision.
  The per-document update is a pure map by id. There is the "bcl" mock-content
  choice, the pending badge, and the string tests that decide which buttons
  and which status colour are shown.
- `GeminiService` (services/geminiService.ts): `analyzeDocumentForFraud` as a
  total function over the outcome of the foreign calls (client construction,
  the model call, the response text, `JSON.parse`), with the fallback verdict
  on every exception, the exact prompt template and the single request sent.
- `App` (App.tsx): the shell's state (user, view, open deal), its four
  handlers, and `renderContent`'s routing from view id to screen.
- `Layout` (components/Layout.tsx): the role menus, the unread badge and the
  avatar name. A signed-out layout renders its children bare (components/Layout.tsx:23); that
  is why `App.RenderContent` alone decides what a signed-out visitor sees.
- `Auth` (components/Auth.tsx): the sign-in lookup with its demo-user
  default, registration, the demo buttons, and the form's state with the
  `loading` flag around the delayed submit.
- `DealRoom` (components/DealRoom.tsx): the chat's append-or-ignore send, the
  "is mine" test, the opening messages and the fixed milestone list.
- `Types` and `Constants` (types.ts, constants.ts): the records and the
  fixtures the components read. `Wrappers`, `Lists` and `Strings` hold
  `Option`/`Result`, `Array.prototype.find`/`filter` and the
  `String.prototype` methods the components call (`includes`, `trim`, and
  `replace` with a string pattern). Each has its specification proved once.

Clock readings (`Date.now()`, `toLocaleTimeString`) are parameters. The
component state React keeps is a class field. Each asynchronous handler is
split at its `await` or `setTimeout` into a start step and a completion step.

Where the code and its design description differ, the model follows the code:

- A manual decision is applied to whatever is stored under the id. There is
  no "not found" or "invalid transition" error: an unknown id leaves the list
  unchanged, and a decided document could be decided again if a button were
  offered.
- The parsed AI reply is used without validation. Any `status` other than
  the literal "Approved" (including a missing one) records "AI Flagged", and
  the `reason` is stored as it comes, even when absent.
- "The reason is empty iff the document is pending" is not an invariant. Only
  the forward half holds (`TransitionsKeepPendingReason`); a reply with an
  empty reason gives a decided document with an empty reason
  (`EmptyReasonAfterScan`).
- The `DocStatus` enum in types.ts is not used by the queue. The queue stores
  plain strings, including "AI Approved", which the enum does not have; the
  model's `AdminVerification.DocStatus` lists the five strings the component
  can store.

## Model

| member | source | states |
|---|---|---|
| `Lists.Find` | components/Auth.tsx:26 | The result is absent exactly when no element matches; otherwise it is the element at the first matching position. |
| `Lists.Filter` | components/AdminVerification.tsx:46 | The result is no longer than the input and holds an element iff some matching position of the input holds it. |
| `Lists.FilterLengthIsCount` | components/Layout.tsx:25 | The length of a filtered list equals the number of input positions that satisfy the predicate (proof by induction). |
| `Lists.FilterNonEmptyIff` | components/Layout.tsx:142 | A filtered list is non-empty iff some element matches. |
| `Strings.IncludesIff` | components/AdminVerification.tsx:17 | `includes` holds iff the pattern occurs at some index (proof by induction). |
| `Strings.IncludesAt` | components/AdminVerification.tsx:65 | An occurrence at a given index makes `includes` true. |
| `Strings.ShorterNotIncluded` | components/AdminVerification.tsx:87 | A pattern longer than the string is never included. |
| `Strings.MissingHeadNotIncluded` | components/AdminVerification.tsx:87 | A pattern whose first character does not occur in the string is not included. |
| `Strings.TrimStart` | components/DealRoom.tsx:26 | The result is a suffix of the input, everything dropped is white space, and the result is empty or starts with a non-white-space character. |
| `Strings.TrimEnd` | components/DealRoom.tsx:26 | The result is a prefix of the input, everything dropped is white space, and the result is empty or ends with a non-white-space character. |
| `Strings.TrimEmptyIff` | components/DealRoom.tsx:26 | `trim()` gives the empty string iff every character is white space. |
| `Strings.ReplaceFirst` | components/Layout.tsx:176 | The length is kept, every other character is kept, and only the first occurrence of the character is replaced. |
| `Strings.ReplaceFirstSplit` | components/Layout.tsx:176 | Replacing in `a + [c] + b` where `c` is not in `a` gives `a + [repl] + b` (proof by induction). |
| `Constants.MockEmailsUnique` | constants.ts:3-8 | The four fixture users have pairwise distinct e-mails. |
| `Constants.OneMockUserPerRole` | constants.ts:3-8 | Each role is held by exactly one fixture user. |
| `GeminiService.PromptEmbedsFieldsInOrder` | services/geminiService.ts:15-30 | The prompt contains the document name, then the type, then the context, each right after its label, in that order. |
| `GeminiService.SentRequests` | services/geminiService.ts:32-38 | At most one request is sent, with no retry. It is sent iff the client could be built, asking "gemini-2.5-flash" for JSON with the prompt. |
| `GeminiService.FailuresFallBackClosed` | services/geminiService.ts:11-48 | Every failure (no client, failed call, missing or empty text, malformed JSON) yields exactly the "Flagged" fallback with its fixed reason. No error reaches the caller. |
| `GeminiService.EmptyTextFallsBack` | services/geminiService.ts:40-41 | Absent or empty response text yields the fallback, whatever the parser would say. |
| `GeminiService.DeliveredReplyIsVerbatim` | services/geminiService.ts:43 | A parsed reply is returned unchanged, with no check of its status. |
| `GeminiService.ApprovedOnlyFromModel` | services/geminiService.ts:43-48 | The verdict is "Approved" iff the model's parsed reply said "Approved"; the fallback never approves. |
| `AdminVerification.MockContentChoice` | components/AdminVerification.tsx:16-20 | The mismatch context is chosen iff "bcl" occurs in the name, and the valid-license context otherwise. |
| `AdminVerification.LicenseGetsValidContext` | components/AdminVerification.tsx:8-20 | The first fixture document, "license_scan_2024.pdf", gets the valid-license context. |
| `AdminVerification.LetterGetsMismatchContext` | components/AdminVerification.tsx:9-20 | The second fixture document, "bcl_bank_letter.pdf", gets the mismatch context. |
| `AdminVerification.MapWhere` | components/AdminVerification.tsx:24-26 | Mapping by id keeps length and order, applies the update exactly at positions with that id and leaves every other document unchanged. |
| `AdminVerification.ScanEffect` | components/AdminVerification.tsx:24-26 | After a scan, the list keeps its length, order and identities, and other documents are unchanged. The scanned one is "AI Approved" iff the reply's status is "Approved", otherwise "AI Flagged", and it stores the reply's reason. |
| `AdminVerification.ManualEffect` | components/AdminVerification.tsx:34-36 | After a manual action, the list keeps its length, order and other documents. The decided one keeps its id, uploader, type and name, and gets the action as its status and "Manually " + the action as its reason. |
| `AdminVerification.AIApprovalNeedsApprovedReply` | components/AdminVerification.tsx:23-25 | End to end, a scan records "AI Approved" iff the service delivered a reply whose status is "Approved". |
| `AdminVerification.FailedAnalysisFlags` | components/AdminVerification.tsx:23-25 | When the service fails, the document becomes "AI Flagged" with the fallback reason and nothing else about it changes. |
| `AdminVerification.ScanOfferedIffPending` | components/AdminVerification.tsx:76 | The AI Scan button is shown exactly for "Pending" documents. |
| `AdminVerification.DecisionOfferedIffAIVerdict` | components/AdminVerification.tsx:87 | The test `includes('AI') && !== 'Approved' && !== 'Rejected'` holds exactly for "AI Approved" and "AI Flagged". |
| `AdminVerification.ApprovedLacksAI` | components/AdminVerification.tsx:87 | "Approved" does not contain "AI". |
| `AdminVerification.DecidedOffersNothing` | components/AdminVerification.tsx:76-87 | An "Approved" or "Rejected" document offers neither the AI Scan nor the Approve/Reject buttons. |
| `AdminVerification.ToneOfStatus` | components/AdminVerification.tsx:63-66 | The status panel is shown iff the status is not "Pending". It is green exactly for the two approvals and red exactly for "AI Flagged" and "Rejected". |
| `AdminVerification.NotIncludedAIFlagged` | components/AdminVerification.tsx:65 | "AI Flagged" does not contain "Approved", so a flagged document is not shown green. |
| `AdminVerification.PendingCount` | components/AdminVerification.tsx:46 | The badge count equals the number of positions whose status is exactly "Pending". |
| `AdminVerification.TransitionsKeepPendingReason` | components/AdminVerification.tsx:24-36 | Neither a scan nor a manual action ever produces "Pending", so a pending document keeps its initial empty reason. |
| `AdminVerification.EmptyReasonAfterScan` | components/AdminVerification.tsx:25 | An approved reply with an empty reason leaves a decided document with an empty reason, so pending is not characterised by an empty reason. |
| `AdminVerification.VerificationQueue.constructor` | components/AdminVerification.tsx:6-10 | The queue starts with the two fixture documents and no busy marker. |
| `AdminVerification.VerificationQueue.StartScan` | components/AdminVerification.tsx:13-20 | The scan marks the id busy, changes no document and returns the mock content for the name. |
| `AdminVerification.VerificationQueue.CompleteScan` | components/AdminVerification.tsx:22-31 | On a reply the list becomes the scan update by id; if analysis threw, the list is unchanged. Either way the busy marker is cleared. |
| `AdminVerification.VerificationQueue.HandleAIAnalysis` | components/AdminVerification.tsx:12-32 | A whole scan leaves the list updated with the service's verdict for the chosen mock content and no busy marker. |
| `AdminVerification.VerificationQueue.HandleManualAction` | components/AdminVerification.tsx:34-36 | The list becomes the manual update by id and the busy marker is untouched. |
| `AdminVerification.ScanLicenseApproved` | components/AdminVerification.tsx:7-26 | Scanning doc1 with an "Approved" reply gives "AI Approved" with the reply's reason and leaves doc2 as it was. |
| `AdminVerification.ScanLetterThenReject` | components/AdminVerification.tsx:24-36 | Completing a scan of doc2 with a "Flagged" reply gives "AI Flagged" with the reply's reason. Rejecting it then gives "Rejected" with reason "Manually Rejected". |
| `AdminVerification.ScanWithNetworkError` | components/AdminVerification.tsx:22-31 | A failed model call during a scan of doc1, whatever name and type the button passes, leaves it "AI Flagged" with the fallback reason. |
| `AdminVerification.OverlappingScans` | components/AdminVerification.tsx:13-30 | With one busy slot, starting a scan of doc2 makes doc1's button clickable again. Doc1's completion then clears the marker while doc2's scan is still running. |
| `Layout.GetMenuItems` | components/Layout.tsx:27-67 | Every menu, the default included, starts with "dashboard", ends with "settings" and has distinct ids. |
| `Layout.DefaultMenuIsCommon` | components/Layout.tsx:28-31 | A role outside the enum gets exactly the dashboard and the settings. |
| `Layout.MenuLengths` | components/Layout.tsx:33-63 | The buyer, seller, intermediary and admin menus have 5, 4, 4 and 5 entries, and no enum role falls to the default. |
| `Layout.OnlyAdminSeesVerification` | components/Layout.tsx:56-63 | A menu contains "verification" iff the role is ADMIN. |
| `Layout.OnlyBuyerSeesMarketplace` | components/Layout.tsx:34-41 | A menu contains "marketplace" iff the role is BUYER. |
| `Layout.UnreadCount` | components/Layout.tsx:25 | The unread count equals the number of notifications whose `read` is false. |
| `Layout.UnreadDotIffUnread` | components/Layout.tsx:142 | The bell's dot is shown iff some notification is unread. |
| `Layout.MockUnreadCount` | constants.ts:26-30 | The fixture notifications hold exactly two unread ones, so the dot is shown. |
| `Layout.AvatarNameKeepsLaterSpaces` | components/Layout.tsx:176 | In the avatar name only the first space becomes '+'; every later space stays. |
| `Layout.AvatarUrlCarriesName` | components/Layout.tsx:176 | The avatar URL is the endpoint, then the avatar name, then the colour parameters, with nothing escaped. |
| `App.SignedOutShowsAuth` | App.tsx:52 | With no user, the sign-in form is shown whatever the view and the deal. |
| `App.NotFoundIffUnrouted` | App.tsx:54-130 | A signed-in user sees "View not found", naming the view, exactly for ids outside the ten routed ones. |
| `App.AliasesShareScreens` | App.tsx:58-68 | "marketplace"/"my-mines" share the mine list. "active-deals"/"all-deals" share the deal list headed "Active Deals", and "offers" shows it headed "Incoming Offers". |
| `App.DealRoomNeedsDeal` | App.tsx:90-92 | The deal room shows the open deal to the signed-in user, or "No deal selected" when none is open. |
| `App.DeadEndsAreUnrouted` | App.tsx:129-130 | "payments", "network" and "fraud-alerts" have no case in the switch. |
| `App.MenuDeadEnds` | components/Layout.tsx:94-97 | Of the ids any role's sidebar offers, exactly "payments", "network" and "fraud-alerts" lead to "View not found". |
| `App.AppState.constructor` | App.tsx:12-14 | The shell starts signed out on "dashboard" with no open deal. |
| `App.AppState.HandleLogin` | App.tsx:17-20 | Login sets the user and the dashboard view and leaves the open deal as it was. From a signed-out state it preserves the invariant. |
| `App.AppState.HandleLogout` | App.tsx:22-26 | Logout clears the user and the deal, goes back to "dashboard", establishes the invariant and shows the sign-in form. |
| `App.AppState.HandleNavigate` | App.tsx:29-34 | Navigation sets the view, keeps the user, and clears the deal unless the view is "deal-room". It preserves the invariant. |
| `App.AppState.HandleSelectDeal` | App.tsx:45-48 | Selecting a deal opens it in "deal-room". For a signed-in user the invariant holds and the deal room shows that deal. |
| `App.AdminSession` | App.tsx:17-95 | A demo admin sign-in reaches the verification queue, then the room of any selected deal. Navigating back to the list shows it, and signing out shows the sign-in form. |
| `App.AdminIsFourthFixture` | components/Auth.tsx:50-53 | The administrator's demo button signs in the fourth fixture user. |
| `Auth.LoginUser` | components/Auth.tsx:26-32 | Sign-in yields the first user with the entered e-mail when there is one, and otherwise the demo user with that e-mail. |
| `Auth.RegisterKeepsEnteredFields` | components/Auth.tsx:36-43 | Registration keeps the entered name, e-mail and role, uses the clock id, is unverified and gets "New Company Ltd". |
| `Auth.SubmitIgnoresPassword` | components/Auth.tsx:17-47 | The submitted user never depends on the password. |
| `Auth.KnownEmailSignsInThatUser` | components/Auth.tsx:26 | A fixture e-mail signs in exactly that fixture user. |
| `Auth.UnknownEmailSignsInDemoBuyer` | components/Auth.tsx:26-32 | Any other e-mail signs in the verified demo buyer "temp" / "Demo User" with that e-mail. |
| `Auth.DemoLogin` | components/Auth.tsx:50-53 | A demo button yields the first user in the list holding that role, and nothing exactly when no user holds the role. |
| `Auth.DemoLoginFindsFixture` | components/Auth.tsx:136-139 | Every one of the four demo buttons finds a fixture user. |
| `Auth.RegisterNeverOffersAdmin` | components/Auth.tsx:84-86 | The register form offers no administrator role, and the buyer is its first and default choice. |
| `Auth.AuthForm.constructor` | components/Auth.tsx:10-15 | The form starts in the sign-in view, empty, with the buyer role and not loading. |
| `Auth.AuthForm.ToggleView` | components/Auth.tsx:125 | The link switches between the sign-in and register views. |
| `Auth.AuthForm.SetEmail` | components/Auth.tsx:97 | Typing sets the e-mail field. |
| `Auth.AuthForm.SetPassword` | components/Auth.tsx:108 | Typing sets the password field. |
| `Auth.AuthForm.SetName` | components/Auth.tsx:72 | Typing sets the name field. |
| `Auth.AuthForm.SelectRole` | components/Auth.tsx:79-87 | Choosing an option sets one of the three register roles, never the administrator. |
| `Auth.AuthForm.BeginSubmit` | components/Auth.tsx:17-22 | A submit starts only while not loading, since the button is disabled then. It sets `loading` and captures the view, e-mail, password, name and role of that moment for the delayed callback. |
| `Auth.AuthForm.CompleteSubmit` | components/Auth.tsx:22-47 | The delayed callback yields the sign-in or register user built from the values captured at submit, whatever was typed or toggled since, and clears `loading`. |
| `Auth.EditDuringDelay` | components/Auth.tsx:17-47 | When the buyer's e-mail is submitted and the seller's is typed and the view toggled before the callback runs, the buyer is still signed in and loading ends. |
| `DealRoom.MilestonesFollowStages` | components/DealRoom.tsx:38-44 | The milestones are the five stages in enum order, with exactly one current one ("SPA Signed"). Everything before it is complete and everything after it pending. |
| `DealRoom.InitialMessagesOwnership` | components/DealRoom.tsx:12-15 | The opening messages read as one's own exactly for users "u2" and "u1" respectively. |
| `DealRoom.Outgoing` | components/DealRoom.tsx:27-33 | A sent message always reads as the sender's own. |
| `DealRoom.SendableIffNonBlank` | components/DealRoom.tsx:26 | A send goes through iff some character of the input is not white space. |
| `DealRoom.DealRoomState.constructor` | components/DealRoom.tsx:12-16 | The room opens with the two fixture messages and an empty input. |
| `DealRoom.DealRoomState.SetInputText` | components/DealRoom.tsx:91 | Typing sets the input. |
| `DealRoom.DealRoomState.HandleSend` | components/DealRoom.tsx:25-36 | A blank input changes nothing. Otherwise exactly one message is appended after the unchanged earlier ones, with the user's id and name and the untrimmed input, and the input is cleared. |
| `DealRoom.SendAppendsOne` | components/DealRoom.tsx:34 | An append keeps the earlier messages as a prefix and adds one message, the sender's own, carrying the text. |
| `DealRoom.ChatSession` | components/DealRoom.tsx:25-36 | A white-space-only input is refused. A text with a visible character is then sent verbatim as the viewer's own, and the input is cleared. |
| `GeminiService.Prompt` | services/geminiService.ts:15-30 | No contract; specified by `GeminiService.PromptEmbedsFieldsInOrder`. |
| `GeminiService.Attempt` | services/geminiService.ts:11-43 | No contract; specified by `GeminiService.FailuresFallBackClosed` and `GeminiService.DeliveredReplyIsVerbatim`. |
| `GeminiService.AnalyzeDocumentForFraud` | services/geminiService.ts:10-50 | No contract; specified by `GeminiService.FailuresFallBackClosed`, `GeminiService.EmptyTextFallsBack`, `GeminiService.DeliveredReplyIsVerbatim` and `GeminiService.ApprovedOnlyFromModel`. |
| `AdminVerification.MockContent` | components/AdminVerification.tsx:16-20 | No contract; specified by `AdminVerification.MockContentChoice`. |
| `AdminVerification.ScanStatus` | components/AdminVerification.tsx:25 | No contract; specified by `AdminVerification.ScanEffect`. |
| `AdminVerification.ScanVerdict` | components/AdminVerification.tsx:25 | No contract; specified by `AdminVerification.ScanEffect` and `AdminVerification.FailedAnalysisFlags`. |
| `AdminVerification.ManualVerdict` | components/AdminVerification.tsx:35 | No contract; specified by `AdminVerification.ManualEffect`. |
| `AdminVerification.ApplyScan` | components/AdminVerification.tsx:24-26 | No contract; specified by `AdminVerification.ScanEffect`. |
| `AdminVerification.ApplyManual` | components/AdminVerification.tsx:35 | No contract; specified by `AdminVerification.ManualEffect`. |
| `AdminVerification.ScanOffered` | components/AdminVerification.tsx:76 | No contract; specified by `AdminVerification.ScanOfferedIffPending`. |
| `AdminVerification.ScanDisabled` | components/AdminVerification.tsx:79 | No contract; specified by `AdminVerification.OverlappingScans` and `AdminVerification.DecidedOffersNothing`. |
| `AdminVerification.ScanClickable` | components/AdminVerification.tsx:76-79 | No contract; specified by `AdminVerification.DecidedOffersNothing` and `AdminVerification.OverlappingScans`. |
| `AdminVerification.DecisionOffered` | components/AdminVerification.tsx:87 | No contract; specified by `AdminVerification.DecisionOfferedIffAIVerdict`. |
| `AdminVerification.StatusPanelShown` | components/AdminVerification.tsx:63 | No contract; specified by `AdminVerification.ToneOfStatus`. |
| `AdminVerification.StatusTone` | components/AdminVerification.tsx:64-66 | No contract; specified by `AdminVerification.ToneOfStatus`. |
| `AdminVerification.IsPending` | components/AdminVerification.tsx:46 | No contract; specified by `AdminVerification.PendingCount`. |
| `Layout.MenuFor` | components/Layout.tsx:69 | No contract; specified by `Layout.MenuLengths` and `Layout.GetMenuItems`. |
| `Layout.IsUnread` | components/Layout.tsx:25 | No contract; specified by `Layout.UnreadCount`. |
| `Layout.ShowUnreadDot` | components/Layout.tsx:142 | No contract; specified by `Layout.UnreadDotIffUnread`. |
| `Layout.AvatarName` | components/Layout.tsx:176 | No contract; specified by `Layout.AvatarNameKeepsLaterSpaces` and `Strings.ReplaceFirst`. |
| `Layout.AvatarUrl` | components/Layout.tsx:176 | No contract; specified by `Layout.AvatarUrlCarriesName`. |
| `App.RenderContent` | App.tsx:51-132 | No contract; specified by `App.SignedOutShowsAuth`, `App.NotFoundIffUnrouted`, `App.AliasesShareScreens` and `App.DealRoomNeedsDeal`. |
| `App.AppState.Valid` | App.tsx:22-48 | No contract; the invariant the handlers' contracts establish or preserve. |
| `App.AppState.Content` | App.tsx:142 | No contract; what the layout shows for the current state, used in the handlers' contracts. |
| `Auth.FindByEmail` | components/Auth.tsx:26 | No contract; specified by `Auth.LoginUser` through `Lists.Find`. |
| `Auth.DefaultUser` | components/Auth.tsx:26-32 | No contract; specified by `Auth.UnknownEmailSignsInDemoBuyer`. |
| `Auth.RegisterUser` | components/Auth.tsx:36-43 | No contract; specified by `Auth.RegisterKeepsEnteredFields`. |
| `Auth.SubmitUser` | components/Auth.tsx:23-45 | No contract; specified by `Auth.RegisterKeepsEnteredFields`, `Auth.SubmitIgnoresPassword` and `Auth.LoginUser`. |
| `Auth.AuthForm.SubmitEnabled` | components/Auth.tsx:116 | No contract; the precondition of `Auth.AuthForm.BeginSubmit`. |
| `DealRoom.IsMine` | components/DealRoom.tsx:68 | No contract; specified by `DealRoom.Outgoing` and `DealRoom.InitialMessagesOwnership`. |
| `DealRoom.Sendable` | components/DealRoom.tsx:26 | No contract; specified by `DealRoom.SendableIffNonBlank`. |
| `Strings.Includes` | components/AdminVerification.tsx:17 | No contract; specified by `Strings.IncludesIff`. |
| `Strings.Trim` | components/DealRoom.tsx:26 | No contract; specified by `Strings.TrimStart`, `Strings.TrimEnd` and `Strings.TrimEmptyIff`. |

## Left out

- The Gemini client, `process.env.API_KEY`, the network call and the
  internals of `JSON.parse` are foreign code. They are represented by the
  `GeminiService.Transport` outcome a caller supplies.
- A `JSON.parse` result that is `null` or not an object is not modelled. Nor
  is a non-string `status` or `reason` value. A `null` result would make
  AdminVerification.tsx line 25 throw outside the `try`.
- `console.error` logging is not modelled. It has no effect on state.
- React's asynchronous state updates and batching are not modelled. Each
  handler runs as discrete steps. `HandleAIAnalysis` assumes nothing else runs
  during its await; interleavings are shown with `StartScan`/`CompleteScan`
  (`OverlappingScans`).
- `setTimeout` delays are not modelled. The Auth submit is split into
  `BeginSubmit`, which captures the field values the callback closes over,
  and `CompleteSubmit`, which uses them.
- `Date.now()` and `toLocaleTimeString` are clock readings. They are
  parameters.
- Rendering is not modelled: markup, CSS classes, icons, charts, the button
  captions, the scroll-to-bottom effect, the `alert()` in `handleSelectMine`,
  and the sidebar and notification-panel toggles. `handleSelectMine` only
  raises that alert.
- Dashboard, MineDetails, MineList and WorkflowGuide render fixed content.
  They are not part of this model.
- HTML `required` and `type="email"` form validation is done by the browser.
  It is not modelled.
- `Auth.AuthForm.SelectRole`: takes the option's position rather than the
  string cast with `as UserRole`. A value outside the enum can only arise
  through that unchecked cast, which the form's options never produce.
- The avatar URL does not model URL encoding, which the source does not
  perform either.
- Whitespace for `trim()` is the ECMAScript WhiteSpace and LineTerminator set.
  Strings are sequences of Unicode scalar values, not of UTF-16 code units as
  in JavaScript. A lone surrogate cannot occur, and a character outside the
  Basic Multilingual Plane is one element where JavaScript has two code
  units. No normalisation is applied.
