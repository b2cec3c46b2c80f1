# Clarify meeting assistant: a verified model of its core

Clarify is a Next.js front end for team meetings. A manager reviews the tasks detected in a meeting, moves them across a kanban board and watches a live meeting panel. Peers and channel members exchange text messages through the Agora real-time messaging (RTM) SDK. A small server route mints Agora access tokens. This project models the logic of that front end in Dafny:

- **`RtmService`** (`rtm_service.dfy`): the session adapter around the RTM SDK.
  - It holds a client, a joined channel, a login flag and the current user id.
  - It is a class whose methods follow pure step functions over a `Session` value.
  - Every SDK call is a parameter that resolves, or rejects with a thrown value.
- **`UseAgoraRTM`** (`use_agora_rtm.dfy`): the React hook on top of the adapter.
  - It keeps UI flags, the last error, the channel name and an append-only message log.
  - Messages arriving through the listeners it registers are explicit method calls.
- **`TokenRoute`** (`token_route.dfy`): the token endpoint's `GET`.
  - It is a pure function from query, environment, clock and token builder to a status and a JSON body.
- **`TaskReview`**, **`TaskBoard`**, **`MeetingLiveView`**, **`ManagerDashboard`** and **`Sidebar`**: the list operations and the state handlers of those components.
- **Supporting modules:**
  - `Seqs`: `filter`, the id-keyed `map` update and `slice`.
  - `Decimal`: decimal rendering, `padStart(2, "0")` and a decimal `parseInt`.
  - `Domain` and `Fixtures`: the data types and the seeded mock data.

## Model

| member | source | states |
|---|---|---|
| Seqs.Filter | frontend/components/task-review.tsx:34-35 | the result keeps exactly the elements satisfying the predicate and is no longer than the input |
| Seqs.FilterConcat | frontend/components/task-review.tsx:34-35 | filtering a concatenation is the concatenation of the filtered parts, so order is kept |
| Seqs.FilterAllOrNone | frontend/components/task-review.tsx:42 | a filter every element passes keeps the list; one none passes empties it |
| Seqs.FilterSplit | frontend/components/task-review.tsx:34-35 | two complementary filters split the list: lengths add up and the multisets sum to the original |
| Seqs.FilterMultiplicity | frontend/components/manager-dashboard.tsx:13-16 | a filter keeps every copy of each passing element and no copy of any other |
| Seqs.UpdateWhere | frontend/components/task-review.tsx:38 | the id-keyed `map` keeps length and order and rewrites exactly the matching elements |
| Seqs.Take | frontend/components/manager-dashboard.tsx:18-19 | `slice(0, n)` is the prefix of length min(n, length), so every element comes from the input |
| Decimal.NatToString | frontend/components/meeting-live-view.tsx:117 | `toString` gives digits only, at least one, one digit exactly below ten, and no leading zero |
| Decimal.NatToStringRoundTrip | frontend/components/meeting-live-view.tsx:117 | reading the decimal string back gives the number |
| Decimal.LeadingZero | frontend/components/meeting-live-view.tsx:117 | a leading '0' does not change a digit string's value |
| Decimal.Pad2 | frontend/components/meeting-live-view.tsx:117 | `padStart(2, "0")` gives two digits below ten and the plain rendering otherwise, with the same value and no leading zero from ten on |
| Decimal.DigitPrefixOfDigits | docs/agora/examples/nextjs-api-token-route.ts:45 | the digit run of a digit string followed by a non-digit is that digit string |
| Decimal.ParseInt | docs/agora/examples/nextjs-api-token-route.ts:45-46 | the parse is NaN exactly when no digit follows the optional sign |
| Decimal.ParseIntOfDigits | docs/agora/examples/nextjs-api-token-route.ts:45 | a non-empty digit string parses to the number its digits spell, leading zeros included |
| Decimal.ParseIntRoundTrip | docs/agora/examples/nextjs-api-token-route.ts:45 | parsing a rendered natural number gives it back |
| Decimal.ParseIntNegative | docs/agora/examples/nextjs-api-token-route.ts:58 | parsing '-' and a rendered number gives its negation |
| Decimal.ParseIntStopsAtNonDigit | docs/agora/examples/nextjs-api-token-route.ts:45 | parsing stops at the first non-digit after the number |
| RtmService.LoginError | frontend/services/agora/agoraRTMService.ts:77-91 | an Error stays an Error; a coded result is the original error; a replaced error is a plain Error with no code |
| RtmService.LoginStep | frontend/services/agora/agoraRTMService.ts:44-93 | login succeeds exactly when the SDK resolves and a client exists or can be made; success sets the flag and the uid; failure keeps them; an existing client and the channel are kept |
| RtmService.LogoutStep | frontend/services/agora/agoraRTMService.ts:98-112 | a failed logout changes nothing; a successful one holds no channel; the login flag only ever goes from true to false, with the uid cleared |
| RtmService.JoinStep | frontend/services/agora/agoraRTMService.ts:118-135 | the session is unchanged or gains exactly the named channel with no listeners; success needs no channel before; client, flag and uid are kept |
| RtmService.LeaveStep | frontend/services/agora/agoraRTMService.ts:140-150 | a success holds no channel; a failure changes nothing; client, flag and uid are kept |
| RtmService.SendPeerStep | frontend/services/agora/agoraRTMService.ts:157-171 | sending to a peer never changes the session and succeeds only when its guard holds and the SDK resolves |
| RtmService.SendChannelStep | frontend/services/agora/agoraRTMService.ts:177-188 | sending to the channel never changes the session and succeeds only when its guard holds and the SDK resolves |
| RtmService.SubscribePeerStep | frontend/services/agora/agoraRTMService.ts:194-202 | a peer subscription adds exactly one listener to the same client, or fails and changes nothing |
| RtmService.SubscribeChannelStep | frontend/services/agora/agoraRTMService.ts:208-240 | a channel subscription appends the event to the same channel's listeners, or fails and changes nothing |
| RtmService.CleanupStep | frontend/services/agora/agoraRTMService.ts:266-275 | a successful cleanup drops the client and the channel; a failed one changes nothing |
| RtmService.JoinRequiresLogin | frontend/services/agora/agoraRTMService.ts:118-122 | joining without a client or a login throws "Must be logged in" and changes nothing |
| RtmService.JoinKeepsExistingChannel | frontend/services/agora/agoraRTMService.ts:123-125 | joining while holding a channel throws and keeps that channel |
| RtmService.FailedJoinLeavesChannel | frontend/services/agora/agoraRTMService.ts:127-134 | a rejected SDK join still stores the channel, so the adapter reports being in a channel and refuses the next join |
| RtmService.JoinSuccess | frontend/services/agora/agoraRTMService.ts:127-134 | a successful join holds exactly the named channel with no listeners and changes nothing else |
| RtmService.LeaveCases | frontend/services/agora/agoraRTMService.ts:140-150 | without a channel leave is a successful no-op; resolved drops the channel only; rejected keeps it and rethrows |
| RtmService.LoginOutcome | frontend/services/agora/agoraRTMService.ts:44-93 | with a reachable SDK a client exists afterwards; success sets the flag and the uid; failure keeps both and throws the translated error |
| RtmService.LoginErrorMapping | frontend/services/agora/agoraRTMService.ts:77-91 | codes -10015 and -10005 become fixed guidance errors; anything else is rethrown unchanged |
| RtmService.LoginWithoutAppId | frontend/services/agora/agoraRTMService.ts:47-51 | with no client, an empty app id throws before any client is made |
| RtmService.ClientKeptAcrossLogins | frontend/services/agora/agoraRTMService.ts:53-68 | a client made by a rejected login is kept and reused by later logins, keeping its original user id |
| RtmService.LoginTwiceNotRefused | frontend/services/agora/agoraRTMService.ts:44-93 | logging in twice is not refused and the second login leaves the same session |
| RtmService.LogoutCases | frontend/services/agora/agoraRTMService.ts:98-112 | logout leaves the channel first and propagates its failure; a resolved SDK logout ends the login; a rejected one is swallowed |
| RtmService.SendAndSubscribeGuards | frontend/services/agora/agoraRTMService.ts:157-240 | each send and subscription fails exactly when its guard fails; sending never changes the session |
| RtmService.ListenersAccumulate | frontend/hooks/useAgoraRTM.ts:33-50 | n successful login-and-subscribe rounds leave n peer listeners on the same client |
| RtmService.JoinBeforeLoginScenario | frontend/services/agora/agoraRTMService.ts:118-122 | from a fresh adapter, joining first fails and leaves the adapter as it was |
| RtmService.LogoutClearsScenario | frontend/services/agora/agoraRTMService.ts:98-135 | login, join and logout with resolving SDK calls end with no login and no channel |
| RtmService.CleanupResets | frontend/services/agora/agoraRTMService.ts:266-275 | cleanup with resolving calls drops the client and the channel and ends any login |
| RtmService.CleanupWithRejectedLogout | frontend/services/agora/agoraRTMService.ts:266-275 | a rejected SDK logout during cleanup leaves the login flag set with no client, so the next join is refused with "Must be logged in" |
| RtmService.AgoraRTMService.constructor | frontend/services/agora/agoraRTMService.ts:22-27 | a new adapter has no client, no channel, no login and an empty uid |
| RtmService.AgoraRTMService.GetClient | frontend/services/agora/agoraRTMService.ts:32-37 | returns the client, or throws when there is none yet |
| RtmService.AgoraRTMService.Login | frontend/services/agora/agoraRTMService.ts:44-93 | the new state and the outcome are those of the login step |
| RtmService.AgoraRTMService.Logout | frontend/services/agora/agoraRTMService.ts:98-112 | the new state and the outcome are those of the logout step |
| RtmService.AgoraRTMService.JoinChannel | frontend/services/agora/agoraRTMService.ts:118-135 | the new state and the outcome are those of the join step |
| RtmService.AgoraRTMService.LeaveChannel | frontend/services/agora/agoraRTMService.ts:140-150 | the new state and the outcome are those of the leave step |
| RtmService.AgoraRTMService.SendPeerMessage | frontend/services/agora/agoraRTMService.ts:157-171 | changes nothing and fails exactly as the peer-send guard says |
| RtmService.AgoraRTMService.SendChannelMessage | frontend/services/agora/agoraRTMService.ts:177-188 | changes nothing and fails exactly as the channel-send guard says |
| RtmService.AgoraRTMService.OnPeerMessage | frontend/services/agora/agoraRTMService.ts:194-202 | adds one peer listener to the client, or throws without a client |
| RtmService.AgoraRTMService.OnChannelEvent | frontend/services/agora/agoraRTMService.ts:208-240 | appends the event listener to the channel, or throws without a channel |
| RtmService.AgoraRTMService.OnChannelMessage | frontend/services/agora/agoraRTMService.ts:208-216 | appends a channel-message listener, or throws without a channel |
| RtmService.AgoraRTMService.OnMemberJoined | frontend/services/agora/agoraRTMService.ts:222-228 | appends a member-joined listener, or throws without a channel |
| RtmService.AgoraRTMService.OnMemberLeft | frontend/services/agora/agoraRTMService.ts:234-240 | appends a member-left listener, or throws without a channel |
| RtmService.AgoraRTMService.GetCurrentUid | frontend/services/agora/agoraRTMService.ts:245-247 | returns the current uid |
| RtmService.AgoraRTMService.GetIsLoggedIn | frontend/services/agora/agoraRTMService.ts:252-254 | returns the login flag |
| RtmService.AgoraRTMService.GetIsInChannel | frontend/services/agora/agoraRTMService.ts:259-261 | true exactly when a channel is held |
| RtmService.AgoraRTMService.Cleanup | frontend/services/agora/agoraRTMService.ts:266-275 | the new state and the outcome are those of the cleanup step |
| UseAgoraRTM.Wrap | frontend/hooks/useAgoraRTM.ts:52 | the result is always an Error: an Error is kept as it is, anything else becomes the fallback message with no code |
| UseAgoraRTM.InboundText | frontend/hooks/useAgoraRTM.ts:44 | a received text is kept, a missing one becomes "" |
| UseAgoraRTM.Repeat | frontend/hooks/useAgoraRTM.ts:49 | k copies of the message, one per registered listener |
| UseAgoraRTM.MessageId | frontend/hooks/useAgoraRTM.ts:138 | the id's leading digits read back as the clock value, a dash follows, and the rest is the user id |
| UseAgoraRTM.MessageIdInjective | frontend/hooks/useAgoraRTM.ts:138 | equal ids come from the same instant and the same user |
| UseAgoraRTM.HookState.constructor | frontend/hooks/useAgoraRTM.ts:16-21 | starts logged out, outside a channel, with no messages, no error and empty uid and channel name |
| UseAgoraRTM.HookState.Login | frontend/hooks/useAgoraRTM.ts:33-56 | on success sets the flag and uid and registers one more peer listener; on failure records and throws the wrapped error, other state unchanged |
| UseAgoraRTM.HookState.Logout | frontend/hooks/useAgoraRTM.ts:61-73 | on success clears the flag, the uid and the messages but leaves `isInChannel` as it was; on failure records the wrapped error |
| UseAgoraRTM.HookState.JoinChannel | frontend/hooks/useAgoraRTM.ts:78-110 | on success records the channel name and flag, with the three listeners registered in order; on failure records the wrapped error |
| UseAgoraRTM.HookState.LeaveChannel | frontend/hooks/useAgoraRTM.ts:115-126 | on success clears the flag and channel name; on failure records the wrapped error |
| UseAgoraRTM.HookState.SendPeerMessage | frontend/hooks/useAgoraRTM.ts:131-150 | appends the sent peer message only after the SDK resolves; otherwise records the error and keeps the log |
| UseAgoraRTM.HookState.SendChannelMessage | frontend/hooks/useAgoraRTM.ts:155-174 | appends the sent channel message only after the SDK resolves; otherwise records the error and keeps the log |
| UseAgoraRTM.HookState.ReceivePeerMessage | frontend/hooks/useAgoraRTM.ts:41-50 | an inbound peer message is appended once per registered peer listener |
| UseAgoraRTM.HookState.ReceiveChannelMessage | frontend/hooks/useAgoraRTM.ts:86-95 | an inbound channel message is appended once per registered channel-message listener |
| UseAgoraRTM.HookState.ClearMessages | frontend/hooks/useAgoraRTM.ts:179-181 | empties the log and nothing else |
| UseAgoraRTM.HookState.Unmount | frontend/hooks/useAgoraRTM.ts:24-28 | the adapter goes through cleanup, whose failure is swallowed |
| TokenRoute.BuilderRoleOf | docs/agora/examples/nextjs-api-token-route.ts:54 | SUBSCRIBER exactly for the text "subscriber", PUBLISHER otherwise |
| TokenRoute.UidOf | docs/agora/examples/nextjs-api-token-route.ts:44-45 | a missing or empty uid is 0; a digit string is its value; NaN exactly when `parseInt` gives NaN |
| TokenRoute.ExpirationOf | docs/agora/examples/nextjs-api-token-route.ts:56-59 | a missing or empty lifetime is 86400; a digit string is its value; NaN exactly when `parseInt` gives NaN |
| TokenRoute.Get | docs/agora/examples/nextjs-api-token-route.ts:13-102 | status is 200, 400 or 500; 200 exactly with a token body; the channel check comes first, then credentials; success echoes inputs and the expiry arithmetic; errors are non-empty |
| TokenRoute.UidValidation | docs/agora/examples/nextjs-api-token-route.ts:44-51 | a missing uid is 0, "0" parses to 0, and a NaN uid is exactly the 400 "Invalid UID" |
| TokenRoute.ExpirationValidation | docs/agora/examples/nextjs-api-token-route.ts:56-66 | a missing lifetime is 86400; NaN or non-positive is exactly the 400 "Invalid expiration time" |
| TokenRoute.BuildOutcome | docs/agora/examples/nextjs-api-token-route.ts:68-101 | a throwing builder gives the 500; a returning one gives 200 unless the expiry instant exceeds a Date's range |
| TokenRoute.ExpiryFits | docs/agora/examples/nextjs-api-token-route.ts:90 | for a present-day clock and a lifetime of at most a day, the expiry instant is a valid Date |
| TokenRoute.RoleEchoedRaw | docs/agora/examples/nextjs-api-token-route.ts:54-88 | the response echoes the raw role text while the builder gets PUBLISHER for anything but "subscriber" |
| TokenRoute.Defaults | docs/agora/examples/nextjs-api-token-route.ts:20-59 | a channel-only request gets uid 0, role "publisher" and a one-day lifetime |
| TokenRoute.ExampleUid | docs/agora/examples/nextjs-api-token-route.ts:45 | "12345" parses to 12345 |
| TokenRoute.ExampleExpiration | docs/agora/examples/nextjs-api-token-route.ts:58 | "3600" parses to 3600 |
| TokenRoute.SubscriberExample | docs/agora/examples/nextjs-api-token-route.ts:13-91 | a full subscriber request mints a one-hour subscriber token for uid 12345 |
| TaskReview.DisplayTasks | frontend/components/task-review.tsx:29-32 | a manager sees every task; anyone else sees exactly the tasks they own |
| TaskReview.PendingApprovedPartition | frontend/components/task-review.tsx:34-35 | pending and approved split the displayed tasks and the pending filter distributes over concatenation |
| TaskReview.ShowsEmptyState | frontend/components/task-review.tsx:139 | the empty state shows exactly when nothing is displayed |
| TaskReview.PendingTasks | frontend/components/task-review.tsx:34 | a task is pending exactly when it is displayed and not approved |
| TaskReview.ApprovedTasks | frontend/components/task-review.tsx:35 | a task is in the approved list exactly when it is displayed and approved |
| TaskReview.Approve | frontend/components/task-review.tsx:37-39 | length and ids are kept and every task with the id ends up approved |
| TaskReview.Reject | frontend/components/task-review.tsx:41-43 | no task with the id remains and every remaining task was already there |
| TaskReview.UpdateOwner | frontend/components/task-review.tsx:45-50 | length and ids are kept |
| TaskReview.UpdateDate | frontend/components/task-review.tsx:52-54 | length and ids are kept and every task with the id gets the new due date |
| TaskReview.UpdateTitle | frontend/components/task-review.tsx:56-59 | length and ids are kept and every task with the id gets the new title |
| TaskReview.FindMember | frontend/components/task-review.tsx:46 | `find` is None exactly when no member has the id, else it is a member |
| TaskReview.ApproveOnlyMatching | frontend/components/task-review.tsx:37-39 | approve sets `approved` on exactly the matching tasks and is idempotent |
| TaskReview.ApproveMovesToApproved | frontend/components/task-review.tsx:34-39 | after an approve the pending list loses the task and the approved list gains it in place |
| TaskReview.RejectRemovesExactly | frontend/components/task-review.tsx:41-43 | reject removes exactly the tasks with the id and nothing else |
| TaskReview.UpdateOwnerOnlyMatching | frontend/components/task-review.tsx:45-50 | an unknown owner id changes nothing; otherwise only the matching tasks' owner changes |
| TaskReview.UpdateFieldOnlyMatching | frontend/components/task-review.tsx:52-58 | date and title updates rewrite that field on exactly the matching tasks |
| TaskReview.TaskReviewPage.constructor | frontend/components/task-review.tsx:25-27 | the page starts with the given tasks and nothing being edited |
| TaskReview.TaskReviewPage.HandleApprove | frontend/components/task-review.tsx:37-39 | the task list becomes its approved version |
| TaskReview.TaskReviewPage.HandleReject | frontend/components/task-review.tsx:41-43 | the task list loses the rejected id |
| TaskReview.TaskReviewPage.HandleUpdateOwner | frontend/components/task-review.tsx:45-50 | the task list gets the new owner when the id is a team member's |
| TaskReview.TaskReviewPage.HandleUpdateDate | frontend/components/task-review.tsx:52-54 | the task list gets the new due date |
| TaskReview.TaskReviewPage.HandleUpdateTitle | frontend/components/task-review.tsx:56-59 | the task list gets the new title and editing ends |
| TaskReview.TaskReviewPage.StartEditing | frontend/components/task-review.tsx:92-93 | editing the given task, list unchanged |
| TaskReview.TaskReviewPage.CancelEditing | frontend/components/task-review.tsx:92-93 | editing ends, list unchanged |
| TaskBoard.ColumnOf | frontend/components/task-board.tsx:13-18 | every status has a column |
| TaskBoard.ColumnsListEachStatusOnce | frontend/components/task-board.tsx:13-18 | no status has two columns |
| TaskBoard.TasksByStatus | frontend/components/task-board.tsx:25-27 | a task is in a column exactly when it is on the board with that status |
| TaskBoard.ColumnCountsSum | frontend/components/task-board.tsx:25-27 | the column counts add up to the number of tasks |
| TaskBoard.Drop | frontend/components/task-board.tsx:43-46 | a drop keeps the number of tasks and each position's id |
| TaskBoard.DropOnlyMovesDragged | frontend/components/task-board.tsx:43-46 | a drop with no dragged task or onto its own column changes nothing; otherwise only the dragged id's status changes and it lands in the target column |
| TaskBoard.Board.constructor | frontend/components/task-board.tsx:20-23 | the board starts with the given tasks and no drag in progress |
| TaskBoard.Board.HandleDragStart | frontend/components/task-board.tsx:29-31 | records the dragged task |
| TaskBoard.Board.HandleDragEnd | frontend/components/task-board.tsx:33-36 | clears the drag and the highlighted column |
| TaskBoard.Board.HandleDragOver | frontend/components/task-board.tsx:38-41 | highlights the column |
| TaskBoard.Board.HandleDragLeave | frontend/components/task-board.tsx:83 | clears the highlight |
| TaskBoard.Board.HandleDrop | frontend/components/task-board.tsx:43-49 | applies the drop to the tasks and clears the drag state |
| MeetingLiveView.FormatTimeReadsBack | frontend/components/meeting-live-view.tsx:114-118 | the display has the colon third from the end, whole minutes before it and the remaining seconds after it, so it reads back as the time |
| MeetingLiveView.FormatTimeWidth | frontend/components/meeting-live-view.tsx:114-118 | the minutes are exactly as wide as `padStart(2, "0")` makes them: five characters below ten minutes, no leading zero from ten minutes on |
| MeetingLiveView.FormatTimeShape | frontend/components/meeting-live-view.tsx:114-118 | below 100 minutes the display is five characters with the colon at index 2 |
| MeetingLiveView.FormatTimeAtStart | frontend/components/meeting-live-view.tsx:100-118 | the starting 105 seconds shows "01:45" |
| MeetingLiveView.FormatTimeHundredMinutes | frontend/components/meeting-live-view.tsx:114-118 | 6000 seconds shows "100:00": minutes are not cut to two digits |
| MeetingLiveView.FormatTime | frontend/components/meeting-live-view.tsx:114-118 | the display is at least five characters, digits everywhere except a colon third from the end |
| MeetingLiveView.ToggleOnlyMatching | frontend/components/meeting-live-view.tsx:120-124 | only the matching tasks' `confirmed` flips, everything else kept; toggling twice restores the list |
| MeetingLiveView.Toggle | frontend/components/meeting-live-view.tsx:120-124 | length is kept and a task's flag flips exactly when its id matches |
| MeetingLiveView.PendingTasks | frontend/components/meeting-live-view.tsx:126 | a detected task is pending exactly when it is in the list and unconfirmed |
| MeetingLiveView.ConfirmedTasks | frontend/components/meeting-live-view.tsx:127 | a detected task is confirmed exactly when it is in the list and confirmed |
| MeetingLiveView.PendingConfirmedPartition | frontend/components/meeting-live-view.tsx:126-127 | the pending and confirmed lists split the detected tasks |
| MeetingLiveView.SplitSpaces | frontend/components/meeting-live-view.tsx:162-163 | `split(" ")` gives at least one piece and no piece holds a space |
| MeetingLiveView.SplitAtSpace | frontend/components/meeting-live-view.tsx:162-163 | a word followed by a space splits off as the first piece |
| MeetingLiveView.SplitJoin | frontend/components/meeting-live-view.tsx:162-163 | joining the pieces with spaces gives the name back |
| MeetingLiveView.FirstsOfSplit | frontend/components/meeting-live-view.tsx:162-165 | the first characters of the pieces are the word starts of the name |
| MeetingLiveView.InitialsAreWordStarts | frontend/components/meeting-live-view.tsx:162-165 | the initials are the first character of each non-empty word, in order |
| MeetingLiveView.WordStartsBounds | frontend/components/meeting-live-view.tsx:162-165 | initials hold no space and are no longer than the name |
| MeetingLiveView.NoSpaceIsOnePiece | frontend/components/meeting-live-view.tsx:162-163 | a name without spaces splits into itself alone |
| MeetingLiveView.InitialsOfTwoWords | frontend/components/meeting-live-view.tsx:162-165 | "first last" gives the two first letters |
| MeetingLiveView.InitialsOfSarahChen | frontend/components/meeting-live-view.tsx:162-165 | "Sarah Chen" gives "SC" |
| MeetingLiveView.InitialsSkipEmptyWords | frontend/components/meeting-live-view.tsx:162-165 | doubled and trailing spaces add nothing |
| MeetingLiveView.Initials | frontend/components/meeting-live-view.tsx:162-165 | the initials hold no space and have at most one letter per piece and per character of the name |
| MeetingLiveView.InitialsOfAlex | frontend/components/meeting-live-view.tsx:162-165 | "Alex Rivera" gives "AR" |
| MeetingLiveView.InitialsOfJordan | frontend/components/meeting-live-view.tsx:162-165 | "Jordan Kim" gives "JK" |
| MeetingLiveView.InitialsOfTaylor | frontend/components/meeting-live-view.tsx:162-165 | "Taylor Smith" gives "TS" |
| MeetingLiveView.TeamInitials | frontend/components/meeting-live-view.tsx:158-165 | the participant strip for the seeded team reads SC, AR, JK, TS |
| MeetingLiveView.LiveMeeting.constructor | frontend/components/meeting-live-view.tsx:100-104 | the clock starts at 105 seconds with the three mock detected tasks |
| MeetingLiveView.LiveMeeting.Tick | frontend/components/meeting-live-view.tsx:107-112 | each tick adds exactly one second |
| MeetingLiveView.LiveMeeting.ToggleTaskConfirmation | frontend/components/meeting-live-view.tsx:120-124 | the detected tasks become their toggled version |
| ManagerDashboard.Count | frontend/components/manager-dashboard.tsx:13-16 | the count is the size of the multiset holding every copy of each passing element and nothing else; at most the length, zero exactly when none passes |
| ManagerDashboard.TodoCount | frontend/components/manager-dashboard.tsx:13 | the number of to-do tasks, counting every copy of each; at most the task count, zero exactly when there is none |
| ManagerDashboard.InProgressCount | frontend/components/manager-dashboard.tsx:14 | the number of in-progress tasks, counting every copy of each; at most the task count, zero exactly when there is none |
| ManagerDashboard.PendingApproval | frontend/components/manager-dashboard.tsx:15 | the number of unapproved tasks, counting every copy of each; at most the task count, zero exactly when there is none |
| ManagerDashboard.LowConfidenceCount | frontend/components/manager-dashboard.tsx:16 | the number of low-confidence tasks, counting every copy of each; at most the task count, zero exactly when there is none |
| ManagerDashboard.FirstName | frontend/components/manager-dashboard.tsx:27 | the greeting's first name holds no space |
| ManagerDashboard.TodaysTasks | frontend/components/manager-dashboard.tsx:18 | the first open tasks in list order, at most three, fewer only when that is all the open tasks |
| ManagerDashboard.RecentMeetings | frontend/components/manager-dashboard.tsx:19 | the first min(3, n) meetings |
| ManagerDashboard.DisjointFilters | frontend/components/manager-dashboard.tsx:13-14 | two filters no element passes together pick at most the whole list |
| ManagerDashboard.StatCardsConsistent | frontend/components/manager-dashboard.tsx:13-16 | to-do plus in-progress never exceeds the task count; pending approval is exactly the unapproved tasks |
| ManagerDashboard.FirstNameIsFirstWord | frontend/components/manager-dashboard.tsx:27 | the greeting's name is a space-free prefix of the full name, ending at the first space or at the end |
| ManagerDashboard.FilterFrom | frontend/components/manager-dashboard.tsx:13-18 | filtering from position k looks at element k, then the rest |
| ManagerDashboard.CountFrom | frontend/components/manager-dashboard.tsx:13-16 | a count from position k is element k's contribution plus the rest |
| ManagerDashboard.CountOfSix | frontend/components/manager-dashboard.tsx:13-16 | on six tasks a counter is the number of positions that pass its test |
| ManagerDashboard.FirstThreePass | frontend/components/manager-dashboard.tsx:18 | when the first three tasks are open, today's tasks are exactly those three |
| ManagerDashboard.SeededFields | frontend/lib/mock-data.ts:36-106 | the seeded tasks' statuses, approvals, confidences and first ids |
| ManagerDashboard.CountsOfSeededShape | frontend/components/manager-dashboard.tsx:13-16 | any six tasks with the seeded statuses, approvals and confidences make the cards read 2, 2, 1 and 1 |
| ManagerDashboard.SeededCounts | frontend/components/manager-dashboard.tsx:13-16 | on the seeded data the four cards read 2, 2, 1 and 1 |
| ManagerDashboard.SeededTodaysTasks | frontend/components/manager-dashboard.tsx:18 | on the seeded data today's tasks are tasks 1, 2 and 3 |
| ManagerDashboard.SeededRecentMeetings | frontend/components/manager-dashboard.tsx:19 | the three seeded meetings are all shown, standup first |
| ManagerDashboard.Greeting | frontend/components/manager-dashboard.tsx:27 | the greeting says "Sarah" |
| Sidebar.IsActive | frontend/components/sidebar.tsx:42 | the root link is active exactly on "/"; any other link exactly on paths starting with its href |
| Sidebar.RootActiveOnlyOnRoot | frontend/components/sidebar.tsx:42 | the dashboard link is active exactly on "/" |
| Sidebar.OtherItemsActiveOnPrefix | frontend/components/sidebar.tsx:42 | any other link is active exactly when the path starts with its href |
| Sidebar.LiveMeetingHighlightsMeetings | frontend/components/sidebar.tsx:42 | "/meetings/live" highlights Meetings |
| Sidebar.PrefixIsNotSegmentAware | frontend/components/sidebar.tsx:42 | "/tasksX" highlights Tasks: the match is by characters, not path segments |
| Sidebar.AtMostOneActive | frontend/components/sidebar.tsx:11-42 | for any path at most one link is highlighted |
| Sidebar.OpenAfterClick | frontend/components/sidebar.tsx:47 | a link click closes the sidebar only on mobile and leaves it as it was otherwise |

## Left out

- The Agora RTM SDK itself, its wire protocol and its asynchronous callbacks. Each SDK call is a parameter that resolves or rejects, and each inbound event is an explicit method call.
- Async/await and promise timing. Each operation is one sequential step, so two operations never interleave.
- The optional `token` argument of `login`. It is only passed through to the SDK, whose answer is already a parameter.
- Reading the app id from the environment, and the warning when it is missing. The app id is a parameter, and "is the SDK loaded" is a boolean parameter.
- `Date.now`, `setInterval` and the timer teardown. The clock is a `now` parameter; the hook's two `Date.now()` calls for one message are taken as the same instant.
- The live view's ticking timer: `Tick` is one timer firing.
- `toISOString` formatting of `expiresAt`. The route's body carries the expiry instant in milliseconds; only the range error `toISOString` throws past 8.64e15 ms is modelled.
- JavaScript number precision: integers are unbounded.
- Decimal.ParseInt: does not skip leading whitespace as `parseInt(s, 10)` does, and reads arbitrarily many digits exactly where JavaScript numbers lose precision.
- `RtcTokenBuilder` and its signing. The builder is a parameter that returns a token or throws.
- Console logging, including the member joined/left logging listeners. Only their registration is modelled.
- The token helper in docs/agora/examples/token-generator.ts is not part of this model: a package wrapper, REST fetches and HMAC signing.
- docs/agora/examples/client-token-usage.tsx is not part of this model: fetches, timers and browser globals.
- The chat window's whitespace guards are not part of this model.
- The page files, cards and layout components have no logic beyond rendering and are not part of this model.
- MeetingLiveView.Initials: characters are Unicode scalar values, while `n[0]` takes one UTF-16 code unit. For a word starting outside the Basic Multilingual Plane (an emoji, a CJK Extension B ideograph) the component shows a lone high surrogate, and the model shows the whole character. `split(" ")` and `startsWith` agree in both encodings.
- The live view's mute, video, confidential and transcript toggles are not modelled. They are independent booleans with no effect on the modelled state.
- The mock meetings' transcripts, the team activity feed and avatar image paths are kept only as far as the fixtures need them.
