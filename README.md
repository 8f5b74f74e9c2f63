# Chat room message sync: a Dafny model

This project models the logic of a small Matrix chat widget. It covers three parts:

- **`useMatrixSync`**, the per-room hook that keeps a room's message list. The hook's effect loads the room's history asynchronously and subscribes a handler to live messages. On teardown it clears a `mounted` flag and unsubscribes the handler. The module `MatrixSync` models it in two forms:
  - as values: `SyncState`, `Mount`, `Apply` for one event and `Run` for a sequence of events;
  - in place: the class `RoomSync`, whose methods are each tied to `Apply`.

  A history result, a history failure, a live delivery and the cleanup are discrete events. They may arrive in any order.
- **The Matrix string helpers**: `formatUserId`, `formatRoomAlias` and `truncateUsername`. They are modelled as pure functions in `MatrixUtils`, with the homeserver's hostname passed as a parameter.
- **The `ChatRoom` component's handlers**: the resize bar (`handleMouseDown`, `handleMouseMove`, `handleMouseUp`, with the textarea height clamped to [100, 400]) and the send form (`handleSend`). The class `ChatRoomComponent.ChatRoom` holds their state. The service call's outcome is a parameter.

The hook neither removes duplicate messages nor sorts them, and it does not wait for the history before listening for live messages:

- A history result replaces the whole list with the reversed page, even when live messages arrived first.
- A live message for the hook's room is appended at the end. It is not de-duplicated and not sorted.
- The subscription is made right after the history load starts, so live messages can arrive before the history does.

The lemmas `HistoryOverwritesLive`, `LiveMessagesAppend` and `DuplicateDeliveryKept` state this behaviour exactly.

## Model

| member | source | states |
|---|---|---|
| MatrixUtils.IsQualifiedUserId | src/utils/matrix.utils.ts:2 | The early-return guard: the id starts with '@' and contains ':'. Such an id is at least two characters long and starts with '@'. |
| MatrixUtils.FormatUserId | src/utils/matrix.utils.ts:1-5 | The result is always a qualified id (starts with '@' and contains ':'). A qualified input is returned unchanged. Any other input comes back as '@', the name, ':' and the hostname, in that order. |
| MatrixUtils.FormatUserIdIdempotent | src/utils/matrix.utils.ts:2-4 | Formatting a second time with the same hostname gives the same id. |
| MatrixUtils.FormatRoomAlias | src/utils/matrix.utils.ts:7-9 | The result always starts with '#'. An input that already starts with '#' is returned as is. Any other input gets exactly one '#' in front. |
| MatrixUtils.FormatRoomAliasIdempotent | src/utils/matrix.utils.ts:8 | Formatting an alias twice gives the same alias as formatting it once. |
| MatrixUtils.UpToFirstColon | src/utils/matrix.utils.ts:27 | `split(':')[0]` is the longest prefix of the input with no ':'. It ends either at the end of the input or at its first ':'. |
| MatrixUtils.TruncateUsername | src/utils/matrix.utils.ts:26-28 | The result never contains ':'. Empty input, or input starting with ':', gives "". Otherwise the result is the input from index 1 up to its first ':' or its end. |
| MatrixUtils.TruncateFormatRoundTrip | src/utils/matrix.utils.ts:1-28 | For a name without ':', truncating `formatUserId(name, host)` gives the name back, whatever the hostname is. |
| MatrixSync.ErrorText | src/hooks/useMatrixSync.ts:21 | `err instanceof Error ? err.message : fallback`: an `Error`'s own message, otherwise the fallback text. Line 42 uses it with 'Failed to sync messages'. |
| MatrixSync.Reversed | src/hooks/useMatrixSync.ts:17 | The reversed page has the same length, and element k is element n-1-k of the page. |
| MatrixSync.ReversedPermutes | src/hooks/useMatrixSync.ts:17 | Reversing the page neither loses nor invents a message: same multiset. |
| MatrixSync.ReverseInPlace | src/hooks/useMatrixSync.ts:17 | `reverse()` leaves the fetched array holding the reversal of its old contents. |
| MatrixSync.Mount | src/hooks/useMatrixSync.ts:6-44 | After the first effect: messages are empty, loading is on and `mounted` is set. The handler is subscribed exactly when subscribing did not throw. `error` is null, or on a subscribe failure the error's message or 'Failed to sync messages'. |
| MatrixSync.Apply | src/hooks/useMatrixSync.ts:13-49 | No event changes the room. `isLoading` never goes from false to true. Once both `mounted` and the subscription are gone, no event changes the state. |
| MatrixSync.LoadingNeverRestarts | src/hooks/useMatrixSync.ts:7-25 | After any sequence of events, loading is on only if it was on at the start. |
| MatrixSync.CleanupIsFinal | src/hooks/useMatrixSync.ts:46-49 | After cleanup, any sequence of late history results, failures and deliveries leaves messages, loading and error exactly as they were. |
| MatrixSync.MountedUntilCleanup | src/hooks/useMatrixSync.ts:11-47 | Only the cleanup clears `mounted`. |
| MatrixSync.LiveMessagesAppend | src/hooks/useMatrixSync.ts:30-34 | While subscribed, a run of deliveries and history failures appends exactly the messages for this room, in delivery order and at the end. Messages for other rooms are dropped. |
| MatrixSync.DuplicateDeliveryKept | src/hooks/useMatrixSync.ts:32 | Delivering the same message twice adds two entries: no de-duplication. |
| MatrixSync.HistoryOverwritesLive | src/hooks/useMatrixSync.ts:15-25 | If the hook is mounted and no cleanup happens first, a history result sets the list to exactly the reversed page, whatever was appended before. Loading ends. |
| MatrixSync.RoomSync.constructor | src/hooks/useMatrixSync.ts:6-44 | The object starts in the `Mount` state: `[]`, loading, `mounted`. A thrown subscribe error is recorded with its fallback text, and messages and loading are left untouched. |
| MatrixSync.RoomSync.OnHistoryLoaded | src/hooks/useMatrixSync.ts:13-28 | While mounted: the page is reversed in place, messages become that reversed page, and loading ends. While unmounted: nothing changes, including the page. The error is never touched. |
| MatrixSync.RoomSync.OnHistoryFailed | src/hooks/useMatrixSync.ts:19-25 | While mounted: the error becomes the thrown message or 'Failed to load message history', and loading ends. While unmounted: nothing changes. Messages are never touched. |
| MatrixSync.RoomSync.OnMessage | src/hooks/useMatrixSync.ts:30-34 | While subscribed, a message for this room grows the list by exactly that message at the end. Any other delivery changes nothing. |
| MatrixSync.RoomSync.Cleanup | src/hooks/useMatrixSync.ts:46-49 | Clears `mounted` and unsubscribes. Messages, loading and error are kept. |
| ChatRoomComponent.ClampHeight | src/components/ChatRoom.tsx:40 | The height is always within [100, 400]. A requested height inside that range is kept, and one outside it goes to the nearer bound. |
| ChatRoomComponent.Drag | src/components/ChatRoom.tsx:37-42 | A run of mouse moves while resizing. With no moves, nothing changes. After at least one move, the last pointer position is the last move's, and the height is within [100, 400] whatever it was before. |
| ChatRoomComponent.DragStaysInBounds | src/components/ChatRoom.tsx:37-42 | Starting from a height within [100, 400], the height stays within it after any run of mouse moves while resizing, the empty run included. The last pointer position is the last move's. |
| ChatRoomComponent.DragFollowsPointer | src/components/ChatRoom.tsx:37-42 | While the pointer stays in the band that needs no clamping, the total height change equals how far the pointer moved up. |
| ChatRoomComponent.TrimStart | src/components/ChatRoom.tsx:52 | `trim()`'s leading half: drops exactly the leading whitespace, and the rest starts with a non-whitespace code point. |
| ChatRoomComponent.TrimEnd | src/components/ChatRoom.tsx:52 | `trim()`'s trailing half: drops exactly the trailing whitespace, and the rest ends with a non-whitespace code point. |
| ChatRoomComponent.Trim | src/components/ChatRoom.tsx:52 | `trim()`: the result is a contiguous piece of the input with only whitespace before and after it. It neither starts nor ends with whitespace. |
| ChatRoomComponent.TrimEmptyIffBlank | src/components/ChatRoom.tsx:52 | `!newMessage.trim()` holds exactly when the draft is made only of whitespace, the empty draft included. |
| ChatRoomComponent.ChatRoom.constructor | src/components/ChatRoom.tsx:14-20 | Empty draft, no send error, height 100, not resizing, last pointer position 0. |
| ChatRoomComponent.ChatRoom.MouseDown | src/components/ChatRoom.tsx:30-35 | Resizing starts, the last pointer position becomes the event's, and the height is unchanged. |
| ChatRoomComponent.ChatRoom.MouseMove | src/components/ChatRoom.tsx:37-42 | When not resizing, nothing changes. When resizing, the height becomes `clamp(prev + (lastY - clientY))` and the last pointer position becomes the event's. The height stays in [100, 400]. |
| ChatRoomComponent.ChatRoom.MouseUp | src/components/ChatRoom.tsx:44-48 | Resizing stops, and the height and last position are kept. |
| ChatRoomComponent.ChatRoom.Edit | src/components/ChatRoom.tsx:137 | The draft becomes the typed text, and nothing else changes. |
| ChatRoomComponent.ChatRoom.Send | src/components/ChatRoom.tsx:50-63 | A whitespace-only draft: no service call, draft and error unchanged. Otherwise the untrimmed draft is sent to the component's room and the previous error is cleared. Success empties the draft. Failure keeps the draft and sets 'Failed to send message. Please try again.' |

## Left out

- Rendering: the JSX layout, the loading spinner, the error banner, own-message colouring with `getUserId`, and `scrollToBottom`/`scrollIntoView` (src/components/ChatRoom.tsx:22-28, 70-151). They are presentation with no state of their own.
- `document.addEventListener`/`removeEventListener` in the mouse handlers. These are browser plumbing: a move reaches `MouseMove` only while listeners are registered, and `MouseMove`'s own `isResizing` guard covers the rest.
- `handleLogout` (`disconnect` and `window.location.reload`): it ends the page and holds no state this model could follow.
- `matrixService` is not part of this model. Its calls become events (`HistoryLoaded`, `HistoryFailed`, `Delivered`), the `subscribeError` parameter of the `RoomSync` constructor, and the `delivered` parameter of `ChatRoom.Send`.
- React machinery: render scheduling, batching of state updates, and re-running the effect when `roomId` changes. A `RoomSync` object stands for one run of the effect. On a re-run, only the closure's `mounted` flag and the subscription are new. The effect never resets `messages`, `isLoading` or `error`, so they carry over from the previous room: its messages, its loading flag, and its error. The loading flag is still on if that room's history had not arrived before cleanup, because the late `finally` then skips `setIsLoading(false)`. The new room's live messages are appended to the old room's list until the new history arrives. A fresh `RoomSync` instead starts from empty messages, loading on and no error, so the model does not cover a room change.
- The subscribe call's failure is part of the constructor, not a separate event. It runs synchronously inside the effect, before any history result can resume. This assumes `getHistoricalMessages` reports failure by rejecting its promise. If it threw synchronously instead, the history `catch`/`finally` would run before the subscribe call. Then, if both calls failed, the source would end with the subscribe error text while the model ends with the history error text.
- ChatRoom.Send: treated as one atomic step. The model does not interleave edits that the user types while `sendMessage` is pending. In the source, a successful send clears whatever the draft is by then.
- `console.error` logging in `handleSend`: it has no effect on the state.
- `formatTimestamp`: it depends on `Date` and locale formatting.
- `extractDomain` and the `new URL(homeserver).hostname` step of `formatUserId`: URL parsing is the platform's. The hostname is a parameter of `FormatUserId`.
- MatrixUtils.TruncateUsername: strings are sequences of Unicode code points here, not UTF-16 code units, so `substring(1)` drops one code point rather than one code unit. The two differ only when the id's first character lies outside the Basic Multilingual Plane. There the source keeps a lone low surrogate and the model drops the whole character. Matrix user ids start with '@', which is inside it. Strings holding lone surrogates cannot be represented at all.
- Mouse coordinates and heights are JavaScript numbers (floating point). The model uses unbounded integers.
