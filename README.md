# SecureChat client: a verified model of its page and image-upload state

SecureChat is a browser chat client. A user signs in with an email address and a
one-time code. The user then sees a list of encrypted messages, can decrypt any entry on
demand, can send text, and can upload an image. All cryptography, code checking and
storage happen in a backend that the client reaches over HTTP and a push channel.

This project models the client-side logic of two components:

- **The chat page** (`app/page.tsx`). Module `ChatPage` gives the page's state as a
  value, `Page`. The `After…` functions say what each handler does to that state. The
  handlers are startup restore, register, verify code, send, decrypt by index, load,
  the push channel's new-message event, back, sign-out and the three input fields.
  Class `Home` keeps the same state in mutable fields. Each of its handler methods is
  proved to follow the matching function and to keep the invariant `Valid`. The
  invariant says the code input holds at most 6 characters, the chat view implies a
  signed-in user, and a signed-in user is the persisted one. `Run` applies a sequence
  of events in order. Lemmas about `Run` show that the invariant survives every
  sequence, and that only verification and sign-out touch the persisted slot.
- **The image-upload dialog** (`components/upload-image.tsx`). Module `ImageUpload`
  holds the pure parts: the file validator, the base64 payload cut out of a data URL,
  and the synthetic progress meter. Class `UploadImage` holds the selection, progress,
  uploading and dialog state. Its handlers change only the fields named in their
  `modifies` frames.

Supporting modules: `Strings` models JavaScript's `trim` and one-character `split`, with
round-trip lemmas between `Split` and `Join`. `ChatTypes` holds the message record
(`types/chat.ts`) and the identity. `Wrappers` holds `Option`, `Reply` and `Min`.

Every backend call and push emit is written to an outbox field (`outbox`, `posts`). The
call's outcome (`Reply.Ok(payload)` or `Reply.Failed`) is a parameter of the handler.
Handlers are atomic. When verification or startup fires a message load without
awaiting it, the load is applied in the same step, and its outcome is one more parameter.

The handlers check less than the page's UI suggests; the model follows the handlers:
- Code verification sends any non-empty code (app/page.tsx:71). The 6-character rule
  exists only as the button's `disabled` (app/page.tsx:252), and pressing Enter skips it.
- A successful decrypt sets only `decrypted` and `decryptDuration`, and never the entry's
  `type` (app/page.tsx:128-129).

## Model

| member | source | states |
|---|---|---|
| `Strings.TrimStart` | app/page.tsx:89 | the result is a suffix of the input, every dropped character is whitespace, and the result starts with a non-whitespace character |
| `Strings.TrimEnd` | app/page.tsx:89 | the result is a prefix of the input, every dropped character is whitespace, and the result ends with a non-whitespace character |
| `Strings.Trim` | app/page.tsx:89 | `trim()` gives the empty string exactly when the input is whitespace only; otherwise the result has non-whitespace ends |
| `Strings.Split` | components/upload-image.tsx:98 | `split(sep)` gives at least one piece, and no piece contains the separator |
| `Strings.SplitJoin` | components/upload-image.tsx:98 | joining the pieces of a split gives back the original string |
| `Strings.JoinSplit` | components/upload-image.tsx:98 | splitting a join of separator-free pieces gives back the pieces |
| `Strings.SplitCountsSeparator` | components/upload-image.tsx:98 | a split has a second piece exactly when the separator occurs |
| `Strings.FirstPiece` | app/page.tsx:288 | the first piece is the prefix of the string up to the first separator |
| `ChatPage.DisplayName` | app/page.tsx:288 | the name is a prefix of the email with no `@`, and ends just before the first `@` if there is one |
| `ChatPage.IsLocked` | app/page.tsx:347-389 | an entry is shown locked, with the decrypt button, exactly when it has no non-empty plaintext (`!decrypted` treats absent and `""` alike) |
| `ChatPage.ShownText` | app/page.tsx:346-356 | a locked entry shows its ciphertext; an unlocked one shows its plaintext, which is non-empty |
| `ChatPage.SentEntry` | app/page.tsx:99-103 | the entry a send appends: from the sender, with the placeholder text, the returned encryption duration and no plaintext, so it is locked |
| `ChatPage.Initial` | app/page.tsx:21-27 | the page as first rendered satisfies the invariant |
| `ChatPage.AfterLoad` | app/page.tsx:29-38 | one list request for the target; a success replaces the list wholesale with the response; a failure keeps it; nothing else changes |
| `ChatPage.AfterRestore` | app/page.tsx:40-49 | with no persisted identity nothing changes; otherwise user and email come from it, the chat step is shown and its list is loaded |
| `ChatPage.AfterRegister` | app/page.tsx:51-68 | an empty email changes nothing and sends nothing; otherwise register and code requests are sent, and the step becomes code entry exactly when the code request succeeds, whatever registration answered |
| `ChatPage.AfterVerifyOtp` | app/page.tsx:70-86 | an empty code changes nothing; a failure only records the request; a success makes the returned identity both the user and the persisted one, shows the chat and issues one load for that identity's email |
| `ChatPage.AfterSend` | app/page.tsx:88-116 | no user or a whitespace-only input changes nothing; a success empties the input and appends exactly one entry, from the user, with the placeholder text, the returned duration and no plaintext, keeping all earlier entries, then emits; a failure restores the input as typed and keeps the list |
| `ChatPage.AfterDecrypt` | app/page.tsx:119-135 | an index outside the list or no user changes nothing; the list length never changes and only entry `index` may differ; a success sets exactly that entry's plaintext and duration, and it stays locked only if the plaintext is absent or empty; a failure keeps the list |
| `ChatPage.AfterNewMessage` | app/page.tsx:140-151 | reloads the signed-in user's list when the user's email is non-empty; otherwise nothing changes |
| `ChatPage.AfterBack` | app/page.tsx:264-271 | the step becomes the email step; nothing else changes |
| `ChatPage.AfterSignOut` | app/page.tsx:298-304 | the persisted slot, user, email and list are cleared and the email step is shown; the code and message inputs stay |
| `ChatPage.AfterEmailChange` | app/page.tsx:199 | the email input takes the typed text; nothing else changes |
| `ChatPage.AfterOtpChange` | app/page.tsx:244-247 | the code input keeps at most 6 characters of the typed text, all of it if it is short enough |
| `ChatPage.AfterMessageChange` | app/page.tsx:407 | the message input takes the typed text; nothing else changes |
| `ChatPage.Next` | app/page.tsx:20-157 | dispatching one event to its handler keeps the invariant, only appends to the outbox, and leaves the persisted slot alone unless the event is verification or sign-out |
| `ChatPage.Run` | app/page.tsx:20-157 | handling events one at a time, in arrival order, only appends to the outbox |
| `ChatPage.RunPreservesValid` | app/page.tsx:20-151 | every sequence of handler events keeps the page invariant |
| `ChatPage.OnlySignInAndSignOutTouchStorage` | app/page.tsx:77 | a sequence of events without verification or sign-out leaves the persisted identity unchanged |
| `ChatPage.ReloadAfterSignIn` | app/page.tsx:40-86 | after a successful verification, a reloaded page restores the same user in the chat step with one load |
| `ChatPage.ReloadAfterSignOut` | app/page.tsx:298-304 | after sign-out, a reloaded page is the fresh signed-out page and sends nothing |
| `ChatPage.SignInScenario` | app/page.tsx:51-86 | email a@b.com, code 123456, identity returned: the user is a@b.com and persisted, the chat shows, and exactly one list fetch for that address follows |
| `ChatPage.Home.constructor` | app/page.tsx:21-27 | the component starts as `Initial` of the persisted slot |
| `ChatPage.Home.LoadMessages` | app/page.tsx:29-38 | updates the fields as `AfterLoad` and keeps the invariant |
| `ChatPage.Home.Restore` | app/page.tsx:40-49 | updates the fields as `AfterRestore` and keeps the invariant |
| `ChatPage.Home.HandleRegister` | app/page.tsx:51-68 | updates the fields as `AfterRegister` and keeps the invariant |
| `ChatPage.Home.HandleVerifyOtp` | app/page.tsx:70-86 | updates the fields as `AfterVerifyOtp` and keeps the invariant |
| `ChatPage.Home.HandleSend` | app/page.tsx:88-116 | updates the fields as `AfterSend` and keeps the invariant |
| `ChatPage.Home.HandleDecrypt` | app/page.tsx:119-135 | updates the fields as `AfterDecrypt`, assigning the copied list with entry `index` replaced, and keeps the invariant |
| `ChatPage.Home.HandleNewMessage` | app/page.tsx:140-151 | updates the fields as `AfterNewMessage` and keeps the invariant |
| `ChatPage.Home.Back` | app/page.tsx:266 | updates the fields as `AfterBack` and keeps the invariant |
| `ChatPage.Home.SignOut` | app/page.tsx:298-304 | updates the fields as `AfterSignOut` and keeps the invariant |
| `ChatPage.Home.HandleEmailChange` | app/page.tsx:199 | updates the fields as `AfterEmailChange` |
| `ChatPage.Home.HandleOtpChange` | app/page.tsx:244-247 | updates the fields as `AfterOtpChange` |
| `ChatPage.Home.HandleMessageChange` | app/page.tsx:407 | updates the fields as `AfterMessageChange` |
| `ImageUpload.ValidateFile` | components/upload-image.tsx:32-47 | accepted exactly when the type is JPEG, PNG, GIF or WebP and the size is at most 5·1024·1024 bytes; refused for its format exactly when the type is not allowed, so type is judged before size |
| `ImageUpload.ValidateExamples` | components/upload-image.tsx:32-47 | exactly 5 MiB and 1 MiB PNG are accepted; 6 MiB is too large; a text file is refused for its format even when also too large |
| `ImageUpload.Base64Payload` | components/upload-image.tsx:98 | there is a payload exactly when the data URL has a comma, and the payload has no comma |
| `ImageUpload.PayloadOfDataUrl` | components/upload-image.tsx:96-98 | for a data URL `header,body`, the payload posted is exactly `body` |
| `ImageUpload.Tick` | components/upload-image.tsx:104-110 | the updater adds 10 exactly when progress is below 90 and otherwise returns it unchanged |
| `ImageUpload.Fire` | components/upload-image.tsx:103-111 | one firing of the interval: below 90 progress rises by 10 and the interval keeps running; at 90 or above progress is kept and the interval clears itself |
| `ImageUpload.FireTimes` | components/upload-image.tsx:103-111 | repeated firings never lower progress, a stopped interval changes nothing, and a stopped interval never restarts |
| `ImageUpload.SettleSuccess` | components/upload-image.tsx:118-119 | a successful post stops the interval and shows 100 |
| `ImageUpload.SettleFailureAsWritten` | components/upload-image.tsx:129-131 | a failed post as written shows 0 but leaves the interval as it was |
| `ImageUpload.SettleFailure` | components/upload-image.tsx:129-131 | a failed post as intended shows 0 and stops the interval |
| `ImageUpload.ProgressClimbs` | components/upload-image.tsx:103-111 | from a multiple of ten, each firing adds 10 until 90; the next firing stops the interval with 90 kept |
| `ImageUpload.ProgressFromZero` | components/upload-image.tsx:103-111 | from 0, after k firings progress is min(10k, 90), so it never exceeds 90 before the post settles |
| `ImageUpload.FailureLeavesIntervalRunning` | components/upload-image.tsx:129-134 | as written, a failed post leaves the interval running, and progress climbs back to 90 |
| `ImageUpload.FailureStopsProgress` | components/upload-image.tsx:129-134 | with the interval cleared on failure, progress stays at 0 |
| `ImageUpload.UploadImage.constructor` | components/upload-image.tsx:23-30 | nothing selected, not uploading, progress 0, dialog closed, nothing posted |
| `ImageUpload.UploadImage.HandleFileSelect` | components/upload-image.tsx:49-59 | a refused file leaves the selection and preview unchanged; an accepted one becomes the image with its preview; no other field may change |
| `ImageUpload.UploadImage.HandleFileChange` | components/upload-image.tsx:61-67 | with a file, only the first is offered for selection, and the dialog opens even if that file is refused |
| `ImageUpload.UploadImage.HandleDrop` | components/upload-image.tsx:79-91 | only the first dropped file is offered for selection, and the dialog opens even if that file is refused |
| `ImageUpload.UploadImage.StartUpload` | components/upload-image.tsx:93-116 | no image or no user changes nothing; otherwise one post of the data URL's payload and the user's email, uploading starts at 0 and the interval runs |
| `ImageUpload.UploadImage.IntervalFires` | components/upload-image.tsx:103-111 | the meter advances by `Fire`; progress stays at most 90 |
| `ImageUpload.UploadImage.UploadSucceeded` | components/upload-image.tsx:118-121 | the interval stops, progress is 100, uploading ends and one clean-up timer is scheduled |
| `ImageUpload.UploadImage.UploadFailed` | components/upload-image.tsx:129-134 | progress is reset to 0, uploading ends and the interval stops; the selected image stays |
| `ImageUpload.UploadImage.SuccessTimerFires` | components/upload-image.tsx:121-128 | image and preview cleared, progress 0, dialog closed, `onSuccess` called once if given |
| `ImageUpload.UploadImage.ClearSelection` | components/upload-image.tsx:140-147 | image and preview cleared and dialog closed; nothing else changes |
| `ImageUpload.UploadImage.SetDialogOpen` | components/upload-image.tsx:159 | the dialog flag takes the requested value |
| `ImageUpload.FailedUploadKeepsSelection` | components/upload-image.tsx:129-134 | pick a valid image and fail its upload: the image stays selected for a retry, progress is 0 and one post was made |
| `ImageUpload.SuccessfulUploadClearsSelection` | components/upload-image.tsx:118-128 | pick a valid image and upload it: after the clean-up timer the selection is gone, the dialog is closed, progress is 0 and `onSuccess` ran once |

## Left out

- The backend, axios and HTTP: only their outcomes are modelled, as handler parameters.
- socket.io: the connection and its `on`/`off` subscription are not modelled. The delayed emit after a send is an `EmitNewMessage` entry in the outbox.
- localStorage and JSON: modelled as an `Option<Identity>` slot. A malformed stored value is not modelled, nor is a malformed backend response such as a verification without `user`.
- Timers: the 500 ms emit delay is folded into the send. The success clean-up timer is its own event, `SuccessTimerFires`. Each interval firing is one `IntervalFires` event.
- FileReader and data-URL generation: a `File` carries the data URL it would produce. The Next `Image` loader is not modelled.
- `formatFileSize` (components/upload-image.tsx:149-155): it uses floating point through `Math.log`, `Math.pow` and `toFixed`.
- Durations are integers. JavaScript numbers are floating point.
- A decrypt answer applied after a concurrent refresh: handlers are atomic, so this interleaving is not modelled. A load fired but not awaited (app/page.tsx:47, 79) is applied in the same step.
- Other browser tabs: localStorage is shared by every tab of the same origin, and the page reads the slot only at startup (app/page.tsx:40-49). Another tab signing out or signing in as someone else is not modelled. The third part of `ChatPage.Valid` (a signed-in user is the persisted one) and `ChatPage.ReloadAfterSignIn` assume a single tab.
- Object aliasing: the decrypt copies the array but mutates the shared entry object (app/page.tsx:127-129). Entries are values here.
- Presentation state: `isLoading`, the drag-over highlight, toasts, `console.log`, the camera button and resetting the hidden file input's value are not modelled.
- `types/chat.ts` has no behaviour. It only shapes `ChatTypes.ChatMessage`.
- ImageUpload.UploadImage.StartUpload: requires that no upload is in progress. Handlers are atomic here, so two uploads never overlap, and the class has one interval flag. In the source, `isUploading` only becomes true once the file read finishes (components/upload-image.tsx:97-100), so a quick second click can post twice. The interval a failed upload leaves running in the source (see Findings) is not represented by the class either.
- Strings.Trim: does not state that a non-empty result is a contiguous piece of the input, only its bounds and ends.

## Findings

| source | as written | input that shows it | evidently intended | confidence | as-written member | corrected member |
|---|---|---|---|---|---|---|
| components/upload-image.tsx:129-134 | the failure branch resets progress to 0 but never clears the progress interval; only the success branch clears it (line 118) | a post that fails while progress is below 90, e.g. at 30: the interval keeps firing and progress climbs back to 90 with nothing uploading, and on a retry two intervals advance it | the interval is cleared whenever the post settles, so progress stays at 0 after a failure | high, not executed | `ImageUpload.FailureLeavesIntervalRunning` | `ImageUpload.FailureStopsProgress` |

The class `ImageUpload.UploadImage` uses the corrected failure path (`SettleFailure`).
