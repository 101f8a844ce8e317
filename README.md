# LimeyTT client handlers in Dafny

LimeyTT is a short-video web client. It is written in React and talks to
Supabase for its tables, its file storage and its remote procedures. This
project models the parts of the client that decide something:

- the upload page (title derivation, storage key, guard and form reset);
- the video player (like toggle and counter, view-count write, play and
  bookmark toggles);
- the video-list hook (category filter, creator names, fetch lifecycle and
  the new-video record);
- the "Go Live" dialog (permission stream, panel selection, start and stop
  of a broadcast, track toggles);
- the profile editor (crop modal, fixed avatar key, remove and save);
- the trending page (fetch lifecycle, ranked rows and display fallbacks);
- the sign-up form (per-field update and password check).

Each event handler is one atomic step. A component's state (`useState`
values and refs) is a Dafny `class`. Its handlers are methods with
`modifies this`, and each one states all of the new state. A remote call
is a parameter standing for what the call resolved with: an error, or the
returned data. A "scenario" method runs several handlers in a row on a
fresh object. Its `ensures` states what the page is left showing. Pure
derivations are functions, and lemmas about them give the round trips,
idempotence and injectivity.

Files:
- `common.dfy`: Option/Result, JavaScript truthiness and `||`, `trim`,
  `split(c)[0]` and `split(c).pop()`, and decimal text of a number. It also
  has the `owner/number<sep>tail` storage keys with their parse-back.
- `upload.dfy`: `src/pages/Upload.tsx`.
- `video_player.dfy`: `src/components/VideoPlayer.tsx`.
- `video_data.dfy`: `src/hooks/useVideoData.tsx`.
- `live_stream.dfy`: `src/components/LiveStreamDialog.tsx`.
- `edit_profile.dfy`: `src/pages/EditProfile.tsx`.
- `trending.dfy`: `src/pages/Trending.tsx`.
- `signup.dfy`: `src/pages/Signup.tsx`.

## Model

| member | source | states |
|---|---|---|
| Common.OrElse | src/hooks/useVideoData.tsx:177 | `o \|\| fallback` is the value when it is present and non-empty; otherwise it is the fallback |
| Common.CountOrZero | src/components/VideoPlayer.tsx:57 | `n \|\| 0` is the count when present and 0 when absent (a 0 count falls back to itself) |
| Common.Trim | src/pages/Upload.tsx:38 | the trimmed text neither starts nor ends with ECMAScript white space, and it is empty exactly when the text is blank |
| Common.TrimIsSlice | src/pages/Upload.tsx:38 | the trimmed text is the part of the text after its leading white space, and everything before and after that part is white space |
| Common.TrimIdempotent | src/hooks/useVideoData.tsx:173 | trimming a trimmed text changes nothing |
| Common.BeforeFirst | src/pages/Upload.tsx:31 | `split(c)[0]` is the longest prefix without `c`, and `c` follows it when it is shorter than the text |
| Common.AfterLast | src/pages/Upload.tsx:51 | `split(c).pop()` is the longest suffix without `c`, and `c` precedes it when it is shorter than the text |
| Common.SplitJoin | src/pages/Upload.tsx:52 | splitting `a + c + b` at the first `c` gives back `a` and `b` when `a` has no `c` |
| Common.AfterLastJoin | src/pages/Upload.tsx:51-52 | the part after the last `c` of `a + c + b` is `b` when `b` has no `c` |
| Common.NatToString | src/pages/Upload.tsx:52 | `${n}` of a timestamp, by definition; its digits, its canonical form and its read-back are proved in NatToStringDigits, NatToStringCanonical and DigitsRoundTrip |
| Common.NatToStringCanonical | src/pages/Upload.tsx:52 | `${n}` has no leading zero: it starts with `0` only for 0 |
| Common.NatToStringDigits | src/pages/Upload.tsx:52 | `${n}` of a timestamp is a non-empty string of decimal digits |
| Common.DigitsRoundTrip | src/pages/Upload.tsx:52 | reading back the decimal text of a number gives that number |
| Common.OwnedKeyRoundTrip | src/pages/Upload.tsx:52 | a key `owner/number<sep>tail` parses back to its owner, number and tail when the owner has no `/` and the separator is not a digit |
| Common.OwnedKeyInjective | src/pages/Upload.tsx:52 | two such keys are equal only when built from the same owner, number and tail |
| Upload.UpperAscii | src/pages/Upload.tsx:32 | `toUpperCase` of one character, for the ASCII letters; its meaning is stated in UpperAsciiAlphabet |
| Upload.UpperAsciiAlphabet | src/pages/Upload.tsx:32 | a lower-case ASCII letter becomes the upper-case letter at the same place of the alphabet, and any other character is kept |
| Upload.DerivedTitle | src/pages/Upload.tsx:31-32 | the title is the name up to its first `.`, with its first character upper-cased and the rest unchanged; it holds no `.` and is empty exactly when the name is empty or starts with `.` |
| Upload.Extension | src/pages/Upload.tsx:51 | the extension is the text after the last `.`, a `.` precedes it, and it is the whole name when there is no `.` |
| Upload.StoragePath | src/pages/Upload.tsx:51-52 | the key `userId/now.ext`, by definition; its parse-back is proved in StoragePathRoundTrip |
| Upload.StoragePathRoundTrip | src/pages/Upload.tsx:51-52 | the key `userId/now.ext` reads back into the user, the timestamp and the extension, and its own extension is the file's |
| Upload.FailureDescription | src/pages/Upload.tsx:84 | the failure toast's text is the error message when it is non-empty, and is never empty |
| Upload.SizeLabelAsWritten | src/pages/Upload.tsx:122 | the label as written is the file's size in bytes (0 without a file) |
| Upload.SizeInMegabytes | src/pages/Upload.tsx:122 | the corrected size label times 1024·1024 is the file's size in bytes (0 without a file) |
| Upload.SizeLabelMisreports | src/pages/Upload.tsx:122 | a 1048576-byte file is labelled 1048576 as written and 1 as intended |
| Upload.UploadForm.SizeShown | src/pages/Upload.tsx:121-122 | the size shown under the preview is the label as written, the byte count, which is 1024·1024 times the megabytes it claims to show; it is never negative |
| Upload.UploadForm.constructor | src/pages/Upload.tsx:12-16 | the form starts empty and not uploading |
| Upload.UploadForm.SelectFile | src/pages/Upload.tsx:20-35 | choosing no file changes nothing; choosing one sets the file and the preview, and fills the title only when it was "" |
| Upload.UploadForm.SetTitle | src/pages/Upload.tsx:163 | only the title changes |
| Upload.UploadForm.SetDescription | src/pages/Upload.tsx:178 | only the description changes |
| Upload.UploadForm.Upload | src/pages/Upload.tsx:37-90 | nothing is stored exactly when the file, the user or a non-blank title is missing, and then nothing changes; otherwise the file goes to `StoragePath`; success resets file, title, description and preview, failure keeps them; `uploading` ends false |
| Upload.UploadForm.Store | src/pages/Upload.tsx:47-89 | after the guard: success resets file, title, description and preview with the success toast; a storage error keeps them and shows its message or the fallback; `uploading` ends false |
| Upload.UploadForm.Cancel | src/pages/Upload.tsx:205-210 | the same reset as a successful upload |
| Upload.SelectAndUpload | src/pages/Upload.tsx:20-90 | on a fresh form, choosing a file and uploading it uses the derived title, stores under the user's key and leaves the form cleared |
| VideoPlayer.InitialLikeCount | src/components/VideoPlayer.tsx:33 | the starting like count is the prop's count, or 0 without one |
| VideoPlayer.ViewCountWritten | src/components/VideoPlayer.tsx:57 | the view count written is the prop's count plus one, or 1 without a count |
| VideoPlayer.Player.constructor | src/components/VideoPlayer.tsx:30-33 | not liked, not playing, not bookmarked, and the count is the prop's count or 0 |
| VideoPlayer.Player.Like | src/components/VideoPlayer.tsx:69-112 | without a user only the login toast happens; with one, the delete or insert matches the current like; on success the like flips, the count moves by one the same way and the matching counter procedure is called; on an error nothing changes; the shown count is always the prop's count plus the like |
| VideoPlayer.Player.SetActive | src/components/VideoPlayer.tsx:37-67 | with the element mounted, `isPlaying` follows `isActive`; a view is written only on activation with a user |
| VideoPlayer.Player.TogglePlay | src/components/VideoPlayer.tsx:142-152 | with the element mounted `isPlaying` flips; otherwise it is kept |
| VideoPlayer.Player.ToggleBookmark | src/components/VideoPlayer.tsx:223 | `bookmarked` flips and nothing else changes |
| VideoPlayer.LikeThenUnlike | src/components/VideoPlayer.tsx:79-108 | a like and an unlike that both succeed restore the starting count, unliked |
| VideoPlayer.LikeUnlikeLike | src/components/VideoPlayer.tsx:79-108 | like, unlike and like leave it liked, one above the starting count |
| VideoPlayer.ActivateTwice | src/components/VideoPlayer.tsx:37-59 | activating twice writes the same view count both times |
| VideoData.CategoryConstraint | src/hooks/useVideoData.tsx:41-43 | a category filter is applied exactly when a non-empty category other than `All` is given, and it is that category |
| VideoData.CreatorName | src/hooks/useVideoData.tsx:53 | the creator is the username when truthy, else the display name when truthy, else `Unknown`, and never empty |
| VideoData.WithCreator | src/hooks/useVideoData.tsx:51-54 | one formatted row: every field is kept except `creator`, which is the row's creator name |
| VideoData.FormatRows | src/hooks/useVideoData.tsx:51-54 | formatting keeps length and order and every field except `creator`, which comes from the row's profile |
| VideoData.FormatVideos | src/hooks/useVideoData.tsx:51-54 | null data gives no videos |
| VideoData.FormatRowsIdempotent | src/hooks/useVideoData.tsx:51-54 | formatting formatted rows changes nothing |
| VideoData.VideoStore.constructor | src/hooks/useVideoData.tsx:25-26 | no videos, loading |
| VideoData.VideoStore.Settle | src/hooks/useVideoData.tsx:45-66 | an error keeps the list and shows the fetch's own toast; success sets the formatted rows; loading ends false; every listed video has a creator |
| VideoData.VideoStore.FetchVideos | src/hooks/useVideoData.tsx:30-67 | the recent-videos query with the category constraint, then the shared lifecycle |
| VideoData.VideoStore.FetchTrendingVideos | src/hooks/useVideoData.tsx:69-102 | the trending query with limit 20, then the shared lifecycle |
| VideoData.VideoStore.FetchUserVideos | src/hooks/useVideoData.tsx:104-136 | the one-owner query, then the shared lifecycle |
| VideoData.FetchThenFail | src/hooks/useVideoData.tsx:30-67 | a failed fetch after a successful one keeps the first list and ends not loading |
| VideoData.VideoUploadPath | src/hooks/useVideoData.tsx:151 | the key `userId/now-fileName`, by definition; its parse-back is proved in VideoUploadPathRoundTrip |
| VideoData.VideoUploadPathRoundTrip | src/hooks/useVideoData.tsx:151 | the key `userId/now-fileName` reads back into the user, the timestamp and the whole file name |
| VideoData.NewVideoRecord | src/hooks/useVideoData.tsx:165-184 | the record has the title trimmed, the description trimmed when given, category defaulting to `General`, tags to `[]`, zero counters, and is neither trending nor featured |
| VideoData.UploadVideo | src/hooks/useVideoData.tsx:138-210 | without a user it fails before any storage call; otherwise it stores under `VideoUploadPath`; a storage error stops before the insert; it succeeds exactly when storage and insert both succeed, and only then is the count incremented; every failure after the user check is rethrown after the failure toast, and the missing user is thrown with no toast |
| LiveStream.MediaTrack.constructor | src/components/LiveStreamDialog.tsx:35-38 | a new track is enabled and not stopped |
| LiveStream.Tracks | src/components/LiveStreamDialog.tsx:62 | `getTracks()`, by definition; the model lists the video tracks before the audio tracks, an order of its own that no contract depends on (the browser chooses the order); StopStream proves every one of them stopped |
| LiveStream.PanelShown | src/components/LiveStreamDialog.tsx:187-283 | exactly one panel: permissions without permission, preview with permission and not live, live with both |
| LiveStream.NewStreamRecord | src/components/LiveStreamDialog.tsx:90-96 | the record has trimmed title and description, is active with no viewers, and has a non-empty title when the title is not blank |
| LiveStream.LiveStreamDialog.Panel | src/components/LiveStreamDialog.tsx:187-283 | the panel on screen is the one PanelShown chooses from the dialog's two flags; BroadcastOnce and MuteBothThenCancel state the panels a sequence of handlers shows |
| LiveStream.LiveStreamDialog.FirstVideoTrack | src/components/LiveStreamDialog.tsx:152 | `getVideoTracks()[0]` of the held stream, by definition; ToggleVideo states its flip |
| LiveStream.LiveStreamDialog.FirstAudioTrack | src/components/LiveStreamDialog.tsx:162 | `getAudioTracks()[0]` of the held stream, by definition; ToggleAudio states its flip |
| LiveStream.LiveStreamDialog.constructor | src/components/LiveStreamDialog.tsx:21-29 | closed, no text, not live, no permission and no stream, video and audio enabled |
| LiveStream.LiveStreamDialog.SetOpen | src/components/LiveStreamDialog.tsx:171 | only `isOpen` changes |
| LiveStream.LiveStreamDialog.SetTitle | src/components/LiveStreamDialog.tsx:248 | only the title changes |
| LiveStream.LiveStreamDialog.SetDescription | src/components/LiveStreamDialog.tsx:259 | only the description changes |
| LiveStream.LiveStreamDialog.RequestPermissions | src/components/LiveStreamDialog.tsx:33-58 | asks for the current video and audio flags; a request for neither is refused, as `getUserMedia` rejects it; otherwise a granted stream is held with permission; a refusal changes nothing |
| LiveStream.LiveStreamDialog.StopStream | src/components/LiveStreamDialog.tsx:60-67 | every track of the held stream is stopped, the stream is dropped, and permission and live are both cleared |
| LiveStream.LiveStreamDialog.StartLiveStream | src/components/LiveStreamDialog.tsx:69-121 | without a user, or with a blank title, nothing changes; otherwise the trimmed record is inserted, and `isLive` becomes true only when the insert has no error |
| LiveStream.LiveStreamDialog.StopLiveStream | src/components/LiveStreamDialog.tsx:123-148 | the update targets the user's active rows; whatever its error, every track is stopped with its `enabled` flag kept, and the dialog is closed with empty text |
| LiveStream.LiveStreamDialog.ToggleVideo | src/components/LiveStreamDialog.tsx:150-158 | the first video track's `enabled` flips and `videoEnabled` mirrors it; with no stream or track nothing changes |
| LiveStream.LiveStreamDialog.ToggleAudio | src/components/LiveStreamDialog.tsx:160-168 | the same for the first audio track and `audioEnabled` |
| LiveStream.BroadcastOnce | src/components/LiveStreamDialog.tsx:33-148 | one broadcast from a fresh dialog shows the permissions, preview, live and permissions panels in order, inserts the trimmed record, and ends closed and cleared with both tracks stopped |
| LiveStream.MuteBothThenCancel | src/components/LiveStreamDialog.tsx:26-67 | after muting both tracks and cancelling, the next permission request asks for nothing and is refused whatever the user would allow, so the dialog stays on the permissions panel |
| LiveStream.MuteAndUnmute | src/components/LiveStreamDialog.tsx:150-158 | muting the camera turns the track and the icon flag off, and muting again turns the track back on |
| EditProfile.AvatarPath | src/pages/EditProfile.tsx:54 | the key `avatars/<userId>/profile.jpg`, used by both the upload (line 54) and the removal (line 79), by definition; its parse-back and injectivity are proved in AvatarPathRoundTrip and AvatarPathInjective |
| EditProfile.AvatarPathRoundTrip | src/pages/EditProfile.tsx:54 | the avatar key `avatars/<userId>/profile.jpg` names its user |
| EditProfile.AvatarPathInjective | src/pages/EditProfile.tsx:54 | different users have different avatar keys |
| EditProfile.ProfileEditor.constructor | src/pages/EditProfile.tsx:17-26 | empty fields, no avatar, not uploading, no image, no crop area, modal closed |
| EditProfile.ProfileEditor.AvatarChange | src/pages/EditProfile.tsx:34-43 | choosing no file changes nothing; a chosen file's data URL becomes the selected image and the modal opens |
| EditProfile.ProfileEditor.CropComplete | src/pages/EditProfile.tsx:45-47 | only the crop area changes |
| EditProfile.ProfileEditor.CropConfirm | src/pages/EditProfile.tsx:49-69 | with no image, user or crop area nothing happens; otherwise the photo goes to the user's avatar key unless the crop throws; the avatar changes only when the upload has no error; it always ends closed, cleared and not uploading |
| EditProfile.ProfileEditor.CropCancel | src/pages/EditProfile.tsx:71-74 | closes the modal and clears the image, leaving the avatar |
| EditProfile.ProfileEditor.CloseCropModal | src/pages/EditProfile.tsx:151 | the dialog's `onOpenChange(false)` closes the modal and keeps the image; nothing on the page appears to call it |
| EditProfile.ProfileEditor.RemoveAvatar | src/pages/EditProfile.tsx:77-83 | without a user nothing happens; otherwise the user's avatar key is removed and the avatar cleared |
| EditProfile.ProfileEditor.SetUsername | src/pages/EditProfile.tsx:179 | only the username changes |
| EditProfile.ProfileEditor.SetDisplayName | src/pages/EditProfile.tsx:186 | only the display name changes |
| EditProfile.ProfileEditor.SetBio | src/pages/EditProfile.tsx:193 | only the bio changes |
| EditProfile.ProfileEditor.Save | src/pages/EditProfile.tsx:85-99 | without a user nothing is sent; otherwise the four fields go to the user's profile row, and it navigates to `/profile` exactly on success |
| EditProfile.ReplaceThenRemove | src/pages/EditProfile.tsx:34-83 | upload and remove use the same key, the avatar is the public URL in between and gone afterwards |
| EditProfile.ConfirmBeforeCropArea | src/pages/EditProfile.tsx:49-50 | confirming before a crop area is known uploads nothing and keeps the modal open on the image |
| Trending.ShownUsername | src/pages/Trending.tsx:84 | the username is the profile's when non-empty, else `unknown`, and never empty |
| Trending.DisplayRow | src/pages/Trending.tsx:55-86 | a card is ranked index + 1 and shows the thumbnail or the placeholder, the duration or `--:--`, and the counts or 0 |
| Trending.RowViews | src/pages/Trending.tsx:55-90 | one card per row, in order, ranked 1 to n |
| Trending.TrendingPage.Screen | src/pages/Trending.tsx:49-92 | the loading text while loading, then the error, then the ranked list |
| Trending.TrendingPage.constructor | src/pages/Trending.tsx:9-11 | no videos, loading, no error |
| Trending.TrendingPage.BeginFetch | src/pages/Trending.tsx:15-16 | loading with no error |
| Trending.TrendingPage.CompleteFetch | src/pages/Trending.tsx:24-30 | an error sets the message and empties the list; success takes the data or an empty list with no error; loading ends false |
| Trending.TrendingPage.FetchTrending | src/pages/Trending.tsx:14-31 | the likes-then-views query with limit 100, then that lifecycle |
| Trending.Mount | src/pages/Trending.tsx:13-33 | a mounted page shows loading, then the failure message or one card per returned row ranked from 1 |
| Signup.Update | src/pages/Signup.tsx:26-28 | the named field takes the value and the other three keep theirs |
| Signup.FormExtensional | src/pages/Signup.tsx:10-15 | a form is determined by its four fields |
| Signup.UpdateOverwrites | src/pages/Signup.tsx:26-28 | typing into a field twice keeps only the second value |
| Signup.UpdateCommutes | src/pages/Signup.tsx:26-28 | edits to two different fields commute |
| Signup.SignUpRequest | src/pages/Signup.tsx:33-41 | a call is made exactly when the passwords are equal, with email, password and username in that order |
| Signup.Redirect | src/pages/Signup.tsx:20-24 | a signed-in user is sent to `/`, and no one else is |
| Signup.SignupForm.constructor | src/pages/Signup.tsx:10-16 | empty fields, not loading |
| Signup.SignupForm.InputChange | src/pages/Signup.tsx:26-28 | the form becomes `Update` of the old form, and loading is kept |
| Signup.SignupForm.Submit | src/pages/Signup.tsx:30-51 | the call made is the validator's; a mismatch changes nothing; after a call loading is false, whether it resolved or threw |
| Signup.FillAndSubmit | src/pages/Signup.tsx:26-51 | filling a fresh form and submitting calls `signUp` with what was typed exactly when the two passwords match |

## Left out

- Supabase: every query, storage call, remote procedure and auth call is a parameter for what it resolved with. These calls are taken never to reject. The rejections `catch` blocks would see (network failures) are not modelled, except where a value the handler computes itself throws: `getUserMedia`, `getCroppedImg` and `signUp`.
- Server-side filtering, ordering and limits (created_at descending, view_count descending with limit 20, likes then views with limit 100) are done by the store. The model records which query is sent, not what rows come back.
- Concurrency: handlers are atomic steps. Overlapping calls, stale responses and React's batching of state updates are not modelled.
- `Date.now()` is a timestamp parameter.
- `URL.createObjectURL`, `getPublicUrl` and `FileReader.readAsDataURL` are parameters. The reader's load is taken to complete within the handler.
- The internals of `getCroppedImg` and react-easy-crop are not modelled. `crop` and `zoom` are the cropper's own view state, and only `croppedAreaPixels` is kept.
- Browser media is not modelled: `navigator.mediaDevices`, attaching the stream to the `<video>` element, `play`/`pause`, `navigator.share` and the clipboard. A media track is modelled by its `enabled` flag and whether it was stopped.
- Browser form validation is not modelled. `required` and `type="email"` on the sign-up form are checked by the browser before its submit handler runs. `maxLength` (100 and 500 on the upload and live-stream title and description, 200 on the bio) only limits what can be typed: the setters take any text, and a title set in code, as `SelectFile` does, is not clipped either.
- Rendering is not modelled, apart from the live dialog's panel choice, the trending page's body and cards, and the upload page's size label. The avatar initial, icons and styling are left out.
- Upload.DerivedTitle: `toUpperCase` is modelled for ASCII letters only. Other letters are kept as they are, and so is a letter whose upper case is longer.
- Common.Trim: text is a sequence of code points, not UTF-16 code units. Lengths and `maxLength` that count code units are not modelled.
- Upload.UploadForm.SizeShown: is the number before `toFixed(2)`. The rounding to two decimals is left out, because the label is a floating-point value formatted as text.
- VideoPlayer.Player.Like: the counter procedure's own outcome is not modelled. Its resolved result is ignored and only a rejection would be logged; either way the state stays changed.
- The share and comment buttons of the player only show a toast or call browser APIs. They are not modelled.
- The trending card's click only logs and is not modelled.
- The sign-up handler's `preventDefault` and its console messages are not modelled.
- The sign-up handler's `error` result is ignored (only success is logged) and changes nothing. The effect on `user` is modelled as the route it returns.
- The rest of the repository is not part of this model: the login, feed, profile and index pages, navigation, the logo and the video-thumbnail capture. They are stubs, mock data or presentation.

## Findings

| source | as written | input that shows it | evidently intended | confidence | as-written member | corrected member |
|---|---|---|---|---|---|---|
| src/pages/Upload.tsx:122 | `(file?.size \|\| 0 / 1024 / 1024)`: the divisions bind to the `0`, so the label shows the size in bytes followed by "MB" | a 1048576-byte file is labelled 1048576 MB | `((file?.size \|\| 0) / 1024 / 1024)`, the size in megabytes (1 MB) | not executed | Upload.SizeLabelMisreports | Upload.SizeInMegabytes |
