# VoiceVault recording store — a Dafny model

VoiceVault is a browser voice-note application. A user signs in through a
mocked identity provider, records audio from the microphone, and keeps the
recordings in the browser's local storage, partitioned by user id. The
recordings can be played, downloaded and deleted.

This project models three parts of it:

- **The recording store** (`voicevault/src/VoiceVaultContainer.js`):
  - the partition key;
  - the load effect, which runs when the user id changes, and the save
    effect, which runs after every change;
  - prepending a finished capture and deleting by id;
  - the recording name and the download file name;
  - the record button's state: `isRecording`, `mediaRecorder`, `error` and
    the chunk buffer.
- **The mock identity provider** (`voicevault/src/AuthContext.js`):
  `mockSignIn`, plus the provider object that keeps `user` in step with the
  persisted session key.
- **The login page** (`voicevault/src/LoginPage.js`): the email check and
  the two handlers that step `error` and `pending` around `login`.

Layout:

- `wrappers.dfy`: `Option`.
- `strings.dfy`: the JavaScript string built-ins used (`toLowerCase`,
  `split(sep)[0]`, `replace(/c/g, d)`).
- `auth.dfy`: module `Auth`.
- `login.dfy`: module `Login`.
- `vault.dfy`: module `Vault`.

Pure code (string building, the list expressions, `getStorageKey`) is
written as functions. Code that changes state step by step is written as
classes whose methods update fields: the container (`Vault.VoiceVault`), the
provider (`Auth.AuthProvider`) and the login page (`Login.LoginPage`).

Local storage is modelled as two maps:

- `Vault.VoiceVault.storage` maps recordings keys to whole lists;
- `Auth.AuthProvider.storage` holds the session entry.

Keeping them apart is sound because no recordings key equals the session
key (`Vault.SessionKeyIsNotARecordingsKey`).

React runs the effects of one commit in declaration order.
`Vault.VoiceVault.RunEffects` writes out the steps that follow a user
change. The field `effectId` keeps the `user?.id` of the previous commit,
so the method itself decides whether the load effect's dependency changed:

1. the load effect reads the new key;
2. the save effect of the same commit writes the stale list there;
3. the loaded list renders again, and its save effect writes it back.

If the save came first, the new user would be shown the old user's list
(`Vault.LoadAfterSave`). The identity provider's mount follows the same
pattern: its first save effect still sees a null user and removes the
session key, and the restored user is then saved again.

## Model

| member | source | states |
|---|---|---|
| `Strings.Lower` | voicevault/src/AuthContext.js:19 | `provider.toLowerCase()`: same length, and each character is mapped to lower case |
| `Strings.BeforeFirst` | voicevault/src/AuthContext.js:34 | `email.split("@")[0]` is the longest `@`-free prefix, followed by `@` unless it is the whole string |
| `Strings.ReplaceAll` | voicevault/src/VoiceVaultContainer.js:70-72 | `.replace(/:/g, "-")` replaces every `:` by `-`, keeps every other character, and leaves no `:` |
| `Auth.OrElse` | voicevault/src/AuthContext.js:19-21 | the `or` default of a JavaScript string: the value when present and non-empty, the fallback otherwise |
| `Auth.ProviderName` | voicevault/src/AuthContext.js:20 | the name is "Google User" exactly for provider "Google", "Octocat" exactly for "GitHub", and "Jane Doe" for every other provider |
| `Auth.MockSignIn` | voicevault/src/AuthContext.js:13-41 | there is no user exactly when the provider is falsy and no email is given (the promise never settles); otherwise the user's provider is the given one, or "email" |
| `Auth.SocialSignIn` | voicevault/src/AuthContext.js:16-29 | social sign-in: id is lower(provider) + "-id-" + (email or "anon"); name is "Google User", "Octocat" or "Jane Doe"; email defaults to lower(provider) + "_user@mock.com"; provider is kept |
| `Auth.GoogleUser` | voicevault/src/AuthContext.js:16-29 | Google without an email signs in as "google-id-anon", named "Google User", with email "google_user@mock.com" |
| `Auth.GitHubUser` | voicevault/src/AuthContext.js:16-29 | GitHub without an email signs in as "github-id-anon", named "Octocat", with email "github_user@mock.com" |
| `Auth.EmailSignIn` | voicevault/src/AuthContext.js:30-39 | email sign-in: id is "email-" + email, the email is unchanged, and the provider is "email"; the name is the non-empty text before the first `@`, or "User" when that text is empty |
| `Auth.EmailIdsDistinct` | voicevault/src/AuthContext.js:33 | distinct emails get distinct user ids, so their recordings go to distinct partitions |
| `Auth.AuthProvider.constructor` | voicevault/src/AuthContext.js:46-61 | on mount, the user is restored exactly when the session key is present, and storage ends as it was |
| `Auth.AuthProvider.Login` | voicevault/src/AuthContext.js:64-67 | `user` becomes the sign-in result and the session key holds it; if the sign-in never settles, nothing changes |
| `Auth.AuthProvider.Logout` | voicevault/src/AuthContext.js:70-72 | `user` becomes null and the session key is removed |
| `Auth.ReloadRestoresSession` | voicevault/src/AuthContext.js:49-67 | after an email login, a fresh mount over the same storage restores the same user |
| `Login.IsValidEmail` | voicevault/src/LoginPage.js:19 | an accepted email has at least 5 characters; in particular the empty string is rejected |
| `Login.IsValidEmailMatchesPattern` | voicevault/src/LoginPage.js:19 | the check accepts a string iff `^[^@]+@[^@]+\.[^@]+$` matches it |
| `Login.ValidEmailSignIn` | voicevault/src/LoginPage.js:19-24 | a valid email signs in with id "email-" + email; its name is the non-empty text before its `@`, never the "User" fallback |
| `Login.LoginPage.constructor` | voicevault/src/LoginPage.js:8-10 | the page starts with an empty email, not pending, and no error |
| `Login.LoginPage.EditEmail` | voicevault/src/LoginPage.js:63 | typing sets the email and nothing else |
| `Login.LoginPage.HandleEmailLogin` | voicevault/src/LoginPage.js:14-29 | invalid email: error "Please enter a valid email." and `login` is not called; rejected login: "Login failed."; success: error cleared, user signed in by email, and only the session key is rewritten; always ends not pending |
| `Login.LoginPage.HandleSocialLogin` | voicevault/src/LoginPage.js:32-41 | rejected login: "Social login failed", not pending; success: error cleared, not pending, the user id is lower(provider) + "-id-anon", and only the session key is rewritten; an empty provider never settles and stays pending |
| `Vault.StorageKey` | voicevault/src/VoiceVaultContainer.js:16-18 | a signed-in user's key is "voicevault-recordings-" followed by exactly that user's id; with nobody signed in it is "voicevault-recordings" |
| `Vault.StorageKeyInjective` | voicevault/src/VoiceVaultContainer.js:16-18 | two users get the same key iff they have the same id; no user's key is the unscoped key |
| `Vault.SessionKeyIsNotARecordingsKey` | voicevault/src/VoiceVaultContainer.js:16-18 | no recordings key equals the session key "voicevault-auth-user" |
| `Vault.Load` | voicevault/src/VoiceVaultContainer.js:29-38 | with no user, or with the user's key absent, the list is empty; otherwise it is exactly the stored list |
| `Vault.Save` | voicevault/src/VoiceVaultContainer.js:43-47 | without a user nothing is written; with one, the whole list is stored under that user's key; every other key is unchanged |
| `Vault.LoadAfterSave` | voicevault/src/VoiceVaultContainer.js:29-47 | a user loads back exactly what they saved |
| `Vault.LoadAfterOtherSave` | voicevault/src/VoiceVaultContainer.js:29-47 | partition isolation: a save by one user id never changes what another user (or no user) loads |
| `Vault.SaveOverwrites` | voicevault/src/VoiceVaultContainer.js:43-47 | a second save of the same user erases every trace of the first |
| `Vault.SaveLoaded` | voicevault/src/VoiceVaultContainer.js:29-47 | saving back a list just loaded from a present key leaves storage unchanged |
| `Vault.Prepend` | voicevault/src/VoiceVaultContainer.js:77 | the new recording is at index 0, the previous list follows unchanged, and the length grows by one |
| `Vault.RemoveById` | voicevault/src/VoiceVaultContainer.js:101 | no recording with the id remains; a recording survives iff it was there with another id; deleting an absent id changes nothing |
| `Vault.RemoveByIdConcat` | voicevault/src/VoiceVaultContainer.js:101 | deleting distributes over concatenation, so survivors keep their relative order |
| `Vault.RemoveByIdIdempotent` | voicevault/src/VoiceVaultContainer.js:101 | deleting twice equals deleting once |
| `Vault.RemoveAfterPrepend` | voicevault/src/VoiceVaultContainer.js:77 | deleting a just-prepended recording whose id is new restores the previous list |
| `Vault.RecordingName` | voicevault/src/VoiceVaultContainer.js:70-72 | the name is "VoiceVault-" + date + "-" + a time part of the same length as the time, where every `:` became `-` and no `:` remains |
| `Vault.Capture` | voicevault/src/VoiceVaultContainer.js:64-76 | the recording holds the buffered chunks in an audio/webm blob, has the same type, and keeps the given id, URL, creation time and name |
| `Vault.DownloadFilename` | voicevault/src/VoiceVaultContainer.js:114 | the file name is name + ".webm" for type "audio/webm", and name + ".wav" for every other type |
| `Vault.CaptureDownloadsAsWebm` | voicevault/src/VoiceVaultContainer.js:63-77 | a captured recording downloads as its name + ".webm", with no `:` in the time part |
| `Vault.VoiceVault.constructor` | voicevault/src/VoiceVaultContainer.js:21-47 | on mount, the shown list is the user's stored list (or empty), that key holds it, and the capture state is idle |
| `Vault.VoiceVault.RunEffects` | voicevault/src/VoiceVaultContainer.js:29-47 | the load runs exactly when `user?.id` differs from the previous commit's (always on mount); after the commit settles, the list is the one read before the stale save, or unchanged, and the user's key holds it; nothing else changes |
| `Vault.VoiceVault.SwitchUser` | voicevault/src/VoiceVaultContainer.js:29-47 | after a switch of user id, the shown list and the new key both equal what that key held before; only that key is written |
| `Vault.VoiceVault.StartRecording` | voicevault/src/VoiceVaultContainer.js:51-85 | the error is cleared first; on success the recorder is held, the buffer is empty and `isRecording` is true; on any failure the microphone error is set and `isRecording` is unchanged |
| `Vault.VoiceVault.StopRecording` | voicevault/src/VoiceVaultContainer.js:89-96 | it always ends with `isRecording` false and no recorder |
| `Vault.VoiceVault.ToggleRecording` | voicevault/src/VoiceVaultContainer.js:145 | while recording, it stops: no recorder, buffer and error unchanged; from idle, it starts: on success the new recorder is held with an empty buffer and no error, on failure the microphone error is set and `isRecording` stays false, and the recorder and buffer change only when `recorder.start()` threw |
| `Vault.VoiceVault.DataAvailable` | voicevault/src/VoiceVaultContainer.js:58-62 | only a chunk with size > 0 is appended to the buffer; the buffer holds only such chunks |
| `Vault.VoiceVault.RecorderStopped` | voicevault/src/VoiceVaultContainer.js:63-78 | the captured recording is prepended to the list, and the list is saved under the user's key |
| `Vault.VoiceVault.DeleteRecording` | voicevault/src/VoiceVaultContainer.js:100-106 | the list loses every recording with the id, and is saved under the user's key |
| `Vault.SignOutAndBackIn` | voicevault/src/VoiceVaultContainer.js:29-47 | signing out and back in as the same user restores the same list and the same storage |
| `Vault.SwitchBetweenUsers` | voicevault/src/VoiceVaultContainer.js:29-47 | switching to another user shows that user's stored list and leaves the previous user's stored list intact |

## Left out

- Rendering, styles and SVG are left out: the JSX in all three files, the record-button label, and `App.js`. `App.js` mounts the container without an `AuthProvider` around it, so the model takes the container's user as an explicit input.
- The browser's media and object-URL calls are left out: `getUserMedia`, `MediaRecorder`, stopping tracks, `Blob`, `URL.createObjectURL` and `revokeObjectURL`. Their outcomes are parameters instead: `StartOutcome`, the recorder handle, the URL, and the chunks delivered. The URL revocation in `deleteRecording` is not modelled.
- Playback (`handlePlayback`, `audioRefs`) and the download anchor with its `setTimeout` cleanup are DOM I/O. Only the file-name expression is modelled.
- Clock and locale calls are left out: `Date.now()`, `toLocaleDateString`, `toLocaleTimeString` and `toISOString`. The recording id, date, time and creation strings are inputs.
- JSON serialisation is left out. Storage holds lists and users as values. A malformed stored value is not modelled: `JSON.parse` would throw, and the code has no handler for it.
- Transcripts are left out: none of VoiceVaultContainer.js, AuthContext.js or LoginPage.js stores or reads them.
- Async timing is left out: `await` and the 600 ms mock delay become sequential steps. A rejected `login` is the parameter `loginFails`; the mock itself never rejects.
- Avatar URLs are left out of `Auth.User`. They are constant strings chosen by provider.
- React's bail-out for an identical user object is not modelled. Every `Vault.VoiceVault.SwitchUser` runs the save effect. When the user's id is unchanged, that save rewrites the stored list with itself.
- Each `startRecording` gets its own chunk array inside its closure. The model keeps one buffer, the current recorder's, and does not model events from an earlier recorder arriving after a new start.
- Strings.Lower: maps only the ASCII letters A–Z. The Unicode case mapping of `toLowerCase` is not modelled.
