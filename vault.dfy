/**
 * The per-user recording store of the VoiceVault container: the partition
 * key, the load and save effects over the browser's local storage, the
 * list operations behind capture and delete, the recording's name and
 * download file name, and the capture state the record button drives.
 */
module Vault {
  import opened Wrappers
  import Strings
  import Auth

  const RECORDINGS_KEY_PREFIX: string := "voicevault-recordings-"
  const UNSCOPED_RECORDINGS_KEY: string := "voicevault-recordings"
  const NAME_PREFIX: string := "VoiceVault-"
  const WEBM_TYPE: string := "audio/webm"
  const MICROPHONE_ERROR: string := "Could not access microphone. Please check permissions."

  /** One piece of encoded audio the recorder delivers; `data` stands for its bytes. */
  datatype Chunk = Chunk(size: nat, data: nat)
  datatype Blob = Blob(parts: seq<Chunk>, mimeType: string)

  /**
   * A finished capture. `url` (an object URL), `created` (an ISO time) and
   * `id` (a millisecond clock reading) come from the browser and the clock.
   */
  datatype Recording = Recording(id: string, url: string, name: string, created: string, mimeType: string, blob: Blob)

  /** A browser `MediaRecorder`, opaque to the model. */
  datatype Recorder = Recorder(handle: nat)

  /** The recordings part of local storage: each key holds a whole list. */
  type Storage = map<string, seq<Recording>>

  /** `user?.id` */
  function UserId(user: Option<Auth.User>): Option<string> {
    if user.Some? then Some(user.value.id) else None
  }

  /**
   * `getStorageKey()`: the user's partition, the prefix followed by the
   * user's id, or the legacy unscoped key when nobody is signed in.
   */
  function StorageKey(user: Option<Auth.User>): (key: string)
    ensures user.None? ==> key == UNSCOPED_RECORDINGS_KEY
    ensures user.Some? ==>
      && |key| == |RECORDINGS_KEY_PREFIX| + |user.value.id|
      && key[..|RECORDINGS_KEY_PREFIX|] == RECORDINGS_KEY_PREFIX
      && key[|RECORDINGS_KEY_PREFIX|..] == user.value.id
  {
    if user.Some? then RECORDINGS_KEY_PREFIX + user.value.id else UNSCOPED_RECORDINGS_KEY
  }

  /**
   * Two users share a key exactly when they share an id, and no user's key
   * is the unscoped one.
   */
  lemma StorageKeyInjective(a: Option<Auth.User>, b: Option<Auth.User>)
    ensures StorageKey(a) == StorageKey(b) <==> UserId(a) == UserId(b)
  {
  }

  /** The session key of the identity provider is never a recordings key. */
  lemma SessionKeyIsNotARecordingsKey(user: Option<Auth.User>)
    ensures StorageKey(user) != Auth.AUTH_USER_KEY
  {
  }

  /**
   * The load effect: no user shows nothing; a user shows the list stored
   * under their key, or nothing when the key is absent.
   */
  function Load(user: Option<Auth.User>, storage: Storage): (list: seq<Recording>)
    ensures user.None? || StorageKey(user) !in storage ==> list == []
    ensures user.Some? && StorageKey(user) in storage ==> list == storage[StorageKey(user)]
  {
    if user.None? then []
    else if StorageKey(user) in storage then storage[StorageKey(user)]
    else []
  }

  /**
   * The save effect: with a user, the whole list replaces what that user's
   * key held; without one nothing is written. No other key changes.
   */
  function Save(user: Option<Auth.User>, list: seq<Recording>, storage: Storage): (after: Storage)
    ensures user.None? ==> after == storage
    ensures user.Some? ==> StorageKey(user) in after && after[StorageKey(user)] == list
    ensures forall k :: k != StorageKey(user) ==> (k in after <==> k in storage)
    ensures forall k :: k in storage && k != StorageKey(user) ==> after[k] == storage[k]
  {
    if user.Some? then storage[StorageKey(user) := list] else storage
  }

  /** What a user saves is what that user loads next. */
  lemma LoadAfterSave(user: Option<Auth.User>, list: seq<Recording>, storage: Storage)
    requires user.Some?
    ensures Load(user, Save(user, list, storage)) == list
  {
  }

  /** Partition isolation: a save for one user is invisible to any other user. */
  lemma LoadAfterOtherSave(saver: Option<Auth.User>, reader: Option<Auth.User>, list: seq<Recording>, storage: Storage)
    requires UserId(saver) != UserId(reader)
    ensures Load(reader, Save(saver, list, storage)) == Load(reader, storage)
  {
    StorageKeyInjective(saver, reader);
  }

  /** A later save of the same user leaves no trace of an earlier one. */
  lemma SaveOverwrites(user: Option<Auth.User>, first: seq<Recording>, second: seq<Recording>, storage: Storage)
    ensures Save(user, second, Save(user, first, storage)) == Save(user, second, storage)
  {
  }

  /** Saving back what was loaded from a present key changes nothing. */
  lemma SaveLoaded(user: Option<Auth.User>, storage: Storage)
    requires user.None? || StorageKey(user) in storage
    ensures Save(user, Load(user, storage), storage) == storage
  {
  }

  /** `[recording, ...prev]`: the new recording first, then the old list unchanged. */
  function Prepend(recording: Recording, list: seq<Recording>): (r: seq<Recording>)
    ensures |r| == |list| + 1
    ensures r[0] == recording && r[1..] == list
  {
    [recording] + list
  }

  /** No recording of `list` has the id `id`. */
  predicate IdAbsent(list: seq<Recording>, id: string) {
    forall i :: 0 <= i < |list| ==> list[i].id != id
  }

  /**
   * `prev.filter((rec) => rec.id !== id)`: exactly the recordings with
   * another id survive, and a list without `id` is returned unchanged.
   */
  function RemoveById(list: seq<Recording>, id: string): (r: seq<Recording>)
    ensures |r| <= |list|
    ensures IdAbsent(r, id)
    ensures forall rec :: rec in r <==> rec in list && rec.id != id
    ensures IdAbsent(list, id) ==> r == list
  {
    if list == [] then []
    else if list[0].id == id then RemoveById(list[1..], id)
    else [list[0]] + RemoveById(list[1..], id)
  }

  /** Survivors keep their relative order: removal distributes over concatenation. */
  lemma {:induction false} RemoveByIdConcat(a: seq<Recording>, b: seq<Recording>, id: string)
    ensures RemoveById(a + b, id) == RemoveById(a, id) + RemoveById(b, id)
  {
    if a == [] {
      assert a + b == b;
    } else {
      assert (a + b)[0] == a[0];
      assert (a + b)[1..] == a[1..] + b;
      RemoveByIdConcat(a[1..], b, id);
    }
  }

  /** Deleting twice is deleting once. */
  lemma RemoveByIdIdempotent(list: seq<Recording>, id: string)
    ensures RemoveById(RemoveById(list, id), id) == RemoveById(list, id)
  {
  }

  /** Deleting a just-captured recording whose id is new restores the list. */
  lemma RemoveAfterPrepend(recording: Recording, list: seq<Recording>)
    requires IdAbsent(list, recording.id)
    ensures RemoveById(Prepend(recording, list), recording.id) == list
  {
  }

  /** The recording's label: "VoiceVault-" + date + "-" + time with every `:` as `-`. */
  function RecordingName(date: string, time: string): (name: string)
    ensures |name| == |NAME_PREFIX| + |date| + 1 + |time|
    ensures name[..|NAME_PREFIX| + |date| + 1] == NAME_PREFIX + date + "-"
    ensures var timePart := name[|NAME_PREFIX| + |date| + 1..];
      && ':' !in timePart
      && forall i :: 0 <= i < |time| ==> timePart[i] == if time[i] == ':' then '-' else time[i]
  {
    var r := NAME_PREFIX + date + "-" + Strings.ReplaceAll(time, ':', '-');
    assert r[|NAME_PREFIX| + |date| + 1..] == Strings.ReplaceAll(time, ':', '-');
    r
  }

  /**
   * The recording `onstop` builds from the buffered chunks: an audio/webm
   * blob of those chunks, labelled by the date and time of the stop.
   */
  function Capture(chunks: seq<Chunk>, id: string, url: string, date: string, time: string, created: string): (r: Recording)
    ensures r.id == id && r.url == url && r.created == created
    ensures r.blob.parts == chunks
    ensures r.mimeType == r.blob.mimeType == WEBM_TYPE
    ensures r.name == RecordingName(date, time)
  {
    Recording(id, url, RecordingName(date, time), created, WEBM_TYPE, Blob(chunks, WEBM_TYPE))
  }

  /** The `download` attribute: the name with ".webm" for audio/webm, ".wav" otherwise. */
  function DownloadFilename(recording: Recording): (file: string)
    ensures recording.mimeType == WEBM_TYPE ==> file == recording.name + ".webm"
    ensures recording.mimeType != WEBM_TYPE ==> file == recording.name + ".wav"
  {
    recording.name + "." + (if recording.mimeType == WEBM_TYPE then "webm" else "wav")
  }

  /** Everything the container captures downloads as a colon-free ".webm" file. */
  lemma CaptureDownloadsAsWebm(chunks: seq<Chunk>, id: string, url: string, date: string, time: string, created: string)
    ensures var file := DownloadFilename(Capture(chunks, id, url, date, time, created));
      && file == RecordingName(date, time) + ".webm"
      && ':' !in file[|NAME_PREFIX| + |date| + 1..]
  {
  }

  /** How far `startRecording`'s try block gets; the calls it depends on are the browser's. */
  datatype StartOutcome =
    | Started            // microphone granted, recorder created and started
    | MicrophoneDenied   // `getUserMedia` rejected
    | RecorderRefused    // `new MediaRecorder(stream)` threw
    | StartThrew         // `recorder.start()` threw, after `setMediaRecorder`

  /**
   * The container's state. `storage` is the recordings part of the
   * browser's local storage; `chunks` is the buffer of the current
   * recorder. While Valid, the signed-in user's key holds the shown list.
   */
  class VoiceVault {
    var user: Option<Auth.User>
    var recordings: seq<Recording>
    var isRecording: bool
    var mediaRecorder: Option<Recorder>
    var error: Option<string>
    var chunks: seq<Chunk>
    var storage: Storage
    /** `[user?.id]` as of the last commit; None before the first one. */
    var effectId: Option<Option<string>>

    ghost predicate Valid()
      reads this
    {
      && effectId == Some(UserId(user))
      && (user.Some? ==> StorageKey(user) in storage && storage[StorageKey(user)] == recordings)
      && forall i :: 0 <= i < |chunks| ==> chunks[i].size > 0
    }

    /** Mount: the first render shows the empty list, then the effects run. */
    constructor (user: Option<Auth.User>, stored: Storage)
      ensures Valid()
      ensures this.user == user
      ensures recordings == Load(user, stored)
      ensures storage == Save(user, recordings, stored)
      ensures !isRecording && mediaRecorder.None? && error.None? && chunks == []
    {
      this.user := user;
      recordings := [];
      isRecording := false;
      mediaRecorder := None;
      error := None;
      chunks := [];
      storage := stored;
      effectId := None;
      new;
      RunEffects();
    }

    /**
     * The effects of the commit that follows a new `user`, in declaration
     * order. The load effect runs only when `user?.id` differs from the
     * previous commit's (always on the first) and reads the key first; the
     * save effect then writes the list rendered so far, stale for a new
     * user; the loaded list renders again and its save effect writes it
     * over the stale one.
     */
    method RunEffects()
      requires forall i :: 0 <= i < |chunks| ==> chunks[i].size > 0
      modifies this
      ensures Valid()
      ensures recordings == if old(effectId) != Some(UserId(user)) then Load(user, old(storage)) else old(recordings)
      ensures storage == Save(user, recordings, old(storage))
      ensures user == old(user) && chunks == old(chunks)
      ensures isRecording == old(isRecording) && mediaRecorder == old(mediaRecorder) && error == old(error)
    {
      var idChanged := effectId != Some(UserId(user));
      effectId := Some(UserId(user));
      var loaded := recordings;
      if idChanged {
        loaded := Load(user, storage);
      }
      storage := Save(user, recordings, storage);
      if idChanged {
        recordings := loaded;
        SaveOverwrites(user, old(recordings), recordings, old(storage));
        storage := Save(user, recordings, storage);
      }
    }

    /**
     * A new user from the identity provider (sign-in, sign-out). The shown
     * list becomes what the new user's key held before the switch, and
     * only that key is written.
     */
    method SwitchUser(newUser: Option<Auth.User>)
      requires Valid()
      modifies this
      ensures Valid()
      ensures user == newUser
      ensures recordings == if UserId(newUser) != UserId(old(user)) then Load(newUser, old(storage)) else old(recordings)
      ensures storage == Save(newUser, recordings, old(storage))
      ensures chunks == old(chunks) && isRecording == old(isRecording)
      ensures mediaRecorder == old(mediaRecorder) && error == old(error)
    {
      user := newUser;
      RunEffects();
    }

    /**
     * `startRecording`: clear the error; on success hold the new recorder
     * with an empty chunk buffer and record; on any failure report the
     * microphone error. A failure from `recorder.start()` comes after the
     * recorder was stored.
     */
    method StartRecording(outcome: StartOutcome, recorder: Recorder)
      requires Valid()
      modifies this
      ensures Valid()
      ensures user == old(user) && recordings == old(recordings) && storage == old(storage)
      ensures outcome.Started? ==>
        isRecording && mediaRecorder == Some(recorder) && error.None? && chunks == []
      ensures !outcome.Started? ==> error == Some(MICROPHONE_ERROR) && isRecording == old(isRecording)
      ensures outcome.StartThrew? ==> mediaRecorder == Some(recorder) && chunks == []
      ensures outcome.MicrophoneDenied? || outcome.RecorderRefused? ==>
        mediaRecorder == old(mediaRecorder) && chunks == old(chunks)
    {
      error := None;
      if outcome.MicrophoneDenied? || outcome.RecorderRefused? {
        error := Some(MICROPHONE_ERROR);
        return;
      }
      chunks := [];
      mediaRecorder := Some(recorder);
      if outcome.StartThrew? {
        error := Some(MICROPHONE_ERROR);
        return;
      }
      isRecording := true;
    }

    /** `stopRecording`: release the recorder, if any, and stop recording. */
    method StopRecording()
      requires Valid()
      modifies this
      ensures Valid()
      ensures !isRecording && mediaRecorder.None?
      ensures user == old(user) && recordings == old(recordings) && storage == old(storage)
      ensures chunks == old(chunks) && error == old(error)
    {
      if mediaRecorder.Some? {
        mediaRecorder := None;
      }
      isRecording := false;
    }

    /** The record button: stop while recording, start otherwise. */
    method ToggleRecording(outcome: StartOutcome, recorder: Recorder)
      requires Valid()
      modifies this
      ensures Valid()
      ensures user == old(user) && recordings == old(recordings) && storage == old(storage)
      ensures old(isRecording) ==>
        !isRecording && mediaRecorder.None? && chunks == old(chunks) && error == old(error)
      ensures !old(isRecording) && outcome.Started? ==>
        isRecording && mediaRecorder == Some(recorder) && error.None? && chunks == []
      ensures !old(isRecording) && !outcome.Started? ==>
        !isRecording && error == Some(MICROPHONE_ERROR)
      ensures !old(isRecording) && outcome.StartThrew? ==> mediaRecorder == Some(recorder) && chunks == []
      ensures !old(isRecording) && (outcome.MicrophoneDenied? || outcome.RecorderRefused?) ==>
        mediaRecorder == old(mediaRecorder) && chunks == old(chunks)
    {
      if isRecording {
        StopRecording();
      } else {
        StartRecording(outcome, recorder);
      }
    }

    /** `ondataavailable`: only a chunk with a positive size is buffered. */
    method DataAvailable(chunk: Chunk)
      requires Valid()
      modifies this
      ensures Valid()
      ensures chunks == old(chunks) + if chunk.size > 0 then [chunk] else []
      ensures user == old(user) && recordings == old(recordings) && storage == old(storage)
      ensures isRecording == old(isRecording) && mediaRecorder == old(mediaRecorder) && error == old(error)
    {
      if chunk.size > 0 {
        chunks := chunks + [chunk];
      }
    }

    /**
     * `onstop`: the recording made from the buffer goes first in the list,
     * and the save effect writes the whole list under the user's key.
     */
    method RecorderStopped(id: string, url: string, date: string, time: string, created: string)
      requires Valid()
      modifies this
      ensures Valid()
      ensures recordings == Prepend(Capture(old(chunks), id, url, date, time, created), old(recordings))
      ensures storage == Save(user, recordings, old(storage))
      ensures user == old(user) && chunks == old(chunks)
      ensures isRecording == old(isRecording) && mediaRecorder == old(mediaRecorder) && error == old(error)
    {
      var recording := Capture(chunks, id, url, date, time, created);
      recordings := Prepend(recording, recordings);
      storage := Save(user, recordings, storage);
    }

    /**
     * `deleteRecording(id)`: drop every recording with that id, then the
     * save effect writes the rest under the user's key.
     */
    method DeleteRecording(id: string)
      requires Valid()
      modifies this
      ensures Valid()
      ensures recordings == RemoveById(old(recordings), id)
      ensures storage == Save(user, recordings, old(storage))
      ensures user == old(user) && chunks == old(chunks)
      ensures isRecording == old(isRecording) && mediaRecorder == old(mediaRecorder) && error == old(error)
    {
      recordings := RemoveById(recordings, id);
      storage := Save(user, recordings, storage);
    }
  }

  /**
   * Signing out and back in as the same user shows and stores exactly what
   * that user had before.
   */
  method SignOutAndBackIn(vault: VoiceVault)
    requires vault.Valid() && vault.user.Some?
    modifies vault
    ensures vault.Valid() && vault.user == old(vault.user)
    ensures vault.recordings == old(vault.recordings) && vault.storage == old(vault.storage)
  {
    var u := vault.user;
    vault.SwitchUser(None);
    vault.SwitchUser(u);
    SaveLoaded(u, vault.storage);
  }

  /**
   * Switching from one user to another shows the second user's stored
   * list and leaves the first user's list in storage untouched.
   */
  method SwitchBetweenUsers(vault: VoiceVault, other: Auth.User)
    requires vault.Valid() && vault.user.Some? && vault.user.value.id != other.id
    modifies vault
    ensures vault.Valid()
    ensures vault.recordings == Load(Some(other), old(vault.storage))
    ensures Load(old(vault.user), vault.storage) == old(vault.recordings)
  {
    var previous := vault.user;
    vault.SwitchUser(Some(other));
    LoadAfterOtherSave(Some(other), previous, vault.recordings, old(vault.storage));
  }
}
