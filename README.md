# Suisse Notes recording core in Dafny

A Dafny model of the logic at the heart of the Suisse Notes recorder: a Vue/Pinia front end, an Electron main process and two Capacitor native recorders (iOS and Android) that cut a recording into chunks, keep it on disk, and upload it with a two-phase, checksum-verified confirmation before the local copy may be deleted.

Each core file of the repository has one Dafny module:

- `validation.dfy`: the input validators of `src/utils/validation.js`. The main process has a copy of them.
- `integrity.dfy`:
  - the table-driven CRC-32 of IEEE 802.3 clause 3.2.9 (reflected polynomial 0xEDB88320);
  - per-chunk and per-recording integrity records;
  - the `sha256:` upload checksum prefix.
- `base64.dfy`: the standard Base64 of section 4 of RFC 4648 that `arrayBufferToBase64` and `base64ToArrayBuffer` implement through `btoa`/`atob`.
- `storage.dfy`, `storage_monitor.dfy` and `disk_utils.dfy`:
  - chunk naming;
  - free-space classification;
  - the change-triggered storage callbacks;
  - the Electron disk checks.
- `recording_store.dfy`, `transcription_settings.dfy`, `minutes.dfy`, `recordings_history.dfy` and `auth.dfy`: the Pinia stores, as classes whose fields the actions update.
- `upload.dfy`:
  - error classification, backoff and the verification poll;
  - the retry loops;
  - the in-memory upload queue: a termination measure for the reference loop, and the asynchronous processing as a machine suspended at its awaits, interleaved with `queueUpload` and `clearCompletedUploads`.
- `electron_queue.dfy`, `chunk_sequence.dfy`, `electron_upload.dfy`, `electron_history.dfy` and `electron_shell.dfy`: the main-process helpers:
  - the persistent upload queue;
  - chunk ordering and gap detection;
  - the upload timeout and retry policy;
  - per-user history;
  - the external-link allowlist.
- `router.dfy`: the navigation guard.
- `recording_service.dfy`: the web recorder's state:
  - listener registry;
  - silence detection and minutes-limit ticks;
  - codec choice;
  - pause/resume and the auto-split guard.
- `native_chunks.dfy`, `ios_plugin.dfy` and `android_service.dfy`: the native recorders' session state machines and their shared `recordings/<id>/chunks/chunk_%06d.m4a` layout.

Everything the code receives from outside is a parameter of the operation that receives it:
- clocks;
- disk readings;
- IPC, HTTP and poll replies;
- the OS recorder's success or failure;
- SHA-256;
- whether a listener throws.

Each reply is modelled as a value, or as a function from the attempt number to a value. Timers are modelled as tick methods. Asynchronous callbacks are modelled as the methods that run when they fire.

Shared helpers:
- `wrappers.dfy` holds `Option` and `Result`.
- `text.dfy` holds the JavaScript string operations the core relies on: `padStart`, `toLowerCase` on ASCII, `trim`, `indexOf`/`includes`, `replace` of a first occurrence, and `parseInt`. It also holds decimal and hexadecimal digits and their round trips.

Where the code and its own comments or tests disagree, the model follows the code. The disagreements evidently not intended are listed under Findings.

## Model

| member | source | states |
|---|---|---|
| Validation.ValidateRecordId | src/utils/validation.js:7-18 | accepts exactly the strings of 1 to 64 characters over `[A-Za-z0-9_-]` and returns them unchanged; a missing, empty or non-string id fails with "Recording ID is required", any other refusal with "Invalid recording ID format" |
| Validation.UuidIsSimpleId | src/utils/validation.js:12-14 | every id of the UUID form also matches the simple-id pattern, so the UUID alternative accepts nothing more |
| Validation.RecordIdExamples | src/utils/validation.js:7-18 | a path-traversal id and a 100-character id are refused as invalid, a UUID is accepted, an empty string and null are refused as required |
| Validation.ValidateExtension | src/utils/validation.js:21-31 | accepts iff the lower-cased extension is one of the fifteen allowed ones, returning it lower-cased; the two error messages, the second quoting the input |
| Validation.ExtensionIdempotent | src/utils/validation.js:21-31 | validating an accepted extension's result again gives the same result |
| Validation.ExtensionExamples | src/utils/validation.js:21-31 | ".WEBM" gives ".webm"; ".exe" is refused with its message |
| Validation.ValidateUserId | src/utils/validation.js:34-46 | accepts iff a string of 1 to 128 characters over `[A-Za-z0-9_@.-]`, returned unchanged; required, too-long and bad-character errors each in its case |
| Validation.ValidateChunkIndex | src/utils/validation.js:49-57 | accepts exactly the integral numbers 0 to 100000 and returns that number; an integral number above 100000 is "too large", everything else "Invalid chunk index" |
| Validation.EmailFormIffShape | src/utils/validation.js:64 | the regular expression `^[^\s@]+@[^\s@]+\.[^\s@]+$` matches exactly the strings without white space, with one `@`, and with a `.` after the `@` that has text on both sides |
| Validation.ValidateEmail | src/utils/validation.js:60-69 | accepts iff the string has that shape and returns it lower-cased (the trim then removes nothing); required and invalid-format errors |
| Validation.EmailAcceptedExample | src/utils/validation.js:60-69 | "Test@Example.COM" gives "test@example.com" |
| Validation.EmailRejectedExample | src/utils/validation.js:60-69 | "invalid" is refused as an invalid format |
| Validation.ValidatePassword | src/utils/validation.js:72-80 | accepts iff a string of at least 8 characters, returned unchanged; required and too-short errors |
| Validation.DecimalValue | src/utils/validation.js:91 | the decimal forms `Number` reads give non-negative values |
| Validation.ValidateRecordingMetadata | src/utils/validation.js:83-102 | a non-object gives `{}`; the duration is kept iff `Number` of it (strings read by StringToNumber) is a non-negative number, and is that number; the title is kept iff it is a non-empty string, and is then its first min(length, 255) characters |
| Validation.PrefixedInteger | src/utils/validation.js:91 | a `0x`, `0o` or `0b` literal is read only with the leading `0` and a known prefix letter |
| Validation.UnsignedDecimal | src/utils/validation.js:91 | a decimal literal with an optional exponent gives a non-negative value |
| Validation.ExponentForms | src/utils/validation.js:91 | `Number("1e3")` is 1000 |
| Validation.DanglingExponentIsNaN | src/utils/validation.js:91 | `Number("1e")` is NaN, so such a duration is dropped |
| Validation.PrefixedForms | src/utils/validation.js:91 | `Number("0x1F")` is 31 and `Number("0b101")` is 5 |
| Validation.SignedPrefixIsNaN | src/utils/validation.js:91 | a sign before a prefixed literal gives NaN: `Number("-0x10")` |
| Validation.MetadataIdempotent | src/utils/validation.js:83-102 | validating validated metadata again changes nothing |
| Integrity.RoundBranches | src/services/integrity.js:15 | the branch-free table round equals the source's `(c & 1) ? (0xEDB88320 ^ (c >>> 1)) : (c >>> 1)` |
| Integrity.CrcTable | src/services/integrity.js:10-20 | the table has 256 entries, entry i being eight rounds from i |
| Integrity.BuildCrcTable | src/services/integrity.js:10-20 | the array the loops fill is that table |
| Integrity.KnownEntries | src/services/integrity.js:10-20 | entries 0, 1, 128 and 255 are those of the standard reflected CRC-32 table |
| Integrity.CalculateCrc32 | src/services/integrity.js:28-48 | the hex string returned is the 8-digit zero-padded lower-case hex of the final register xor 0xFFFFFFFF |
| Integrity.FoldCrc | src/services/integrity.js:40-43 | the loop's register is the table-driven fold of all bytes, starting from 0xFFFFFFFF |
| Integrity.Crc32CheckValue | src/services/integrity.js:28-48 | the checksum of "123456789" is 0xCBF43926, the CRC-32 check value |
| Integrity.Hex8Shape | src/services/integrity.js:47 | the checksum text is 8 hex digits and reads back as the checksum |
| Integrity.Hex8Injective | src/services/integrity.js:47 | distinct checksums have distinct texts |
| Integrity.Crc32HexInjective | src/services/integrity.js:28-48 | equal checksum texts mean equal checksums |
| Integrity.VerifyCrc32Correct | src/services/integrity.js:81-84 | data verifies against its own checksum, and verification succeeds only for an 8-digit text whose lower-cased value is the checksum |
| Integrity.CreateChunkIntegrity | src/services/integrity.js:112-123 | the record carries the index, the byte count, the checksum text and the time given |
| Integrity.VerifyChunkIntegrity | src/services/integrity.js:131-152 | valid iff both the size and the checksum match, iff no errors; one error per mismatch |
| Integrity.ChunkRoundTrip | src/services/integrity.js:112-152 | a chunk verifies against the record made from it |
| Integrity.ChunkDetectsChange | src/services/integrity.js:131-152 | same-size data with another checksum fails with exactly the CRC32 mismatch message |
| Integrity.CreateRecordingIntegrity | src/services/integrity.js:169-177 | no chunks, total size 0, no combined checksums, and the given id |
| Integrity.AddChunk | src/services/integrity.js:185-191 | the chunk is appended, the total grows by its size, everything else stays |
| Integrity.AddChunkKeepsSizes | src/services/integrity.js:185-191 | the total stays the sum of the chunk sizes |
| Integrity.AddAllKeepsSizes | src/services/integrity.js:169-191 | adding any chunks one by one to a new record keeps exactly those chunks with the right total |
| Integrity.VerifyRecordingIntegrity | src/services/integrity.js:199-223 | the indices and messages reported are those of the failing chunks in order, and the recording is valid iff none fails |
| Integrity.VerifyOneChunk | src/services/integrity.js:204-215 | a chunk fails iff it cannot be read or does not verify, with the read-failure or joined-errors message |
| Integrity.FailingChunksComplete | src/services/integrity.js:199-223 | every failing chunk's index is reported |
| Integrity.FailingChunksSound | src/services/integrity.js:199-223 | every reported index belongs to a failing chunk |
| Integrity.ErrorsMatchIndices | src/services/integrity.js:199-223 | one message per reported index |
| Integrity.IntactRecordingValid | src/services/integrity.js:112-223 | chunks whose records were made from what is read back all pass |
| Integrity.HexBytes | src/services/integrity.js:56-74 | the digest text has two hex digits per byte |
| Integrity.CalculateUploadChecksum | src/services/integrity.js:231-234 | the checksum text starts with "sha256:" |
| Integrity.VerifyUploadChecksum | src/services/integrity.js:242-250 | true iff the server text is present, starts with "sha256:" and the rest, lower-cased, is the local digest's hex |
| Integrity.UploadChecksumRoundTrip | src/services/integrity.js:231-250 | the checksum computed locally verifies |
| Base64.ValueOfChar | src/services/storage.js:34-43 | each of the 64 alphabet characters decodes to the value it encodes |
| Base64.CharNotWhitespace | src/services/storage.js:34-43 | no alphabet character is one the decoder drops as white space |
| Base64.EncodeSextets | src/services/storage.js:34 | `4 * (n / 3)` groups' worth of digits plus `n % 3 + 1` for a partial group |
| Base64.Encode | src/services/storage.js:34 | `btoa` output is padded to a multiple of four characters |
| Base64.GroupRoundTrip | src/services/storage.js:34-43 | three bytes survive splitting into four 6-bit digits and joining back |
| Base64.TailRoundTrip | src/services/storage.js:34-43 | a one- or two-byte tail survives its two or three digits |
| Base64.SextetsRoundTrip | src/services/storage.js:34-43 | decoding the digits of any bytes returns the bytes |
| Base64.ValuesOfChars | src/services/storage.js:34-43 | reading back the characters of any digits returns the digits |
| Base64.NoWhitespaceKept | src/services/storage.js:43 | text without white space passes the white-space step unchanged |
| Base64.DropsTwo | src/services/storage.js:43 | "==" padding on a full-length text is removed |
| Base64.DropsOne | src/services/storage.js:43 | "=" padding on a full-length text is removed |
| Base64.DropsNone | src/services/storage.js:43 | an unpadded text is left alone |
| Base64.CharsUnpadded | src/services/storage.js:34-43 | encoded digits contain neither padding nor white space |
| Base64.DecoderSeesSextets | src/services/storage.js:34-43 | after dropping white space and padding, the decoder sees exactly the encoder's digits |
| Base64.RoundTrip | src/services/storage.js:28-50 | `atob(btoa(x))` gives back every byte sequence |
| Base64.Binary | src/services/storage.js:30-33 | the binary string has one character per byte with that byte's code |
| Base64.Bytes | src/services/storage.js:44-47 | `charCodeAt` of a binary string gives its bytes |
| Base64.Btoa | src/services/storage.js:34 | `btoa` succeeds iff every character is below 256 |
| Base64.Atob | src/services/storage.js:43 | `atob` succeeds iff the forgiving decoder accepts, and then gives the decoded bytes as a binary string |
| Base64.BytesOfBinary | src/services/storage.js:30-47 | bytes to binary string and back is the identity |
| Base64.BtoaOfBinary | src/services/storage.js:28-35 | `btoa` of a binary string always succeeds, with the encoding of its bytes |
| Storage.ArrayBufferToBase64 | src/services/storage.js:28-35 | the loop's binary string, given to `btoa`, yields the Base64 encoding of the bytes |
| Storage.Base64ToArrayBuffer | src/services/storage.js:42-50 | the loop's bytes are the decoded bytes when `atob` accepts; otherwise `atob` throws InvalidCharacterError |
| Storage.Uint8Array | src/services/storage.js:57 | `new Uint8Array` keeps the length and reduces each number modulo 256 |
| Storage.Uint8ArrayOfBytes | src/services/storage.js:57 | byte values pass unchanged |
| Storage.DataToBase64 | src/services/storage.js:56-59 | a number array is encoded as its values reduced to bytes; a Uint8Array view is encoded as its whole underlying buffer; either way the text decodes back to those bytes |
| Storage.ViewEncoding | src/services/storage.js:56-59 | a view covering its whole buffer decodes to exactly the bytes it shows; a shorter view does not |
| Storage.CapacitorChunkNameLayout | src/services/storage.js:78-79 | `chunk_` + index padded to six digits + extension: at least six digits, exactly six below a million, reading back as the index |
| Storage.CapacitorChunkPathsDistinct | src/services/storage.js:78-79 | two indices of one recording never share a path |
| Storage.CreateDirectory | src/services/storage.js:253-279 | Electron's answer is passed on; on Capacitor success iff mkdir succeeded or its error mentions "exists", with the error message passed on otherwise; an unsupported platform fails |
| Storage.OrElse | src/services/storage.js:294-295 | JavaScript `a \|\| b` on numbers: `a` unless it is missing or 0 |
| Storage.GetFreeDiskSpace | src/services/storage.js:285-343 | Electron always measures: a failed or unexpected reply gives the 10 GB fallback, a reply with a figure gives bytes from megabytes or megabytes from bytes; Capacitor fails only when the call throws, uses `free` when the API exists and the fallback when not; other platforms fail |
| Storage.HandlerFigures | src/services/storage.js:291-296 | a complete handler reply is taken as it is |
| Storage.ElectronPassesHandlerFigures | src/services/storage.js:285-297 | the figures the check-disk-space handler computes reach the renderer unchanged |
| Storage.Classify | src/services/storage.js:360-368 | critical below 100 MB, low from 100 to below 500 MB, ok from 500 MB |
| Storage.ClassifyMonotone | src/services/storage.js:360-368 | more free space never gives a worse level |
| Storage.CheckStorageForRecording | src/services/storage.js:349-369 | a failed reading allows recording with status ok and -1 MB; otherwise the reading's level and megabytes, and recording is refused iff critical |
| Storage.ElectronFallbackAllowsRecording | src/services/storage.js:299-311 | a failed Electron reading lets recording start as if 10 GB were free |
| Storage.RoundingLetsCheckPassBelowHandlerThreshold | src-electron/disk-utils.js:33-48 | 1 byte under the handler's 500 MB the handler refuses, yet the renderer's check reads "ok", since the handler rounds the megabytes up to 500 |
| DiskUtils.AvailableSpace | src-electron/disk-utils.js:15-26 | the reading when there is one; a failed reading counts as 500 MB + 1 byte |
| DiskUtils.RoundMB | src-electron/disk-utils.js:35 | `Math.round` of bytes over 1 MiB: the nearest whole number of megabytes, halves rounding up |
| DiskUtils.LowSpaceMessage | src-electron/disk-utils.js:40 | the refusal message is not empty |
| DiskUtils.CanStartRecording | src-electron/disk-utils.js:33-49 | start allowed iff at least 500 MiB free; the message is empty iff allowed; the figures are the reading and its rounding |
| DiskUtils.ShouldForceStopRecording | src-electron/disk-utils.js:56-66 | stop iff under 100 MiB free, with the same figures |
| DiskUtils.StopImpliesNoStart | src-electron/disk-utils.js:7-8 | whenever a recording must be stopped, a new one may not start |
| DiskUtils.FailedReadingAllows | src-electron/disk-utils.js:21-25 | an unreadable disk allows starting, with no message, and never forces a stop |
| DiskUtils.SameFigure | src-electron/disk-utils.js:35 | both checks report the same megabytes for the same reading |
| StorageMonitor.ActionFor | src/services/storageMonitor.js:45-54 | force-stop exactly for critical, warn exactly for low |
| StorageMonitor.Notify | src/services/storageMonitor.js:57-68 | at most one callback per check |
| StorageMonitor.NotifyOnChangeOnly | src/services/storageMonitor.js:57-68 | a callback fires only on a change of level and is the one for the level entered, if registered; recovered only on coming back to ok |
| StorageMonitor.NoCallbacksNoNotification | src/services/storageMonitor.js:57-68 | with no callbacks nothing fires |
| StorageMonitor.Monitor.constructor | src/services/storageMonitor.js:12-22 | status ok, -1 MB, not monitoring, no interval, no suspended start, no callbacks |
| StorageMonitor.Monitor.CheckStorage | src/services/storageMonitor.js:31-71 | once the reading arrives: an unread disk reports unknown and changes nothing; otherwise the level, megabytes and action, the new status, and the one callback Notify names, from the callbacks registered then |
| StorageMonitor.Monitor.Start | src/services/storageMonitor.js:81-93 | up to the await of the first check: while monitoring it answers at once with the current figures; otherwise it registers the callbacks and waits, still not monitoring |
| StorageMonitor.Monitor.FirstCheckDone | src/services/storageMonitor.js:93-105 | after the first reading: the check's update, monitoring on, one more interval running, and the check's status and megabytes as the reply |
| StorageMonitor.Monitor.Tick | src/services/storageMonitor.js:97-101 | an interval requests a reading exactly while monitoring; the rest is CheckStorage when the reading arrives |
| StorageMonitor.Monitor.Stop | src/services/storageMonitor.js:111-127 | back to the initial values except what already fired; only the interval in the handle is cleared, leaked intervals and suspended starts stay |
| StorageMonitor.Monitor.GetStorageStatus | src/services/storageMonitor.js:133-139 | the current status, megabytes and monitoring flag |
| StorageMonitor.StoppedMonitorStaysQuiet | src/services/storageMonitor.js:97-127 | after a stop, an interval requests no reading and a forced check fires no callback |
| StorageMonitor.UninterruptedStart | src/services/storageMonitor.js:81-106 | with nothing in between, a start registers the callbacks, checks once with them, turns monitoring on and starts one interval |
| StorageMonitor.SecondStartDuringFirstCheck | src/services/storageMonitor.js:82-97 | a second start during the first check is not turned away: its callbacks win and two intervals run, of which a stop clears one |
| StorageMonitor.StopDuringFirstCheckIsUndone | src/services/storageMonitor.js:93-127 | a stop during the first check is undone when it returns: monitoring is on again with no callbacks, and nothing fires |
| StorageMonitor.CheckStorageBeforeRecording | src/services/storageMonitor.js:169-208 | an unread disk allows start with status unknown, -1 MB and a warning; otherwise the reading's level; start refused iff critical; a message iff not ok |
| StorageMonitor.PreCheckAgreesWithStorageCheck | src/services/storageMonitor.js:169-208 | it decides like checkStorageForRecording and reports the same level when the disk was read |
| RecordingStore.FormatHmsRoundTrip | src/stores/recording.js:47-52 | below 100 hours the duration prints as `HH:MM:SS`, minutes and seconds under 60, and the three fields read back as the number of seconds |
| RecordingStore.Store.constructor | src/stores/recording.js:5-31 | idle, no record, zero counters, empty metadata, no background upload |
| RecordingStore.Store.ActiveUploadProgress | src/stores/recording.js:42-46 | the foreground upload's progress first, then the background upload's, else 0 |
| RecordingStore.Store.StartRecording | src/stores/recording.js:56-78 | a fresh session with the new id; success only when the directory was created, otherwise the error status and message with the session fields already reset |
| RecordingStore.Store.PauseRecording | src/stores/recording.js:80-84 | paused only from recording; any other status is left alone |
| RecordingStore.Store.ResumeRecording | src/stores/recording.js:86-90 | recording only from paused; any other status is left alone |
| RecordingStore.Store.StopRecording | src/stores/recording.js:92-110 | stopped with the combined file on success; otherwise the error status with the main process's message or the fallback |
| RecordingStore.Store.SaveChunk | src/stores/recording.js:112-119 | up to the await: the call carries the record id, the chunk index as it is now and `.webm`, and nothing changes |
| RecordingStore.Store.ChunkSaved | src/stores/recording.js:121-131 | after the reply: the chunk index advances exactly when the chunk was saved; a failure changes nothing and reports why |
| RecordingStore.OverlappingSavesShareIndex | src/stores/recording.js:112-124 | two saves begun before either reply send the same index, and the counter still goes up by two |
| RecordingStore.Store.UpdateDuration | src/stores/recording.js:133-135 | only the duration changes |
| RecordingStore.Store.UpdateUploadProgress | src/stores/recording.js:137-141 | only the three progress figures change |
| RecordingStore.Store.SetUploading | src/stores/recording.js:143-149 | uploading from 0 %; metadata fields are replaced only by given truthy values (finalDuration by any given value) |
| RecordingStore.Store.SetUploaded | src/stores/recording.js:151-154 | uploaded at 100 % |
| RecordingStore.Store.SetError | src/stores/recording.js:156-159 | error status with the given error, nothing else |
| RecordingStore.Store.MoveToBackgroundUpload | src/stores/recording.js:162-173 | only an upload in progress moves, carrying its id, figures and a copy of the metadata |
| RecordingStore.Store.UpdateBackgroundUploadProgress | src/stores/recording.js:175-181 | only the active background upload of that record is updated |
| RecordingStore.Store.ClearBackgroundUpload | src/stores/recording.js:183-192 | the background upload is emptied and nothing else changes |
| RecordingStore.Store.Reset | src/stores/recording.js:194-211 | every session field back to its initial value while the background upload survives |
| RecordingStore.BackgroundUploadSurvivesNewRecording | src/stores/recording.js:162-173 | moving an upload to the background and starting a new recording keeps an active upload of the old record at the old progress |
| TranscriptionSettings.UniqueSameWords | src/stores/transcription-settings.js:20-23 | `[...new Set(xs)]` holds exactly the words of xs |
| TranscriptionSettings.UniqueNoDuplicates | src/stores/transcription-settings.js:20-23 | and holds each only once |
| TranscriptionSettings.UniqueOfDistinct | src/stores/transcription-settings.js:20-23 | a list without repeats is its own de-duplication |
| TranscriptionSettings.UniquePrefix | src/stores/transcription-settings.js:20-23 | the first occurrences keep their order: the de-duplicated global words come first |
| TranscriptionSettings.IndexOf | src/stores/transcription-settings.js:94 | `indexOf`: the first position holding the word, and none exactly when it is absent |
| TranscriptionSettings.RemoveFirst | src/stores/transcription-settings.js:93-99 | removing an absent word changes nothing; otherwise exactly one occurrence goes |
| TranscriptionSettings.RemoveFirstDistinct | src/stores/transcription-settings.js:93-99 | in a list without repeats the word is gone and every other word stays |
| TranscriptionSettings.Settings.constructor | src/stores/transcription-settings.js:4-16 | empty vocabularies, auto speaker count, empty title, not loaded |
| TranscriptionSettings.Settings.EffectiveSpeakerCount | src/stores/transcription-settings.js:26-28 | the session count when set, else the default |
| TranscriptionSettings.Settings.TranscriptionOptions | src/stores/transcription-settings.js:31-37 | the title only when not empty, the effective count and the merged vocabulary |
| TranscriptionSettings.Settings.MergedIsConcatenation | src/stores/transcription-settings.js:20-23 | when global and session words are distinct and disjoint, the merged vocabulary is their concatenation |
| TranscriptionSettings.Settings.LoadGlobalSettings | src/stores/transcription-settings.js:42-56 | loads once; stored settings replace the global values (missing vocabulary as empty), a failure or no settings keep them; session values untouched |
| TranscriptionSettings.Settings.SetSessionOptions | src/stores/transcription-settings.js:71-75 | each given option replaces its session value, the others and the globals stay |
| TranscriptionSettings.Settings.ResetSession | src/stores/transcription-settings.js:78-82 | session values back to empty, globals kept |
| TranscriptionSettings.Settings.AddGlobalWord | src/stores/transcription-settings.js:85-91 | the trimmed word is appended when not empty and not yet present; the list stays free of repeats |
| TranscriptionSettings.Settings.RemoveGlobalWord | src/stores/transcription-settings.js:93-99 | the first occurrence of the word goes, nothing else changes |
| TranscriptionSettings.Settings.SetDefaultSpeakerCount | src/stores/transcription-settings.js:102-105 | only the default count changes |
| TranscriptionSettings.Settings.AddSessionWord | src/stores/transcription-settings.js:108-113 | the trimmed word is appended unless empty or already in either list; the two lists stay distinct and disjoint |
| TranscriptionSettings.Settings.RemoveSessionWord | src/stores/transcription-settings.js:115-120 | the first occurrence goes from the session list only |
| Minutes.TotalMinutes | src/stores/minutes.js:63-65 | free plus bonus: the allocation that used minutes are spent from |
| Minutes.RemainingMinutes | src/stores/minutes.js:31-34 | never negative: the unspent minutes, or 0 when overspent |
| Minutes.RemainingSeconds | src/stores/minutes.js:39-42 | never negative: the whole seconds of the unspent minutes rounded down, 0 when overspent |
| Minutes.HasMinutesRemaining | src/stores/minutes.js:47-50 | true exactly when some minutes are unspent |
| Minutes.SecondsImplyMinutes | src/stores/minutes.js:31-50 | the three getters agree: remaining seconds imply remaining minutes, and remaining minutes are positive exactly when some are unspent |
| Minutes.UsagePercentage | src/stores/minutes.js:70-74 | at most 100; 100 with no allocation; otherwise the share used, capped |
| Minutes.UsageWithinAllocation | src/stores/minutes.js:70-74 | within the allocation the percentage is exactly the used share |
| Minutes.Deduct | src/stores/minutes.js:120-123 | the unspent balance drops by the duration in minutes; free and bonus stay |
| Minutes.DeductNeverRaises | src/stores/minutes.js:120-123 | deducting a recording never raises what remains |
| Minutes.DeductAllowance | src/stores/minutes.js:120-123 | deducting the whole allowance leaves no seconds and no minutes |
| Minutes.CanRecordFor | src/stores/minutes.js:138-140 | allowed exactly when the remaining seconds cover the duration |
| Minutes.MaxRecordingDuration | src/stores/minutes.js:146-148 | never negative |
| Minutes.CanRecordForExact | src/stores/minutes.js:138-148 | a whole number of seconds is allowed exactly when it fits in the unspent minutes |
| Minutes.MaxIsLargest | src/stores/minutes.js:138-148 | the maximum is allowed and one second more is not |
| Minutes.Store.constructor | src/stores/minutes.js:18-25 | zero balance, not loading, no error, never fetched |
| Minutes.Store.IsCacheValid | src/stores/minutes.js:55-58 | valid exactly when fetched (at a non-zero time) less than an hour ago |
| Minutes.Store.FetchMinutes | src/stores/minutes.js:83-118 | a valid cache answers cached unless forced (syncWithServer, 129-131, forces); no token is an error; a reply replaces the balance with missing figures as 0 and stamps the time; a failure keeps the balance and records the error |
| Minutes.Store.DeductMinutesLocally | src/stores/minutes.js:120-123 | the balance after Deduct, nothing else |
| Minutes.Store.Reset | src/stores/minutes.js:153-160 | back to the initial state |
| Minutes.Store.SetMinutes | src/stores/minutes.js:165-170 | each given figure replaces its own and the fetch time is stamped |
| Upload.IsTokenExpiredError | src/services/upload.js:33-47 | status 401, or the lower-cased message containing one of the six token phrases |
| Upload.IsRetryableError | src/services/upload.js:606-617 | a non-empty message containing none of the four non-retryable phrases |
| Upload.ClassifierExamples | src/services/upload.js:33-47 | a 401 is expired whatever the message; no message is never retryable; a checksum mismatch is not retried |
| Upload.BackoffDelay | src/services/upload.js:89-92 | always between the initial and the maximum delay |
| Upload.BackoffMonotone | src/services/upload.js:89-92 | a later attempt never waits less |
| Upload.BackoffSchedule | src/services/upload.js:89-92 | doubling up to the cap, the cap from the sixth attempt on |
| Upload.Decide | src/services/upload.js:139-174 | verified only when persisted with the local checksum; persisted without the fallback only for a persisted or complete status |
| Upload.PollServerStatus | src/services/upload.js:129-195 | the loop's answer is the first decisive reply within the attempts, else the timeout |
| Upload.PollFirstDecision | src/services/upload.js:129-195 | the answer is the timeout after no decisive reply, or the decision of the first decisive one |
| Upload.PollVerifiedMatches | src/services/upload.js:154-163 | a verified answer means some poll reported the file persisted with the same, present checksum |
| Upload.UploadPhase | src/services/upload.js:252-310 | the loop's answer is UploadPhaseSpec: at most two sends, the second only after an expired token was refreshed; a rejected call fails with its message; a refresh that throws fails with its message |
| Upload.RejectedCallSkipsRefresh | src/services/upload.js:260-310 | a rejected first call fails with the rejection's message whatever a refresh would return or throw, and is not sent again |
| Upload.RefreshOnlyAfterExpiredToken | src/services/upload.js:260-310 | unless the first reply resolved as a failure with an expired token, the refresh has no effect on the outcome |
| Upload.SecondSendOnlyWithFreshToken | src/services/upload.js:211-305 | after an expired token, a refresh that throws fails with its message and one giving no token fails with the first reply's error; neither sends again |
| Upload.Outcome | src/services/upload.js:312-343 | the local copy may be deleted exactly when the upload went through and the server confirmed persistence without a checksum mismatch, and exactly then the outcome is a success |
| Upload.UploadWithVerification | src/services/upload.js:197-354 | the outcome of the upload phase, a rejected call included, followed by 15 polls |
| Upload.DeleteOnlyWhenConfirmed | src/services/upload.js:197-354 | a verified deletable outcome has a poll with the matching checksum; with no decisive poll nothing may be deleted |
| Upload.UploadWithRetry | src/services/upload.js:573-598 | between 1 and MAX_UPLOAD_RETRIES + 1 attempts; every earlier attempt failed retryably; it stops at a success, a non-retryable error or the last attempt |
| Upload.FirstPending | src/services/upload.js:677 | `find`: the first pending item, or none when no item is pending |
| Upload.StepDecreases | src/services/upload.js:677-703 | one round keeps the queue well formed and strictly lowers the pending work, so the loop ends |
| Upload.StepTracked | src/services/upload.js:677-703 | every item after a round is an original one or one that failed after MAX_UPLOAD_RETRIES attempts |
| Upload.DrainSettles | src/services/upload.js:676-704 | when an uninterrupted run of the loop ends no item is pending, the queue never grows, and what is left is original or finally failed |
| Upload.KeepActiveMembers | src/services/upload.js:726-730 | exactly the pending and uploading items are kept |
| Upload.KeepActiveAppend | src/services/upload.js:726-730 | the filter keeps queue order |
| Upload.StepIsBeginSettle | src/services/upload.js:681-703 | a round of the reference loop is the item marked uploading with one more attempt, then its result applied |
| Upload.FirstUploading | src/services/upload.js:690 | `indexOf(upload)`: the first uploading item; none means no item is uploading |
| Upload.LoopHeadConsistent | src/services/upload.js:677-684 | the loop's head, entered with nothing in flight, leaves a consistent state: processing exactly while suspended, one item uploading exactly while an upload is awaited |
| Upload.ResolveConsistent | src/services/upload.js:684-703 | applying the awaited result keeps the state consistent, and leaves no item uploading before the loop goes on |
| Upload.QueuedConsistent | src/services/upload.js:652-658 | the push keeps the state consistent, also while an upload is awaited |
| Upload.ClearConsistent | src/services/upload.js:726-730 | clearing keeps the state consistent, also while an upload is awaited |
| Upload.KeepActiveKeepsUploads | src/services/upload.js:726-730 | the filter keeps the item in flight |
| Upload.UninterruptedRound | src/services/upload.js:677-703 | with nothing queued or cleared in between, the suspended machine performs exactly one round of the reference loop Step, so Drain describes an uninterrupted run |
| Upload.Queue.constructor | src/services/upload.js:50 | an empty queue, not processing, nothing awaited |
| Upload.Queue.ProcessUploadQueue | src/services/upload.js:670-684 | a busy or empty queue is left alone; otherwise processing starts at the loop's head and the state stays consistent |
| Upload.Queue.ContinueLoop | src/services/upload.js:677-706 | the loop's head: with nothing pending processing ends, otherwise the first pending item is marked and its upload awaited |
| Upload.Queue.UploadSettled | src/services/upload.js:684-703 | the awaited result is applied as Resolve says; a back-off delay is returned exactly when the item waits to be retried, and is getBackoffDelay(attempts - 1) |
| Upload.Queue.BackoffElapsed | src/services/upload.js:701-704 | after the sleep the loop's head runs again |
| Upload.Queue.QueueUpload | src/services/upload.js:652-665 | the item is appended as pending with no attempts; an idle queue then starts processing, a suspended round is left to reach the item |
| Upload.Queue.ClearCompletedUploads | src/services/upload.js:726-730 | only pending and uploading items remain, in order, also while an upload is awaited |
| ChunkSequence.ChunkKeyOfName | src-electron/electron-main.js:1302-1303 | the key read back from a saved chunk's name is its index |
| ChunkSequence.Insert | src-electron/electron-main.js:1300-1306 | inserting adds exactly the one entry |
| ChunkSequence.InsertSorted | src-electron/electron-main.js:1300-1306 | and keeps the order |
| ChunkSequence.SortEntriesSorted | src-electron/electron-main.js:1300-1306 | the sort orders the entries by key, names without a number last |
| ChunkSequence.SortChunksPermutes | src-electron/electron-main.js:1300-1306 | sortChunksNumerically returns a permutation of the names |
| ChunkSequence.SortChunksOrdered | src-electron/electron-main.js:1300-1306 | whose keys are in order |
| ChunkSequence.PushGap | src-electron/electron-main.js:1324-1329 | the inner loop appends the indices from i up to the found index |
| ChunkSequence.ValidateChunkSequence | src-electron/electron-main.js:1319-1338 | the report lists every gap the loop finds, is valid exactly when there is none, and carries the message for the list |
| ChunkSequence.GapsEmptyIff | src-electron/electron-main.js:1319-1331 | no gap is reported exactly when no sorted key exceeds its position |
| ChunkSequence.ListsPresentIndex | src-electron/electron-main.js:1322-1329 | chunks 0, 2, 3 are reported as missing 1 and 2, although 2 is present |
| ChunkSequence.AcceptsRepeatedIndex | src-electron/electron-main.js:1322-1329 | two chunks both numbered 0 pass, although chunk 1 is missing |
| ChunkSequence.AbsentBelow | src-electron/electron-main.js:1319-1338 | exactly the indices below the count that no chunk carries |
| ChunkSequence.IntendedCheck | src-electron/electron-main.js:1319-1338 | valid exactly when the chunks are numbered 0 to n-1; every reported index is absent and below the largest number, and every absent index below the largest number is reported |
| ChunkSequence.LargestKey | src-electron/electron-main.js:1319-1338 | the largest number a chunk carries, or -1 when none does |
| ChunkSequence.ValidHasNoGaps | src-electron/electron-main.js:1319-1338 | a passing check leaves no index absent below the largest number |
| ChunkSequence.IntendedReportsEveryGap | src-electron/electron-main.js:1319-1338 | numbers [0, 5] report 1, 2, 3 and 4 as missing |
| ChunkSequence.SavedNames | src-electron/electron-main.js:1540 | the names saveChunk gives chunks 0 to n-1 |
| ChunkSequence.SavedNamesSorted | src-electron/electron-main.js:1300-1306 | the sort leaves a complete recording's chunks in saving order |
| ChunkSequence.SavedChunksPass | src-electron/electron-main.js:1319-1338 | a complete recording passes both the sequence check as written and the intended one |
| Text.ZeroPadRoundTrip | src/stores/recording.js:51 | `toString().padStart(w, '0')` reads back as the number it printed |
| Text.ZeroPadLength | src/stores/recording.js:51 | a number with at most w digits is padded to exactly w characters |
| Text.ZeroPadInjective | src/services/storage.js:57 | two numbers never share a padded form |
| Text.TrimEnds | src/stores/transcription-settings.js:86 | a trimmed word neither starts nor ends with white space |
| Text.TrimNoWhitespace | src/stores/transcription-settings.js:86 | trimming a word without white space leaves it as it is |
| Text.ToLowerIdempotent | src/services/upload.js:45 | lower-casing twice is lower-casing once |
| Text.IndexOfFrom | src/services/upload.js:46 | `indexOf`/`includes`: the first occurrence at or after the start, none exactly when there is no occurrence |
| Text.ParseIntOfDecimal | src-electron/electron-main.js:1302-1303 | `parseInt` of a number's decimal text followed by a non-digit gives back the number |
| Text.CompactHoursRoundTrip | src-electron/electron-main.js:664-672 | from one hour on the tray shows `H:MM:SS` with minutes and seconds under 60, reading back as the seconds |
| Text.CompactMinutesRoundTrip | src-electron/electron-main.js:664-672 | under an hour it shows `M:SS`, reading back as the seconds |
| Text.StringOr | src/stores/recording.js:103 | `s \|\| fallback`: the string when it is not empty, else the fallback |
| ElectronQueue.FindIndex | src-electron/electron-main.js:164 | `find` by record id: the first entry with that id, none exactly when no entry has it |
| ElectronQueue.Added | src-electron/electron-main.js:161-175 | a record already queued is not queued twice; a new one goes at the end |
| ElectronQueue.AddedKeepsUnique | src-electron/electron-main.js:161-175 | adding keeps record ids unique and the record is then queued |
| ElectronQueue.WithoutId | src-electron/electron-main.js:178-183 | no entry of the record remains and the queue never grows |
| ElectronQueue.WithoutIdMembers | src-electron/electron-main.js:178-183 | exactly the other records' entries remain |
| ElectronQueue.WithoutIdAppend | src-electron/electron-main.js:178-183 | the filter keeps queue order |
| ElectronQueue.WithoutAbsentId | src-electron/electron-main.js:178-183 | removing a record that is not queued changes nothing |
| ElectronQueue.WithoutIdKeepsUnique | src-electron/electron-main.js:178-183 | removal keeps record ids unique |
| ElectronQueue.Retried | src-electron/electron-main.js:186-194 | a retry never changes the queue's length |
| ElectronQueue.RetriedSpec | src-electron/electron-main.js:186-194 | only the record's entry changes: one more retry, stamped with the time; ids stay unique |
| ElectronQueue.UploadQueueStore.constructor | src-electron/electron-main.js:123-128 | the queue starts empty |
| ElectronQueue.UploadQueueStore.AddToUploadQueue | src-electron/electron-main.js:161-175 | the stored queue becomes Added with a fresh entry at zero retries |
| ElectronQueue.UploadQueueStore.RemoveFromUploadQueue | src-electron/electron-main.js:178-183 | the stored queue becomes WithoutId |
| ElectronQueue.UploadQueueStore.UpdateUploadQueueRetry | src-electron/electron-main.js:186-194 | the stored queue becomes Retried |
| ElectronShell.OpenExternal | src-electron/electron-main.js:2506-2535 | the shell is asked exactly for mailto: links and https: links to an allowed domain or its subdomain, and success means it was asked and did not reject; other protocols and domains fail with their messages, an unparsable URL with the parser's, a rejecting shell with its own |
| ElectronShell.AllowlistAccepts | src-electron/electron-main.js:2504 | a subdomain and a listed domain are allowed |
| ElectronShell.AllowlistRefusesLookalike | src-electron/electron-main.js:2522-2524 | a host that merely ends in an allowed name without a dot before it is refused |
| ElectronShell.AllowlistRefusesPrefix | src-electron/electron-main.js:2522-2524 | a host that only starts with an allowed name is refused |
| ElectronShell.AcceptedHostIsAllowed | src-electron/electron-main.js:2517-2528 | every non-mail link handed to the shell is https: on an allowed domain or a subdomain of one |
| ElectronUpload.UploadTimeout | src-electron/electron-main.js:1377-1383 | at least ten minutes and at least the time at 100 KiB/s with half again as buffer, and always one of the two |
| ElectronUpload.UploadTimeoutMonotone | src-electron/electron-main.js:1377-1383 | a larger file never gets a shorter timeout |
| ElectronUpload.Decide | src-electron/electron-main.js:2033-2056 | persisted without fallback only for a persisted, complete or processing status; the fallback only for a 404; not persisted only for a failed status |
| ElectronUpload.PollServerStatus | src-electron/electron-main.js:2016-2069 | the loop's answer is the first decisive reply within the attempts, else the timeout |
| ElectronUpload.PollPersistedMeans | src-electron/electron-main.js:2016-2069 | a persisted answer comes from some reply within the attempts; otherwise it is the timeout or a reported failure |
| ElectronUpload.RetryDelay | src-electron/electron-main.js:2073-2089 | the delay table indexed by the attempt, its last entry from then on |
| ElectronUpload.RejectedError | src-electron/electron-main.js:2264-2266 | a server reply without success is thrown as a plain error, which is never retried |
| ElectronUpload.CatchDecision | src-electron/electron-main.js:2267-2314 | the loop goes on exactly for a retryable error other than a 401 before the last attempt; otherwise a failure that does not say the file may be deleted |
| ElectronUpload.AttemptDecision | src-electron/electron-main.js:2229-2314 | an accepted upload is decided at once, and may be deleted exactly when it returned no file id or the 15-attempt status poll confirmed persistence; nothing else may be deleted; the loop goes on only after a failure before the last attempt |
| ElectronUpload.UploadWithRetry | src-electron/electron-main.js:2072-2318 | between 1 and maxRetries + 1 attempts, the last one decisive, every earlier one retried after the table's delay |
| ElectronUpload.NeverRetries401 | src-electron/electron-main.js:2278-2287 | a 401 ends the loop at once with status 401 and canRetry false |
| ElectronUpload.RetriesOnlyTransient | src-electron/electron-main.js:2289-2295 | only connection errors and 5xx replies are retried |
| ElectronUpload.DeleteOnlyWhenPersisted | src-electron/electron-main.js:2229-2262 | a result that allows deletion comes from an accepted upload; when it returned a file id, one of the first 15 status polls reported the file persisted |
| ElectronHistory.Filter | src-electron/electron-main.js:2546 | `filter`: never longer, and every kept entry passes |
| ElectronHistory.FilterMembers | src-electron/electron-main.js:2546 | exactly the passing entries are kept |
| ElectronHistory.FilterCommutes | src-electron/electron-main.js:2546 | two filters commute |
| ElectronHistory.FilterSubsumed | src-electron/electron-main.js:2546 | a weaker second filter changes nothing |
| ElectronHistory.FilterDisjoint | src-electron/electron-main.js:2546 | disjoint filters leave nothing |
| ElectronHistory.Insert | src-electron/electron-main.js:2549 | inserting adds exactly the one entry |
| ElectronHistory.InsertNewestFirst | src-electron/electron-main.js:2549 | and keeps newest-first order |
| ElectronHistory.SortNewestFirst | src-electron/electron-main.js:2549 | the sort is a permutation |
| ElectronHistory.SortIsNewestFirst | src-electron/electron-main.js:2549 | in newest-first order |
| ElectronHistory.StringOrNull | src-electron/electron-main.js:2573-2574 | `s \|\| null`: a non-empty string is kept, anything else is null |
| ElectronHistory.NewEntry | src-electron/electron-main.js:2565-2576 | the entry carries the validated user and the recording's id; a missing or zero creation time becomes now, a missing or empty status pending, a missing or empty preference keep, a missing path empty |
| ElectronShell.FormatDuration | src-electron/electron-main.js:664-672 | the text reads back as the seconds: hours, two-digit minutes and seconds from an hour on, minutes and two-digit seconds below |
| ElectronHistory.Merge | src-electron/electron-main.js:2600-2602 | given fields replace the entry's, except that the owner never changes |
| ElectronHistory.FindEntry | src-electron/electron-main.js:2595 | the first entry with that id and owner, none exactly when there is none |
| ElectronHistory.RemovalCounts | src-electron/electron-main.js:2662-2674 | deleted and failed directories together never exceed the user's entries |
| ElectronHistory.HistoryStore.constructor | src-electron/electron-main.js:114-121 | the history starts empty, with no handler waiting |
| ElectronHistory.HistoryStore.GetAll | src-electron/electron-main.js:2541-2554 | nothing without a user id; otherwise exactly that user's entries, newest first, and never another user's |
| ElectronHistory.HistoryStore.Add | src-electron/electron-main.js:2557-2586 | an invalid user id is refused and changes nothing; otherwise the new entry is appended; waiting handlers are untouched |
| ElectronHistory.HistoryStore.Update | src-electron/electron-main.js:2589-2611 | an invalid user id or a missing entry changes nothing; otherwise only that user's entry is merged; waiting handlers are untouched |
| ElectronHistory.HistoryStore.Delete | src-electron/electron-main.js:2614-2641 | an invalid user id or a missing entry changes nothing; with deleteFile and an existing directory it waits holding the list it read; otherwise exactly that user's entry with the id goes |
| ElectronHistory.HistoryStore.DeleteAll | src-electron/electron-main.js:2651-2687 | an invalid user id changes nothing; the counts of removed and failed directories; when a removal was awaited it waits holding the list it read, otherwise all of the user's entries go at once |
| ElectronHistory.HistoryStore.Resumed | src-electron/electron-main.js:2640-2687 | a waiting delete handler writes back the list it read before the await, filtered, and answers with its counts |
| ElectronHistory.HistoryStore.ResumedIntended | src-electron/electron-main.js:2640-2687 | the corrected resumption filters the list as stored now |
| ElectronHistory.DeleteAllLosesConcurrentAdd | src-electron/electron-main.js:2656-2680 | another user's entry added while deleteAll awaits a removal is gone afterwards |
| ElectronHistory.DeleteAllKeepsConcurrentAdd | src-electron/electron-main.js:2656-2680 | with the corrected resumption that entry stays, after the other users' entries |
| ElectronHistory.DeleteLosesConcurrentAdd | src-electron/electron-main.js:2616-2641 | an entry added while delete with deleteFile awaits the removal is gone afterwards |
| ElectronHistory.DeleteKeepsConcurrentAdd | src-electron/electron-main.js:2616-2641 | with the corrected resumption that entry stays |
| ElectronHistory.UpdateScoped | src-electron/electron-main.js:2600-2603 | an update touches one entry and no entry changes owner |
| ElectronHistory.UpdateKeepsOthers | src-electron/electron-main.js:2589-2604 | another user's view of the history is not changed by an update |
| ElectronHistory.DeleteScoped | src-electron/electron-main.js:2640 | nor by a delete, which removes exactly the matching entry |
| ElectronHistory.DeleteAllScoped | src-electron/electron-main.js:2679 | the filter of deleteAll leaves the user nothing and the other users everything of the list it is applied to |
| RecordingsHistory.GetUserId | src/stores/recordings-history.js:40-43 | `user.id \|\| user.userId \|\| null`: a user id is never empty, there is one exactly when either field is non-empty, and `id` wins |
| RecordingsHistory.Failure | src/stores/recordings-history.js:106-120 | a refused or thrown call is a failure with no recording and the call's message |
| RecordingsHistory.FirstWithId | src/stores/recordings-history.js:108 | `findIndex` by id: the first entry with the id, none exactly when there is none |
| RecordingsHistory.LocalMerge | src/stores/recordings-history.js:110 | the local spread is the main process's merge except that it may also change the owner |
| RecordingsHistory.Updated | src/stores/recordings-history.js:106-114 | the first entry with the id is merged and every other entry stays; no entry, no change |
| RecordingsHistory.UpdatedKeepsPosition | src/stores/recordings-history.js:108-110 | an update that does not rename the entry leaves it first among its id |
| RecordingsHistory.AfterUploadEntry | src/stores/recordings-history.js:166-187 | after an accepted upload update the entry is uploaded with the two ids, its path is cleared only when deletion was wanted, done and recorded, and no other entry changes |
| RecordingsHistory.Store.constructor | src/stores/recordings-history.js:5-10 | no recordings, preference keep, not loaded, not loading |
| RecordingsHistory.Store.RecordingCount | src/stores/recordings-history.js:27 | the number of recordings |
| RecordingsHistory.Store.GetRecordingById | src/stores/recordings-history.js:30-31 | a recording with the id exactly when one exists, and it is one of them |
| RecordingsHistory.StatusGettersExact | src/stores/recordings-history.js:17-24 | each status getter holds exactly the recordings with that status |
| RecordingsHistory.Store.LoadRecordings | src/stores/recordings-history.js:46-58 | runs up to the first await: ignored while a load is in flight; no user empties the list and marks it loaded; otherwise loading is set and a list read is awaited |
| RecordingsHistory.Store.ListAnswered | src/stores/recordings-history.js:58-66 | the awaited list read resumes: a failure ends that load and clears loading; a list replaces the recordings and the preference read is awaited next |
| RecordingsHistory.Store.PreferenceAnswered | src/stores/recordings-history.js:59-66 | the awaited preference read resumes: a failure ends the load with the list kept and not loaded; a preference is stored and marks loaded; both clear loading |
| RecordingsHistory.UninterruptedLoad | src/stores/recordings-history.js:46-67 | with nothing interleaved the three steps give the atomic outcome: no user empties the list, a failed read keeps the state, a failed preference read keeps the list but not loaded |
| RecordingsHistory.SecondLoadIsIgnored | src/stores/recordings-history.js:47 | a second load started while the first awaits changes nothing, whatever its user |
| RecordingsHistory.ResetAllowsConcurrentLoad | src/stores/recordings-history.js:46-151 | a load in flight blocks another until a reset, which clears loading so that a second load starts beside the first |
| RecordingsHistory.AnswerAfterResetIsStored | src/stores/recordings-history.js:58-151 | a reset does not cancel an awaited list read: its answer still fills the emptied list |
| RecordingsHistory.EarlierLoadEndsLoading | src/stores/recordings-history.js:62-66 | the earlier load's failure clears loading while a later load is still awaiting |
| RecordingsHistory.Store.AddRecording | src/stores/recordings-history.js:70-94 | no user is refused untouched; the main process gets the recording stamped with the user; an accepted entry goes first; a refusal or error changes nothing |
| RecordingsHistory.Store.UpdateRecording | src/stores/recordings-history.js:96-121 | the local list changes exactly when the main process accepted, and then as Updated; a refusal reports its message |
| RecordingsHistory.Store.DeleteRecording | src/stores/recordings-history.js:123-145 | on acceptance every local copy with the id goes; otherwise nothing changes and the failure is reported |
| RecordingsHistory.DeleteRemovesEveryCopy | src/stores/recordings-history.js:134 | exactly the entries with other ids remain |
| RecordingsHistory.Store.Reset | src/stores/recordings-history.js:147-151 | list emptied, flags cleared, preference kept; loads already awaiting are not cancelled |
| RecordingsHistory.Store.SetDefaultStoragePreference | src/stores/recordings-history.js:154-164 | the preference changes exactly when the main process did not throw |
| RecordingsHistory.Store.MarkAsUploaded | src/stores/recordings-history.js:166-188 | the list after AfterUpload: the uploaded update when accepted, then the path cleared only for a delete-after-upload recording whose file went |
| RecordingsHistory.Store.MarkAsFailed | src/stores/recordings-history.js:190-195 | the failed update is applied exactly when accepted |
| RecordingsHistory.Scale | src/stores/recordings-history.js:198-209 | a unit is never smaller than a byte |
| RecordingsHistory.FormatFileSize | src/stores/recordings-history.js:198-211 | 0 B exactly for no bytes; otherwise a size and unit that multiply back to the bytes, under 1024 below GB and at least 1 above B |
| RecordingsHistory.FileSizeUnique | src/stores/recordings-history.js:204-207 | those conditions pin down one size and unit |
| RecordingsHistory.FormatDuration | src/stores/recordings-history.js:213-225 | no seconds show `0:00` (the other cases are the tray's form, Text.CompactHoursRoundTrip) |
| Auth.AfterSignIn | src/stores/auth.js:13-41 | an accepted reply signs the user in; otherwise the session is untouched; an error exactly unless accepted and saved; refusals and throws carry their message or the fallback |
| Auth.AfterCheck | src/stores/auth.js:91-110 | a failing read signs the user out and changes nothing else |
| Auth.CheckSessionCases | src/stores/auth.js:96-105 | a token and user info restore the session; a token alone is cleared and signs out; no token changes nothing |
| Auth.ActionsKeepConsistent | src/stores/auth.js:13-110 | signing in and checking the session keep "authenticated implies user and token" |
| Auth.FailedSignInKeepsSession | src/stores/auth.js:31-37 | a failed login or registration leaves the session as it was and reports an error |
| Auth.LoadingAroundRequest | src/stores/auth.js:14-40 | the request is sent and loading is over afterwards |
| Auth.Store.constructor | src/stores/auth.js:4-10 | signed out, no error, not loading |
| Auth.Store.SignIn | src/stores/auth.js:13-41 | the state after AfterSignIn; success exactly without an error, and then signed in |
| Auth.Store.Login | src/stores/auth.js:13-41 | SignIn with the "Login failed" fallback |
| Auth.Store.Register | src/stores/auth.js:43-70 | SignIn with the "Registration failed" fallback |
| Auth.Store.Logout | src/stores/auth.js:72-89 | signed out and the token cleared, even when clearing throws, and the history store reset |
| Auth.Store.CheckSession | src/stores/auth.js:91-110 | the state after AfterCheck |
| Auth.Store.ClearError | src/stores/auth.js:112-114 | only the error is cleared |
| Auth.Store.CurrentUserId | src/stores/recordings-history.js:40-43 | the signed-in user's id as GetUserId reads it, none when signed out |
| Router.Decide | src/router/index.js:71-77 | to the login page exactly when a protected route is reached signed out; to the record page when signed in on login or register; otherwise proceed |
| Router.GuardSeparatesSessions | src/router/index.js:71-77 | a signed-out visitor never proceeds to a protected route and a signed-in one never to login or register |
| Router.BeforeEachAsWritten | src/router/index.js:63-78 | checkSession runs on every navigation, then the decision on the store's answer |
| Router.RecheckSignsOutOnLaterNavigation | src/router/index.js:67-69 | a signed-in user whose later token read fails is signed out and sent to login |
| Router.Guard.constructor | src/router/index.js:67 | the session starts unchecked |
| Router.Guard.BeforeEach | src/router/index.js:63-78 | the session is checked on the first navigation only, then the decision |
| Router.LaterNavigationKeepsSession | src/router/index.js:67-69 | once checked, a navigation does not touch the auth store |
| RecordingService.Added | src/services/recordingService.js:71-76 | `Set.add`: the callbacks afterwards are the old ones and the new one, without repeats, an already registered one changing nothing |
| RecordingService.Without | src/services/recordingService.js:81-85 | `Set.delete`: exactly the other callbacks remain, without repeats |
| RecordingService.DeliveriesReachEveryone | src/services/recordingService.js:90-100 | every registered callback is called once, in order, whether or not an earlier one threw |
| RecordingService.RemovedListenerIsNotCalled | src/services/recordingService.js:81-100 | a removed callback is not called and every other one still is |
| RecordingService.SilenceStepFacts | src/services/recordingService.js:179-201 | a silent tick counts on, warns once at 10 s, pauses from 30 s; a sound tick clears a pending warning and resets the count |
| RecordingService.SilentTicks | src/services/recordingService.js:179-201 | n silent ticks from quiet give one warning exactly when n reaches 100 and a pause exactly from 300 |
| RecordingService.CeilMinutes | src/services/recordingService.js:266-268 | `Math.ceil(remaining / 60)`: the whole minutes just covering the remaining seconds |
| RecordingService.DurationStepFacts | src/services/recordingService.js:254-290 | the limit warning fires exactly within five minutes of an unshown, positive limit, naming 1 to 5 minutes; the limit is reached exactly when none remain; a split exactly at 4 h 55 min when not splitting and not at the limit; at most one event |
| RecordingService.LimitWarningAtMostOnce | src/services/recordingService.js:262-269 | over any run of ticks the limit warning fires at most once, and never again once shown |
| RecordingService.FirstUsable | src/services/recordingService.js:481-487 | the first codec that is empty or supported; the trailing empty codec guarantees one |
| RecordingService.ChooseMimeType | src/services/recordingService.js:471-487 | the loop picks the first usable codec of the preference list |
| RecordingService.FirstIsFirst | src/services/recordingService.js:481-487 | the first usable codec is the one chosen |
| RecordingService.ChosenMimeType | src/services/recordingService.js:471-487 | the chosen type is supported or empty, and empty exactly when no listed codec is supported |
| RecordingService.Service.constructor | src/services/recordingService.js:36-66 | no recorder or stream, level 0, no monitoring or tracking, quiet, no listeners |
| RecordingService.Service.AddEventListener | src/services/recordingService.js:71-76 | the named set becomes Added; callbacks stay free of repeats |
| RecordingService.Service.RemoveEventListener | src/services/recordingService.js:81-85 | the callback leaves the named set only; an unknown event is left alone |
| RecordingService.Service.Emit | src/services/recordingService.js:90-100 | the event is recorded and every registered callback is called once |
| RecordingService.Service.IsActive | src/services/recordingService.js:791-793 | active exactly while recording or paused |
| RecordingService.Service.GetState | src/services/recordingService.js:105-114 | active exactly when recording or paused, never both, with the level, warning and stream as they stand |
| RecordingService.Service.StartLevelMonitoring | src/services/recordingService.js:154-207 | with an analyser the monitor runs from a quiet state; without one nothing changes |
| RecordingService.Service.StopLevelMonitoring | src/services/recordingService.js:212-228 | monitor off, level 0, quiet, and a zero level and a cleared warning announced |
| RecordingService.Service.EmergencyPause | src/services/recordingService.js:233-241 | only a live recorder is paused, after flushing its data; the store pauses, tracking stops and the paused state is announced |
| RecordingService.Service.StartDurationTracking | src/services/recordingService.js:254-258 | tracking from 0 with the given limit and no warning shown |
| RecordingService.Service.StopDurationTracking | src/services/recordingService.js:295-303 | tracking off and the limit and warning cleared |
| RecordingService.Service.PauseRecording | src/services/recordingService.js:562-569 | only a live recorder is paused; store paused, tracking stopped, the paused state announced |
| RecordingService.Service.ResumeRecording | src/services/recordingService.js:577-627 | only a paused recorder resumes; the limit is replaced only when given, the warning re-armed, tracking restarts from the store's duration, and the resumed state announced |
| RecordingService.Service.BeginAutoSplit | src/services/recordingService.js:316-323 | starts exactly when no split is running, flushing a live recorder's data |
| RecordingService.Service.FinishAutoSplit | src/services/recordingService.js:334-336 | the split is over whatever happened |
| RecordingService.Service.WarnOfSilence | src/services/recordingService.js:183-187 | the no-audio warning fires exactly once at 10 s of silence |
| RecordingService.Service.PauseForSilence | src/services/recordingService.js:189-193 | from 30 s the pause message is set and announced and a live recorder is paused |
| RecordingService.Service.CountSilentTick | src/services/recordingService.js:179-194 | the silence state after a silent step, with its events, and the pause when due |
| RecordingService.Service.ClearSilence | src/services/recordingService.js:195-201 | a sound tick takes the silence step, clearing a pending warning |
| RecordingService.Service.CountSilence | src/services/recordingService.js:179-201 | one tick of silence detection is SilenceStep, pausing a live recorder when due |
| RecordingService.Service.LevelTick | src/services/recordingService.js:171-203 | ticks count only while monitoring a recording store; then the level is announced and silence is detected |
| RecordingService.Service.CheckLimit | src/services/recordingService.js:261-285 | the limit check and split trigger are DurationStep |
| RecordingService.Service.DurationTick | src/services/recordingService.js:260-290 | ticks count only while tracking a recording; then the store's duration is the base plus the elapsed seconds, announced, and checked against the limit |
| RecordingService.PausedServiceIsQuiet | src/services/recordingService.js:171-172 | while paused neither the level nor the duration timer changes anything |
| RecordingService.NoSecondSplit | src/services/recordingService.js:316-318 | during a split another split starts nothing and flushes nothing |
| NativeChunk.ChunkPathMatchesStorage | src-capacitor/ios/App/App/Plugins/BackgroundRecordingPlugin.swift:145-160 | a natively written chunk lies where saveChunk puts the same chunk with the .m4a extension |
| NativeChunk.ChunkPathLayout | src-capacitor/ios/App/App/Plugins/BackgroundRecordingPlugin.swift:190 | `chunk_%06d.m4a`: six digits below a million, reading back as the index; two indices never share a file |
| IosPlugin.StopIfCapturing | src-capacitor/ios/App/App/Plugins/BackgroundRecordingPlugin.swift:184-187 | stopping a capturing recorder leaves it inactive on the same file; no recorder stays none |
| IosPlugin.PauseRecorder | src-capacitor/ios/App/App/Plugins/BackgroundRecordingPlugin.swift:79 | `pause()` leaves the recorder on its file and not capturing, and does nothing to a stopped one |
| IosPlugin.Dead | src-capacitor/ios/App/App/Plugins/BackgroundRecordingPlugin.swift:248-268 | a death stops both timers and recording, keeps recorder and session, and sends one recordingDead notice with the reason and the chunk count |
| IosPlugin.Plugin.constructor | src-capacitor/ios/App/App/Plugins/BackgroundRecordingPlugin.swift:18-24 | no recorder, timers or session, not recording, nothing sent |
| IosPlugin.Plugin.StartRecording | src-capacitor/ios/App/App/Plugins/BackgroundRecordingPlugin.swift:46-60 | a missing id and a running recording are refused with their messages; otherwise the start is queued |
| IosPlugin.Plugin.StopRecording | src-capacitor/ios/App/App/Plugins/BackgroundRecordingPlugin.swift:62-71 | refused exactly when not recording, queued otherwise, including after a death |
| IosPlugin.Plugin.StartNewChunk | src-capacitor/ios/App/App/Plugins/BackgroundRecordingPlugin.swift:179-221 | without a session it fails and changes nothing; a recorder failure leaves the index; otherwise the recorder writes the chunk of the current index, the index goes up by one and chunkStarted is sent |
| IosPlugin.Plugin.SetupAndStartRecording | src-capacitor/ios/App/App/Plugins/BackgroundRecordingPlugin.swift:117-177 | a session failure changes nothing; a recorder failure leaves the new session at index 0, not recording; otherwise chunk 0 is capturing, both timers run, the index is 1 and the start resolves with the id |
| IosPlugin.Plugin.PauseRecording | src-capacitor/ios/App/App/Plugins/BackgroundRecordingPlugin.swift:73-84 | refused unless recording with a recorder; then the recorder pauses and both timers stop |
| IosPlugin.Plugin.ResumeRecording | src-capacitor/ios/App/App/Plugins/BackgroundRecordingPlugin.swift:86-98 | needs a recorder only; it captures again, the timers restart and isRecording is untouched |
| IosPlugin.Plugin.GetStatus | src-capacitor/ios/App/App/Plugins/BackgroundRecordingPlugin.swift:100-113 | the flags as they stand, with the session's index and id or 0 and "" without one |
| IosPlugin.Plugin.HandleRecordingDeath | src-capacitor/ios/App/App/Plugins/BackgroundRecordingPlugin.swift:248-268 | acts only while recording, and then is Dead |
| IosPlugin.Plugin.PerformHealthCheck | src-capacitor/ios/App/App/Plugins/BackgroundRecordingPlugin.swift:237-246 | a recording whose recorder is not capturing is declared dead with native_recorder_stopped; otherwise nothing happens |
| IosPlugin.Plugin.RotateChunk | src-capacitor/ios/App/App/Plugins/BackgroundRecordingPlugin.swift:270-279 | nothing when not recording; a failure stops the recorder and is reported; otherwise the next chunk starts as in StartNewChunk |
| IosPlugin.Plugin.StopCurrentRecording | src-capacitor/ios/App/App/Plugins/BackgroundRecordingPlugin.swift:281-312 | recorder, timers, session and recording cleared; resolves with the id, the index as chunk count and the directory, or is refused without a session |
| IosPlugin.Plugin.HandleInterruption | src-capacitor/ios/App/App/Plugins/BackgroundRecordingPlugin.swift:314-345 | a call pauses the recorder and the timers and is reported; its end with resume restarts them; anything else changes nothing; recording and session are untouched |
| IosPlugin.Plugin.HandleRouteChange | src-capacitor/ios/App/App/Plugins/BackgroundRecordingPlugin.swift:347-367 | a lost device or a category change schedules one check for half a second later and changes nothing else; other changes do nothing |
| IosPlugin.Plugin.RouteCheck | src-capacitor/ios/App/App/Plugins/BackgroundRecordingPlugin.swift:357-363 | when the check runs, a recording whose recorder is not capturing is a death with route_change (a paused recording included) |
| IosPlugin.Plugin.RouteCheckIntended | src-capacitor/ios/App/App/Plugins/BackgroundRecordingPlugin.swift:357-363 | the corrected check: only a recording whose recorder is gone or stopped dies; a paused one is left alone |
| IosPlugin.Plugin.RecorderDidFinish | src-capacitor/ios/App/App/Plugins/BackgroundRecordingPlugin.swift:373-378 | an unsuccessful finish while recording is a death with recorder_finished_unsuccessfully, anything else nothing |
| IosPlugin.Plugin.EncodeErrorDidOccur | src-capacitor/ios/App/App/Plugins/BackgroundRecordingPlugin.swift:380-387 | an error is reported and, while recording, is a death with encoding_error |
| IosPlugin.Plugin.SystemStopsRecorder | src-capacitor/ios/App/App/Plugins/BackgroundRecordingPlugin.swift:237-240 | the recorder stopping on its own, which the health check watches for, changes nothing else |
| IosPlugin.DeathIsFinal | src-capacitor/ios/App/App/Plugins/BackgroundRecordingPlugin.swift:248-268 | after a death the plugin is not recording and exactly one death notice was added |
| IosPlugin.DeathIsIdempotent | src-capacitor/ios/App/App/Plugins/BackgroundRecordingPlugin.swift:248-251 | two deaths in a row act as the first alone |
| IosPlugin.StopAfterDeathIsRefused | src-capacitor/ios/App/App/Plugins/BackgroundRecordingPlugin.swift:62-66 | stopping after a death is refused with "Not currently recording" |
| IosPlugin.PausedRecordingDiesOnRouteChange | src-capacitor/ios/App/App/Plugins/BackgroundRecordingPlugin.swift:355-363 | pausing and then losing the headset declares the recording dead and the stop is refused |
| IosPlugin.PausedRecordingSurvivesRouteChange | src-capacitor/ios/App/App/Plugins/BackgroundRecordingPlugin.swift:355-363 | with the intended check the paused recording survives, nothing is sent and the stop is queued |
| IosPlugin.ResumeBeforeRouteCheckSurvives | src-capacitor/ios/App/App/Plugins/BackgroundRecordingPlugin.swift:355-363 | as written, a paused recording resumed before the scheduled check runs survives, and nothing is sent |
| IosPlugin.CurrentChunkIsLastStarted | src-capacitor/ios/App/App/Plugins/BackgroundRecordingPlugin.swift:190-214 | the file being written is the chunk numbered one below the index, as saveChunk would name it |
| AndroidService.MessageText | src-capacitor/android/app/src/main/java/ch/suissenotes/app/ForegroundRecordingService.kt:233 | Kotlin's string template: the exception's message, or "null" when it has none |
| AndroidService.ReleaseRecorder | src-capacitor/android/app/src/main/java/ch/suissenotes/app/ForegroundRecordingService.kt:183-190 | `stop()` then `release()` leaves the recorder released on its file |
| AndroidService.PauseRecorder | src-capacitor/android/app/src/main/java/ch/suissenotes/app/ForegroundRecordingService.kt:300 | `pause()` leaves it on its file and not capturing |
| AndroidService.ResumeRecorder | src-capacitor/android/app/src/main/java/ch/suissenotes/app/ForegroundRecordingService.kt:319 | `resume()` keeps its file and never revives a released one |
| AndroidService.IfSet | src-capacitor/android/app/src/main/java/ch/suissenotes/app/ForegroundRecordingService.kt:225 | a nullable callback is called exactly when registered |
| AndroidService.Service.constructor | src-capacitor/android/app/src/main/java/ch/suissenotes/app/ForegroundRecordingService.kt:50-75 | idle: no record, index 0, no recorder, timer, directory or callbacks, nothing sent |
| AndroidService.Service.SetCallbacks | src-capacitor/android/app/src/main/java/ch/suissenotes/app/ForegroundRecordingService.kt:365-371 | only the callbacks change |
| AndroidService.Service.StartNewChunk | src-capacitor/android/app/src/main/java/ch/suissenotes/app/ForegroundRecordingService.kt:181-235 | the chunk file is named for the current index; on success the recorder captures it, onChunkSaved gets the index and path and the index goes up by one; on failure the index stays and onError gets the message |
| AndroidService.Service.StartRecording | src-capacitor/android/app/src/main/java/ch/suissenotes/app/ForegroundRecordingService.kt:144-179 | a second start is ignored; otherwise the id and directory are set and the index reset, and either the service stops itself after a foreground failure or it ends recording with the timer and in-progress notification, chunk 0 written or its failure reported |
| AndroidService.Service.GoForeground | src-capacitor/android/app/src/main/java/ch/suissenotes/app/ForegroundRecordingService.kt:160-173 | the foreground part: recording, timer running, the first chunk started as in StartNewChunk |
| AndroidService.Service.RotateChunk | src-capacitor/android/app/src/main/java/ch/suissenotes/app/ForegroundRecordingService.kt:250-253 | nothing when not recording; otherwise StartNewChunk |
| AndroidService.Service.HandleRecordingDeath | src-capacitor/android/app/src/main/java/ch/suissenotes/app/ForegroundRecordingService.kt:255-282 | only while recording: recording ends, recorder, timer and notification go, the service stops itself and the death is broadcast with the reason and the chunk count |
| AndroidService.Service.PauseRecording | src-capacitor/android/app/src/main/java/ch/suissenotes/app/ForegroundRecordingService.kt:294-311 | only while recording and if pause succeeds: recorder paused, timer stopped, paused notification |
| AndroidService.Service.ResumeRecording | src-capacitor/android/app/src/main/java/ch/suissenotes/app/ForegroundRecordingService.kt:313-331 | only while recording and if resume succeeds: recorder captures, timer restarts, in-progress notification |
| AndroidService.Service.StopRecording | src-capacitor/android/app/src/main/java/ch/suissenotes/app/ForegroundRecordingService.kt:333-360 | only while recording: recording ends and recorder, timer and notification go, the service stopping itself |
| AndroidService.Service.OnStartCommand | src-capacitor/android/app/src/main/java/ch/suissenotes/app/ForegroundRecordingService.kt:85-99 | always START_STICKY; a start without an id, no action or an unknown action changes nothing; STOP ends a recording and clears the recorder, timer and notification; START while recording changes nothing, while idle records under the given id; PAUSE and RESUME on a live recorder pause or resume it, stop or restart the chunk timer and show the matching notification, and otherwise change nothing |
| AndroidService.Service.OnDestroy | src-capacitor/android/app/src/main/java/ch/suissenotes/app/ForegroundRecordingService.kt:101-108 | a recording service broadcasts service_destroyed with the chunk count and stops; an idle one changes nothing |
| AndroidService.IdleServiceIgnoresCommands | src-capacitor/android/app/src/main/java/ch/suissenotes/app/ForegroundRecordingService.kt:250-334 | rotate, pause, resume, stop and death change nothing when not recording |
| AndroidService.DeathIsIdempotent | src-capacitor/android/app/src/main/java/ch/suissenotes/app/ForegroundRecordingService.kt:255-258 | two deaths broadcast once, with the first reason |
| AndroidService.SecondStartIsIgnored | src-capacitor/android/app/src/main/java/ch/suissenotes/app/ForegroundRecordingService.kt:144-147 | a second start keeps the first recording's id |
| AndroidService.LiveRecorderWritesChunkBelowCount | src-capacitor/android/app/src/main/java/ch/suissenotes/app/ForegroundRecordingService.kt:194-226 | the live recorder's file is the chunk one below the index, where saveChunk would put it |

## Left out

- Network, IPC, file system, FFmpeg and the Capacitor/Electron bridges: their replies are parameters. Nothing is read from or written to a real disk or server.
- Clocks and timers: `Date.now`, `setInterval`/`setTimeout`, `lastChunkTimestamp`, `startTime` and the health-check timers become explicit time parameters and tick methods. The sleep and backoff waits are modelled as the delays they would wait, not as waiting.
- SHA-256: a parameter `digest`. When the digest is given a `Uint8Array` view, `calculateSHA256` hashes the view's whole underlying buffer; the model hashes exactly the bytes given. (`dataToBase64` has the same whole-buffer behaviour, and Storage.DataToBase64 models it.)
- The URL parser behind `shell:openExternal` is outside the model. The model works on the protocol and host that it returns.
- Floating point:
  - the audio-level averaging (src/services/recordingService.js:172-173) is not modelled: the level is a `real` parameter of the level tick, and the silence detection on it is modelled with exact arithmetic;
  - `formatBytes` (src-electron/disk-utils.js:73-79) and the `toFixed` in `formatFileSize` are not modelled;
  - minute balances are exact `real` values.
- Recording-service orchestration is not modelled, because it is a sequence of awaited device, store and I/O calls. This covers `startRecording`, `stopRecording`, `cleanup`, `verifyRecordingState`, the auth keep-alive, `flushRecordingData` and `mixStreams`.
- `performAutoSplit`: the guard and state reset are modelled. Its calls to `store.createSessionFile` and `store.resetChunkIndex` are not, because the store defines neither function and the resulting TypeError is caught and logged.
- RecordingService listeners: a listener that adds or removes listeners while an event is being emitted is not modelled. The emit loop is over a snapshot.
- The analyser set-up's partial failure is not modelled: an AudioContext that is created but not connected.
- storage.js:
  - `readFile`, `deleteFile`, `deleteDirectory`, `listFiles`, `exists`, `getRecordingsPath`, `saveMetadata`, `loadMetadata` and `getFileUri` are pure I/O wrappers;
  - `saveChunk` is modelled for its path and base64 payload only. Its platform dispatch and writes are not.
- upload.js: `safeDeleteAfterUpload`, `getUploadQueueStatus`, `cancelUpload`, `setTokenRefreshCallback` and the `uploadFileMobile`/TUS plumbing are not modelled, because they are I/O or a bookkeeping getter.
- transcription settings: `saveGlobalSettings` is I/O.
- Electron history:
  - what removing a recording directory does to the disk is I/O; each path's outcome (removed, no directory, failed) is a parameter;
  - the `history:getDefaultStoragePreference` and `history:setDefaultStoragePreference` handlers store a single value and are not modelled;
  - `createdAt` is compared as an integer timestamp, not a parsed `Date`.
- recordings-history store: `allRecordings` and `formatDate`, which depend on the clock and the locale.
- The recording store's `isRecording`, `isPaused` and similar getters only read a field.
- The main process's re-declared validators (src-electron/electron-main.js:593-659) are the same checks as src/utils/validation.js and are modelled once.
- JavaScript's `|| 0` fallbacks and NaN are modelled only where the core branches on them. Sort order with a NaN key is implementation-defined in JavaScript; the model puts unnumbered chunk names last.
- Android `chunkIndex` is a Kotlin `Int`; its overflow after 2^31 chunks is not modelled.
- `String.format("%06d")` uses the default locale; ASCII digits are assumed.
- The Android pause/resume skip on SDK levels below 24 is not modelled.
- iOS:
  - audio-session activation and notification observers are not modelled;
  - `startChunkTimer` and `startHealthCheckTimer` are flags that say a timer is running;
  - the asynchronous main-queue dispatch is split into `StartRecording` (which answers that the start was queued) and `SetupAndStartRecording` (which runs later). So two quick starts can both be queued, as in the source.
- Absolute directories are not modelled: iOS `Documents` and Android `getExternalFilesDir`. Native paths are relative to them.
- Notification and channel plumbing, and the `BackgroundRecordingPlugin.kt`/`.java` bridge glue, are not modelled.
- ValidateRecordingMetadata: `Number` of an array (`Number([5])` is 5) is not modelled, because the modelled JavaScript values have no arrays; an array duration is treated as an object and dropped.
- Integrity.CalculateCrc32: takes bytes only. For a value that is not an ArrayBuffer, a Uint8Array or an array, `calculateCRC32` throws `Invalid data type for CRC32 calculation` (src/services/integrity.js:28-37); that error is not modelled, because every modelled caller passes bytes.
- Upload.UploadPhase: `getFreshToken` is the parameter `refresh`, which answers a token, no token, or a thrown message (`RefreshThrew`). The auth store defines no `handleAuthError` (src/services/upload.js:214), so a call there throws a TypeError; that is the `RefreshThrew` case. Without `getAuthStore` the refresh is `NoRefresh`.
- RecordingsHistory.Store.LoadRecordings: the load is split at its two awaits into `LoadRecordings`, `ListAnswered` and `PreferenceAnswered`. Each step runs without interruption, as JavaScript's single thread does; which awaiting load is answered next, and what else runs in between, is the caller's choice.
- Upload.Queue: each resumption after an await is one method call and runs without interruption up to the next await, as JavaScript's single thread does. Which of `UploadSettled`, `BackoffElapsed`, `QueueUpload` and `ClearCompletedUploads` comes next is left to the caller.
- StorageMonitor.Monitor.Start: the awaited first `checkStorage` splits `startMonitoring` into `Start` and `FirstCheckDone`, and each interval firing is one `Tick`. Each step runs without interruption. Where a `Stop` or a second `Start` falls between them is the caller's choice.
- RecordingStore.Store.SaveChunk: the awaited write splits `saveChunk` into `SaveChunk` (the request made from the current index) and `ChunkSaved` (the outcome once the write settles). Each step runs without interruption. How many saves are in flight is the caller's choice; the model does not track them.
- ElectronHistory.HistoryStore.DeleteAll: the `fs.rm` awaits inside `history:deleteAll`'s loop, and the one in `history:delete`, are collapsed into a single suspension. Nothing between those awaits touches the stored list. `Resumed` is the step after the suspension, and which suspended handler resumes next is the caller's choice.
- IosPlugin.Plugin.HandleRouteChange: the half-second `asyncAfter` delay is modelled as a scheduled `RouteCheck`. Its start time is not modelled; only how many checks are pending is.
- Text:
  - lower-casing is ASCII-only;
  - string lengths count Unicode scalar values, while JavaScript counts UTF-16 code units, so limits on non-BMP text differ.
- AndroidService.Service.StartRecording: the model follows the source in setting `isRecording` even when the first chunk cannot be started, because `startNewChunk` catches every exception. The model does not make this a failed start.

## Findings

| source | as written | input that shows it | evidently intended | confidence | as-written member | corrected member |
|---|---|---|---|---|---|---|
| src-electron/electron-main.js:1319-1338 | `validateChunkSequence` compares each sorted index with its position, so after a gap it reports the indices that are present and shifted, and it accepts a repeated index | indices [0,2,3] are reported as missing [1,2]; indices [0,0] are judged complete | report exactly the indices below the largest one that are absent, and reject repeats | not executed | ChunkSequence.ValidateChunkSequence, ChunkSequence.ListsPresentIndex, ChunkSequence.AcceptsRepeatedIndex | ChunkSequence.IntendedCheck |
| src/router/index.js:67-69 | the guard tests `authStore.sessionChecked`, which the auth store never sets, so `checkSession` runs on every navigation | a signed-in user navigates again and this time `getToken` fails: the user is signed out and sent to login | check the session once and keep it for later navigations | not executed | Router.BeforeEachAsWritten, Router.RecheckSignsOutOnLaterNavigation | Router.Guard.BeforeEach, Router.LaterNavigationKeepsSession |
| src-capacitor/ios/App/App/Plugins/BackgroundRecordingPlugin.swift:355-363 | on `oldDeviceUnavailable` or `categoryChange`, a recorder that is not recording is reported dead with reason `route_change`, even when it was only paused or interrupted by a call; stop is then rejected | `pauseRecording`, then a route change with reason `oldDeviceUnavailable` | report a dead recorder only when the session was not paused or interrupted, so a paused recording can still be resumed or stopped | not executed | IosPlugin.Plugin.RouteCheck, IosPlugin.PausedRecordingDiesOnRouteChange | IosPlugin.Plugin.RouteCheckIntended, IosPlugin.PausedRecordingSurvivesRouteChange |
| src-electron/electron-main.js:2656-2680 | `history:deleteAll` reads the list, awaits the removal of each directory, then stores the list it read minus the user's entries, so whatever another handler stored during the awaits is overwritten | while deleteAll awaits a removal, `history:add` stores another user's recording; it is gone afterwards | drop the user's entries from the list as stored after the awaits | not executed | ElectronHistory.HistoryStore.Resumed, ElectronHistory.DeleteAllLosesConcurrentAdd | ElectronHistory.HistoryStore.ResumedIntended, ElectronHistory.DeleteAllKeepsConcurrentAdd |
| src-electron/electron-main.js:2616-2641 | `history:delete` with `deleteFile` stores the list it read before awaiting the directory removal, minus the entry | while it awaits the removal, `history:add` stores a recording; it is gone afterwards | drop the entry from the list as stored after the await | not executed | ElectronHistory.HistoryStore.Resumed, ElectronHistory.DeleteLosesConcurrentAdd | ElectronHistory.HistoryStore.ResumedIntended, ElectronHistory.DeleteKeepsConcurrentAdd |
