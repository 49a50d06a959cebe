# Meeting transcriber control loop, modelled in Dafny

This project models the core of a meeting-notes tool: the loop that records
a fixed-length audio segment, transcribes it with whisper, adds the text to
a stored meeting transcript, and has a completion service turn that
transcript into formatted text, speaker-labelled text and meeting notes.
Two variants of the loop are modelled:

- `server/transcriber.js` is event driven. A control record's `start` /
  `stop` commands drive it, its state lives in module-level variables, and
  its results go to a `meetings/current` record in a document store.
- `backend/transcriber.js` is the earlier single pass. It records once,
  transcribes once, appends to `transcript.txt` and rewrites
  `sessions/notes.md`.

Both are modelled as the code behaves, including where it departs from
what a continuous, remotely controlled loop would be expected to do:

- a failed capture does not restart the loop;
- a stop during transcription is followed by a new recording;
- `start` commands are not debounced;
- `whisperProcess` is never cleared on close;
- the capture close handler nulls the global handle even when a newer
  process owns it;
- the backend derives whisper's output path by replacing the first
  occurrence of the audio file's extension, which lies in a directory
  name when one holds the same extension;
- there is no `clear` command. The Electron main process calls a
  `setupClearListener` (main/index.js:29) that `server/transcriber.js`
  does not export (server/transcriber.js:250). The client's clear button
  resets only its own view (client/src/App.jsx:37-39); its `deleteDoc`
  calls pass the database handle instead of a document reference
  (client/src/App.jsx:40-41), so they delete nothing.

Layout:

- `common.dfy`: `Option`.
- `text.dfy`: the JavaScript built-ins the code relies on.
  These are `trim`, `endsWith`, `find`, `indexOf`, `replace` with a string
  pattern, and POSIX `path.extname`.
- `transcript.dfy`: merging a chunk into the stored transcript, and what a
  series of merges produces.
- `enhancement.dfy`: the three completion stages. Each request is a
  `Prompt` value tagged with its stage and carrying the text it embeds.
- `server_loop.dfy`: the server's whole state as a value, one transition
  function per handler, and the lemmas about them. This includes lemmas
  over any sequence of handler runs.
- `server_transcriber.dfy`: class `Transcriber`. Its fields are the module
  state of `server/transcriber.js`, and its handler methods update them in
  place. Each method is proved to perform the transition of the same name.
- `backend_cycle.dfy` and `backend_transcriber.dfy`: the same split for
  `backend/transcriber.js`, over a file system given as a map from path to
  contents plus a set of directories.

Inputs from outside the process are parameters:

- exit codes. `None` stands for a process ended by a signal, for which
  Node reports a null code;
- whether a deletion in `cleanup` throws;
- the output directory's listing and a file-read function;
- whisper's captured stdout;
- the timestamp string;
- the completion service, a function from prompt to optional response.

## Model

| member | source | states |
|---|---|---|
| `Text.TrimStart` | server/transcriber.js:135 | the result is a suffix of the input; everything removed is whitespace; the result starts with a non-whitespace character or is empty |
| `Text.TrimEnd` | backend/transcriber.js:101 | the result is a prefix of the input; everything removed is whitespace; the result ends with a non-whitespace character or is empty |
| `Text.BlankIffAllWhitespace` | server/transcriber.js:135 | `s.trim()` is empty exactly when every character of `s` is JavaScript whitespace |
| `Text.FirstEndingWith` | server/transcriber.js:128 | nothing is found exactly when no name has the suffix; otherwise the result is the first name that has it |
| `Text.IndexOf` | backend/transcriber.js:75-78 | the result is an occurrence of the pattern with none before it, or nothing when the pattern occurs nowhere |
| `Text.ReplaceFirst` | backend/transcriber.js:75-78 | only the first occurrence is replaced; the text before and after it is kept; with no occurrence the input comes back unchanged |
| `Text.ExtName` | backend/transcriber.js:76 | the extension is non-empty exactly when the last path component has a `.` after its first character and is not `..`; a non-empty extension starts with `.`, ends the path, and has no further `.` or `/` |
| `Transcript.Merge` | server/transcriber.js:143-146 | an empty existing transcript gives the chunk verbatim; otherwise the existing transcript is a prefix of the result, and the marker and then the chunk can be read back after it |
| `Transcript.AccumulateOntoNonEmpty` | server/transcriber.js:143-146 | merging chunks one after another onto a non-empty transcript appends each chunk behind its own marker, in order |
| `Transcript.AccumulateFromEmpty` | server/transcriber.js:143-146 | starting from an empty transcript, the result is c1 + marker(t2) + c2 + ... + marker(tn) + cn when c1 is not empty |
| `Transcript.AccumulateExtends` | server/transcriber.js:143-146 | text already in the transcript is never altered by later merges |
| `Enhancement.Requests` | server/transcriber.js:173-213 | the first request embeds the raw transcript; each later request embeds the previous answer; the stages go format, then speaker labels, then summary; a failed request is the last one sent |
| `Enhancement.Run` | server/transcriber.js:169-229 | artifacts are produced exactly when all three requests answer, and they are those three answers |
| `Enhancement.StagesAreChained` | server/transcriber.js:178-208 | on success, the speaker prompt embeds the formatted text and the summary prompt embeds the speaker-labelled text |
| `ServerLoop.Cleanup` | server/transcriber.js:18-36 | a resource remains only if it existed and its deletion threw; nothing else changes |
| `ServerLoop.CleanupIdempotent` | server/transcriber.js:18-36 | cleaning up twice with the same deletion outcomes equals cleaning up once |
| `ServerLoop.CleanupRemovesBoth` | server/transcriber.js:18-36 | without I/O errors, neither the audio file nor the output directory is left, and a further cleanup changes nothing |
| `ServerLoop.StartRecording` | server/transcriber.js:38-75 | cleans up, then stores a freshly spawned capture handle, overwriting the old one; the whisper handle, the store and the status are unchanged |
| `ServerLoop.StopRecording` | server/transcriber.js:77-87 | both handles become null, nothing is spawned, and the resources are cleaned up |
| `ServerLoop.StopLeavesNothing` | server/transcriber.js:77-87 | without I/O errors, no handle and no temporary resource remains after a stop |
| `ServerLoop.TranscribeAudio` | server/transcriber.js:89-109 | the output directory exists and a fresh whisper handle is stored; nothing else changes |
| `ServerLoop.OnRecordingClose` | server/transcriber.js:60-67 | exit code 0 launches transcription; any other code launches nothing; either way the recording handle becomes null |
| `ServerLoop.FailedCaptureDoesNotRestart` | server/transcriber.js:60-67 | a non-zero or null exit code starts neither a transcription nor a new capture |
| `ServerLoop.StaleCloseForgetsNewerRecording` | server/transcriber.js:60-67 | the close of a capture process older than the stored one nulls the newer one's handle, and acts exactly as the close of the stored process would |
| `ServerLoop.ChunkOf` | server/transcriber.js:111-133 | the chunk is the contents of the first listed `.txt` file when one is listed; otherwise it is the captured stdout |
| `ServerLoop.Enhance` | server/transcriber.js:169-230 | one write of the three artifacts, with the notes prefixed by `# Meeting Notes\n\n`, only when all stages answer; any failure writes nothing; the raw transcript is never touched |
| `ServerLoop.NothingWrittenWithoutChunk` | server/transcriber.js:127-135 | a missing output directory, a failed read or a blank chunk leaves the store unchanged and calls no stage |
| `ServerLoop.ProcessOutput` | server/transcriber.js:125-158 | processing whisper's output changes only the stored meeting record: no handle, resource or status; what it writes is stated by `ServerLoop.NothingWrittenWithoutChunk` and `ServerLoop.ChunkIsMergedThenEnhanced` |
| `ServerLoop.ChunkIsMergedThenEnhanced` | server/transcriber.js:135-157 | a non-blank chunk is merged and written even if enhancement then fails; when enhancement succeeds, the formatted text answers the prompt on the merged transcript, the speaker-labelled text answers the prompt on the formatted text, and the notes are the heading followed by the answer to the prompt on the speaker-labelled text |
| `ServerLoop.OnWhisperClose` | server/transcriber.js:124-166 | the store ends as output processing left it; a new recording starts if and only if the recording handle is null, whatever processing did, and its cleanup then removes the temporary resources; with a non-null handle, the state is exactly what processing left; the whisper handle is never cleared |
| `ServerLoop.StopDuringTranscriptionRestarts` | server/transcriber.js:159-165 | after a stop, the close of the killed whisper process starts a new recording |
| `ServerLoop.OnCommand` | server/transcriber.js:232-247 | `start` spawns a capture and writes status `recording`; `stop` nulls both handles and writes `idle`; any other command, or an absent document, changes nothing |
| `ServerLoop.RepeatedStartSpawnsAgain` | server/transcriber.js:236-241 | two `start` snapshots spawn two capture processes, and the second handle replaces the first |
| `ServerLoop.StepKeepsValid` | server/transcriber.js:14-15 | every handler keeps both handles pointing at processes already spawned |
| `ServerLoop.ReplayKeepsValid` | server/transcriber.js:14-15 | over any sequence of handler runs, handles only name spawned processes |
| `ServerLoop.StepOnlyAppends` | server/transcriber.js:136-155 | every handler keeps the stored transcript as a prefix of its new value |
| `ServerLoop.ReplayOnlyAppends` | server/transcriber.js:136-155 | over any sequence of handler runs, stored transcript text is never altered, reordered or dropped |
| `ServerTranscriber.Transcriber.constructor` | server/transcriber.js:14-15 | both handles start null; the resources and the store are as a previous run left them |
| `ServerTranscriber.Transcriber.Cleanup` | server/transcriber.js:18-36 | the object's new state is `ServerLoop.Cleanup` of its old state |
| `ServerTranscriber.Transcriber.StartRecording` | server/transcriber.js:38-75 | the object's new state is `ServerLoop.StartRecording` of its old state |
| `ServerTranscriber.Transcriber.StopRecording` | server/transcriber.js:77-87 | the object's new state is `ServerLoop.StopRecording` of its old state |
| `ServerTranscriber.Transcriber.TranscribeAudio` | server/transcriber.js:89-109 | the object's new state is `ServerLoop.TranscribeAudio` of its old state |
| `ServerTranscriber.Transcriber.OnRecordingClose` | server/transcriber.js:60-67 | the object's new state is `ServerLoop.OnRecordingClose` of its old state |
| `ServerTranscriber.Transcriber.EnhanceTranscript` | server/transcriber.js:169-230 | the object's new state is `ServerLoop.Enhance` of its old state |
| `ServerTranscriber.Transcriber.OnWhisperClose` | server/transcriber.js:124-166 | the object's new state is `ServerLoop.OnWhisperClose` of its old state |
| `ServerTranscriber.Transcriber.OnCommand` | server/transcriber.js:236-247 | the object's new state is `ServerLoop.OnCommand` of its old state |
| `BackendCycle.Init` | backend/transcriber.js:11-24 | the history directory exists; an existing transcript file keeps its contents and a missing one is created empty; the temporary audio file is gone; no other file changes |
| `BackendCycle.InitIdempotent` | backend/transcriber.js:11-24 | running the initialisation again changes nothing |
| `BackendCycle.ExtNameOfPlainFile` | backend/transcriber.js:76 | the extension of `dir + stem + ext` is `ext` for a plain file name |
| `BackendCycle.OutputPath` | backend/transcriber.js:75-78 | a path without extension gets `.txt` put in front (a string `replace` of the empty pattern); otherwise the extension occurs in the path, and the result is the path with the FIRST occurrence of the extension replaced by `.txt`, the text before and after it kept |
| `BackendCycle.OutputPathReplacesEarlierCopy` | backend/transcriber.js:75-78 | the first occurrence need not be the extension: for `a.wav/x.wav` the output path is `a.txt/x.wav`, the directory renamed and the file name kept |
| `BackendCycle.ExtensionFirstOccursAtEnd` | backend/transcriber.js:75-78 | when the directory does not contain the extension, its first occurrence in the path is at the end |
| `BackendCycle.OutputPathSwapsExtension` | backend/transcriber.js:75-78 | the expected output path is the audio path with its extension replaced by `.txt`, provided the directory does not contain the extension |
| `BackendCycle.AppendTranscription` | backend/transcriber.js:83 | the transcript file becomes its old contents (or "" if missing), then the text, then a newline; prior content and all other files are unchanged |
| `BackendCycle.GenerateNotes` | backend/transcriber.js:92-152 | a missing or blank transcript, a failed request or a missing history directory changes nothing; otherwise only the notes file changes, overwritten wholesale with the response |
| `BackendCycle.OnWhisperClose` | backend/transcriber.js:72-89 | a missing output file changes nothing; otherwise the transcript grows by the output text and a newline, and the notes are regenerated from the grown transcript |
| `BackendTranscriber.Session.constructor` | backend/transcriber.js:11-24 | the file system is `BackendCycle.Init` of the initial one; exactly one recording has been started and no transcription |
| `BackendTranscriber.Session.StartTranscription` | backend/transcriber.js:26-43 | one more capture process is spawned; only the constructor calls it |
| `BackendTranscriber.Session.OnRecordClose` | backend/transcriber.js:45-48 | a transcription is launched on the temporary audio file whatever the exit code |
| `BackendTranscriber.Session.TranscribeAudio` | backend/transcriber.js:55-56 | one more whisper process is spawned on the given file |
| `BackendTranscriber.Session.OnWhisperClose` | backend/transcriber.js:72-89 | after whisper's outputs are on disk, the file system becomes `BackendCycle.OnWhisperClose` of it |
| `BackendTranscriber.Session.GenerateNotes` | backend/transcriber.js:92-152 | the file system becomes `BackendCycle.GenerateNotes` of the old one |

## Left out

- Subprocess arguments (devices, codecs, model names, flags) and stderr logging, including the whisper log filter. Only exit codes, captured stdout and produced files are modelled.
- Killing a process is modelled only as clearing its handle. The killed process's later close arrives as an ordinary close event, with a non-zero or null (`None`) code.
- A process that fails to spawn is not modelled. No `error` listener is attached to either process, so Node throws the `error` event as an uncaught exception on a later tick, outside the `try` of `startRecording`; the close handlers never see it as an ordinary exit.
- Whisper's stdout is passed as one string. The per-chunk `+=` accumulation is not modelled.
- The capture file's appearance is the `audioWritten` flag of the capture close event. The server model does not track when ffmpeg creates the file during recording.
- Document-store plumbing: snapshot delivery (including the snapshot caused by the listener's own status write), failures of reads and writes, and the await gaps inside a handler. Each handler is one atomic step, and no interleaving is modelled.
- The `updatedAt` timestamps written alongside the transcript and the artifacts. These come from the clock.
- `toLocaleTimeString`: the marker's time text is an opaque parameter.
- The HTTP transport and the exact prompt wording. A prompt is its stage plus the text it embeds.
- Enhancement.Completion: the service is a function of the prompt, so within one step the same prompt gets the same answer. A real service may answer the same prompt differently.
- A response without a `response` field is not modelled. In the source, a missing formatted or speaker-labelled text makes the store write fail (it would hold `undefined`), while a missing summary is interpolated into the notes, which are then written as `# Meeting Notes\n\nundefined`.
- `mkdirSync` failing in `transcribeAudio`, and I/O errors at backend module initialisation. The latter throw outside any `try` and would abort loading.
- Text.ExtName: trailing slashes, Windows separators and path normalisation are not modelled. Paths are relative to the repository root, and `path.resolve` against the module directory is not modelled.
- Backend: creation of the capture file, and ffmpeg's overwrite prompt when run without `-y`. The `outputs` map stands for whatever files whisper wrote, wherever they ended up.
- BackendTranscriber.Session.StartTranscription: the model only counts spawns. "Only one cycle runs" holds because no other method calls it.
- The presentation layer, the Electron shell and preload, and configuration and store initialisation. These are display and setup code.
- Debouncing of repeated commands, a `clear` command, restarting after a failed capture, and cancelling an in-flight completion request are absent from the code, so the model has none of them (see the list at the top for the evidence on `clear`).
