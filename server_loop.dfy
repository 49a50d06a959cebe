/** The recording -> transcription -> enhancement loop of
    server/transcriber.js as transitions on a value of its whole state:
    the two process handles, the two temporary resources, the stored
    meeting record and the control record's status. Each handler of the
    source is one atomic transition here; the class in
    server_transcriber.dfy performs them in place and is proved to agree. */
module ServerLoop {
  import opened Common
  import opened Text
  import Transcript
  import Enhancement

  /** A module-level process handle: `null`, or the child process with the
      given id. Ids are handed out in spawn order and never reused. */
  datatype Handle = Null | Proc(pid: nat)

  /** The values the loop writes to the control record's `status`. */
  datatype Status = Recording | Idle

  /** Which deletions in `cleanup` throw (and are logged). */
  datatype Faults = Faults(unlinkFails: bool, rmFails: bool)

  const NoFaults: Faults := Faults(false, false)

  /** The stored `meetings/current` record; `None` for a field (or a whole
      document) that is absent. */
  datatype Meeting = Meeting(
    rawTranscript: Option<string>,
    formattedTranscript: Option<string>,
    speakerTranscript: Option<string>,
    meetingNotes: Option<string>)

  datatype State = State(
    recordingProcess: Handle,
    whisperProcess: Handle,
    nextPid: nat,
    audioExists: bool,
    dirExists: bool,
    meeting: Meeting,
    status: Option<Status>)

  /** Every handle names a process already spawned. */
  predicate Valid(s: State) {
    (s.recordingProcess.Proc? ==> s.recordingProcess.pid < s.nextPid)
    && (s.whisperProcess.Proc? ==> s.whisperProcess.pid < s.nextPid)
  }

  /** The stored transcript as the close handler reads it
      (`rawTranscript || ""`, with a missing document giving ""). */
  function StoredTranscript(s: State): string {
    s.meeting.rawTranscript.GetOr("")
  }

  /** `cleanup`: delete the temporary audio file and the whisper output
      directory when they exist; a deletion that throws is logged and that
      resource stays. */
  function Cleanup(s: State, f: Faults): (r: State)
    ensures r.audioExists <==> s.audioExists && f.unlinkFails
    ensures r.dirExists <==> s.dirExists && f.rmFails
    ensures r == s.(audioExists := r.audioExists, dirExists := r.dirExists)
  {
    var afterAudio := if s.audioExists && !f.unlinkFails then s.(audioExists := false) else s;
    if afterAudio.dirExists && !f.rmFails then afterAudio.(dirExists := false) else afterAudio
  }

  /** `startRecording`: clean up, then spawn the capture process and store
      its handle, overwriting whatever handle was there. */
  function StartRecording(s: State, f: Faults): (r: State)
    ensures r.recordingProcess == Proc(s.nextPid) && r.nextPid == s.nextPid + 1
    ensures r.audioExists <==> s.audioExists && f.unlinkFails
    ensures r.dirExists <==> s.dirExists && f.rmFails
    ensures r.whisperProcess == s.whisperProcess && r.meeting == s.meeting && r.status == s.status
  {
    var c := Cleanup(s, f);
    c.(recordingProcess := Proc(c.nextPid), nextPid := c.nextPid + 1)
  }

  /** `stopRecording`: kill and forget both processes, then clean up. */
  function StopRecording(s: State, f: Faults): (r: State)
    ensures r.recordingProcess == Null && r.whisperProcess == Null
    ensures r.nextPid == s.nextPid
    ensures r.audioExists <==> s.audioExists && f.unlinkFails
    ensures r.dirExists <==> s.dirExists && f.rmFails
    ensures r.meeting == s.meeting && r.status == s.status
  {
    var stopped := s.(recordingProcess := Null, whisperProcess := Null);
    Cleanup(stopped, f)
  }

  /** The synchronous part of `transcribeAudio`: create the output directory
      when it is missing and spawn the whisper process. */
  function TranscribeAudio(s: State): (r: State)
    ensures r.dirExists
    ensures r.whisperProcess == Proc(s.nextPid) && r.nextPid == s.nextPid + 1
    ensures r.recordingProcess == s.recordingProcess && r.audioExists == s.audioExists
    ensures r.meeting == s.meeting && r.status == s.status
  {
    var withDir := if !s.dirExists then s.(dirExists := true) else s;
    withDir.(whisperProcess := Proc(withDir.nextPid), nextPid := withDir.nextPid + 1)
  }

  /** The capture process's close handler. `code` is `None` when the process
      was ended by a signal (Node reports a null code, which is not 0);
      `audioWritten` says whether it left the audio file behind. Exit code 0
      launches transcription; any other code launches nothing. Either way
      the global handle is nulled, whichever process it holds by now. */
  function OnRecordingClose(s: State, pid: nat, code: Option<int>, audioWritten: bool): (r: State)
    ensures r.recordingProcess == Null
    ensures r.audioExists <==> s.audioExists || audioWritten
    ensures code == Some(0) ==> r.whisperProcess == Proc(s.nextPid) && r.nextPid == s.nextPid + 1 && r.dirExists
    ensures code != Some(0) ==> r.whisperProcess == s.whisperProcess && r.nextPid == s.nextPid && r.dirExists == s.dirExists
    ensures r.meeting == s.meeting && r.status == s.status
  {
    var written := s.(audioExists := s.audioExists || audioWritten);
    var launched := if code == Some(0) then TranscribeAudio(written) else written;
    launched.(recordingProcess := Null)
  }

  /** The chunk the whisper close handler works on: the contents of the
      first listed file ending in `.txt` when there is one (nothing when that
      read throws), otherwise the text captured from whisper's stdout. */
  function ChunkOf(listing: seq<string>, readFile: string -> Option<string>, stdout: string): (r: Option<string>)
    ensures (forall i :: 0 <= i < |listing| ==> !EndsWith(listing[i], ".txt")) ==> r == Some(stdout)
    ensures forall i :: 0 <= i < |listing| && EndsWith(listing[i], ".txt")
              && (forall j :: 0 <= j < i ==> !EndsWith(listing[j], ".txt"))
              ==> r == readFile(listing[i])
  {
    match FirstEndingWith(listing, ".txt")
    case Some(name) => readFile(name)
    case None => Some(stdout)
  }

  /** `enhanceTranscript`: when all three stages answer, one write of the
      formatted and speaker-labelled transcripts and of the headed notes;
      when any stage fails, nothing. */
  function Enhance(s: State, raw: string, llm: Enhancement.Completion): (r: State)
    ensures Enhancement.Run(raw, llm).None? ==> r == s
    ensures r.(meeting := s.meeting) == s
    ensures r.meeting.rawTranscript == s.meeting.rawTranscript
    ensures Enhancement.Run(raw, llm).Some? ==>
              var a := Enhancement.Run(raw, llm).value;
              && r.meeting.formattedTranscript == Some(a.formatted)
              && r.meeting.speakerTranscript == Some(a.speakerLabeled)
              && r.meeting.meetingNotes == Some(Enhancement.NotesHeading + a.summary)
  {
    match Enhancement.Run(raw, llm)
    case None => s
    case Some(a) =>
      s.(meeting := s.meeting.(
        formattedTranscript := Some(a.formatted),
        speakerTranscript := Some(a.speakerLabeled),
        meetingNotes := Some(Enhancement.NotesHeading + a.summary)))
  }

  /** The try block of the whisper close handler. Listing a missing output
      directory throws, and so does reading the chosen file; a blank chunk
      is skipped. Otherwise the merged transcript is written, then enhanced. */
  function ProcessOutput(s: State, listing: seq<string>, readFile: string -> Option<string>,
                         stdout: string, timestamp: string, llm: Enhancement.Completion): (r: State)
    ensures r.(meeting := s.meeting) == s
  {
    if !s.dirExists then s
    else
      match ChunkOf(listing, readFile, stdout)
      case None => s
      case Some(chunk) =>
        if IsBlank(chunk) then s
        else
          var merged := Transcript.Merge(StoredTranscript(s), timestamp, chunk);
          Enhance(s.(meeting := s.meeting.(rawTranscript := Some(merged))), merged, llm)
  }

  /** The whisper close handler: process the output, then, in `finally`,
      start the next recording if and only if `recordingProcess` is null.
      The whisper handle itself is left as it is. */
  function OnWhisperClose(s: State, listing: seq<string>, readFile: string -> Option<string>,
                          stdout: string, timestamp: string, llm: Enhancement.Completion,
                          f: Faults): (r: State)
    ensures r.whisperProcess == s.whisperProcess
    ensures r.status == s.status
    ensures s.recordingProcess == Null ==> r.recordingProcess == Proc(s.nextPid) && r.nextPid == s.nextPid + 1
    ensures s.recordingProcess != Null ==> r.recordingProcess == s.recordingProcess && r.nextPid == s.nextPid
    ensures r.meeting == ProcessOutput(s, listing, readFile, stdout, timestamp, llm).meeting
    ensures s.recordingProcess != Null ==> r == ProcessOutput(s, listing, readFile, stdout, timestamp, llm)
    ensures s.recordingProcess == Null ==>
              (r.audioExists <==> s.audioExists && f.unlinkFails) && (r.dirExists <==> s.dirExists && f.rmFails)
  {
    var processed := ProcessOutput(s, listing, readFile, stdout, timestamp, llm);
    if processed.recordingProcess == Null then StartRecording(processed, f) else processed
  }

  /** The control listener: `start` starts a recording and writes status
      `recording`; `stop` stops and writes `idle`; any other command, or an
      absent document, does nothing. The current state is not consulted. */
  function OnCommand(s: State, docExists: bool, command: string, f: Faults): (r: State)
    ensures !docExists || (command != "start" && command != "stop") ==> r == s
    ensures docExists && command == "start" ==>
              && r.status == Some(Recording)
              && r.recordingProcess == Proc(s.nextPid) && r.nextPid == s.nextPid + 1
              && r.whisperProcess == s.whisperProcess
    ensures docExists && command == "stop" ==>
              && r.status == Some(Idle)
              && r.recordingProcess == Null && r.whisperProcess == Null && r.nextPid == s.nextPid
    ensures docExists && (command == "start" || command == "stop") ==>
              && (r.audioExists <==> s.audioExists && f.unlinkFails)
              && (r.dirExists <==> s.dirExists && f.rmFails)
              && r.meeting == s.meeting
  {
    if !docExists then s
    else if command == "start" then StartRecording(s, f).(status := Some(Recording))
    else if command == "stop" then StopRecording(s, f).(status := Some(Idle))
    else s
  }

  // ---------------------------------------------------------------------
  // Properties of single handlers

  /** Cleaning up twice (with the same deletion outcomes) is cleaning up once. */
  lemma CleanupIdempotent(s: State, f: Faults)
    ensures Cleanup(Cleanup(s, f), f) == Cleanup(s, f)
  {
  }

  /** When no deletion throws, cleanup leaves neither resource behind, and
      a second cleanup changes nothing whatever happens to it. */
  lemma CleanupRemovesBoth(s: State, g: Faults)
    ensures !Cleanup(s, NoFaults).audioExists && !Cleanup(s, NoFaults).dirExists
    ensures Cleanup(Cleanup(s, NoFaults), g) == Cleanup(s, NoFaults)
  {
  }

  /** After `stopRecording`, both handles are null and, absent I/O errors,
      both temporary resources are gone. */
  lemma StopLeavesNothing(s: State)
    ensures var r := StopRecording(s, NoFaults);
            r.recordingProcess == Null && r.whisperProcess == Null
            && !r.audioExists && !r.dirExists
  {
  }

  /** A failed capture launches nothing: no transcription, no new capture;
      with no transcription already pending, the loop has stopped. */
  lemma FailedCaptureDoesNotRestart(s: State, pid: nat, code: Option<int>, audioWritten: bool)
    requires code != Some(0)
    ensures var r := OnRecordingClose(s, pid, code, audioWritten);
            r.recordingProcess == Null && r.whisperProcess == s.whisperProcess && r.nextPid == s.nextPid
  {
  }

  /** The close handler of an older capture process, spawned before the one
      a later `start` stored, nulls the newer one's handle: the handler acts
      exactly as the close of the current process would. */
  lemma StaleCloseForgetsNewerRecording(s: State, pid: nat, code: Option<int>, audioWritten: bool)
    requires s.recordingProcess.Proc? && pid < s.recordingProcess.pid
    ensures OnRecordingClose(s, pid, code, audioWritten).recordingProcess == Null
    ensures OnRecordingClose(s, pid, code, audioWritten)
            == OnRecordingClose(s, s.recordingProcess.pid, code, audioWritten)
  {
  }

  /** A blank chunk, a missing output directory or a failed read writes
      nothing to the store and calls no completion stage. */
  lemma NothingWrittenWithoutChunk(s: State, listing: seq<string>, readFile: string -> Option<string>,
                                   stdout: string, timestamp: string, llm: Enhancement.Completion)
    requires !s.dirExists || ChunkOf(listing, readFile, stdout).None?
             || IsBlank(ChunkOf(listing, readFile, stdout).value)
    ensures ProcessOutput(s, listing, readFile, stdout, timestamp, llm) == s
  {
  }

  /** A non-blank chunk is merged into the stored transcript, which is
      written even when enhancement then fails; the artifacts, when written,
      all derive from that one merged transcript. */
  lemma ChunkIsMergedThenEnhanced(s: State, listing: seq<string>, readFile: string -> Option<string>,
                                  stdout: string, chunk: string, timestamp: string,
                                  llm: Enhancement.Completion)
    requires s.dirExists && ChunkOf(listing, readFile, stdout) == Some(chunk) && !IsBlank(chunk)
    ensures var merged := Transcript.Merge(StoredTranscript(s), timestamp, chunk);
            var r := ProcessOutput(s, listing, readFile, stdout, timestamp, llm);
            && r.meeting.rawTranscript == Some(merged)
            && StoredTranscript(s) <= merged
            && (Enhancement.Run(merged, llm).None? ==>
                  r.meeting == s.meeting.(rawTranscript := Some(merged)))
            && (Enhancement.Run(merged, llm).Some? ==>
                  && llm(Enhancement.Format(merged)) == Some(r.meeting.formattedTranscript.value)
                  && llm(Enhancement.LabelSpeakers(r.meeting.formattedTranscript.value))
                     == Some(r.meeting.speakerTranscript.value)
                  && r.meeting.meetingNotes
                     == Some(Enhancement.NotesHeading
                             + llm(Enhancement.Summarize(r.meeting.speakerTranscript.value)).value))
  {
    var merged := Transcript.Merge(StoredTranscript(s), timestamp, chunk);
    if Enhancement.Run(merged, llm).Some? {
      Enhancement.StagesAreChained(merged, llm);
    }
  }

  /** `stopRecording` during a transcription does not end the loop: it nulls
      `recordingProcess`, so when the killed whisper process closes, its
      handler starts a new recording. */
  lemma StopDuringTranscriptionRestarts(s: State, f: Faults, listing: seq<string>,
                                        readFile: string -> Option<string>, stdout: string,
                                        timestamp: string, llm: Enhancement.Completion, g: Faults)
    ensures var r := OnWhisperClose(StopRecording(s, f), listing, readFile, stdout, timestamp, llm, g);
            r.recordingProcess == Proc(s.nextPid) && r.nextPid == s.nextPid + 1
  {
  }

  /** Commands are not debounced: a repeated `start` spawns a second capture
      process and its handle replaces the first one's. */
  lemma RepeatedStartSpawnsAgain(s: State, f: Faults, g: Faults)
    ensures var r := OnCommand(OnCommand(s, true, "start", f), true, "start", g);
            r.nextPid == s.nextPid + 2 && r.recordingProcess == Proc(s.nextPid + 1)
            && r.status == Some(Recording)
  {
  }

  // ---------------------------------------------------------------------
  // Properties of any sequence of handler runs

  /** One delivery of a handler, with the inputs the outside world gives it. */
  datatype Event =
    | Command(docExists: bool, command: string, commandFaults: Faults)
    | RecordingClosed(pid: nat, code: Option<int>, audioWritten: bool)
    | WhisperClosed(listing: seq<string>, readFile: string -> Option<string>, stdout: string,
                    timestamp: string, llm: Enhancement.Completion, closeFaults: Faults)

  function Step(s: State, e: Event): State {
    match e
    case Command(d, c, f) => OnCommand(s, d, c, f)
    case RecordingClosed(p, c, w) => OnRecordingClose(s, p, c, w)
    case WhisperClosed(l, rf, o, t, llm, f) => OnWhisperClose(s, l, rf, o, t, llm, f)
  }

  /** The state after the handlers run one at a time, in order. */
  function Replay(s: State, events: seq<Event>): State
    decreases |events|
  {
    if events == [] then s else Replay(Step(s, events[0]), events[1..])
  }

  /** Every handler keeps each handle pointing at an already-spawned process. */
  lemma StepKeepsValid(s: State, e: Event)
    requires Valid(s)
    ensures Valid(Step(s, e))
  {
  }

  /** Processing whisper's output keeps the stored transcript as a prefix
      of its new value. */
  lemma ProcessOutputOnlyAppends(s: State, listing: seq<string>, readFile: string -> Option<string>,
                                 stdout: string, timestamp: string, llm: Enhancement.Completion)
    ensures StoredTranscript(s) <= StoredTranscript(ProcessOutput(s, listing, readFile, stdout, timestamp, llm))
  {
    if s.dirExists && ChunkOf(listing, readFile, stdout).Some?
       && !IsBlank(ChunkOf(listing, readFile, stdout).value) {
      var chunk := ChunkOf(listing, readFile, stdout).value;
      ChunkIsMergedThenEnhanced(s, listing, readFile, stdout, chunk, timestamp, llm);
    }
  }

  /** Every handler keeps the stored transcript as a prefix of its new value. */
  lemma StepOnlyAppends(s: State, e: Event)
    ensures StoredTranscript(s) <= StoredTranscript(Step(s, e))
  {
    match e
    case Command(_, _, _) =>
    case RecordingClosed(_, _, _) =>
    case WhisperClosed(l, rf, o, t, llm, f) =>
      var p := ProcessOutput(s, l, rf, o, t, llm);
      ProcessOutputOnlyAppends(s, l, rf, o, t, llm);
  }

  /** Over any run, handles never name a process that was not spawned. */
  lemma {:induction false} ReplayKeepsValid(s: State, events: seq<Event>)
    requires Valid(s)
    ensures Valid(Replay(s, events))
    decreases |events|
  {
    if events != [] {
      StepKeepsValid(s, events[0]);
      ReplayKeepsValid(Step(s, events[0]), events[1..]);
    }
  }

  /** Over any run, the stored transcript is only ever extended: text once
      written is never altered, reordered or dropped. */
  lemma {:induction false} ReplayOnlyAppends(s: State, events: seq<Event>)
    ensures StoredTranscript(s) <= StoredTranscript(Replay(s, events))
    decreases |events|
  {
    if events != [] {
      StepOnlyAppends(s, events[0]);
      ReplayOnlyAppends(Step(s, events[0]), events[1..]);
    }
  }
}
