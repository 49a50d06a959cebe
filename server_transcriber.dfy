/** The module-level state of server/transcriber.js as one object whose
    handler methods update it in place. Each method is proved to perform
    exactly the transition of the same name in ServerLoop. */
module ServerTranscriber {
  import opened Common
  import opened Text
  import Transcript
  import Enhancement
  import opened ServerLoop

  class Transcriber {
    // the two process handles
    var recordingProcess: Handle
    var whisperProcess: Handle
    // the id the next spawned process receives
    var nextPid: nat
    // the temporary audio file and the whisper output directory
    var audioExists: bool
    var dirExists: bool
    // the stored meeting record
    var rawTranscript: Option<string>
    var formattedTranscript: Option<string>
    var speakerTranscript: Option<string>
    var meetingNotes: Option<string>
    // the control record's status field
    var status: Option<Status>

    /** The whole state as a value. */
    function State(): ServerLoop.State
      reads this
    {
      ServerLoop.State(recordingProcess, whisperProcess, nextPid, audioExists, dirExists,
                       Meeting(rawTranscript, formattedTranscript, speakerTranscript, meetingNotes),
                       status)
    }

    /** Module load: both handles null; the temporary resources and the
        store are whatever a previous run left. */
    constructor (audio: bool, dir: bool, meeting: Meeting, controlStatus: Option<Status>)
      ensures State() == ServerLoop.State(Null, Null, 0, audio, dir, meeting, controlStatus)
      ensures Valid(State())
    {
      recordingProcess, whisperProcess, nextPid := Null, Null, 0;
      audioExists, dirExists := audio, dir;
      rawTranscript, formattedTranscript := meeting.rawTranscript, meeting.formattedTranscript;
      speakerTranscript, meetingNotes := meeting.speakerTranscript, meeting.meetingNotes;
      status := controlStatus;
    }

    method Cleanup(f: Faults)
      modifies this
      ensures State() == ServerLoop.Cleanup(old(State()), f)
    {
      if audioExists {
        if !f.unlinkFails { audioExists := false; }
      }
      if dirExists {
        if !f.rmFails { dirExists := false; }
      }
    }

    /** Spawning overwrites the handle; the old process, if any, is lost. */
    method StartRecording(f: Faults)
      modifies this
      ensures State() == ServerLoop.StartRecording(old(State()), f)
    {
      Cleanup(f);
      recordingProcess := Proc(nextPid);
      nextPid := nextPid + 1;
    }

    method StopRecording(f: Faults)
      modifies this
      ensures State() == ServerLoop.StopRecording(old(State()), f)
    {
      if recordingProcess != Null {
        recordingProcess := Null;
      }
      if whisperProcess != Null {
        whisperProcess := Null;
      }
      Cleanup(f);
    }

    method TranscribeAudio()
      modifies this
      ensures State() == ServerLoop.TranscribeAudio(old(State()))
    {
      if !dirExists {
        dirExists := true;
      }
      whisperProcess := Proc(nextPid);
      nextPid := nextPid + 1;
    }

    method OnRecordingClose(pid: nat, code: Option<int>, audioWritten: bool)
      modifies this
      ensures State() == ServerLoop.OnRecordingClose(old(State()), pid, code, audioWritten)
    {
      audioExists := audioExists || audioWritten;
      if code == Some(0) {
        TranscribeAudio();
      }
      recordingProcess := Null;
    }

    method EnhanceTranscript(raw: string, llm: Enhancement.Completion)
      modifies this
      ensures State() == ServerLoop.Enhance(old(State()), raw, llm)
    {
      var formatted := llm(Enhancement.Format(raw));
      if formatted.None? { return; }
      var labeled := llm(Enhancement.LabelSpeakers(formatted.value));
      if labeled.None? { return; }
      var summary := llm(Enhancement.Summarize(labeled.value));
      if summary.None? { return; }
      formattedTranscript := Some(formatted.value);
      speakerTranscript := Some(labeled.value);
      meetingNotes := Some(Enhancement.NotesHeading + summary.value);
    }

    method OnWhisperClose(listing: seq<string>, readFile: string -> Option<string>, stdout: string,
                          timestamp: string, llm: Enhancement.Completion, f: Faults)
      modifies this
      ensures State() == ServerLoop.OnWhisperClose(old(State()), listing, readFile, stdout, timestamp, llm, f)
    {
      ghost var before := State();
      if dirExists {
        var chunk := ChunkOf(listing, readFile, stdout);
        if chunk.Some? && !IsBlank(chunk.value) {
          var existing := rawTranscript.GetOr("");
          var updated := Transcript.Merge(existing, timestamp, chunk.value);
          rawTranscript := Some(updated);
          assert State() == before.(meeting := before.meeting.(rawTranscript := Some(updated)));
          EnhanceTranscript(updated, llm);
        }
      }
      assert State() == ProcessOutput(before, listing, readFile, stdout, timestamp, llm);
      if recordingProcess == Null {
        StartRecording(f);
      }
    }

    method OnCommand(docExists: bool, command: string, f: Faults)
      modifies this
      ensures State() == ServerLoop.OnCommand(old(State()), docExists, command, f)
    {
      if docExists {
        if command == "start" {
          StartRecording(f);
          status := Some(Recording);
        } else if command == "stop" {
          StopRecording(f);
          status := Some(Idle);
        }
      }
    }
  }
}
