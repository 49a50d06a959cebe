/** backend/transcriber.js as one object over the file system it changes:
    module initialisation, the single recording, its close handler and the
    whisper close handler with notes generation. Each method is proved to
    perform the transition of the same name in BackendCycle. */
module BackendTranscriber {
  import opened Common
  import opened Text
  import opened BackendCycle

  class Session {
    var files: map<string, string>
    var dirs: set<string>
    // capture processes spawned so far (`startTranscription` calls)
    var recordings: nat
    // whisper processes spawned so far
    var transcriptions: nat
    // the audio path the pending whisper close handler was given
    var whisperInput: string

    function Disk(): Fs
      reads this
    {
      Fs(files, dirs)
    }

    /** Loading the module: prepare the file system, then start the one and
        only recording. */
    constructor (files0: map<string, string>, dirs0: set<string>)
      ensures Disk() == Init(Fs(files0, dirs0))
      ensures recordings == 1 && transcriptions == 0
    {
      files, dirs := files0, dirs0;
      recordings, transcriptions := 0, 0;
      whisperInput := TempAudioFile;
      new;
      if HistoryDir !in dirs {
        dirs := dirs + {HistoryDir};
      }
      if TranscriptFile !in files {
        files := files[TranscriptFile := ""];
      }
      if TempAudioFile in files {
        files := files - {TempAudioFile};
      }
      StartTranscription();
    }

    /** `startTranscription`: spawn the capture process. */
    method StartTranscription()
      modifies this`recordings
      ensures recordings == old(recordings) + 1
    {
      recordings := recordings + 1;
    }

    /** The capture close handler: transcribe, whatever the exit code. */
    method OnRecordClose(code: Option<int>)
      modifies this`transcriptions, this`whisperInput
      ensures transcriptions == old(transcriptions) + 1 && whisperInput == TempAudioFile
    {
      TranscribeAudio(TempAudioFile);
    }

    /** The synchronous part of `transcribeAudio`: spawn whisper on the file. */
    method TranscribeAudio(audioFile: string)
      modifies this`transcriptions, this`whisperInput
      ensures transcriptions == old(transcriptions) + 1 && whisperInput == audioFile
    {
      transcriptions := transcriptions + 1;
      whisperInput := audioFile;
    }

    /** The whisper close handler. `outputs` are the files the whisper
        process wrote before it exited; the exit code is only logged. */
    method OnWhisperClose(code: Option<int>, outputs: map<string, string>, llm: NotesCompletion)
      modifies this`files
      ensures Disk() == BackendCycle.OnWhisperClose(Fs(old(files) + outputs, dirs), whisperInput, llm)
    {
      files := files + outputs;
      var out := OutputPath(whisperInput);
      if out in files {
        var transcription := files[out];
        var previous := if TranscriptFile in files then files[TranscriptFile] else "";
        files := files[TranscriptFile := previous + transcription + "\n"];
        GenerateNotes(llm);
      }
    }

    method GenerateNotes(llm: NotesCompletion)
      modifies this`files
      ensures Disk() == BackendCycle.GenerateNotes(old(Disk()), llm)
    {
      if TranscriptFile !in files {
        return;
      }
      var text := files[TranscriptFile];
      if IsBlank(text) {
        return;
      }
      var response := llm(text);
      if response.Some? && HistoryDir in dirs {
        files := files[NotesFile := response.value];
      }
    }
  }
}
