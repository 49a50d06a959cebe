/** The earlier, file-based variant in backend/transcriber.js, as
    transitions on an abstract file system: record once, transcribe, append
    the text to a transcript file and regenerate the notes file from it.
    Paths are relative to the repository root. */
module BackendCycle {
  import opened Common
  import opened Text

  const TranscriptFile: string := "transcript.txt"
  const HistoryDir: string := "sessions"
  const NotesFile: string := "sessions/notes.md"
  const TempAudioFile: string := "temp_audio.wav"

  /** Files by path with their contents, and the directories that exist. */
  datatype Fs = Fs(files: map<string, string>, dirs: set<string>)

  /** The completion service, given the transcript text the notes prompt
      embeds: the `response` text, or nothing when the request fails. */
  type NotesCompletion = string -> Option<string>

  /** Module initialisation: create the history directory and an empty
      transcript file when they are missing, delete a stale audio file. */
  function Init(fs: Fs): (r: Fs)
    ensures r.dirs == fs.dirs + {HistoryDir}
    ensures TranscriptFile in r.files
    ensures TranscriptFile in fs.files ==> r.files[TranscriptFile] == fs.files[TranscriptFile]
    ensures TranscriptFile !in fs.files ==> r.files[TranscriptFile] == ""
    ensures TempAudioFile !in r.files
    ensures forall p :: p != TranscriptFile && p != TempAudioFile ==>
              (p in r.files <==> p in fs.files) && (p in r.files ==> r.files[p] == fs.files[p])
  {
    var dirs := if HistoryDir !in fs.dirs then fs.dirs + {HistoryDir} else fs.dirs;
    var files := if TranscriptFile !in fs.files then fs.files[TranscriptFile := ""] else fs.files;
    var files' := if TempAudioFile in files then files - {TempAudioFile} else files;
    Fs(files', dirs)
  }

  /** The path the close handler expects whisper's text at:
      `audioFile.replace(path.extname(audioFile), ".txt")`. */
  function OutputPath(audioFile: string): (r: string)
    ensures ExtName(audioFile) == "" ==> r == ".txt" + audioFile
    ensures ExtName(audioFile) != "" ==>
              IndexOf(audioFile, ExtName(audioFile)).Some?
              && var i := IndexOf(audioFile, ExtName(audioFile)).value;
                 r == audioFile[..i] + ".txt" + audioFile[i + |ExtName(audioFile)|..]
  {
    var ext := ExtName(audioFile);
    if ext == "" then
      ReplaceEmptyPattern(audioFile, ".txt");
      ReplaceFirst(audioFile, ext, ".txt")
    else
      ReplaceSuffix(audioFile, ext, ".txt");
      ReplaceFirst(audioFile, ext, ".txt")
  }

  /** The string `replace` swaps the FIRST occurrence of the extension,
      which is not the extension itself when a directory name holds the
      same extension: the directory is renamed and the file name kept. */
  lemma OutputPathReplacesEarlierCopy(p: string)
    requires p == "a.wav/x.wav"
    ensures OutputPath(p) == "a.txt/x.wav"
  {
    NestedExtName(p);
    NestedIndexOf(p);
    OutputPathFound(p, ".wav", 1);
    NestedSplice(p);
  }

  /** Splicing `.txt` over the directory's `.wav`. */
  lemma NestedSplice(p: string)
    requires p == "a.wav/x.wav"
    ensures p[..1] + ".txt" + p[5..] == "a.txt/x.wav"
  {
    assert p[..1] == "a" && p[5..] == "/x.wav";
  }

  /** The extension of `a.wav/x.wav` is that of its last component. */
  lemma NestedExtName(p: string)
    requires p == "a.wav/x.wav"
    ensures ExtName(p) == ".wav"
  {
    assert p[5] == '/';
    assert Basename(p) == "x.wav" by {
      assert LastIndexOfChar(p, '/') == Some(5);
      assert p[6..] == "x.wav";
    }
    assert "x.wav"[1] == '.';
    assert LastIndexOfChar("x.wav", '.') == Some(1);
  }

  /** `.wav` is first found in `a.wav/x.wav` inside the directory name. */
  lemma NestedIndexOf(p: string)
    requires p == "a.wav/x.wav"
    ensures IndexOf(p, ".wav") == Some(1)
  {
    assert p[0..4] != ".wav" by { assert p[0..4][0] == 'a'; }
    assert p[1..5] == ".wav";
    assert IndexFrom(p, ".wav", 1) == Some(1);
  }

  /** The output path once the extension and its first occurrence are known. */
  lemma OutputPathFound(p: string, ext: string, i: nat)
    requires ExtName(p) == ext && ext != ""
    requires IndexOf(p, ext) == Some(i)
    ensures OutputPath(p) == p[..i] + ".txt" + p[i + |ext|..]
  {
  }

  /** `replace` of the empty pattern puts the replacement in front. */
  lemma ReplaceEmptyPattern(s: string, rep: string)
    ensures ReplaceFirst(s, "", rep) == rep + s
  {
    assert s[..0] == "";
    assert s[..0] + rep + s[0..] == rep + s;
  }

  /** A suffix is found, and `replace` splices the replacement in where it
      is first found. */
  lemma ReplaceSuffix(s: string, suffix: string, rep: string)
    requires EndsWith(s, suffix)
    ensures IndexOf(s, suffix).Some?
    ensures var i := IndexOf(s, suffix).value;
            ReplaceFirst(s, suffix, rep) == s[..i] + rep + s[i + |suffix|..]
  {
    assert OccursAt(s, suffix, |s| - |suffix|);
  }

  /** A file name `stem + ext` placed in a directory: `dir` is empty or
      ends with `/`, the name holds no `/`, the stem starts with a character
      other than `.` and holds no `.`, and `ext` is a `.` followed by no
      further `.`. */
  predicate PlainFileName(dir: string, stem: string, ext: string) {
    && (dir == "" || dir[|dir| - 1] == '/')
    && stem != "" && (forall j :: 0 <= j < |stem| ==> stem[j] != '.' && stem[j] != '/')
    && |ext| >= 1 && ext[0] == '.'
    && (forall j :: 1 <= j < |ext| ==> ext[j] != '.' && ext[j] != '/')
  }

  /** The last component of `dir + name` is `name` when `name` holds no `/`. */
  lemma BasenameOfFileInDir(dir: string, name: string)
    requires dir == "" || dir[|dir| - 1] == '/'
    requires forall j :: 0 <= j < |name| ==> name[j] != '/'
    ensures Basename(dir + name) == name
  {
    var p := dir + name;
    var slash := LastIndexOfChar(p, '/');
    if dir == "" {
      assert p == name;
    } else {
      assert p[|dir| - 1] == '/';
      assert forall j :: |dir| <= j < |p| ==> p[j] == name[j - |dir|];
      assert slash == Some(|dir| - 1);
      assert p[|dir|..] == name;
    }
  }

  /** A plain file name holds no `/`, and its last `.` opens the extension. */
  lemma PlainNameParts(dir: string, stem: string, ext: string)
    requires PlainFileName(dir, stem, ext)
    ensures forall j :: 0 <= j < |stem + ext| ==> (stem + ext)[j] != '/'
    ensures LastIndexOfChar(stem + ext, '.') == Some(|stem|)
  {
    var name := stem + ext;
    assert forall j :: 0 <= j < |stem| ==> name[j] == stem[j];
    assert forall j :: |stem| <= j < |name| ==> name[j] == ext[j - |stem|];
    assert name[|stem|] == '.';
  }

  /** `path.extname` read off a path whose last component and last `.` in
      it are known. */
  lemma ExtNameFromParts(p: string, d: nat)
    requires LastIndexOfChar(Basename(p), '.') == Some(d)
    requires 0 < d && Basename(p) != ".."
    ensures ExtName(p) == Basename(p)[d..]
  {
  }

  /** `path.extname` of a plain file name is its extension. */
  lemma ExtNameOfPlainFile(dir: string, stem: string, ext: string)
    requires PlainFileName(dir, stem, ext)
    ensures ExtName(dir + stem + ext) == ext
  {
    var name := stem + ext;
    PlainNameParts(dir, stem, ext);
    assert dir + stem + ext == dir + name;
    BasenameOfFileInDir(dir, name);
    assert name[0] == stem[0];
    assert name != "..";
    ExtNameFromParts(dir + name, |stem|);
    assert name[|stem|..] == ext;
  }

  /** Before the stem, no occurrence of the extension can start: a window
      inside the directory is ruled out by the directory itself, one that
      crosses the directory's final `/` holds a `/` the extension lacks. */
  lemma NoExtensionInDir(dir: string, stem: string, ext: string, j: nat)
    requires PlainFileName(dir, stem, ext)
    requires IndexOf(dir, ext).None?
    requires j < |dir|
    ensures !OccursAt(dir + stem + ext, ext, j)
  {
    var p := dir + stem + ext;
    if j + |ext| <= |dir| {
      assert !OccursAt(dir, ext, j);
      assert p[j..j + |ext|] == dir[j..j + |ext|];
    } else if j + |ext| <= |p| {
      var k := |dir| - 1 - j;
      assert p[j..j + |ext|][k] == p[|dir| - 1] == '/';
      assert ext[k] != '/';
    }
  }

  /** Nor can one start inside the stem, which holds no `.`. */
  lemma NoExtensionInStem(dir: string, stem: string, ext: string, j: nat)
    requires PlainFileName(dir, stem, ext)
    requires |dir| <= j < |dir| + |stem|
    ensures !OccursAt(dir + stem + ext, ext, j)
  {
    var p := dir + stem + ext;
    assert p[j] == stem[j - |dir|];
    if j + |ext| <= |p| {
      assert p[j..j + |ext|][0] == p[j];
    }
  }

  /** In a plain file name whose directory holds no copy of the extension,
      the first occurrence of the extension is the extension itself. */
  lemma ExtensionFirstOccursAtEnd(dir: string, stem: string, ext: string)
    requires PlainFileName(dir, stem, ext)
    requires IndexOf(dir, ext).None?
    ensures IndexOf(dir + stem + ext, ext) == Some(|dir| + |stem|)
  {
    var p := dir + stem + ext;
    var at := |dir| + |stem|;
    forall j: nat | j < at
      ensures !OccursAt(p, ext, j)
    {
      if j < |dir| {
        NoExtensionInDir(dir, stem, ext, j);
      } else {
        NoExtensionInStem(dir, stem, ext, j);
      }
    }
    assert p[at..at + |ext|] == ext;
    assert OccursAt(p, ext, at);
  }

  /** Cutting `base + ext` around its final `ext` and putting `.txt` in
      between gives `base + ".txt"`. */
  lemma SwapAtEnd(base: string, ext: string)
    ensures var p := base + ext;
            p[..|base|] + ".txt" + p[|base| + |ext|..] == base + ".txt"
  {
    var p := base + ext;
    assert p[..|base|] == base;
    assert p[|base| + |ext|..] == "";
  }

  /** A path `base + ext` whose extension is `ext`, first found at the end,
      has the output path `base + ".txt"`. */
  lemma OutputPathAtEnd(base: string, ext: string)
    requires ExtName(base + ext) == ext && ext != ""
    requires IndexOf(base + ext, ext) == Some(|base|)
    ensures OutputPath(base + ext) == base + ".txt"
  {
    OutputPathFound(base + ext, ext, |base|);
    SwapAtEnd(base, ext);
  }

  /** The expected whisper output of a plain audio file is that file with
      its extension swapped for `.txt`, provided the directory does not
      itself contain the extension. */
  lemma OutputPathSwapsExtension(dir: string, stem: string, ext: string)
    requires PlainFileName(dir, stem, ext)
    requires IndexOf(dir, ext).None?
    ensures OutputPath(dir + stem + ext) == dir + stem + ".txt"
  {
    ExtNameOfPlainFile(dir, stem, ext);
    ExtensionFirstOccursAtEnd(dir, stem, ext);
    OutputPathAtEnd(dir + stem, ext);
  }

  /** The contents of a file, "" when it is missing. */
  function Contents(fs: Fs, path: string): string {
    if path in fs.files then fs.files[path] else ""
  }

  /** `appendFileSync(transcriptFile, text + "\n")`, which creates the file
      when it is missing: the old contents stay in front, untouched. */
  function AppendTranscription(fs: Fs, text: string): (r: Fs)
    ensures TranscriptFile in r.files
    ensures r.files[TranscriptFile] == Contents(fs, TranscriptFile) + text + "\n"
    ensures Contents(fs, TranscriptFile) <= r.files[TranscriptFile]
    ensures r.dirs == fs.dirs && r.files.Keys == fs.files.Keys + {TranscriptFile}
    ensures forall p :: p in fs.files && p != TranscriptFile ==> r.files[p] == fs.files[p]
  {
    fs.(files := fs.files[TranscriptFile := Contents(fs, TranscriptFile) + text + "\n"])
  }

  /** `generateTranscriptNotes` writes the notes file exactly when the
      transcript file exists and is not blank, the request answers, and the
      history directory exists (otherwise `writeFileSync` throws inside the
      try block and the error is logged). */
  predicate NotesWritten(fs: Fs, llm: NotesCompletion) {
    && TranscriptFile in fs.files
    && !IsBlank(fs.files[TranscriptFile])
    && llm(fs.files[TranscriptFile]).Some?
    && HistoryDir in fs.dirs
  }

  /** `generateTranscriptNotes`: overwrite the notes file wholesale with the
      response to a prompt embedding the whole transcript; otherwise change
      nothing. */
  function GenerateNotes(fs: Fs, llm: NotesCompletion): (r: Fs)
    ensures TranscriptFile !in fs.files ==> r == fs
    ensures TranscriptFile in fs.files && IsBlank(fs.files[TranscriptFile]) ==> r == fs
    ensures r.dirs == fs.dirs && fs.files.Keys <= r.files.Keys
    ensures forall p :: p in fs.files && p != NotesFile ==> r.files[p] == fs.files[p]
    ensures !NotesWritten(fs, llm) ==> r == fs
    ensures NotesWritten(fs, llm) ==>
              && r.dirs == fs.dirs
              && r.files == fs.files[NotesFile := llm(fs.files[TranscriptFile]).value]
  {
    if TranscriptFile !in fs.files then fs
    else
      var text := fs.files[TranscriptFile];
      if IsBlank(text) then fs
      else
        match llm(text)
        case None => fs
        case Some(notes) =>
          if HistoryDir in fs.dirs then fs.(files := fs.files[NotesFile := notes]) else fs
  }

  /** The whisper close handler, whatever the exit code: when the expected
      output file exists, append its text to the transcript and regenerate
      the notes; otherwise only log. */
  function OnWhisperClose(fs: Fs, audioFile: string, llm: NotesCompletion): (r: Fs)
    ensures OutputPath(audioFile) !in fs.files ==> r == fs
    ensures OutputPath(audioFile) in fs.files ==> TranscriptFile in r.files
    ensures OutputPath(audioFile) in fs.files ==>
              var grown := AppendTranscription(fs, fs.files[OutputPath(audioFile)]);
              && r.files[TranscriptFile] == Contents(fs, TranscriptFile) + fs.files[OutputPath(audioFile)] + "\n"
              && r.dirs == fs.dirs
              && (!NotesWritten(grown, llm) ==> r == grown)
              && (NotesWritten(grown, llm) ==>
                    r.files == grown.files[NotesFile := llm(grown.files[TranscriptFile]).value])
  {
    var out := OutputPath(audioFile);
    if out in fs.files then
      var grown := AppendTranscription(fs, fs.files[out]);
      assert |NotesFile| != |TranscriptFile|;
      GenerateNotes(grown, llm)
    else fs
  }

  /** Module initialisation keeps an existing transcript, and running it
      again changes nothing. */
  lemma InitIdempotent(fs: Fs)
    ensures Init(Init(fs)) == Init(fs)
  {
  }
}
