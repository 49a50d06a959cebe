/** The three-stage enhancement pipeline of server/transcriber.js: format
    the transcript, label its speakers, then summarise it into notes. Each
    stage is one request to the completion service whose prompt embeds the
    previous stage's output. */
module Enhancement {
  import opened Common

  /** A request to the completion service, by stage; the fixed instruction
      wording around the embedded text is not modelled. */
  datatype Prompt =
    | Format(rawTranscript: string)
    | LabelSpeakers(formatted: string)
    | Summarize(speakerLabeled: string)
  {
    /** The text the prompt embeds. */
    function Embedded(): string {
      match this
      case Format(t) => t
      case LabelSpeakers(t) => t
      case Summarize(t) => t
    }
  }

  /** The completion service: the `response` text for a prompt, or nothing
      when the request fails. */
  type Completion = Prompt -> Option<string>

  /** What one successful run produces: the formatted transcript, the
      speaker-labelled transcript and the raw summary. */
  datatype Artifacts = Artifacts(formatted: string, speakerLabeled: string, summary: string)

  /** The heading put in front of the summary in the stored notes. */
  const NotesHeading: string := "# Meeting Notes\n\n"

  /** The requests a run issues, in order: each stage's prompt embeds the
      answer to the one before, and a failed request is the last one sent. */
  function Requests(raw: string, llm: Completion): (ps: seq<Prompt>)
    ensures 1 <= |ps| <= 3
    ensures ps[0] == Format(raw)
    ensures |ps| >= 2 ==> ps[1].LabelSpeakers?
    ensures |ps| == 3 ==> ps[2].Summarize?
    ensures forall k :: 0 <= k < |ps| - 1 ==> llm(ps[k]).Some? && ps[k + 1].Embedded() == llm(ps[k]).value
    ensures |ps| < 3 ==> llm(ps[|ps| - 1]).None?
  {
    var formatted := llm(Format(raw));
    if formatted.None? then [Format(raw)]
    else
      var labeled := llm(LabelSpeakers(formatted.value));
      if labeled.None? then [Format(raw), LabelSpeakers(formatted.value)]
      else [Format(raw), LabelSpeakers(formatted.value), Summarize(labeled.value)]
  }

  /** `enhanceTranscript` without its store write: the artifacts when all
      three requests answer, nothing as soon as one fails. */
  function Run(raw: string, llm: Completion): (r: Option<Artifacts>)
    ensures var ps := Requests(raw, llm);
            r.Some? <==> |ps| == 3 && llm(ps[2]).Some?
    ensures var ps := Requests(raw, llm);
            r.Some? ==> r.value == Artifacts(llm(ps[0]).value, llm(ps[1]).value, llm(ps[2]).value)
  {
    var formatted := llm(Format(raw));
    if formatted.None? then None
    else
      var labeled := llm(LabelSpeakers(formatted.value));
      if labeled.None? then None
      else
        var summary := llm(Summarize(labeled.value));
        if summary.None? then None
        else Some(Artifacts(formatted.value, labeled.value, summary.value))
  }

  /** The stages are chained: the speaker-labelling prompt embeds the
      formatted text, and the summary prompt the speaker-labelled text. */
  lemma StagesAreChained(raw: string, llm: Completion)
    requires Run(raw, llm).Some?
    ensures var a := Run(raw, llm).value;
            llm(Format(raw)) == Some(a.formatted)
            && llm(LabelSpeakers(a.formatted)) == Some(a.speakerLabeled)
            && llm(Summarize(a.speakerLabeled)) == Some(a.summary)
  {
  }
}
