/** The run as a state machine over its phases: each phase performs at
    most one side effect and moves to the next phase or to a terminal state
    according to that effect's outcome. Executing the machine from the
    domain check gives exactly the closed form `Orchestrator.Run`. */
module RunMachine {
  import opened Wrappers
  import opened Urls
  import opened Ffmpeg
  import opened Orchestrator

  datatype Phase =
    | ValidatingDomain
    | PreparingDirectory
    | DownloadingVideo
    | DownloadingAudio
    | Merging(audioPath: Option<string>)
    | CleaningUp(after: Terminal)
    | Halted(result: Terminal)

  /** How many phases at most remain before the machine halts. */
  function Rank(p: Phase): nat {
    match p
    case ValidatingDomain => 6
    case PreparingDirectory => 5
    case DownloadingVideo => 4
    case DownloadingAudio => 3
    case Merging(_) => 2
    case CleaningUp(_) => 1
    case Halted(_) => 0
  }

  datatype Transition = Transition(emitted: seq<Action>, next: Phase)

  /** One phase of the run. Each phase asks for at most one side effect and
      its outcome picks the next phase: a failed directory creation halts at
      once, a failed video download or merge goes through cleanup, and a
      failed audio download merges without audio. */
  function Step(base: string, t: ThreadData, o: Outcomes, p: Phase): (s: Transition)
    requires !p.Halted?
    ensures Rank(s.next) < Rank(p)
    ensures |s.emitted| <= 1
    ensures s.next.Halted? && Failed(s.next.result) ==> p.PreparingDirectory? || p.CleaningUp?
  {
    var l := RunLayout(base, t);
    match p
    case ValidatingDomain =>
      if t.domain != VideoHost then Transition([], Halted(NotVideo))
      else Transition([], PreparingDirectory)
    case PreparingDirectory =>
      Transition([Mkdir(l.dir)], if o.mkdirOk then DownloadingVideo else Halted(MkdirFailed))
    case DownloadingVideo =>
      Transition([DownloadVideo(t.fallbackUrl, l.video)],
                 if o.videoOk then DownloadingAudio else CleaningUp(VideoFailed))
    case DownloadingAudio =>
      Transition([DownloadAudio(AudioUrl(t.url), l.audio)], Merging(AudioInput(l, o.audioOk)))
    case Merging(audioPath) =>
      Transition([Merge(MergeArgs(audioPath, l.video, l.output))],
                 if o.mergeExit == 0 then Halted(Done(l.output)) else CleaningUp(MergeFailed(o.mergeExit)))
    case CleaningUp(after) =>
      Transition([RemoveDir(l.dir)], Halted(after))
  }

  /** Runs the machine from phase `p` until it halts. No phase is visited
      twice, so the trace holds at most one action per remaining phase. */
  function Exec(base: string, t: ThreadData, o: Outcomes, p: Phase): (r: RunResult)
    ensures |r.trace| <= Rank(p)
    ensures p.Halted? ==> r.final == p.result
    decreases Rank(p)
  {
    if p.Halted? then RunResult([], p.result)
    else
      var s := Step(base, t, o, p);
      var rest := Exec(base, t, o, s.next);
      RunResult(s.emitted + rest.trace, rest.final)
  }

  /** The phase machine and the closed-form run agree on every input: same
      trace, same terminal state. */
  lemma MachineAgreesWithRun(base: string, t: ThreadData, o: Outcomes)
    ensures Exec(base, t, o, ValidatingDomain) == Run(base, t, o)
  {
  }
}
