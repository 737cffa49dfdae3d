/** The run orchestrator (grabVideo.js:107-184) as a pure function. The
    fetched thread record, the working directory and the outcome of every
    side effect are inputs; the result is the trace of side effects the run
    asks for and the state it ends in. */
module Orchestrator {
  import opened Wrappers
  import opened Title
  import opened Paths
  import opened Urls
  import opened Ffmpeg

  /** The fields `run` reads from the thread record: `domain`, `subreddit`,
      `title`, `author`, `url` and `secure_media.reddit_video.fallback_url`. */
  datatype ThreadData = ThreadData(
    domain: string,
    subreddit: string,
    title: string,
    author: string,
    url: string,
    fallbackUrl: string)

  /** How each side effect turned out: whether the directory was created,
      whether each download succeeded, and the exit code of the merge. */
  datatype Outcomes = Outcomes(mkdirOk: bool, videoOk: bool, audioOk: bool, mergeExit: int)

  /** The side effects the run asks for. */
  datatype Action =
    | Mkdir(dir: string)
    | DownloadVideo(url: string, dest: string)
    | DownloadAudio(url: string, dest: string)
    | Merge(args: seq<string>)
    | RemoveDir(dir: string)

  /** How the run ends. */
  datatype Terminal =
    | NotVideo
    | MkdirFailed
    | VideoFailed
    | MergeFailed(code: int)
    | Done(outputPath: string)

  datatype RunResult = RunResult(trace: seq<Action>, final: Terminal)

  /** The only video host the program handles. */
  const VideoHost := "v.redd.it"

  /** The paths of a run: the title is sanitised first. */
  function RunLayout(base: string, t: ThreadData): Layout {
    LayoutFor(base, t.subreddit, SanitizeTitle(t.title))
  }

  /** The audio path handed to the merge: null when the audio download
      failed. */
  function AudioInput(l: Layout, audioOk: bool): Option<string> {
    if audioOk then Some(l.audio) else None
  }

  /** The steps of `run`, top to bottom: domain gate, directory creation,
      video download (fatal on failure), audio download (optional), merge,
      and cleanup after a failed download or merge. Removing the directory
      is always the last thing a run does: grabVideo.js awaits
      `removeDirectory`, whose promise never resolves after a removal. */
  function Run(base: string, t: ThreadData, o: Outcomes): (r: RunResult)
    ensures 0 <= |r.trace| <= 5
    ensures r.final.Done? ==> r.final.outputPath == RunLayout(base, t).output
  {
    if t.domain != VideoHost then RunResult([], NotVideo)
    else
      var l := RunLayout(base, t);
      if !o.mkdirOk then RunResult([Mkdir(l.dir)], MkdirFailed)
      else if !o.videoOk then
        RunResult([Mkdir(l.dir), DownloadVideo(t.fallbackUrl, l.video), RemoveDir(l.dir)], VideoFailed)
      else
        var steps := [
          Mkdir(l.dir),
          DownloadVideo(t.fallbackUrl, l.video),
          DownloadAudio(AudioUrl(t.url), l.audio),
          Merge(MergeArgs(AudioInput(l, o.audioOk), l.video, l.output))];
        if o.mergeExit == 0 then RunResult(steps, Done(l.output))
        else RunResult(steps + [RemoveDir(l.dir)], MergeFailed(o.mergeExit))
  }

  predicate Failed(f: Terminal) {
    f.MkdirFailed? || f.VideoFailed? || f.MergeFailed?
  }

  /** Domain gate: a thread not hosted on the video host ends the run at
      once, with no directory, no download and no merge; any other thread
      starts by creating the output directory. */
  lemma RunDomainGate(base: string, t: ThreadData, o: Outcomes)
    ensures var r := Run(base, t, o);
      && (r.final == NotVideo <==> t.domain != VideoHost)
      && (t.domain != VideoHost ==> r.trace == [])
      && (t.domain == VideoHost ==> |r.trace| > 0 && r.trace[0] == Mkdir(RunLayout(base, t).dir))
  {
  }

  /** Every action of a run comes after the creation of the output
      directory, and the directory is created only once. */
  lemma RunMkdirFirst(base: string, t: ThreadData, o: Outcomes)
    ensures var r := Run(base, t, o);
      && (|r.trace| > 0 ==> r.trace[0] == Mkdir(RunLayout(base, t).dir))
      && forall i :: 0 < i < |r.trace| ==> !r.trace[i].Mkdir?
  {
  }

  /** A failed directory creation stops the run with no cleanup: the trace
      is the creation attempt alone. */
  lemma RunMkdirFailure(base: string, t: ThreadData, o: Outcomes)
    requires t.domain == VideoHost && !o.mkdirOk
    ensures Run(base, t, o) == RunResult([Mkdir(RunLayout(base, t).dir)], MkdirFailed)
  {
  }

  /** A failed video download is fatal: after the attempt to download the
      fallback URL into the video path, the directory is removed and the
      run stops, with no audio download and no merge. */
  lemma RunVideoFailure(base: string, t: ThreadData, o: Outcomes)
    requires t.domain == VideoHost && o.mkdirOk && !o.videoOk
    ensures var r := Run(base, t, o);
      && r.final == VideoFailed
      && |r.trace| > 1 && r.trace[1] == DownloadVideo(t.fallbackUrl, RunLayout(base, t).video)
      && r.trace[|r.trace| - 1] == RemoveDir(RunLayout(base, t).dir)
      && forall i :: 0 <= i < |r.trace| ==> !r.trace[i].DownloadAudio? && !r.trace[i].Merge?
  {
  }

  /** Audio is optional: once the video is in, the run always merges, with
      the audio input exactly when the audio download succeeded, and a
      failed audio download alone never fails the run. The merge writes
      the file a successful run reports. The working
      directory is a resolved path, so it does not start with '-' and the
      tool reads the output path as a file, not an option. */
  lemma RunAudioOptional(base: string, t: ThreadData, o: Outcomes)
    requires t.domain == VideoHost && o.mkdirOk && o.videoOk
    requires !IsOption(base)
    ensures var r := Run(base, t, o);
      var l := RunLayout(base, t);
      && |r.trace| >= 4
      && r.trace[1] == DownloadVideo(t.fallbackUrl, l.video)
      && r.trace[2] == DownloadAudio(AudioUrl(t.url), l.audio)
      && r.trace[3].Merge?
      && ReadArgs(r.trace[3].args)
         == Invocation(if o.audioOk then [l.video, l.audio] else [l.video], [l.output], ["-y"])
      && (o.mergeExit == 0 ==> r.final == Done(l.output))
  {
    var l := RunLayout(base, t);
    var r := Run(base, t, o);
    assert l.output == Join(l.dir, SanitizeTitle(t.title) + Extension);
    assert !IsOption(l.output) by {
      assert l.output[0] == Join(Join(Join(base, OutputRoot), t.subreddit), SanitizeTitle(t.title))[0];
      if |base| == 0 {
        assert l.output[0] == '/';
      } else {
        assert l.output[0] == base[0];
      }
    }
    assert l.audio != "" by {
      assert |l.audio| > 0;
    }
    MergeArgsRead(AudioInput(l, o.audioOk), l.video, l.output);
  }

  /** The merge's exit code decides the end: 0 reports the output file,
      anything else removes the directory and reports the code. */
  lemma RunMergeOutcome(base: string, t: ThreadData, o: Outcomes)
    requires t.domain == VideoHost && o.mkdirOk && o.videoOk
    ensures var r := Run(base, t, o);
      var l := RunLayout(base, t);
      && (o.mergeExit == 0 ==> r.final == Done(l.output) && |r.trace| == 4)
      && (o.mergeExit != 0 ==> r.final == MergeFailed(o.mergeExit)
                               && |r.trace| == 5 && r.trace[4] == RemoveDir(l.dir))
  {
  }

  /** Cleanup happens exactly after a failed download or merge, removes the
      directory the run created, and is the run's last action. */
  lemma RunCleanupExactlyOnFailure(base: string, t: ThreadData, o: Outcomes)
    ensures var r := Run(base, t, o);
      && ((exists i :: 0 <= i < |r.trace| && r.trace[i].RemoveDir?)
          <==> (r.final.VideoFailed? || r.final.MergeFailed?))
      && forall i :: 0 <= i < |r.trace| && r.trace[i].RemoveDir? ==>
           i == |r.trace| - 1 && r.trace[i] == RemoveDir(RunLayout(base, t).dir) && r.trace[0] == Mkdir(r.trace[i].dir)
  {
    var r := Run(base, t, o);
    if r.final.VideoFailed? {
      assert r.trace[2].RemoveDir?;
    } else if r.final.MergeFailed? {
      assert r.trace[4].RemoveDir?;
    }
  }

  /** The run fails exactly when one of its required steps fails. */
  lemma RunFailsIffStepFails(base: string, t: ThreadData, o: Outcomes)
    ensures var r := Run(base, t, o);
      Failed(r.final) <==> t.domain == VideoHost && (!o.mkdirOk || !o.videoOk || o.mergeExit != 0)
  {
  }

  /** The thread used as an example of a whole run: a title ending in '.'
      loses the dot in the directory and file names, and the audio URL is
      derived from the thread URL. */
  lemma RunExample(base: string)
    ensures var t := ThreadData("v.redd.it", "test", "Cool Clip.", "u1",
                                "https://v.redd.it/x", "https://v.redd.it/x/DASH_720.mp4");
      var r := Run(base, t, Outcomes(true, true, true, 0));
      && r.final == Done(base + "/output/test/Cool Clip/Cool Clip.mp4")
      && r.trace[1] == DownloadVideo("https://v.redd.it/x/DASH_720.mp4", base + "/output/test/Cool Clip/video.mp4")
      && r.trace[2] == DownloadAudio("https://v.redd.it/x/DASH_audio.mp4", base + "/output/test/Cool Clip/audio.mp4")
  {
    var title := "Cool Clip.";
    assert title[..|title| - 1] == "Cool Clip";
    assert SanitizeTitle(title) == "Cool Clip";
    ExampleLayout(base);
    var t := ThreadData("v.redd.it", "test", title, "u1",
                        "https://v.redd.it/x", "https://v.redd.it/x/DASH_720.mp4");
    var l := RunLayout(base, t);
    assert l == LayoutFor(base, "test", "Cool Clip");
    assert AudioUrl(t.url) == "https://v.redd.it/x/DASH_audio.mp4";
    var r := Run(base, t, Outcomes(true, true, true, 0));
    assert r.trace[1] == DownloadVideo(t.fallbackUrl, l.video);
    assert r.trace[2] == DownloadAudio(AudioUrl(t.url), l.audio);
    assert r.final == Done(l.output);
  }

  /** The example thread's paths, under any working directory. */
  lemma ExampleLayout(base: string)
    ensures var l := LayoutFor(base, "test", "Cool Clip");
      && l.dir == base + "/output/test/Cool Clip"
      && l.video == base + "/output/test/Cool Clip/video.mp4"
      && l.audio == base + "/output/test/Cool Clip/audio.mp4"
      && l.output == base + "/output/test/Cool Clip/Cool Clip.mp4"
  {
  }
}
