# reddit-video-grabber, modelled in Dafny

`grabVideo.js` is a command-line script that takes the URL of one Reddit
thread, fetches the thread's JSON, and, when the thread hosts a `v.redd.it`
video, downloads the video stream and the separate DASH audio stream into
`output/<subreddit>/<title>/` and has `ffmpeg` merge them into
`<title>.mp4`. A failed video download or merge triggers cleanup of the
output directory; a failed audio download (a non-200 response or a write
error) only drops the audio from the merge.

This project models the decision logic of that script as pure functions and
proves what it guarantees:

- `Title` — the title sanitiser that strips trailing dots.
- `Paths` — `'/'`-joined paths under a fixed working directory, a splitter
  that recovers the last path segment, and the output layout of a run.
- `Urls` — the JSON-URL rewrite `threadURL.replace(/\/\s*$/, ".json")`, with
  the ECMAScript `\s` character class written out, and the audio URL.
- `Ffmpeg` — the argument list handed to `ffmpeg`, plus a reader of argument
  lists that recovers the inputs, outputs and flags the list asks for.
- `Orchestrator` — `run` as a function from the thread record, the working
  directory and the outcome of every side effect (directory creation, the
  two downloads, the merge's exit code) to a trace of requested actions and
  a terminal state (`NotVideo`, `MkdirFailed`, `VideoFailed`,
  `MergeFailed(code)`, `Done(outputPath)`).
- `RunMachine` — the same run as a phase-by-phase state machine, proved to
  produce exactly the trace and terminal state of `Orchestrator.Run`.

Titles are only stripped of trailing dots, and the model joins paths with
'/' without normalising them. Three facts about the model follow from that:
- A title holding `/` makes the merged file's last path segment sit
  somewhere other than directly in the output directory
  (`Paths.LayoutTitleSlashEscapesDir`).
- A title that sanitises to `video` or `audio` gives the merged file the
  same path as one of the downloads (`Paths.LayoutOutputCollision`).
- A title made only of dots sanitises to the empty string, and the output
  directory is then the subreddit's directory with a '/' appended
  (`Paths.LayoutEmptyTitle`). `path.resolve` turns that into the subreddit's
  directory itself, so cleanup after a failure in such a run would delete
  the files of earlier runs in that subreddit.

The merge arguments are built as grabVideo.js:92-93 builds them: the output
path comes before `-i video`. The argument reader in `Ffmpeg` shows
that the list still names one output and the right inputs.

Cleanup in grabVideo.js deletes only the files inside the output directory
(see "Left out"). The model keeps it as one abstract `RemoveDir` action, always the
last action of a run.

## Model

| member | source | states |
|---|---|---|
| Title.SanitizeTitle | grabVideo.js:7-10 | the sanitised title never ends in '.', is a prefix of the title, only dots were removed, and a title not ending in '.' is returned unchanged |
| Title.SanitizeTitleStripsDots | grabVideo.js:7-10 | for any title written as a stem not ending in '.' followed by dots, the result is exactly that stem |
| Title.SanitizeTitleIdempotent | grabVideo.js:7-10 | sanitising a sanitised title changes nothing |
| Title.SanitizeTitleChangesIffTrailingDot | grabVideo.js:8-9 | a title changes exactly when it ends in '.' |
| Paths.LayoutFor | grabVideo.js:133-136 | the video and audio download paths of a run differ |
| Paths.LayoutFilesInDir | grabVideo.js:133-136 | video.mp4 and audio.mp4 sit directly in the output directory; so does `<title>.mp4` whenever the title has no '/', and a non-empty such title names the directory's entry under `<base>/output/<subreddit>` |
| Paths.LayoutEmptyTitle | grabVideo.js:125-136 | with an empty sanitised title the output directory is `<base>/output/<subreddit>` plus a trailing '/', and the merged file is `.mp4` in it |
| Paths.LayoutTitleSlashEscapesDir | grabVideo.js:125-136 | under '/'-joining, a sanitised title containing '/' puts the merged file's last segment somewhere other than directly in the output directory |
| Paths.LayoutOutputCollision | grabVideo.js:134-136 | under '/'-joining, the merged file's path equals the video path exactly when the title is "video", and the audio path exactly when it is "audio" |
| Urls.JsonUrl | grabVideo.js:16 | the URL changes exactly when it ends in '/' followed only by `\s` characters, and then that '/' and the spaces are replaced by ".json" |
| Urls.JsonUrlRewrites | grabVideo.js:16 | a URL of the form `p + "/" + spaces` becomes `p + ".json"` |
| Urls.JsonUrlChangesIffSlashSuffix | grabVideo.js:16 | the URL is rewritten exactly when it ends in '/' followed only by `\s` characters, and is returned unchanged otherwise |
| Urls.JsonUrlIdempotent | grabVideo.js:16 | rewriting an already rewritten URL changes nothing |
| Urls.AudioUrl | grabVideo.js:129 | the audio URL's last segment is `DASH_audio.mp4` and everything before it is the thread's media URL |
| Ffmpeg.MergeArgs | grabVideo.js:92-93 | the arguments start `-y, out, -i, video`; they have 6 entries ending `-i, audio` when the audio path is truthy, and 4 otherwise |
| Ffmpeg.MergeArgsRead | grabVideo.js:92-93 | read back, the arguments name one output, the `-y` flag, and the inputs video then audio (if any) |
| Orchestrator.Run | grabVideo.js:107-184 | a run asks for at most five actions, and a successful run reports the layout's output file |
| Orchestrator.RunDomainGate | grabVideo.js:114-120 | the run ends as NotVideo exactly when the domain is not v.redd.it, and then its trace is empty (no mkdir, download or merge); otherwise it starts with mkdir of the output directory |
| Orchestrator.RunMkdirFirst | grabVideo.js:138-159 | a non-empty trace starts with the mkdir of the output directory, and no later action is a mkdir |
| Orchestrator.RunMkdirFailure | grabVideo.js:138-144 | a failed mkdir ends the run as MkdirFailed after the mkdir alone, with no cleanup |
| Orchestrator.RunVideoFailure | grabVideo.js:146-155 | a failed video download of the fallback URL into the video path ends as VideoFailed with RemoveDir last, and no audio download or merge happens |
| Orchestrator.RunAudioOptional | grabVideo.js:157-175 | once the video (fallback URL into the video path) is in, the audio is always requested and the merge always runs; read back, the merge writes the layout's output file with `-y` and reads the video, plus the audio exactly when the audio download succeeded; exit code 0 ends in Done(output file) whatever happened to the audio |
| Orchestrator.RunMergeOutcome | grabVideo.js:174-183 | exit code 0 ends in Done(output path) after four actions; any other code ends in MergeFailed(code) with RemoveDir as the fifth and last action |
| Orchestrator.RunCleanupExactlyOnFailure | grabVideo.js:150-155 | RemoveDir occurs exactly in runs ending VideoFailed or MergeFailed, always last, and always on the directory the run created |
| Orchestrator.RunFailsIffStepFails | grabVideo.js:107-184 | a run fails exactly when the domain is v.redd.it and mkdir, the video download or the merge fails |
| Orchestrator.RunExample | grabVideo.js:122-136 | the thread titled "Cool Clip." ends in Done(`<base>/output/test/Cool Clip/Cool Clip.mp4`), downloading `…/x/DASH_720.mp4` and `…/x/DASH_audio.mp4` |
| RunMachine.Step | grabVideo.js:117-181 | each phase asks for at most one action and moves strictly forward; a failure terminal is reached only from mkdir or from cleanup |
| RunMachine.Exec | grabVideo.js:107-184 | running the machine from a phase yields at most one action per remaining phase |
| RunMachine.MachineAgreesWithRun | grabVideo.js:107-184 | the phase machine started at the domain check gives the same trace and terminal state as Orchestrator.Run |

## Left out

- Fetching the thread JSON (grabVideo.js:13-27): HTTP is I/O. The run takes the extracted record (`ThreadData`) as input. A failed fetch is not modelled. In the code it rejects and then crashes on `body[0]` because `return` is missing after `reject`. An unexpected JSON shape is not modelled either.
- `downloadFile` (grabVideo.js:30-65): network and file I/O. A `false` in `Outcomes.videoOk` or `Outcomes.audioOk` models the rejections at grabVideo.js:41-44 (non-200 status) and 60-63 (write error). The request-error path at grabVideo.js:48-51 calls `fs.unlink` without a callback, which throws inside the listener and ends the process without rejecting; that crash is not modelled, so after it there is neither the cleanup nor the audio-less merge the model shows.
- `spawn` (grabVideo.js:96) has no 'error' listener, so a missing ffmpeg ends the process with no cleanup; this crash is not modelled.
- No step has a timeout, so any download or the merge can hang forever; hangs are not modelled.
- `removeDirectory` (grabVideo.js:68-85): file-system traversal, modelled as the single `RemoveDir` action. As written it deletes only files. It never removes a directory itself, does not wait for its recursive calls, and never resolves its promise on success. So the `await` at grabVideo.js:153 and 179 never returns, and RemoveDir is always the last action.
- `spawn("ffmpeg", …)` and its exit event (grabVideo.js:96-102): an external process. Only the argument list is modelled, with the exit code as an integer input. A process killed by a signal reports a `null` code, which the code treats as failure; this is not modelled.
- `path.resolve` (grabVideo.js:133-136) is modelled as plain `'/'`-joining under a working directory `base`. Normalisation of `.` and `..` segments, repeated slashes and trailing slashes is not modelled.
- Paths.LayoutTitleSlashEscapesDir: holds of '/'-joined paths only. Under `path.resolve` a title such as "/x", "./x" or "a/../x" still puts the merged file directly in the output directory.
- Paths.LayoutOutputCollision: holds of '/'-joined paths only. Under `path.resolve` titles such as "./video" or "/video" also make the merged file's path equal the video path.
- Paths.LayoutFilesInDir: the statement about the directory's own name excludes the empty title. That case is stated separately by Paths.LayoutEmptyTitle; `path.resolve` then yields the subreddit's directory itself.
- Orchestrator.RunAudioOptional: assumes the working directory does not start with '-'. `path.resolve` always returns an absolute path, so this holds for the real program.
- Reading the thread URL from `process.argv` (grabVideo.js:109-111) is left out: the URL is a parameter of `Urls.JsonUrl`.
- Console logging is left out (grabVideo.js:118, 130, 141-142 and the other `console.log` lines). The `author` field is kept in `ThreadData`, but only the log line at grabVideo.js:130 reads it, so no action depends on it.
- Promise scheduling and the top-level `try` around `run()` (grabVideo.js:186-190) are left out. The pipeline is modelled as strictly sequential.
- The model keeps grabVideo.js's argument order (the output path before `-i video`). It does not model an ffmpeg that rejects that order.
