/** File-system paths of one run. `path.resolve` is modelled as plain
    '/'-joining under a fixed base directory, with no normalisation
    (grabVideo.js:133-136). */
module Paths {
  import opened Wrappers

  /** `dir/name`. */
  function Join(dir: string, name: string): string {
    dir + "/" + name
  }

  /** Splits a path at its last '/' into the part before it and the final
      segment; None when the path holds no '/'. */
  function SplitLast(p: string): (r: Option<(string, string)>)
    ensures r.None? <==> '/' !in p
    ensures r.Some? ==> p == Join(r.value.0, r.value.1) && '/' !in r.value.1
    decreases |p|
  {
    if |p| == 0 then None
    else if p[|p| - 1] == '/' then Some((p[..|p| - 1], ""))
    else
      match SplitLast(p[..|p| - 1])
      case None => None
      case Some((dir, name)) => Some((dir, name + [p[|p| - 1]]))
  }

  /** Joining a directory with a name free of '/' and splitting the result
      again gives back the directory and the name. */
  lemma {:induction false} SplitLastJoin(dir: string, name: string)
    requires '/' !in name
    ensures SplitLast(Join(dir, name)) == Some((dir, name))
    decreases |name|
  {
    if |name| == 0 {
      assert Join(dir, name)[..|Join(dir, name)| - 1] == dir;
    } else {
      var init := name[..|name| - 1];
      var last := name[|name| - 1];
      assert name == init + [last];
      assert '/' !in init by {
        forall k | 0 <= k < |init| ensures init[k] != '/' {
          assert init[k] == name[k];
        }
      }
      assert Join(dir, name) == Join(dir, init) + [last];
      assert Join(dir, name)[..|Join(dir, name)| - 1] == Join(dir, init);
      SplitLastJoin(dir, init);
    }
  }

  /** The four paths of one run: the output directory, the two downloaded
      streams and the merged file. */
  datatype Layout = Layout(dir: string, video: string, audio: string, output: string)

  const OutputRoot := "output"
  const VideoFile := "video.mp4"
  const AudioFile := "audio.mp4"
  const Extension := ".mp4"

  /** The layout `<base>/output/<subreddit>/<safeTitle>/{video.mp4,
      audio.mp4, <safeTitle>.mp4}` under the working directory `base`. */
  function LayoutFor(base: string, subreddit: string, safeTitle: string): (l: Layout)
    ensures l.video != l.audio
  {
    var dir := Join(Join(Join(base, OutputRoot), subreddit), safeTitle);
    assert Join(dir, VideoFile)[|dir| + 1] != Join(dir, AudioFile)[|dir| + 1];
    Layout(dir, Join(dir, VideoFile), Join(dir, AudioFile), Join(dir, safeTitle + Extension))
  }

  /** Both downloads land directly inside the output directory, and so does
      the merged file whenever the title holds no '/'; for such a title
      that is not empty, the output directory is the entry of
      `<base>/output/<subreddit>` named by the title. */
  lemma LayoutFilesInDir(base: string, subreddit: string, safeTitle: string)
    ensures var l := LayoutFor(base, subreddit, safeTitle);
      && SplitLast(l.video) == Some((l.dir, VideoFile))
      && SplitLast(l.audio) == Some((l.dir, AudioFile))
      && ('/' !in safeTitle ==> SplitLast(l.output) == Some((l.dir, safeTitle + Extension)))
      && ('/' !in safeTitle && safeTitle != "" ==> SplitLast(l.dir) == Some((Join(Join(base, OutputRoot), subreddit), safeTitle)))
  {
    var l := LayoutFor(base, subreddit, safeTitle);
    SplitLastJoin(l.dir, VideoFile);
    SplitLastJoin(l.dir, AudioFile);
    if '/' !in safeTitle {
      assert '/' !in safeTitle + Extension;
      SplitLastJoin(l.dir, safeTitle + Extension);
      SplitLastJoin(Join(Join(base, OutputRoot), subreddit), safeTitle);
    }
  }

  /** An empty title (one made of dots only, once sanitised) gives no
      directory of its own: the output directory is the subreddit's
      directory with a '/' appended, and the merged file is `.mp4` in it. */
  lemma LayoutEmptyTitle(base: string, subreddit: string)
    ensures var l := LayoutFor(base, subreddit, "");
      && l.dir == Join(Join(base, OutputRoot), subreddit) + "/"
      && SplitLast(l.dir) == Some((Join(Join(base, OutputRoot), subreddit), ""))
      && SplitLast(l.output) == Some((l.dir, Extension))
  {
    var l := LayoutFor(base, subreddit, "");
    SplitLastJoin(Join(Join(base, OutputRoot), subreddit), "");
    assert "" + Extension == Extension;
    SplitLastJoin(l.dir, Extension);
  }

  /** Titles are not checked for '/': under '/'-joining, a title holding
      one makes the merged file's last path segment sit somewhere other
      than directly in the output directory. */
  lemma LayoutTitleSlashEscapesDir(base: string, subreddit: string, safeTitle: string)
    requires '/' in safeTitle
    ensures var l := LayoutFor(base, subreddit, safeTitle);
      SplitLast(l.output).Some? && SplitLast(l.output).value.0 != l.dir
  {
    var l := LayoutFor(base, subreddit, safeTitle);
    var r := SplitLast(l.output);
    if r.value.0 == l.dir {
      JoinCancel(l.dir, r.value.1, safeTitle + Extension);
      assert false;
    }
  }

  /** Two names joined under the same directory give the same path only
      when the names are equal. */
  lemma JoinCancel(dir: string, a: string, b: string)
    requires Join(dir, a) == Join(dir, b)
    ensures a == b
  {
    var k := |dir| + 1;
    assert a == Join(dir, a)[k..];
    assert b == Join(dir, b)[k..];
  }

  /** Under '/'-joining, the merged file's path equals a downloaded
      stream's path exactly when the sanitised title is "video" or
      "audio". */
  lemma LayoutOutputCollision(base: string, subreddit: string, safeTitle: string)
    ensures var l := LayoutFor(base, subreddit, safeTitle);
      && (l.output == l.video <==> safeTitle == "video")
      && (l.output == l.audio <==> safeTitle == "audio")
  {
    var l := LayoutFor(base, subreddit, safeTitle);
    if l.output == l.video {
      JoinCancel(l.dir, safeTitle + Extension, VideoFile);
      assert safeTitle == (safeTitle + Extension)[..|safeTitle|];
    }
    if l.output == l.audio {
      JoinCancel(l.dir, safeTitle + Extension, AudioFile);
      assert safeTitle == (safeTitle + Extension)[..|safeTitle|];
    }
  }
}
