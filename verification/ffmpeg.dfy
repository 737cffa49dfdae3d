/** The argument list handed to the external `ffmpeg` tool
    (grabVideo.js:89-93), and a reader that recovers what the list asks the
    tool to do. */
module Ffmpeg {
  import opened Wrappers

  /** JavaScript truthiness of the audio path: `null` and the empty string
      both count as "no audio". */
  predicate HasAudio(audioPath: Option<string>) {
    audioPath.Some? && audioPath.value != ""
  }

  /** `['-y', outputPath, '-i', videoPath]`, extended by `['-i', audioPath]`
      when an audio path is given. The output path comes before the inputs,
      as written. */
  function MergeArgs(audioPath: Option<string>, videoPath: string, outputPath: string): (args: seq<string>)
    ensures |args| == (if HasAudio(audioPath) then 6 else 4)
    ensures args[..4] == ["-y", outputPath, "-i", videoPath]
    ensures HasAudio(audioPath) ==> args[4..] == ["-i", audioPath.value]
  {
    var base := ["-y", outputPath, "-i", videoPath];
    if HasAudio(audioPath) then base + ["-i", audioPath.value] else base
  }

  /** What a command line asks for: the files read with `-i`, the
      positional output files, and the remaining option flags. */
  datatype Invocation = Invocation(inputs: seq<string>, outputs: seq<string>, flags: seq<string>)

  predicate IsOption(arg: string) {
    |arg| > 0 && arg[0] == '-'
  }

  /** Reads a command line left to right: `-i` takes the next argument as
      an input, other arguments starting with '-' are flags, and everything
      else names an output. A trailing `-i` with nothing after it is kept
      as a flag. */
  function ReadArgs(args: seq<string>): (inv: Invocation)
    ensures |inv.outputs| <= |args|
    decreases |args|
  {
    if |args| == 0 then Invocation([], [], [])
    else if args[0] == "-i" && |args| >= 2 then
      var rest := ReadArgs(args[2..]);
      rest.(inputs := [args[1]] + rest.inputs)
    else if IsOption(args[0]) then
      var rest := ReadArgs(args[1..]);
      rest.(flags := [args[0]] + rest.flags)
    else
      var rest := ReadArgs(args[1..]);
      rest.(outputs := [args[0]] + rest.outputs)
  }

  /** The inputs the merge reads: the video, then the audio when there is
      one. */
  function MergeInputs(audioPath: Option<string>, videoPath: string): seq<string> {
    [videoPath] + (if HasAudio(audioPath) then [audioPath.value] else [])
  }

  /** Read back, the argument list asks for one output file, the
      overwrite flag, and the video (then the audio, if any) as inputs,
      provided the output path does not itself look like an option. The
      input paths are read as inputs whatever they look like. */
  lemma MergeArgsRead(audioPath: Option<string>, videoPath: string, outputPath: string)
    requires !IsOption(outputPath)
    ensures ReadArgs(MergeArgs(audioPath, videoPath, outputPath))
         == Invocation(MergeInputs(audioPath, videoPath), [outputPath], ["-y"])
  {
    var args := MergeArgs(audioPath, videoPath, outputPath);
    var audioInputs := MergeInputs(audioPath, videoPath)[1..];
    if HasAudio(audioPath) {
      assert args[4..][2..] == [];
    } else {
      assert args[4..] == [];
    }
    assert ReadArgs(args[4..]) == Invocation(audioInputs, [], []);
    assert args[2..][2..] == args[4..];
    assert ReadArgs(args[2..]) == Invocation([videoPath] + audioInputs, [], []);
    assert args[1..][1..] == args[2..];
    assert ReadArgs(args[1..]) == Invocation([videoPath] + audioInputs, [outputPath], []);
  }
}
