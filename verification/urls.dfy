/** URLs derived from the thread URL and the thread record: the metadata
    URL (grabVideo.js:16) and the audio stream URL (grabVideo.js:129). */
module Urls {
  import opened Wrappers
  import opened Paths

  /** The characters ECMAScript's `\s` class matches: the WhiteSpace
      characters (tab, vertical tab, form feed, space, no-break space, the
      byte-order mark and the other Unicode space separators) and the
      LineTerminator characters. */
  predicate IsJsSpace(c: char) {
    || c == '\t' || c == '\U{000B}' || c == '\U{000C}' || c == ' '
    || c == '\U{00A0}' || c == '\U{FEFF}' || c == '\U{1680}'
    || ('\U{2000}' <= c <= '\U{200A}')
    || c == '\U{202F}' || c == '\U{205F}' || c == '\U{3000}'
    || c == '\n' || c == '\r' || c == '\U{2028}' || c == '\U{2029}'
  }

  predicate AllSpace(s: string) {
    forall i :: 0 <= i < |s| ==> IsJsSpace(s[i])
  }

  /** True when the URL ends in '/' followed by nothing but `\s` characters:
      the text the pattern `/\/\s*$/` matches somewhere. */
  predicate HasSlashSpaceSuffix(url: string) {
    exists i :: 0 <= i < |url| && url[i] == '/' && AllSpace(url[i + 1..])
  }

  /** The URL with its longest all-space suffix removed. */
  function TrimEndSpace(s: string): (t: string)
    ensures t <= s
    ensures AllSpace(s[|t|..])
    ensures |t| > 0 ==> !IsJsSpace(t[|t| - 1])
    decreases |s|
  {
    if |s| > 0 && IsJsSpace(s[|s| - 1]) then TrimEndSpace(s[..|s| - 1]) else s
  }

  const JsonSuffix := ".json"

  /** `threadURL.replace(/\/\s*$/, ".json")`: a final '/' and the spaces
      after it become ".json"; any other URL is left as it is. */
  function JsonUrl(threadUrl: string): (r: string)
    ensures r != threadUrl <==> HasSlashSpaceSuffix(threadUrl)
    ensures forall i :: 0 <= i < |threadUrl| && threadUrl[i] == '/' && AllSpace(threadUrl[i + 1..]) ==>
              r == threadUrl[..i] + JsonSuffix
  {
    var t := TrimEndSpace(threadUrl);
    if |t| > 0 && t[|t| - 1] == '/' then t[..|t| - 1] + JsonSuffix else threadUrl
  }

  /** Trimming a text that ends in a non-space character followed by spaces
      removes exactly those spaces. */
  lemma {:induction false} TrimEndSpaceExact(stem: string, spaces: string)
    requires |stem| > 0 && !IsJsSpace(stem[|stem| - 1])
    requires AllSpace(spaces)
    ensures TrimEndSpace(stem + spaces) == stem
    decreases |spaces|
  {
    if |spaces| == 0 {
      assert stem + spaces == stem;
    } else {
      var shorter := spaces[..|spaces| - 1];
      assert (stem + spaces)[..|stem + spaces| - 1] == stem + shorter;
      TrimEndSpaceExact(stem, shorter);
    }
  }

  /** The rewrite of a URL `p + "/" + w`, with `w` all spaces, is
      `p + ".json"`, whichever way the URL is split. */
  lemma JsonUrlRewrites(prefix: string, spaces: string)
    requires AllSpace(spaces)
    ensures JsonUrl(prefix + "/" + spaces) == prefix + JsonSuffix
  {
    var u := prefix + "/" + spaces;
    assert u == (prefix + "/") + spaces;
    TrimEndSpaceExact(prefix + "/", spaces);
  }

  /** The URL is rewritten exactly when it ends in '/' and spaces; the
      rewritten form always differs from the input. */
  lemma JsonUrlChangesIffSlashSuffix(url: string)
    ensures JsonUrl(url) != url <==> HasSlashSpaceSuffix(url)
  {
  }

  /** Rewriting is idempotent: a rewritten URL ends in ".json" and is not
      rewritten again. */
  lemma JsonUrlIdempotent(url: string)
    ensures JsonUrl(JsonUrl(url)) == JsonUrl(url)
  {
  }

  const AudioSuffix := "DASH_audio.mp4"

  /** The audio stream is guessed as the fixed file `DASH_audio.mp4` under
      the thread's media URL. */
  function AudioUrl(mediaUrl: string): (r: string)
    ensures SplitLast(r) == Some((mediaUrl, AudioSuffix))
  {
    SplitLastJoin(mediaUrl, AudioSuffix);
    Join(mediaUrl, AudioSuffix)
  }
}
