/** The title sanitiser: a thread title becomes a directory and file name
    component once its trailing dots are gone (grabVideo.js:7-10). */
module Title {

  predicate EndsWithDot(s: string) {
    |s| > 0 && s[|s| - 1] == '.'
  }

  predicate AllDots(s: string) {
    forall i :: 0 <= i < |s| ==> s[i] == '.'
  }

  /** Drops one trailing '.' per call until none is left. The result is a
      prefix of the title, what was cut off is dots only, and nothing but
      dots is ever cut. */
  function SanitizeTitle(title: string): (safe: string)
    ensures !EndsWithDot(safe)
    ensures safe <= title
    ensures AllDots(title[|safe|..])
    ensures !EndsWithDot(title) ==> safe == title
    decreases |title|
  {
    if EndsWithDot(title) then SanitizeTitle(title[..|title| - 1]) else title
  }

  /** Splitting a title into a stem that does not end in '.' and a run of
      dots determines the sanitised title: it is exactly the stem. */
  lemma {:induction false} SanitizeTitleStripsDots(stem: string, dots: string)
    requires !EndsWithDot(stem)
    requires AllDots(dots)
    ensures SanitizeTitle(stem + dots) == stem
    decreases |dots|
  {
    if |dots| == 0 {
      assert stem + dots == stem;
    } else {
      var shorter := dots[..|dots| - 1];
      assert (stem + dots)[..|stem + dots| - 1] == stem + shorter;
      SanitizeTitleStripsDots(stem, shorter);
    }
  }

  /** Sanitising twice is the same as sanitising once. */
  lemma SanitizeTitleIdempotent(title: string)
    ensures SanitizeTitle(SanitizeTitle(title)) == SanitizeTitle(title)
  {
  }

  /** A title changes under sanitising exactly when it ends in '.'. */
  lemma SanitizeTitleChangesIffTrailingDot(title: string)
    ensures SanitizeTitle(title) != title <==> EndsWithDot(title)
  {
  }
}
