/**
 * The regular-expression tests the collector applies to declaration values
 * and urls. The three `ignore*` patterns are plain ASCII alternations and are
 * written out exactly; the `image` and `css` patterns, which capture groups,
 * are given as matcher functions.
 */
module CssPatterns {
  import opened Wrappers
  import opened JsText

  /**
   * The string a regular-expression test sees for a property value:
   * `regexp.test(undefined)` tests the text "undefined".
   */
  function Tested(value: Option<string>): string {
    value.GetOr("undefined")
  }

  /** `/^(https?|ftp):\/\//i`: a url on the network. */
  predicate IgnoreNetwork(s: string) {
    StartsWithCI(s, "http://") || StartsWithCI(s, "https://") || StartsWithCI(s, "ftp://")
  }

  /** `/right|center|bottom/i`: a position the browser adapts, which a sprite cannot reproduce. */
  predicate IgnorePosition(s: string) {
    ContainsCI(s, "right") || ContainsCI(s, "center") || ContainsCI(s, "bottom")
  }

  /** `/^(repeat-x|repeat-y|repeat)$/i`: an explicitly tiled image. */
  predicate IgnoreRepeat(s: string) {
    EqualsCI(s, "repeat-x") || EqualsCI(s, "repeat-y") || EqualsCI(s, "repeat")
  }

  /**
   * getImageUrl: the url captured by the `image` pattern, kept only when its
   * extension occurs in the configured input format (`format.indexOf(ext) > -1`).
   * `matcher` returns the pattern's first two groups, the url and its extension.
   */
  function GetImageUrl(value: string, matcher: string -> Option<(string, string)>, format: string): (r: Option<string>)
    ensures r.Some? <==> matcher(value).Some? && Contains(format, matcher(value).value.1)
    ensures r.Some? ==> r.value == matcher(value).value.0
  {
    match matcher(value)
    case None => None
    case Some(m) => if Contains(format, m.1) then Some(m.0) else None
  }

  /** Only an image whose extension is a part of the format string is taken: with format `png`, a `jpg` is not. */
  lemma GetImageUrlNeedsFormat(value: string, matcher: string -> Option<(string, string)>)
    requires matcher(value).Some? && matcher(value).value.1 == "jpg"
    ensures GetImageUrl(value, matcher, "png") == None
  {
    var ext := matcher(value).value.1;
    forall i | 0 <= i <= |"png"| - |ext|
      ensures !OccursAt("png", ext, i)
    {
      assert i == 0;
      assert "png"[0] != ext[0];
    }
  }

  /** A missing property (tested as "undefined") never asks for a declaration to be skipped. */
  lemma UndefinedIsNotIgnored()
    ensures !IgnorePosition(Tested(None))
    ensures !IgnoreRepeat(Tested(None))
  {
    var u := Tested(None);
    assert u == "undefined";
    NotContainsCI(u, "right");
    NotContainsCI(u, "center");
    NotContainsCI(u, "bottom");
    assert !EqualsCI(u, "repeat") by {
      assert |u| != |"repeat"|;
    }
  }

  /** No letter of "undefined" begins a position keyword. */
  lemma NotContainsCI(u: string, word: string)
    requires u == "undefined"
    requires word == "right" || word == "center" || word == "bottom"
    ensures !ContainsCI(u, word)
  {
    forall i | 0 <= i <= |u| - |word|
      ensures !OccursAtCI(u, word, i)
    {
      assert Lower(u[i]) != Lower(word[0]);
      assert u[i..i + |word|][0] == u[i];
    }
  }

  /** The network test is case-insensitive: `HTTP://` counts like `http://`. */
  lemma NetworkIgnoresCase(rest: string)
    ensures IgnoreNetwork("HTTP://" + rest)
  {
    var s := "HTTP://" + rest;
    assert s[0..7] == "HTTP://";
    assert EqualsCI(s[0..7], "http://");
  }
}
