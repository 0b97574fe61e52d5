/**
 * createSpriteImageName: the file name of a composite image, made of the
 * configured image directory and prefix, a name taken from the style
 * sheet's file name, and the output format.
 */
module Naming {
  import opened JsText

  /** The output settings a composite's name depends on. */
  datatype NameConfig = NameConfig(imageDist: string, prefix: string, format: string, maxSingleSize: int, combine: bool)

  /** path.basename of a file path (one not ending in '/'): the part after the last '/'. */
  function Basename(path: string): (b: string)
    ensures '/' !in b
    ensures |b| <= |path| && path[|path| - |b|..] == b
    ensures |b| < |path| ==> path[|path| - |b| - 1] == '/'
    decreases |path|
  {
    if path == [] || path[|path| - 1] == '/' then []
    else
      var init, last := path[..|path| - 1], path[|path| - 1];
      var b := Basename(init);
      assert path[|path| - |b| - 1..] == init[|init| - |b|..] + [last];
      b + [last]
  }

  /** The index of the last '.' of s, -1 when there is none. */
  function LastDot(s: string): (i: int)
    ensures -1 <= i < |s|
    ensures i >= 0 ==> s[i] == '.'
    ensures forall k :: i < k < |s| ==> s[k] != '.'
    decreases |s|
  {
    if s == [] then -1 else if s[|s| - 1] == '.' then |s| - 1 else LastDot(s[..|s| - 1])
  }

  /**
   * path.extname of a base name: from its last '.' to the end, or empty when
   * it has no '.', when that '.' is its first character (`.htaccess`), or
   * for `..`.
   */
  function Extname(b: string): (e: string)
    ensures |e| <= |b| && b[|b| - |e|..] == e
    ensures e != [] ==> e[0] == '.' && '.' !in e[1..] && |e| < |b|
  {
    var i := LastDot(b);
    if i <= 0 || b == ".." then "" else b[i..]
  }

  /** `s.indexOf(sub, from)`, -1 when sub does not occur from there on. */
  function IndexFrom(s: string, sub: string, from: nat): (i: int)
    ensures i == -1 || (from <= i && OccursAt(s, sub, i))
    ensures forall k :: from <= k && (i == -1 || k < i) ==> !OccursAt(s, sub, k)
    decreases |s| - from
  {
    if from + |sub| > |s| then -1
    else if OccursAt(s, sub, from) then from
    else IndexFrom(s, sub, from + 1)
  }

  /** `s.replace(sub, '')` with a string pattern: only the first occurrence goes. */
  function ReplaceFirst(s: string, sub: string): string {
    var i := IndexFrom(s, sub, 0);
    if i < 0 then s else s[..i] + s[i + |sub|..]
  }

  /** createSpriteImageName's `basename.replace(extname, '')`, as written. */
  function StemAsWritten(b: string): string {
    ReplaceFirst(b, Extname(b))
  }

  /** The base name without its extension, as intended: the extension cut off the end. */
  function Stem(b: string): string {
    b[..|b| - |Extname(b)|]
  }

  /**
   * Where the extension occurs nowhere earlier in the base name, which is
   * the usual case, the replacement does cut it off the end.
   */
  lemma StemAsWrittenUsually(b: string)
    requires ExtensionOnlyAtEnd(b)
    ensures StemAsWritten(b) == Stem(b)
  {
    var e := Extname(b);
    var i := IndexFrom(b, e, 0);
    assert OccursAt(b, e, |b| - |e|);
    assert i == |b| - |e|;
    assert b[i + |e|..] == [];
  }

  /**
   * As written, two different style sheets in one directory can get the
   * same stem, so their composites overwrite each other: the `.css` of
   * `a.css.b.css` and of `a.b.css.css` is removed where it first occurs,
   * leaving `a.b.css` for both.
   */
  lemma StemAsWrittenCollides()
    ensures StemAsWritten("a.css.b.css") == "a.b.css"
    ensures StemAsWritten("a.b.css.css") == "a.b.css"
    ensures Stem("a.css.b.css") == "a.css.b" && Stem("a.b.css.css") == "a.b.css"
  {
    InnerExtension();
    DoubledExtension();
  }

  lemma InnerExtension()
    ensures StemAsWritten("a.css.b.css") == "a.b.css" && Stem("a.css.b.css") == "a.css.b"
  {
    var s: string := "a.css.b.css";
    var e: string := ".css";
    assert LastDot(s) == 7 by {
      assert s[7] == '.' && s[8..] == "css";
      assert s[..|s| - 1][..|s| - 2][..|s| - 3] == s[..8];
    }
    assert Extname(s) == e by { assert s[7..] == e; }
    assert OccursAt(s, e, 1) by { assert s[1..5] == e; }
    assert !OccursAt(s, e, 0) by { assert s[0..4][0] == 'a'; }
    assert IndexFrom(s, e, 0) == 1;
    assert s[..1] + s[5..] == "a.b.css";
    assert s[..|s| - 4] == "a.css.b";
  }

  lemma DoubledExtension()
    ensures StemAsWritten("a.b.css.css") == "a.b.css" && Stem("a.b.css.css") == "a.b.css"
  {
    var s: string := "a.b.css.css";
    var e: string := ".css";
    assert LastDot(s) == 7 by {
      assert s[7] == '.' && s[8..] == "css";
      assert s[..|s| - 1][..|s| - 2][..|s| - 3] == s[..8];
    }
    assert Extname(s) == e by { assert s[7..] == e; }
    assert OccursAt(s, e, 3) by { assert s[3..7] == e; }
    assert !OccursAt(s, e, 0) by { assert s[0..4][0] == 'a'; }
    assert !OccursAt(s, e, 1) by { assert s[1..5][1] == 'b'; }
    assert !OccursAt(s, e, 2) by { assert s[2..6][0] == 'b'; }
    assert IndexFrom(s, e, 0) == 3;
    assert s[..3] + s[7..] == "a.b.css";
    assert s[..|s| - 4] == "a.b.css";
  }

  /**
   * As intended, a base name is its stem followed by its extension, so two
   * base names with the same extension and the same stem are the same.
   */
  lemma StemInjective(b1: string, b2: string)
    requires Extname(b1) == Extname(b2) && Stem(b1) == Stem(b2)
    ensures b1 == b2
  {
    assert b1 == Stem(b1) + Extname(b1);
    assert b2 == Stem(b2) + Extname(b2);
  }

  /** The name part: the file's stem, numbered in split mode, `all` for a combined sheet not split. */
  function NamePart(cssFileName: string, index: nat, total: int, cfg: NameConfig): string {
    var name := if cssFileName != "" then StemAsWritten(Basename(cssFileName)) else "";
    if cfg.maxSingleSize != 0 && total > 1 then name + ((if cfg.combine then "" else "_") + IntToString(index))
    else if cfg.combine then "all"
    else name
  }

  /**
   * createSpriteImageName(cssFileName, index, total): the image directory,
   * the prefix, the name part, a dot and the output format.
   */
  function SpriteImageName(cssFileName: string, index: nat, total: int, cfg: NameConfig): string {
    cfg.imageDist + cfg.prefix + NamePart(cssFileName, index, total, cfg) + ("." + cfg.format)
  }

  /** The names of the `total` composites of one style sheet, in batch order. */
  function SpriteNames(cssFileName: string, total: nat, cfg: NameConfig): (r: seq<string>)
    ensures |r| == total
    ensures forall i :: 0 <= i < total ==> r[i] == SpriteImageName(cssFileName, i, total, cfg)
  {
    seq(total, i requires 0 <= i < total => SpriteImageName(cssFileName, i, total, cfg))
  }

  lemma PrefixCancel(p: string, x: string, y: string)
    requires p + x == p + y
    ensures x == y
  {
    assert x == (p + x)[|p|..];
    assert y == (p + y)[|p|..];
  }

  lemma SuffixCancel(x: string, y: string, q: string)
    requires x + q == y + q
    ensures x == y
  {
    assert x == (x + q)[..|x + q| - |q|];
    assert y == (y + q)[..|y + q| - |q|];
  }

  /** Two composites share a name only when their name parts are the same. */
  lemma SameNameSamePart(f: string, i: nat, ti: int, g: string, j: nat, tj: int, cfg: NameConfig)
    requires SpriteImageName(f, i, ti, cfg) == SpriteImageName(g, j, tj, cfg)
    ensures NamePart(f, i, ti, cfg) == NamePart(g, j, tj, cfg)
  {
    var p := cfg.imageDist + cfg.prefix;
    SuffixCancel(p + NamePart(f, i, ti, cfg), p + NamePart(g, j, tj, cfg), "." + cfg.format);
    PrefixCancel(p, NamePart(f, i, ti, cfg), NamePart(g, j, tj, cfg));
  }

  /**
   * In split mode the composites of one sheet get distinct names, one per
   * batch index, so none overwrites another.
   */
  lemma BatchNamesDistinct(cssFileName: string, i: nat, j: nat, total: int, cfg: NameConfig)
    requires cfg.maxSingleSize != 0 && total > 1 && i != j
    ensures SpriteImageName(cssFileName, i, total, cfg) != SpriteImageName(cssFileName, j, total, cfg)
  {
    if SpriteImageName(cssFileName, i, total, cfg) == SpriteImageName(cssFileName, j, total, cfg) {
      SameNameSamePart(cssFileName, i, total, cssFileName, j, total, cfg);
      var name := if cssFileName != "" then StemAsWritten(Basename(cssFileName)) else "";
      var sep: string := if cfg.combine then "" else "_";
      PrefixCancel(name, sep + IntToString(i), sep + IntToString(j));
      PrefixCancel(sep, IntToString(i), IntToString(j));
      IntToStringInjective(i, j);
    }
  }

  /** The extension of a base name occurs in it only at its end. */
  predicate ExtensionOnlyAtEnd(b: string) {
    forall k :: 0 <= k < |b| - |Extname(b)| ==> !OccursAt(b, Extname(b), k)
  }

  /**
   * Without `combine`, sheets whose base names differ but share their
   * extension get distinct names for the same batch index, provided that
   * neither base name holds its extension earlier as well (see
   * StemAsWrittenCollides for what happens otherwise).
   */
  lemma SheetNamesDistinct(f: string, g: string, index: nat, total: int, cfg: NameConfig)
    requires !cfg.combine && f != "" && g != ""
    requires Basename(f) != Basename(g) && Extname(Basename(f)) == Extname(Basename(g))
    requires ExtensionOnlyAtEnd(Basename(f)) && ExtensionOnlyAtEnd(Basename(g))
    ensures SpriteImageName(f, index, total, cfg) != SpriteImageName(g, index, total, cfg)
  {
    if SpriteImageName(f, index, total, cfg) == SpriteImageName(g, index, total, cfg) {
      StemAsWrittenUsually(Basename(f));
      StemAsWrittenUsually(Basename(g));
      SameNameSamePart(f, index, total, g, index, total, cfg);
      if cfg.maxSingleSize != 0 && total > 1 {
        SuffixCancel(Stem(Basename(f)), Stem(Basename(g)), "_" + IntToString(index));
      }
      StemInjective(Basename(f), Basename(g));
    }
  }
}
