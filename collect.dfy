/**
 * collectStyleRules: walking a style sheet's rules (into `@import`ed sheets
 * and grouping rules), deciding for every style declaration whether its
 * background image can go into a sprite, and filing the declarations that
 * can under their image url.
 *
 * The walk only reads the rule tree and the files, and processing a
 * declaration only changes that declaration, so the walk is stated as a
 * function listing the declarations in the order they are met, and the
 * collection as a loop that processes them in that order.
 */
module Collect {
  import opened Wrappers
  import opened JsText
  import opened StyleDeclaration
  import opened Declarations
  import opened CssPatterns
  import opened StyleObjects

  /**
   * A CSS rule as the walk sees it. An `@import` carries its `href`, whether
   * the file it names can be read, and the rules that reading and parsing it
   * gives; a grouping rule (`@media`, ...) carries its child rules.
   */
  datatype Rule =
    | Import(href: string, readable: bool, imported: seq<Rule>)
    | Group(children: seq<Rule>)
    | Style(decl: Declaration)
    | Other

  /**
   * What collection depends on beyond the rules: the background parser, the
   * `image` and `css` patterns (their captured groups), the configured
   * input format, the path functions and the file-existence test.
   */
  datatype Env = Env(
    analyse: string -> seq<Layer>,
    image: string -> Option<(string, string)>,
    css: string -> Option<string>,
    format: string,
    join: (string, string) -> string,
    dirname: string -> string,
    fileExists: string -> bool)

  /** A style declaration met by the walk, with the directory of the sheet it is in. */
  datatype Visit = Visit(decl: Declaration, dir: string)

  // ---------------------------------------------------------------------
  // The walk
  // ---------------------------------------------------------------------

  /** The declarations of `rules`, in document order, imports and groups expanded in place. */
  function Visited(rules: seq<Rule>, sheetUrl: string, env: Env): seq<Visit>
    decreases rules
  {
    if rules == [] then [] else VisitedRule(rules[0], sheetUrl, env) + Visited(rules[1..], sheetUrl, env)
  }

  /**
   * One rule: an `@import` with an empty or network `href`, a name the `css`
   * pattern does not match, or a file that cannot be read contributes
   * nothing; otherwise the imported sheet is walked with its own url, the
   * captured file name joined to this sheet's directory. A grouping rule is
   * walked with the same sheet url; a style rule is one visit.
   */
  function VisitedRule(r: Rule, sheetUrl: string, env: Env): seq<Visit>
    decreases r
  {
    match r
    case Import(href, readable, imported) =>
      if href == "" || IgnoreNetwork(href) then []
      else
        (match env.css(href)
         case None => []
         case Some(file) => if readable then Visited(imported, env.join(env.dirname(sheetUrl), file), env) else [])
    case Group(children) => Visited(children, sheetUrl, env)
    case Style(decl) => [Visit(decl, env.dirname(sheetUrl))]
    case Other => []
  }

  /** The walk of two runs of rules is the walk of the first followed by that of the second. */
  lemma {:induction false} VisitedAppend(a: seq<Rule>, b: seq<Rule>, sheetUrl: string, env: Env)
    ensures Visited(a + b, sheetUrl, env) == Visited(a, sheetUrl, env) + Visited(b, sheetUrl, env)
    decreases |a|
  {
    if a == [] {
      assert a + b == b;
    } else {
      assert (a + b)[0] == a[0];
      assert (a + b)[1..] == a[1..] + b;
      VisitedAppend(a[1..], b, sheetUrl, env);
      assert Visited(a + b, sheetUrl, env) == VisitedRule(a[0], sheetUrl, env) + Visited(a[1..] + b, sheetUrl, env);
    }
  }

  /**
   * A sheet of plain style rules is visited rule by rule, every
   * declaration in the sheet's own directory.
   */
  lemma {:induction false} VisitedFlat(rules: seq<Rule>, sheetUrl: string, env: Env)
    requires forall i :: 0 <= i < |rules| ==> rules[i].Style?
    ensures |Visited(rules, sheetUrl, env)| == |rules|
    ensures forall i :: 0 <= i < |rules| ==>
              Visited(rules, sheetUrl, env)[i] == Visit(rules[i].decl, env.dirname(sheetUrl))
    decreases |rules|
  {
    if rules != [] {
      VisitedFlat(rules[1..], sheetUrl, env);
      var rest := Visited(rules[1..], sheetUrl, env);
      assert Visited(rules, sheetUrl, env) == [Visit(rules[0].decl, env.dirname(sheetUrl))] + rest;
      forall i | 0 <= i < |rules|
        ensures Visited(rules, sheetUrl, env)[i] == Visit(rules[i].decl, env.dirname(sheetUrl))
      {
        if i > 0 {
          assert Visited(rules, sheetUrl, env)[i] == rest[i - 1];
          assert rules[1..][i - 1] == rules[i];
        }
      }
    }
  }

  // ---------------------------------------------------------------------
  // One declaration
  // ---------------------------------------------------------------------

  /**
   * The position or repeat tests that send a declaration back merged: a
   * position longhand containing right, center or bottom, or an explicit
   * repeat on any of the three repeat properties. A missing property is
   * tested as the text "undefined".
   */
  predicate Ignored(st: DeclState) {
    || IgnorePosition(Tested(Get(st, PosX)))
    || IgnorePosition(Tested(Get(st, PosY)))
    || IgnoreRepeat(Tested(Get(st, "background-repeat")))
    || IgnoreRepeat(Tested(Get(st, "background-repeat-x")))
    || IgnoreRepeat(Tested(Get(st, "background-repeat-y")))
  }

  /** The declaration once its `background` shorthand, if truthy, is split. */
  function Prepared(st: DeclState, env: Env): DeclState {
    if Truthy(st, "background") then Split(st, env.analyse) else st
  }

  /**
   * What collection leaves in a declaration: untouched when it has a truthy
   * `background-size`; merged back when ignored; split otherwise.
   */
  function Processed(st: DeclState, env: Env): DeclState {
    if Truthy(st, "background-size") then st
    else if Ignored(Prepared(st, env)) then MergedAsWritten(Prepared(st, env))
    else Prepared(st, env)
  }

  /**
   * The image of a declaration that is neither sized nor ignored: a truthy,
   * single (comma-free) `background-image` whose url the `image` pattern
   * captures with an extension of the input format, not on the network, and
   * whose path joined to the sheet's directory exists. Gives the url and that path.
   */
  function ImageOf(st: DeclState, dir: string, env: Env): Option<(string, string)> {
    if !Truthy(st, "background-image") || Contains(st.props["background-image"], ",") then None
    else
      match GetImageUrl(st.props["background-image"], env.image, env.format)
      case None => None
      case Some(url) =>
        if url == "" || IgnoreNetwork(url) || !env.fileExists(env.join(dir, url)) then None
        else Some((url, env.join(dir, url)))
  }

  /** The image a declaration is filed under, if any. */
  function Found(st: DeclState, dir: string, env: Env): Option<(string, string)> {
    if Truthy(st, "background-size") || Ignored(Prepared(st, env)) then None
    else ImageOf(Prepared(st, env), dir, env)
  }

  /**
   * A declaration is filed exactly when it has no truthy `background-size`,
   * is not ignored, and its split form has an existing local image of the
   * input format; the url is the captured one and the path is it joined to
   * the sheet's directory. Collection then leaves the split form in place.
   */
  lemma FoundMeans(st: DeclState, dir: string, env: Env, url: string, abs: string)
    ensures Found(st, dir, env) == Some((url, abs)) <==>
      && !Truthy(st, "background-size")
      && !Ignored(Prepared(st, env))
      && Truthy(Prepared(st, env), "background-image")
      && !Contains(Prepared(st, env).props["background-image"], ",")
      && GetImageUrl(Prepared(st, env).props["background-image"], env.image, env.format) == Some(url)
      && url != "" && !IgnoreNetwork(url)
      && abs == env.join(dir, url) && env.fileExists(abs)
    ensures Found(st, dir, env).Some? ==> Processed(st, env) == Prepared(st, env)
  {
  }

  /** A declaration with a truthy `background-size` is neither changed nor filed. */
  lemma SizedUntouched(st: DeclState, env: Env)
    requires Truthy(st, "background-size")
    ensures Processed(st, env) == st
    ensures forall dir :: Found(st, dir, env) == None
  {
  }

  /**
   * An ignored declaration is not filed and is left merged: none of the
   * seven longhands and no position longhand remains truthy, a `background`
   * is listed last, and every other property keeps its split value and
   * stays listed in the index exactly when it was.
   */
  lemma IgnoredMerged(st: DeclState, dir: string, env: Env)
    requires !Truthy(st, "background-size") && Ignored(Prepared(st, env))
    ensures Found(st, dir, env) == None
    ensures var r := Processed(st, env);
      && "background" in r.props && r.order != [] && r.order[|r.order| - 1] == "background"
      && forall n :: n in MergeOrder || n == PosX || n == PosY ==> !Truthy(r, n)
    ensures forall n :: n !in MergeOrder && n != PosX && n != PosY && n != "background" ==>
              Get(Processed(st, env), n) == Get(Prepared(st, env), n)
    ensures forall n :: n !in MergeOrder && n != PosX && n != PosY && n != "background" ==>
              (n in Processed(st, env).order <==> n in Prepared(st, env).order)
  {
    var p := Prepared(st, env);
    assert Processed(st, env) == MergedAsWritten(p);
    MergedAsWrittenClears(p, "background");
    forall n
      ensures n in MergeOrder || n == PosX || n == PosY ==> !Truthy(MergedAsWritten(p), n)
      ensures n !in MergeOrder && n != PosX && n != PosY && n != "background" ==> Get(MergedAsWritten(p), n) == Get(p, n)
      ensures n !in MergeOrder && n != PosX && n != PosY && n != "background" ==>
                (n in MergedAsWritten(p).order <==> n in p.order)
    {
      MergedAsWrittenClears(p, n);
    }
  }

  /** processing one declaration of the walk: the body of the rule loop for a style rule. */
  method Process(style: Declaration, dir: string, env: Env) returns (found: Option<(string, string)>)
    modifies style
    ensures style.State() == Processed(old(style.State()), env)
    ensures found == Found(old(style.State()), dir, env)
  {
    if style.Has("background-size") {
      return None;
    }
    if style.Has("background") {
      style.SplitBackground(env.analyse);
    }
    var st := style.State();
    if IgnorePosition(Tested(Get(st, PosX))) || IgnorePosition(Tested(Get(st, PosY))) {
      style.MergeBackground();
      return None;
    }
    if || IgnoreRepeat(Tested(Get(st, "background-repeat")))
       || IgnoreRepeat(Tested(Get(st, "background-repeat-x")))
       || IgnoreRepeat(Tested(Get(st, "background-repeat-y")))
    {
      style.MergeBackground();
      return None;
    }
    found := None;
    if style.Has("background-image") && !Contains(style.props["background-image"], ",") {
      var imageUrl := GetImageUrl(style.props["background-image"], env.image, env.format);
      if imageUrl.Some? && imageUrl.value != "" {
        if IgnoreNetwork(imageUrl.value) {
          return None;
        }
        var imageAbsUrl := env.join(dir, imageUrl.value);
        if !env.fileExists(imageAbsUrl) {
          return None;
        }
        found := Some((imageUrl.value, imageAbsUrl));
      }
    }
  }

  // ---------------------------------------------------------------------
  // The whole sheet
  // ---------------------------------------------------------------------

  /** The declarations a walk visits. */
  function Decls(vs: seq<Visit>): set<Declaration> {
    set i | 0 <= i < |vs| :: vs[i].decl
  }

  /** No declaration is visited twice (every parse makes fresh declaration objects). */
  predicate DistinctVisits(vs: seq<Visit>) {
    forall i, j :: 0 <= i < j < |vs| ==> vs[i].decl != vs[j].decl
  }

  /** The current states of the visited declarations. */
  function StatesOf(vs: seq<Visit>): (r: seq<DeclState>)
    reads Decls(vs)
    ensures |r| == |vs|
    ensures forall j :: 0 <= j < |vs| ==> r[j] == vs[j].decl.State()
  {
    seq(|vs|, j requires 0 <= j < |vs| reads Decls(vs) => vs[j].decl.State())
  }

  /** What Found gives for every visit, its declaration in the state listed in `sts`. */
  function FoundAll(vs: seq<Visit>, sts: seq<DeclState>, env: Env): (r: seq<Option<(string, string)>>)
    requires |vs| == |sts|
    ensures |r| == |vs|
    ensures forall j :: 0 <= j < |vs| ==> r[j] == Found(sts[j], vs[j].dir, env)
  {
    seq(|vs|, j requires 0 <= j < |vs| => Found(sts[j], vs[j].dir, env))
  }

  /** The hits, in order, of the visits whose image was found (`fs[j]`). */
  function Hits(vs: seq<Visit>, fs: seq<Option<(string, string)>>): seq<Hit>
    requires |vs| == |fs|
    decreases |vs|
  {
    if vs == [] then []
    else
      var n := |vs| - 1;
      Hits(vs[..n], fs[..n]) + HitOf(vs[n], fs[n])
  }

  function HitOf(v: Visit, f: Option<(string, string)>): seq<Hit> {
    match f
    case None => []
    case Some(image) => [Hit(image.0, image.1, v.decl)]
  }

  /** Visit `j` found the image at url u. */
  predicate FoundAt(fs: seq<Option<(string, string)>>, j: int, u: string) {
    0 <= j < |fs| && fs[j].Some? && fs[j].value.0 == u
  }

  /** The declarations of the visits whose image url is u, in walk order. */
  function FiledUnder(vs: seq<Visit>, fs: seq<Option<(string, string)>>, u: string): seq<Declaration>
    requires |vs| == |fs|
    decreases |vs|
  {
    if vs == [] then []
    else
      var n := |vs| - 1;
      FiledUnder(vs[..n], fs[..n], u) + (if FoundAt(fs, n, u) then [vs[n].decl] else [])
  }

  lemma HitsSnoc(vs: seq<Visit>, fs: seq<Option<(string, string)>>, k: nat)
    requires |vs| == |fs| && k < |vs|
    ensures Hits(vs[..k + 1], fs[..k + 1]) == Hits(vs[..k], fs[..k]) + HitOf(vs[k], fs[k])
  {
    assert vs[..k + 1][..k] == vs[..k] && fs[..k + 1][..k] == fs[..k];
  }

  /**
   * The declarations filed under url u are exactly those of the visits
   * whose image is u, in the order the walk meets them.
   */
  lemma {:induction false} HitsForFiled(vs: seq<Visit>, fs: seq<Option<(string, string)>>, u: string)
    requires |vs| == |fs|
    ensures HitsFor(Hits(vs, fs), u) == FiledUnder(vs, fs, u)
    decreases |vs|
  {
    if vs != [] {
      var n := |vs| - 1;
      HitsForFiled(vs[..n], fs[..n], u);
      HitsForAppend(Hits(vs[..n], fs[..n]), HitOf(vs[n], fs[n]), u);
    }
  }

  lemma {:induction false} HitsForAppend(a: seq<Hit>, b: seq<Hit>, u: string)
    ensures HitsFor(a + b, u) == HitsFor(a, u) + HitsFor(b, u)
    decreases |b|
  {
    if b == [] {
      assert a + b == a;
    } else {
      var n := |b| - 1;
      assert (a + b)[..|a + b| - 1] == a + b[..n];
      assert (a + b)[|a + b| - 1] == b[n];
      HitsForAppend(a, b[..n], u);
    }
  }

  /** Some declaration is filed under u exactly when some visit found its image at u. */
  lemma {:induction false} FiledUnderNonEmpty(vs: seq<Visit>, fs: seq<Option<(string, string)>>, u: string)
    requires |vs| == |fs|
    ensures FiledUnder(vs, fs, u) != [] <==> exists j :: FoundAt(fs, j, u)
    decreases |vs|
  {
    if vs != [] {
      var n := |vs| - 1;
      FiledUnderNonEmpty(vs[..n], fs[..n], u);
      if exists j :: FoundAt(fs, j, u) {
        var j :| FoundAt(fs, j, u);
        if j < n {
          assert FoundAt(fs[..n], j, u);
        }
      }
      if exists j :: FoundAt(fs[..n], j, u) {
        var j :| FoundAt(fs[..n], j, u);
        assert FoundAt(fs, j, u);
      }
    }
  }

  /**
   * The collected list has an entry for url u exactly when some visited
   * declaration's image is u, and that entry's rules are the declarations
   * filed under u, in walk order.
   */
  lemma CollectedUrls(vs: seq<Visit>, fs: seq<Option<(string, string)>>, u: string)
    requires |vs| == |fs|
    ensures u in AbsorbAll(NoGroups, Hits(vs, fs)).objs <==> exists j :: FoundAt(fs, j, u)
    ensures RulesFor(AbsorbAll(NoGroups, Hits(vs, fs)), u) == FiledUnder(vs, fs, u)
  {
    AbsorbAllUrls(NoGroups, Hits(vs, fs), u);
    AbsorbAllRules(NoGroups, Hits(vs, fs), u);
    HitsForFiled(vs, fs, u);
    FiledUnderNonEmpty(vs, fs, u);
  }

  /** One style rule of the loop: the declaration processed, and filed when its image was found. */
  method FileOne(result: StyleObjList, v: Visit, env: Env) returns (found: Option<(string, string)>)
    requires result.Valid()
    modifies result, v.decl
    ensures result.Valid()
    ensures v.decl.State() == Processed(old(v.decl.State()), env)
    ensures found == Found(old(v.decl.State()), v.dir, env)
    ensures result.View() == AbsorbAll(old(result.View()), HitOf(v, found))
  {
    found := Process(v.decl, v.dir, env);
    if found.Some? {
      var h := Hit(found.value.0, found.value.1, v.decl);
      result.Add(h);
      assert [h][..0] == [];
    }
  }

  /**
   * collectStyleRules(styleSheet, null, sheetUrl): a fresh list counting
   * its urls, holding the hits of the walk in order; every visited
   * declaration is left as Processed makes it.
   */
  method CollectStyleRules(rules: seq<Rule>, sheetUrl: string, env: Env) returns (result: StyleObjList)
    requires DistinctVisits(Visited(rules, sheetUrl, env))
    modifies Decls(Visited(rules, sheetUrl, env))
    ensures fresh(result) && result.Valid()
    ensures var vs := Visited(rules, sheetUrl, env);
      result.View() == AbsorbAll(NoGroups, Hits(vs, FoundAll(vs, old(StatesOf(vs)), env)))
    ensures var vs := Visited(rules, sheetUrl, env);
      forall j :: 0 <= j < |vs| ==> vs[j].decl.State() == Processed(old(StatesOf(vs))[j], env)
  {
    var vs := Visited(rules, sheetUrl, env);
    result := CollectVisits(vs, env);
  }

  /** What Processed leaves in each of the states `sts`. */
  function ProcessedAll(sts: seq<DeclState>, env: Env): (r: seq<DeclState>)
    ensures |r| == |sts|
    ensures forall j :: 0 <= j < |sts| ==> r[j] == Processed(sts[j], env)
  {
    seq(|sts|, j requires 0 <= j < |sts| => Processed(sts[j], env))
  }

  /**
   * The state after k rounds of the loop: the list holds the hits of the
   * first k visits, those k declarations are processed, the rest untouched.
   */
  ghost predicate CollectedUpTo(result: StyleObjList, vs: seq<Visit>, k: int, env: Env,
                                before: seq<DeclState>, fs: seq<Option<(string, string)>>, after: seq<DeclState>)
    reads result, Decls(vs)
  {
    && 0 <= k <= |vs| == |before| == |fs| == |after|
    && result.Valid() && result.View() == AbsorbAll(NoGroups, Hits(vs[..k], fs[..k]))
    && (forall j :: 0 <= j < k ==> vs[j].decl.State() == after[j])
    && (forall j :: k <= j < |vs| ==> vs[j].decl.State() == before[j])
  }

  /** The loop of collectStyleRules over the style rules the walk visits, in order. */
  method CollectVisits(vs: seq<Visit>, env: Env) returns (result: StyleObjList)
    requires DistinctVisits(vs)
    modifies Decls(vs)
    ensures fresh(result) && result.Valid()
    ensures result.View() == AbsorbAll(NoGroups, Hits(vs, FoundAll(vs, old(StatesOf(vs)), env)))
    ensures forall j :: 0 <= j < |vs| ==> vs[j].decl.State() == Processed(old(StatesOf(vs))[j], env)
  {
    ghost var before := StatesOf(vs);
    ghost var fs := FoundAll(vs, before, env);
    ghost var after := ProcessedAll(before, env);
    result := new StyleObjList();
    for k := 0 to |vs|
      invariant CollectedUpTo(result, vs, k, env, before, fs, after)
    {
      FileAt(result, vs, k, env, before, fs, after);
    }
    assert vs[..|vs|] == vs && fs[..|vs|] == fs;
  }

  /** Round k of that loop: the k-th visit processed and filed, every other declaration untouched. */
  method FileAt(result: StyleObjList, vs: seq<Visit>, k: int, env: Env,
                ghost before: seq<DeclState>, ghost fs: seq<Option<(string, string)>>, ghost after: seq<DeclState>)
    requires k < |vs| == |before| && fs == FoundAll(vs, before, env) && after == ProcessedAll(before, env)
    requires DistinctVisits(vs)
    requires CollectedUpTo(result, vs, k, env, before, fs, after)
    modifies result, vs[k].decl
    ensures CollectedUpTo(result, vs, k + 1, env, before, fs, after)
  {
    var found := FileOne(result, vs[k], env);
    assert found == fs[k];
    HitsSnoc(vs, fs, k);
    AbsorbAllAppend(NoGroups, Hits(vs[..k], fs[..k]), HitOf(vs[k], fs[k]));
  }
}
