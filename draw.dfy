/**
 * drawImageAndPositionBackground and replaceAndPositionBackground: after
 * positioning, every packed sheet becomes one composite image, named by
 * createSpriteImageName; each image on it is recorded as drawn, with that
 * name and its place, and every declaration using it is pointed at the
 * composite at that place. A trailing sheet of images an earlier composite
 * already holds is only rewritten, to the name and place recorded then.
 */
module Draw {
  import opened Wrappers
  import opened Geometry
  import opened StyleDeclaration
  import opened Declarations
  import opened Batching
  import opened Naming

  /** The drawing fields of an image's `imageInfo`, shared by every sheet that uses the image. */
  class ImageRecord {
    var drew: bool
    var imageName: string
    var fit: Point

    constructor (drew0: bool, imageName0: string, fit0: Point)
      ensures drew == drew0 && imageName == imageName0 && fit == fit0
    {
      drew := drew0;
      imageName := imageName0;
      fit := fit0;
    }
  }

  /** What drawing needs of a StyleObj: its declarations and its image's record. */
  datatype Entry = Entry(cssRules: seq<Declaration>, info: ImageRecord)

  /** A declaration to point at composite `imageName` at place `fit`. */
  datatype Rewrite = Rewrite(decl: Declaration, imageName: string, fit: Point)

  /** An image record to mark as drawn on composite `imageName` at place `fit`. */
  datatype Mark = Mark(info: ImageRecord, imageName: string, fit: Point)

  // ---------------------------------------------------------------------
  // Which sheets are drawn
  // ---------------------------------------------------------------------

  /**
   * `!spriteArray[spriteArray.length - 1].root` as written: reading the last
   * element of an empty array gives undefined, and reading `root` of it
   * throws.
   */
  function TrailingReusedAsWritten(sheets: seq<Sheet>): Result<bool, string> {
    if sheets == [] then Err("TypeError: Cannot read property 'root' of undefined")
    else Ok(sheets[|sheets| - 1].Reused?)
  }

  /** The same test as intended: an empty array has no trailing reused sheet. */
  predicate TrailingReused(sheets: seq<Sheet>) {
    sheets != [] && sheets[|sheets| - 1].Reused?
  }

  /** Both tests agree on every array but the empty one, where only the one as written throws. */
  lemma TrailingReusedAgrees(sheets: seq<Sheet>)
    ensures sheets != [] ==> TrailingReusedAsWritten(sheets) == Ok(TrailingReused(sheets))
    ensures sheets == [] ==> TrailingReusedAsWritten(sheets).Err? && !TrailingReused(sheets)
  {
  }

  /**
   * The empty array does reach drawing: with `maxSingleSize` set and no
   * image collected, which `combine` allows when no sheet has one,
   * positionImages makes no sheet at all.
   */
  lemma NoImagesNoSheets(order: seq<Item>, maxSize: int)
    requires maxSize != 0 && multiset(order) == multiset(Undrawn([]))
    ensures Batches(Undrawn([]), order, maxSize) == [] && Drawn([]) == []
  {
    assert order == [];
  }

  /** The sheets that get a composite: all but a trailing reused one (`spriteArray.pop()`). */
  function PackedPart(sheets: seq<Sheet>): seq<Sheet> {
    if TrailingReused(sheets) then sheets[..|sheets| - 1] else sheets
  }

  /** Every image of the sheets has an entry. */
  predicate Listed(items: seq<Item>, objs: map<string, Entry>) {
    forall k :: 0 <= k < |items| ==> items[k].url in objs
  }

  /** A packed sheet with one place per image. */
  predicate Placed(s: Sheet) {
    s.Packed? && |s.fits| == |s.items|
  }

  /** What positionImages hands over: entries for all images, every sheet but a trailing reused one placed. */
  predicate DrawReady(sheets: seq<Sheet>, objs: map<string, Entry>) {
    && AllPlaced(PackedPart(sheets), objs)
    && (TrailingReused(sheets) ==> Listed(sheets[|sheets| - 1].items, objs))
  }

  // ---------------------------------------------------------------------
  // The plan: every rewrite and every mark, in the order they are made
  // ---------------------------------------------------------------------

  /** replaceAndPositionBackground(imageName, styleObj) for a StyleObj whose declarations are `rules`. */
  function RulesRewrites(rules: seq<Declaration>, imageName: string, fit: Point): (r: seq<Rewrite>)
    ensures |r| == |rules|
    ensures forall j :: 0 <= j < |rules| ==> r[j] == Rewrite(rules[j], imageName, fit)
  {
    seq(|rules|, j requires 0 <= j < |rules| => Rewrite(rules[j], imageName, fit))
  }

  /** The rewrites of the first n images of one packed sheet, image by image, each at its own place. */
  function ItemsRewrites(items: seq<Item>, fits: seq<Point>, imageName: string, objs: map<string, Entry>, n: nat): seq<Rewrite>
    requires |fits| == |items| && Listed(items, objs) && n <= |items|
  {
    if n == 0 then []
    else ItemsRewrites(items, fits, imageName, objs, n - 1) + RulesRewrites(objs[items[n - 1].url].cssRules, imageName, fits[n - 1])
  }

  /** The marks of one packed sheet, image by image. */
  function ItemsMarks(items: seq<Item>, fits: seq<Point>, imageName: string, objs: map<string, Entry>): (r: seq<Mark>)
    requires |fits| == |items| && Listed(items, objs)
    ensures |r| == |items|
    ensures forall k :: 0 <= k < |items| ==> r[k] == Mark(objs[items[k].url].info, imageName, fits[k])
  {
    seq(|items|, k requires 0 <= k < |items| && |fits| == |items| && Listed(items, objs) =>
      Mark(objs[items[k].url].info, imageName, fits[k]))
  }

  /** The rewrites of the first n images of a trailing reused sheet: to the name and place their records hold. */
  function ReusedRewrites(items: seq<Item>, objs: map<string, Entry>, n: nat): seq<Rewrite>
    requires Listed(items, objs) && n <= |items|
    reads Records(objs)
  {
    if n == 0 then []
    else
      var e := objs[items[n - 1].url];
      ReusedRewrites(items, objs, n - 1) + RulesRewrites(e.cssRules, e.info.imageName, e.info.fit)
  }

  /** The records of the entries. */
  function Records(objs: map<string, Entry>): set<ImageRecord> {
    set u | u in objs :: objs[u].info
  }

  predicate AllPlaced(sheets: seq<Sheet>, objs: map<string, Entry>) {
    forall i :: 0 <= i < |sheets| ==> Placed(sheets[i]) && Listed(sheets[i].items, objs)
  }

  /** The rewrites of the first n packed sheets, sheet i drawn as composite `names[i]`. */
  function SheetsRewrites(sheets: seq<Sheet>, names: seq<string>, objs: map<string, Entry>, n: nat): seq<Rewrite>
    requires AllPlaced(sheets, objs) && n <= |sheets| <= |names|
  {
    if n == 0 then []
    else
      var s := sheets[n - 1];
      SheetsRewrites(sheets, names, objs, n - 1) + ItemsRewrites(s.items, s.fits, names[n - 1], objs, |s.items|)
  }

  /** The marks of the first n packed sheets. */
  function SheetsMarks(sheets: seq<Sheet>, names: seq<string>, objs: map<string, Entry>, n: nat): seq<Mark>
    requires AllPlaced(sheets, objs) && n <= |sheets| <= |names|
  {
    if n == 0 then []
    else
      var s := sheets[n - 1];
      SheetsMarks(sheets, names, objs, n - 1) + ItemsMarks(s.items, s.fits, names[n - 1], objs)
  }

  /** The composites written out after the first n sheets, in order: those that hold an image. */
  function WrittenNames(sheets: seq<Sheet>, names: seq<string>, n: nat): seq<string>
    requires n <= |sheets| <= |names|
  {
    if n == 0 then []
    else WrittenNames(sheets, names, n - 1) + (if sheets[n - 1].items != [] then [names[n - 1]] else [])
  }

  /** The rewrites of a whole trailing reused sheet, or none when the last sheet is not one. */
  function ReusedPart(sheets: seq<Sheet>, objs: map<string, Entry>): seq<Rewrite>
    requires DrawReady(sheets, objs)
    reads Records(objs)
  {
    if TrailingReused(sheets) then
      var items := sheets[|sheets| - 1].items;
      ReusedRewrites(items, objs, |items|)
    else []
  }

  /** Every rewrite drawImageAndPositionBackground makes, in order: the reused sheet's first, then the packed sheets'. */
  function Plan(sheets: seq<Sheet>, cssFileName: string, cfg: NameConfig, objs: map<string, Entry>): seq<Rewrite>
    requires DrawReady(sheets, objs)
    reads Records(objs)
  {
    var packed := PackedPart(sheets);
    ReusedPart(sheets, objs) + SheetsRewrites(packed, SpriteNames(cssFileName, |packed|, cfg), objs, |packed|)
  }

  /** Every record drawImageAndPositionBackground marks as drawn, in order. */
  function Marks(sheets: seq<Sheet>, cssFileName: string, cfg: NameConfig, objs: map<string, Entry>): seq<Mark>
    requires DrawReady(sheets, objs)
  {
    var packed := PackedPart(sheets);
    SheetsMarks(packed, SpriteNames(cssFileName, |packed|, cfg), objs, |packed|)
  }

  // ---------------------------------------------------------------------
  // Prefixes of the plan
  // ---------------------------------------------------------------------

  /** The same as Aligned, with the parts stated as slices of the sequence they lie in. */
  lemma SliceAligned<T>(plan: seq<T>, p: nat, whole: seq<T>, done: seq<T>, next: seq<T>)
    requires p + |whole| <= |plan| && plan[p..p + |whole|] == whole
    requires |done| + |next| <= |whole| && whole[..|done| + |next|] == done + next
    ensures p + |done| + |next| <= |plan| && plan[p + |done|..p + |done| + |next|] == next
  {
    forall j | 0 <= j < |next|
      ensures plan[p + |done| + j] == next[j]
    {
      assert plan[p + |done| + j] == plan[p..p + |whole|][|done| + j];
      assert whole[|done| + j] == whole[..|done| + |next|][|done| + j] == (done + next)[|done| + j];
    }
    SliceOf(plan, p + |done|, next);
  }

  /** A part lies at offset p of a sequence exactly when each of its elements does. */
  lemma SliceOf<T>(whole: seq<T>, p: int, part: seq<T>)
    requires 0 <= p && p + |part| <= |whole|
    ensures whole[p..p + |part|] == part <==> forall j :: 0 <= j < |part| ==> whole[p + j] == part[j]
  {
  }

  lemma PrefixGrows<T>(a: seq<T>, b: seq<T>, c: seq<T>)
    requires |a| <= |b| && b[..|a|] == a
    ensures |a| <= |b + c| && (b + c)[..|a|] == a
  {
    assert (b + c)[..|a|] == b[..|a|];
  }

  /** The rewrites of the first k images of a sheet begin those of its first n. */
  lemma {:induction false} ItemsRewritesPrefix(items: seq<Item>, fits: seq<Point>, imageName: string, objs: map<string, Entry>, k: nat, n: nat)
    requires |fits| == |items| && Listed(items, objs) && k <= n <= |items|
    ensures var a := ItemsRewrites(items, fits, imageName, objs, k);
      var b := ItemsRewrites(items, fits, imageName, objs, n);
      |a| <= |b| && b[..|a|] == a
    decreases n
  {
    if k < n {
      ItemsRewritesPrefix(items, fits, imageName, objs, k, n - 1);
      PrefixGrows(ItemsRewrites(items, fits, imageName, objs, k), ItemsRewrites(items, fits, imageName, objs, n - 1),
        RulesRewrites(objs[items[n - 1].url].cssRules, imageName, fits[n - 1]));
    }
  }

  /** The rewrites of the first k images of a reused sheet begin those of its first n. */
  lemma {:induction false} ReusedRewritesPrefix(items: seq<Item>, objs: map<string, Entry>, k: nat, n: nat)
    requires Listed(items, objs) && k <= n <= |items|
    ensures var a := ReusedRewrites(items, objs, k);
      var b := ReusedRewrites(items, objs, n);
      |a| <= |b| && b[..|a|] == a
    decreases n
  {
    if k < n {
      ReusedRewritesPrefix(items, objs, k, n - 1);
      var e := objs[items[n - 1].url];
      PrefixGrows(ReusedRewrites(items, objs, k), ReusedRewrites(items, objs, n - 1),
        RulesRewrites(e.cssRules, e.info.imageName, e.info.fit));
    }
  }

  /** The rewrites of the first i sheets begin those of the first n. */
  lemma {:induction false} SheetsRewritesPrefix(sheets: seq<Sheet>, names: seq<string>, objs: map<string, Entry>, i: nat, n: nat)
    requires AllPlaced(sheets, objs) && i <= n <= |sheets| <= |names|
    ensures var a := SheetsRewrites(sheets, names, objs, i);
      var b := SheetsRewrites(sheets, names, objs, n);
      |a| <= |b| && b[..|a|] == a
    decreases n
  {
    if i < n {
      SheetsRewritesPrefix(sheets, names, objs, i, n - 1);
      var s := sheets[n - 1];
      PrefixGrows(SheetsRewrites(sheets, names, objs, i), SheetsRewrites(sheets, names, objs, n - 1),
        ItemsRewrites(s.items, s.fits, names[n - 1], objs, |s.items|));
    }
  }

  /** The marks of the first i sheets begin those of the first n. */
  lemma {:induction false} SheetsMarksPrefix(sheets: seq<Sheet>, names: seq<string>, objs: map<string, Entry>, i: nat, n: nat)
    requires AllPlaced(sheets, objs) && i <= n <= |sheets| <= |names|
    ensures var a := SheetsMarks(sheets, names, objs, i);
      var b := SheetsMarks(sheets, names, objs, n);
      |a| <= |b| && b[..|a|] == a
    decreases n
  {
    if i < n {
      SheetsMarksPrefix(sheets, names, objs, i, n - 1);
      var s := sheets[n - 1];
      PrefixGrows(SheetsMarks(sheets, names, objs, i), SheetsMarks(sheets, names, objs, n - 1),
        ItemsMarks(s.items, s.fits, names[n - 1], objs));
    }
  }

  // ---------------------------------------------------------------------
  // Carrying out the plan in place
  // ---------------------------------------------------------------------

  /** The declarations the plan rewrites. */
  function PlanDecls(plan: seq<Rewrite>): (r: set<Declaration>)
    ensures DeclsIn(plan, r)
    decreases |plan|
  {
    if plan == [] then {} else PlanDecls(plan[..|plan| - 1]) + {plan[|plan| - 1].decl}
  }

  /** The records the plan marks. */
  function MarkRecords(marks: seq<Mark>): (r: set<ImageRecord>)
    ensures RecordsIn(marks, r)
    decreases |marks|
  {
    if marks == [] then {} else MarkRecords(marks[..|marks| - 1]) + {marks[|marks| - 1].info}
  }

  /** Every declaration the plan rewrites is among `decls`. */
  predicate DeclsIn(plan: seq<Rewrite>, decls: set<Declaration>) {
    forall j :: 0 <= j < |plan| ==> plan[j].decl in decls
  }

  /** Every record the plan marks is among `recs`. */
  predicate RecordsIn(marks: seq<Mark>, recs: set<ImageRecord>) {
    forall j :: 0 <= j < |marks| ==> marks[j].info in recs
  }

  /** The position of the first rewrite of `d` in the plan; |plan| when there is none. */
  function DeclPos(plan: seq<Rewrite>, d: Declaration): nat
    decreases |plan|
  {
    if plan == [] then 0 else if plan[0].decl == d then 0 else 1 + DeclPos(plan[1..], d)
  }

  /** Each declaration is rewritten once, at its first position: no declaration serves two StyleObjs. */
  predicate DistinctDecls(plan: seq<Rewrite>) {
    forall j {:trigger DeclPos(plan, plan[j].decl)} :: 0 <= j < |plan| ==> DeclPos(plan, plan[j].decl) == j
  }

  /** DistinctDecls says exactly that the plan's declarations are pairwise different. */
  lemma {:induction false} DistinctDeclsPairwise(plan: seq<Rewrite>)
    ensures DistinctDecls(plan) <==> forall i, j :: 0 <= i < j < |plan| ==> plan[i].decl != plan[j].decl
    decreases |plan|
  {
    if DistinctDecls(plan) {
      forall i, j | 0 <= i < j < |plan|
        ensures plan[i].decl != plan[j].decl
      {
        assert DeclPos(plan, plan[i].decl) == i && DeclPos(plan, plan[j].decl) == j;
      }
    }
    if plan != [] && forall i, j :: 0 <= i < j < |plan| ==> plan[i].decl != plan[j].decl {
      var t := plan[1..];
      forall i, j | 0 <= i < j < |t|
        ensures t[i].decl != t[j].decl
      {
        assert t[i] == plan[i + 1] && t[j] == plan[j + 1];
      }
      DistinctDeclsPairwise(t);
      forall j | 0 <= j < |plan|
        ensures DeclPos(plan, plan[j].decl) == j
      {
        if j > 0 {
          assert plan[j] == t[j - 1] && DeclPos(t, t[j - 1].decl) == j - 1;
          assert plan[0].decl != plan[j].decl;
        }
      }
    }
  }

  /** The position of the first mark of `info`; |marks| when there is none. */
  function RecordPos(marks: seq<Mark>, info: ImageRecord): nat
    decreases |marks|
  {
    if marks == [] then 0 else if marks[0].info == info then 0 else 1 + RecordPos(marks[1..], info)
  }

  /** Each record is marked once, at its first position: no image is drawn on two composites. */
  predicate DistinctRecords(marks: seq<Mark>) {
    forall j {:trigger RecordPos(marks, marks[j].info)} :: 0 <= j < |marks| ==> RecordPos(marks, marks[j].info) == j
  }

  /** DistinctRecords says exactly that the marked records are pairwise different. */
  lemma {:induction false} DistinctRecordsPairwise(marks: seq<Mark>)
    ensures DistinctRecords(marks) <==> forall i, j :: 0 <= i < j < |marks| ==> marks[i].info != marks[j].info
    decreases |marks|
  {
    if DistinctRecords(marks) {
      forall i, j | 0 <= i < j < |marks|
        ensures marks[i].info != marks[j].info
      {
        assert RecordPos(marks, marks[i].info) == i && RecordPos(marks, marks[j].info) == j;
      }
    }
    if marks != [] && forall i, j :: 0 <= i < j < |marks| ==> marks[i].info != marks[j].info {
      var t := marks[1..];
      forall i, j | 0 <= i < j < |t|
        ensures t[i].info != t[j].info
      {
        assert t[i] == marks[i + 1] && t[j] == marks[j + 1];
      }
      DistinctRecordsPairwise(t);
      forall j | 0 <= j < |marks|
        ensures RecordPos(marks, marks[j].info) == j
      {
        if j > 0 {
          assert marks[j] == t[j - 1] && RecordPos(t, t[j - 1].info) == j - 1;
          assert marks[0].info != marks[j].info;
        }
      }
    }
  }

  /** `after` holds the state each declaration of the plan ends in, from its state in `before`. */
  predicate Targeted(plan: seq<Rewrite>, before: seq<DeclState>, after: seq<DeclState>) {
    && |before| == |plan| == |after|
    && forall j {:trigger Repositioned(before[j], plan[j].imageName, plan[j].fit)} :: 0 <= j < |plan| ==>
         after[j] == Repositioned(before[j], plan[j].imageName, plan[j].fit)
  }

  /** The states the plan's declarations end in, from the states `before` they start in. */
  function Targets(plan: seq<Rewrite>, before: seq<DeclState>): (r: seq<DeclState>)
    requires |before| == |plan|
    ensures Targeted(plan, before, r)
  {
    seq(|plan|, j requires 0 <= j < |plan| => Repositioned(before[j], plan[j].imageName, plan[j].fit))
  }

  /** What the rewrites aim at, and that no declaration is rewritten twice. */
  ghost predicate Aimed(plan: seq<Rewrite>, before: seq<DeclState>, after: seq<DeclState>) {
    Targeted(plan, before, after) && DistinctDecls(plan)
  }

  /** Aimed, and no record is marked twice either. */
  ghost predicate PlanSound(plan: seq<Rewrite>, before: seq<DeclState>, after: seq<DeclState>, marks: seq<Mark>) {
    Aimed(plan, before, after) && DistinctRecords(marks)
  }

  /** The first q declarations of the plan are in their `after` states; the others still in their `before` states. */
  ghost predicate RewrittenUpTo(plan: seq<Rewrite>, decls: set<Declaration>, before: seq<DeclState>, after: seq<DeclState>, q: int)
    reads decls
  {
    && DeclsIn(plan, decls)
    && 0 <= q <= |plan| == |before| == |after|
    && (forall j :: 0 <= j < q ==> plan[j].decl.State() == after[j])
    && (forall j :: q <= j < |plan| ==> plan[j].decl.State() == before[j])
  }

  /** The first m marks of the plan are made. */
  ghost predicate MarkedUpTo(marks: seq<Mark>, recs: set<ImageRecord>, m: int)
    reads recs
  {
    && RecordsIn(marks, recs)
    && 0 <= m <= |marks|
    && (forall j :: 0 <= j < m ==>
          marks[j].info.drew && marks[j].info.imageName == marks[j].imageName && marks[j].info.fit == marks[j].fit)
  }

  /** The states of the declarations the plan rewrites. */
  function States(plan: seq<Rewrite>): (r: seq<DeclState>)
    reads PlanDecls(plan)
    ensures |r| == |plan| && forall j :: 0 <= j < |plan| ==> r[j] == plan[j].decl.State()
  {
    seq(|plan|, j reads PlanDecls(plan) requires 0 <= j < |plan| => plan[j].decl.State())
  }

  /** replaceAndPositionBackground for one declaration. */
  method Reposition(style: Declaration, imageName: string, fit: Point)
    modifies style
    ensures style.State() == Repositioned(old(style.State()), imageName, fit)
  {
    style.props := style.props["background-image" := "url(" + imageName + ")"];
    SetPxValue(style, PosX, fit.x);
    SetPxValue(style, PosY, fit.y);
    style.MergeBackground();
  }

  /** The q-th declaration of the plan, still in its state before drawing, brought to its target state. */
  method RepositionAt(style: Declaration, imageName: string, fit: Point,
      ghost plan: seq<Rewrite>, ghost before: seq<DeclState>, ghost after: seq<DeclState>, ghost q: int)
    requires Targeted(plan, before, after) && 0 <= q < |plan| && plan[q] == Rewrite(style, imageName, fit)
    requires style.State() == before[q]
    modifies style
    ensures style.State() == after[q]
  {
    Reposition(style, imageName, fit);
  }

  /** One declaration of the plan, the q-th, rewritten. */
  method RewriteAt(style: Declaration, imageName: string, fit: Point,
      ghost plan: seq<Rewrite>, ghost decls: set<Declaration>, ghost before: seq<DeclState>, ghost after: seq<DeclState>, ghost q: int)
    requires 0 <= q < |plan| && plan[q] == Rewrite(style, imageName, fit)
    requires Targeted(plan, before, after) && DistinctDecls(plan) && RewrittenUpTo(plan, decls, before, after, q)
    modifies style
    ensures RewrittenUpTo(plan, decls, before, after, q + 1)
  {
    RepositionAt(style, imageName, fit, plan, before, after, q);
    forall j | 0 <= j < |plan| && j != q
      ensures plan[j].decl.State() == old(plan[j].decl.State())
    {
      assert DeclPos(plan, plan[j].decl) == j && DeclPos(plan, plan[q].decl) == q;
    }
  }

  /**
   * replaceAndPositionBackground(imageName, styleObj): each declaration of
   * the StyleObj, which the plan lists from p on, pointed at the composite
   * at place `fit`.
   */
  method ReplaceAndPositionBackground(imageName: string, cssRules: seq<Declaration>, fit: Point,
      ghost plan: seq<Rewrite>, ghost decls: set<Declaration>, ghost before: seq<DeclState>, ghost after: seq<DeclState>, ghost p: int)
    requires 0 <= p && p + |cssRules| <= |plan|
    requires forall j :: 0 <= j < |cssRules| ==> plan[p + j] == Rewrite(cssRules[j], imageName, fit)
    requires Targeted(plan, before, after)
    requires DistinctDecls(plan) && RewrittenUpTo(plan, decls, before, after, p)
    modifies decls
    ensures RewrittenUpTo(plan, decls, before, after, p + |cssRules|)
  {
    for j := 0 to |cssRules|
      invariant RewrittenUpTo(plan, decls, before, after, p + j)
    {
      RewriteAt(cssRules[j], imageName, fit, plan, decls, before, after, p + j);
    }
  }

  /** The m-th record of the plan marked as drawn on `imageName` at `fit`. */
  method MarkAt(info: ImageRecord, imageName: string, fit: Point, ghost marks: seq<Mark>, ghost recs: set<ImageRecord>, ghost m: int)
    requires 0 <= m < |marks| && marks[m] == Mark(info, imageName, fit)
    requires DistinctRecords(marks) && MarkedUpTo(marks, recs, m)
    modifies info
    ensures MarkedUpTo(marks, recs, m + 1)
  {
    info.drew := true;
    info.imageName := imageName;
    info.fit := fit;
    forall j | 0 <= j < m
      ensures marks[j].info.drew && marks[j].info.imageName == marks[j].imageName && marks[j].info.fit == marks[j].fit
    {
      assert RecordPos(marks, marks[j].info) == j && RecordPos(marks, marks[m].info) == m;
    }
  }

  /**
   * One image of a packed sheet: its record marked as drawn on the
   * composite at `fit`, then its declarations rewritten.
   */
  method DrawItem(e: Entry, imageName: string, fit: Point,
      ghost plan: seq<Rewrite>, ghost decls: set<Declaration>, ghost before: seq<DeclState>, ghost after: seq<DeclState>, ghost q: int,
      ghost marks: seq<Mark>, ghost recs: set<ImageRecord>, ghost m: int)
    requires 0 <= q && q + |e.cssRules| <= |plan| && plan[q..q + |e.cssRules|] == RulesRewrites(e.cssRules, imageName, fit)
    requires PlanSound(plan, before, after, marks) && RewrittenUpTo(plan, decls, before, after, q)
    requires 0 <= m < |marks| && marks[m] == Mark(e.info, imageName, fit)
    requires MarkedUpTo(marks, recs, m)
    modifies decls, recs
    ensures RewrittenUpTo(plan, decls, before, after, q + |e.cssRules|)
    ensures MarkedUpTo(marks, recs, m + 1)
  {
    SliceOf(plan, q, RulesRewrites(e.cssRules, imageName, fit));
    MarkAt(e.info, imageName, fit, marks, recs, m);
    ReplaceAndPositionBackground(imageName, e.cssRules, fit, plan, decls, before, after, q);
  }

  /** The first k images of a packed sheet are drawn. */
  ghost predicate SheetDrawnUpTo(sheet: Sheet, imageName: string, objs: map<string, Entry>,
      plan: seq<Rewrite>, decls: set<Declaration>, before: seq<DeclState>, after: seq<DeclState>, p: int, marks: seq<Mark>, recs: set<ImageRecord>, m: int, k: int)
    reads decls, recs
  {
    && Placed(sheet) && Listed(sheet.items, objs) && 0 <= k <= |sheet.items|
    && RewrittenUpTo(plan, decls, before, after, p + |ItemsRewrites(sheet.items, sheet.fits, imageName, objs, k)|)
    && MarkedUpTo(marks, recs, m + k)
  }

  /** Image k of a packed sheet drawn: its record marked, its declarations rewritten. */
  method DrawItemAt(sheet: Sheet, k: int, imageName: string, objs: map<string, Entry>,
      ghost plan: seq<Rewrite>, ghost decls: set<Declaration>, ghost before: seq<DeclState>, ghost after: seq<DeclState>, ghost p: int,
      ghost marks: seq<Mark>, ghost recs: set<ImageRecord>, ghost m: int, ghost rw: seq<Rewrite>)
    requires Placed(sheet) && Listed(sheet.items, objs) && 0 <= k < |sheet.items|
    requires rw == ItemsRewrites(sheet.items, sheet.fits, imageName, objs, |sheet.items|)
    requires 0 <= p && p + |rw| <= |plan| && plan[p..p + |rw|] == rw
    requires 0 <= m && m + |sheet.items| <= |marks| && marks[m..m + |sheet.items|] == ItemsMarks(sheet.items, sheet.fits, imageName, objs)
    requires PlanSound(plan, before, after, marks)
    requires SheetDrawnUpTo(sheet, imageName, objs, plan, decls, before, after, p, marks, recs, m, k)
    modifies decls, recs
    ensures SheetDrawnUpTo(sheet, imageName, objs, plan, decls, before, after, p, marks, recs, m, k + 1)
  {
    var e := objs[sheet.items[k].url];
    ghost var done := ItemsRewrites(sheet.items, sheet.fits, imageName, objs, k);
    ItemsAligned(sheet, k, imageName, objs, plan, p, e.cssRules, done, rw);
    assert marks[m + k] == marks[m..m + |sheet.items|][k] == ItemsMarks(sheet.items, sheet.fits, imageName, objs)[k];
    DrawItem(e, imageName, sheet.fits[k], plan, decls, before, after, p + |done|, marks, recs, m + k);
  }

  /** Where image k of a packed sheet finds its rewrites in the plan: right after those of the images before it. */
  lemma ItemsAligned(sheet: Sheet, k: nat, imageName: string, objs: map<string, Entry>, plan: seq<Rewrite>, p: nat,
      rules: seq<Declaration>, done: seq<Rewrite>, rw: seq<Rewrite>)
    requires Placed(sheet) && Listed(sheet.items, objs) && k < |sheet.items|
    requires rw == ItemsRewrites(sheet.items, sheet.fits, imageName, objs, |sheet.items|)
    requires p + |rw| <= |plan| && plan[p..p + |rw|] == rw
    requires rules == objs[sheet.items[k].url].cssRules
    requires done == ItemsRewrites(sheet.items, sheet.fits, imageName, objs, k)
    ensures ItemsRewrites(sheet.items, sheet.fits, imageName, objs, k + 1) == done + RulesRewrites(rules, imageName, sheet.fits[k])
    ensures p + |done| + |rules| <= |plan|
    ensures plan[p + |done|..p + |done| + |rules|] == RulesRewrites(rules, imageName, sheet.fits[k])
  {
    ItemsRewritesPrefix(sheet.items, sheet.fits, imageName, objs, k + 1, |sheet.items|);
    SliceAligned(plan, p, rw, done, RulesRewrites(rules, imageName, sheet.fits[k]));
  }

  /**
   * One packed sheet drawn as composite `imageName`: image after image,
   * each marked and its declarations rewritten, in the sheet's order.
   */
  method DrawSheet(sheet: Sheet, imageName: string, objs: map<string, Entry>,
      ghost plan: seq<Rewrite>, ghost decls: set<Declaration>, ghost before: seq<DeclState>, ghost after: seq<DeclState>, ghost p: int,
      ghost marks: seq<Mark>, ghost recs: set<ImageRecord>, ghost m: int, ghost rw: seq<Rewrite>)
    requires Placed(sheet) && Listed(sheet.items, objs)
    requires rw == ItemsRewrites(sheet.items, sheet.fits, imageName, objs, |sheet.items|)
    requires 0 <= p && p + |rw| <= |plan| && plan[p..p + |rw|] == rw
    requires 0 <= m && m + |sheet.items| <= |marks| && marks[m..m + |sheet.items|] == ItemsMarks(sheet.items, sheet.fits, imageName, objs)
    requires PlanSound(plan, before, after, marks) && RewrittenUpTo(plan, decls, before, after, p)
    requires MarkedUpTo(marks, recs, m)
    modifies decls, recs
    ensures RewrittenUpTo(plan, decls, before, after, p + |rw|)
    ensures MarkedUpTo(marks, recs, m + |sheet.items|)
  {
    for k := 0 to |sheet.items|
      invariant SheetDrawnUpTo(sheet, imageName, objs, plan, decls, before, after, p, marks, recs, m, k)
    {
      DrawItemAt(sheet, k, imageName, objs, plan, decls, before, after, p, marks, recs, m, rw);
    }
  }

  /** The first k images of a trailing reused sheet are rewritten. */
  ghost predicate ReusedUpTo(items: seq<Item>, objs: map<string, Entry>,
      plan: seq<Rewrite>, decls: set<Declaration>, before: seq<DeclState>, after: seq<DeclState>, k: int)
    reads decls, Records(objs)
  {
    && Listed(items, objs) && 0 <= k <= |items|
    && RewrittenUpTo(plan, decls, before, after, |ReusedRewrites(items, objs, k)|)
  }

  /** Image k of a trailing reused sheet: its declarations rewritten to what its record holds. */
  method ReuseAt(items: seq<Item>, k: int, objs: map<string, Entry>,
      ghost plan: seq<Rewrite>, ghost decls: set<Declaration>, ghost before: seq<DeclState>, ghost after: seq<DeclState>, ghost rw: seq<Rewrite>)
    requires Listed(items, objs) && 0 <= k < |items|
    requires rw == ReusedRewrites(items, objs, |items|)
    requires |rw| <= |plan| && plan[..|rw|] == rw
    requires Aimed(plan, before, after) && ReusedUpTo(items, objs, plan, decls, before, after, k)
    modifies decls
    ensures rw == ReusedRewrites(items, objs, |items|)
    ensures ReusedUpTo(items, objs, plan, decls, before, after, k + 1)
  {
    var e := objs[items[k].url];
    ghost var done := ReusedRewrites(items, objs, k);
    ReusedAligned(items, objs, plan, rw, k, e.cssRules, e.info.imageName, e.info.fit, done);
    SliceOf(plan, |done|, RulesRewrites(e.cssRules, e.info.imageName, e.info.fit));
    ReplaceAndPositionBackground(e.info.imageName, e.cssRules, e.info.fit, plan, decls, before, after, |done|);
    assert unchanged(Records(objs));
  }

  /** Where image k of a reused sheet finds its rewrites in the plan: right after those of the images before it. */
  lemma ReusedAligned(items: seq<Item>, objs: map<string, Entry>, plan: seq<Rewrite>, rw: seq<Rewrite>, k: nat,
      rules: seq<Declaration>, imageName: string, fit: Point, done: seq<Rewrite>)
    requires Listed(items, objs) && k < |items|
    requires rw == ReusedRewrites(items, objs, |items|)
    requires |rw| <= |plan| && plan[..|rw|] == rw
    requires var e := objs[items[k].url]; rules == e.cssRules && imageName == e.info.imageName && fit == e.info.fit
    requires done == ReusedRewrites(items, objs, k)
    ensures ReusedRewrites(items, objs, k + 1) == done + RulesRewrites(rules, imageName, fit)
    ensures |done| + |rules| <= |plan|
    ensures plan[|done|..|done| + |rules|] == RulesRewrites(rules, imageName, fit)
  {
    ReusedRewritesPrefix(items, objs, k + 1, |items|);
    assert plan[0..0 + |rw|] == rw;
    SliceAligned(plan, 0, rw, done, RulesRewrites(rules, imageName, fit));
  }

  /**
   * A trailing reused sheet: each image's declarations rewritten to the
   * composite and place its record holds (`styleObj.fit = imageInfo.fit`).
   */
  method ReuseAll(items: seq<Item>, objs: map<string, Entry>,
      ghost plan: seq<Rewrite>, ghost decls: set<Declaration>, ghost before: seq<DeclState>, ghost after: seq<DeclState>, ghost rw: seq<Rewrite>)
    requires Listed(items, objs) && rw == ReusedRewrites(items, objs, |items|)
    requires |rw| <= |plan| && plan[..|rw|] == rw
    requires Aimed(plan, before, after) && RewrittenUpTo(plan, decls, before, after, 0)
    modifies decls
    ensures RewrittenUpTo(plan, decls, before, after, |rw|)
  {
    for k := 0 to |items|
      invariant rw == ReusedRewrites(items, objs, |items|)
      invariant ReusedUpTo(items, objs, plan, decls, before, after, k)
    {
      ReuseAt(items, k, objs, plan, decls, before, after, rw);
    }
  }

  /**
   * The first part of drawImageAndPositionBackground: a trailing reused
   * sheet is taken off the array and its declarations rewritten from the
   * records; the packed sheets are what is left.
   */
  method TakeReused(sheets: seq<Sheet>, objs: map<string, Entry>,
      ghost plan: seq<Rewrite>, ghost decls: set<Declaration>, ghost before: seq<DeclState>, ghost after: seq<DeclState>,
      ghost reused: seq<Rewrite>)
      returns (spriteArray: seq<Sheet>)
    requires DrawReady(sheets, objs) && reused == ReusedPart(sheets, objs)
    requires |reused| <= |plan| && plan[..|reused|] == reused
    requires Aimed(plan, before, after) && RewrittenUpTo(plan, decls, before, after, 0)
    modifies decls
    ensures spriteArray == PackedPart(sheets)
    ensures RewrittenUpTo(plan, decls, before, after, |reused|)
  {
    spriteArray := sheets;
    if spriteArray != [] && spriteArray[|spriteArray| - 1].Reused? {
      var styleObjArr := spriteArray[|spriteArray| - 1];
      spriteArray := spriteArray[..|spriteArray| - 1];
      ReuseAll(styleObjArr.items, objs, plan, decls, before, after, reused);
    }
  }

  /** The first i packed sheets are drawn, after the p0 rewrites of a trailing reused sheet. */
  ghost predicate PackedDrawnUpTo(packed: seq<Sheet>, names: seq<string>, objs: map<string, Entry>,
      plan: seq<Rewrite>, decls: set<Declaration>, before: seq<DeclState>, after: seq<DeclState>, p0: int, marks: seq<Mark>, recs: set<ImageRecord>, i: int)
    reads decls, recs
  {
    && AllPlaced(packed, objs) && 0 <= i <= |packed| == |names|
    && RewrittenUpTo(plan, decls, before, after, p0 + |SheetsRewrites(packed, names, objs, i)|)
    && MarkedUpTo(marks, recs, |SheetsMarks(packed, names, objs, i)|)
  }

  /** Where packed sheet i finds its rewrites: right after those of the sheets before it. */
  lemma SheetRewritesAligned(packed: seq<Sheet>, names: seq<string>, objs: map<string, Entry>,
      plan: seq<Rewrite>, p0: nat, i: nat, sr: seq<Rewrite>, done: seq<Rewrite>, rw: seq<Rewrite>)
    requires AllPlaced(packed, objs) && i < |packed| == |names|
    requires sr == SheetsRewrites(packed, names, objs, |packed|)
    requires p0 + |sr| <= |plan| && plan[p0..p0 + |sr|] == sr
    requires done == SheetsRewrites(packed, names, objs, i)
    requires rw == ItemsRewrites(packed[i].items, packed[i].fits, names[i], objs, |packed[i].items|)
    ensures SheetsRewrites(packed, names, objs, i + 1) == done + rw
    ensures p0 + |done| + |rw| <= |plan| && plan[p0 + |done|..p0 + |done| + |rw|] == rw
  {
    SheetsRewritesPrefix(packed, names, objs, i + 1, |packed|);
    SliceAligned(plan, p0, sr, done, rw);
  }

  /** Where packed sheet i finds its marks: right after those of the sheets before it. */
  lemma SheetMarksAligned(packed: seq<Sheet>, names: seq<string>, objs: map<string, Entry>,
      marks: seq<Mark>, i: nat, done: seq<Mark>, mk: seq<Mark>)
    requires AllPlaced(packed, objs) && i < |packed| == |names|
    requires marks == SheetsMarks(packed, names, objs, |packed|)
    requires done == SheetsMarks(packed, names, objs, i)
    requires mk == ItemsMarks(packed[i].items, packed[i].fits, names[i], objs)
    ensures SheetsMarks(packed, names, objs, i + 1) == done + mk
    ensures |done| + |mk| <= |marks| && marks[|done|..|done| + |mk|] == mk
  {
    SheetsMarksPrefix(packed, names, objs, i + 1, |packed|);
    SliceAligned(marks, 0, marks, done, mk);
  }

  /** Where the packed sheets' rewrites and marks lie: the rewrites from p0 on in the plan, the marks all of them. */
  ghost predicate PackedPlan(packed: seq<Sheet>, names: seq<string>, objs: map<string, Entry>,
      plan: seq<Rewrite>, p0: nat, marks: seq<Mark>, sr: seq<Rewrite>)
  {
    && AllPlaced(packed, objs) && |packed| == |names|
    && sr == SheetsRewrites(packed, names, objs, |packed|)
    && p0 + |sr| <= |plan| && plan[p0..p0 + |sr|] == sr
    && marks == SheetsMarks(packed, names, objs, |packed|)
  }

  /** Packed sheet i drawn as composite `names[i]`. */
  method DrawSheetAt(packed: seq<Sheet>, i: int, imageName: string, objs: map<string, Entry>, ghost names: seq<string>,
      ghost plan: seq<Rewrite>, ghost decls: set<Declaration>, ghost before: seq<DeclState>, ghost after: seq<DeclState>, ghost p0: nat, ghost marks: seq<Mark>, ghost recs: set<ImageRecord>,
      ghost sr: seq<Rewrite>)
    requires PackedPlan(packed, names, objs, plan, p0, marks, sr)
    requires PlanSound(plan, before, after, marks)
    requires 0 <= i < |packed| && imageName == names[i]
    requires PackedDrawnUpTo(packed, names, objs, plan, decls, before, after, p0, marks, recs, i)
    modifies decls, recs
    ensures PackedDrawnUpTo(packed, names, objs, plan, decls, before, after, p0, marks, recs, i + 1)
  {
    ghost var doneR := SheetsRewrites(packed, names, objs, i);
    ghost var doneM := SheetsMarks(packed, names, objs, i);
    ghost var rw := ItemsRewrites(packed[i].items, packed[i].fits, imageName, objs, |packed[i].items|);
    SheetRewritesAligned(packed, names, objs, plan, p0, i, sr, doneR, rw);
    SheetMarksAligned(packed, names, objs, marks, i, doneM, ItemsMarks(packed[i].items, packed[i].fits, imageName, objs));
    DrawSheet(packed[i], imageName, objs, plan, decls, before, after, p0 + |doneR|, marks, recs, |doneM|, rw);
  }

  /** drawImageAndPositionBackground's loop: packed sheet i drawn as composite i of |packed|, in order. */
  method DrawPacked(packed: seq<Sheet>, names: seq<string>, objs: map<string, Entry>,
      ghost plan: seq<Rewrite>, ghost decls: set<Declaration>, ghost before: seq<DeclState>, ghost after: seq<DeclState>,
      ghost p0: nat, ghost marks: seq<Mark>, ghost recs: set<ImageRecord>, ghost sr: seq<Rewrite>)
      returns (written: seq<string>)
    requires PackedPlan(packed, names, objs, plan, p0, marks, sr)
    requires PlanSound(plan, before, after, marks)
    requires RewrittenUpTo(plan, decls, before, after, p0) && RecordsIn(marks, recs)
    modifies decls, recs
    ensures written == WrittenNames(packed, names, |packed|)
    ensures RewrittenUpTo(plan, decls, before, after, p0 + |sr|)
    ensures MarkedUpTo(marks, recs, |marks|)
  {
    written := [];
    for i := 0 to |packed|
      invariant PackedDrawnUpTo(packed, names, objs, plan, decls, before, after, p0, marks, recs, i)
      invariant written == WrittenNames(packed, names, i)
    {
      var imageName := names[i];
      DrawSheetAt(packed, i, imageName, objs, names, plan, decls, before, after, p0, marks, recs, sr);
      if packed[i].items != [] {
        written := written + [imageName];
      }
    }
  }

  /** Every declaration of the plan holds what its rewrite makes of its state in `before`. */
  ghost predicate AllRepositioned(plan: seq<Rewrite>, before: seq<DeclState>)
    reads PlanDecls(plan)
  {
    && |before| == |plan|
    && forall j :: 0 <= j < |plan| ==> plan[j].decl.State() == Repositioned(before[j], plan[j].imageName, plan[j].fit)
  }

  /** Every record of the plan is marked as drawn on its composite at its place. */
  ghost predicate AllMarked(marks: seq<Mark>)
    reads MarkRecords(marks)
  {
    forall j :: 0 <= j < |marks| ==>
      marks[j].info.drew && marks[j].info.imageName == marks[j].imageName && marks[j].info.fit == marks[j].fit
  }

  /** Once the whole plan is rewritten, each declaration holds its target state. */
  lemma AllRewritten(plan: seq<Rewrite>, decls: set<Declaration>, before: seq<DeclState>, after: seq<DeclState>)
    requires Targeted(plan, before, after) && RewrittenUpTo(plan, decls, before, after, |plan|)
    ensures AllRepositioned(plan, before)
  {
    forall j | 0 <= j < |plan|
      ensures plan[j].decl.State() == Repositioned(before[j], plan[j].imageName, plan[j].fit)
    {
      assert plan[j].decl.State() == after[j];
    }
  }

  /** Once every mark is made, every record of the plan is marked. */
  lemma AllMade(marks: seq<Mark>, recs: set<ImageRecord>)
    requires MarkedUpTo(marks, recs, |marks|)
    ensures AllMarked(marks)
  {
  }

  /** A plan made of the reused sheet's rewrites and then the packed sheets' has each part at its offset. */
  lemma DrawSetup(packed: seq<Sheet>, names: seq<string>, objs: map<string, Entry>,
      plan: seq<Rewrite>, reused: seq<Rewrite>, sr: seq<Rewrite>, marks: seq<Mark>)
    requires AllPlaced(packed, objs) && |packed| == |names|
    requires sr == SheetsRewrites(packed, names, objs, |packed|) && plan == reused + sr
    requires marks == SheetsMarks(packed, names, objs, |packed|)
    ensures |reused| <= |plan| && plan[..|reused|] == reused
    ensures PackedPlan(packed, names, objs, plan, |reused|, marks, sr)
  {
    assert plan[|reused|..|reused| + |sr|] == sr;
  }

  /**
   * The plan and the marks of drawImageAndPositionBackground, the
   * composites' names, and where the reused sheet's and the packed sheets'
   * rewrites lie in the plan.
   */
  lemma Layout(sheets: seq<Sheet>, cssFileName: string, cfg: NameConfig, objs: map<string, Entry>)
      returns (plan: seq<Rewrite>, marks: seq<Mark>, names: seq<string>, reused: seq<Rewrite>, sr: seq<Rewrite>)
    requires DrawReady(sheets, objs)
    ensures plan == Plan(sheets, cssFileName, cfg, objs) && marks == Marks(sheets, cssFileName, cfg, objs)
    ensures names == SpriteNames(cssFileName, |PackedPart(sheets)|, cfg)
    ensures reused == ReusedPart(sheets, objs) && |reused| <= |plan| && plan[..|reused|] == reused
    ensures PackedPlan(PackedPart(sheets), names, objs, plan, |reused|, marks, sr)
  {
    plan := Plan(sheets, cssFileName, cfg, objs);
    marks := Marks(sheets, cssFileName, cfg, objs);
    names := SpriteNames(cssFileName, |PackedPart(sheets)|, cfg);
    reused := ReusedPart(sheets, objs);
    sr := SheetsRewrites(PackedPart(sheets), names, objs, |PackedPart(sheets)|);
    DrawSetup(PackedPart(sheets), names, objs, plan, reused, sr, marks);
  }

  /**
   * The declarations' states before drawing and the states the plan is to
   * leave them in; nothing is rewritten or marked yet.
   */
  lemma Snapshot(plan: seq<Rewrite>, marks: seq<Mark>, decls: set<Declaration>, recs: set<ImageRecord>)
      returns (before: seq<DeclState>, after: seq<DeclState>)
    requires decls == PlanDecls(plan) && recs == MarkRecords(marks)
    requires DistinctDecls(plan) && DistinctRecords(marks)
    ensures before == States(plan) && Aimed(plan, before, after) && PlanSound(plan, before, after, marks)
    ensures RewrittenUpTo(plan, decls, before, after, 0) && RecordsIn(marks, recs)
  {
    before := States(plan);
    after := Targets(plan, before);
  }

  /**
   * The drawing proper: a trailing reused sheet is taken off and its
   * declarations rewritten from the records; then every packed sheet i of
   * the n left is drawn as composite SpriteImageName(cssFileName, i, n),
   * the n names being made up front, and the names of the composites that
   * hold an image are returned in order, as the ones written out. Every
   * declaration of the plan ends repositioned on its composite, and every
   * record of the plan marked as drawn there.
   */
  method DrawSheets(sheets: seq<Sheet>, cssFileName: string, cfg: NameConfig, objs: map<string, Entry>)
      returns (written: seq<string>)
    requires DrawReady(sheets, objs)
    requires DistinctDecls(Plan(sheets, cssFileName, cfg, objs))
    requires DistinctRecords(Marks(sheets, cssFileName, cfg, objs))
    modifies PlanDecls(Plan(sheets, cssFileName, cfg, objs)), MarkRecords(Marks(sheets, cssFileName, cfg, objs))
    ensures written == WrittenNames(PackedPart(sheets), SpriteNames(cssFileName, |PackedPart(sheets)|, cfg), |PackedPart(sheets)|)
    ensures AllRepositioned(old(Plan(sheets, cssFileName, cfg, objs)), old(States(Plan(sheets, cssFileName, cfg, objs))))
    ensures AllMarked(Marks(sheets, cssFileName, cfg, objs))
  {
    ghost var plan, marks, names, reused, sr := Layout(sheets, cssFileName, cfg, objs);
    ghost var decls, recs := PlanDecls(plan), MarkRecords(marks);
    ghost var before, after := Snapshot(plan, marks, decls, recs);
    var spriteArray := TakeReused(sheets, objs, plan, decls, before, after, reused);
    var spriteNames := SpriteNames(cssFileName, |spriteArray|, cfg);
    written := DrawPacked(spriteArray, spriteNames, objs, plan, decls, before, after, |reused|, marks, recs, sr);
    AllRewritten(plan, decls, before, after);
    AllMade(marks, recs);
  }

  /**
   * drawImageAndPositionBackground(spriteObj): an empty sprite array makes
   * the test for a trailing reused sheet throw before anything is changed;
   * any other is drawn as DrawSheets says.
   */
  method DrawImageAndPositionBackground(sheets: seq<Sheet>, cssFileName: string, cfg: NameConfig, objs: map<string, Entry>)
      returns (written: Result<seq<string>, string>)
    requires DrawReady(sheets, objs)
    requires DistinctDecls(Plan(sheets, cssFileName, cfg, objs))
    requires DistinctRecords(Marks(sheets, cssFileName, cfg, objs))
    modifies PlanDecls(Plan(sheets, cssFileName, cfg, objs)), MarkRecords(Marks(sheets, cssFileName, cfg, objs))
    ensures sheets == [] <==> written.Err?
    ensures written.Ok? ==>
              written.value == WrittenNames(PackedPart(sheets), SpriteNames(cssFileName, |PackedPart(sheets)|, cfg), |PackedPart(sheets)|)
    ensures AllRepositioned(old(Plan(sheets, cssFileName, cfg, objs)), old(States(Plan(sheets, cssFileName, cfg, objs))))
    ensures AllMarked(Marks(sheets, cssFileName, cfg, objs))
  {
    var last := TrailingReusedAsWritten(sheets);
    if last.Err? {
      EmptyPlan(sheets, cssFileName, cfg, objs);
      return Err(last.error);
    }
    var names := DrawSheets(sheets, cssFileName, cfg, objs);
    written := Ok(names);
  }

  /** Without sheets there is nothing to rewrite or mark. */
  lemma EmptyPlan(sheets: seq<Sheet>, cssFileName: string, cfg: NameConfig, objs: map<string, Entry>)
    requires sheets == [] && DrawReady(sheets, objs)
    ensures Plan(sheets, cssFileName, cfg, objs) == [] && Marks(sheets, cssFileName, cfg, objs) == []
  {
  }
}
