/**
 * The StyleObjList the collector fills: for every image url the declarations
 * that use it, in the order met, plus a `length` that counts the distinct
 * urls. Keys are kept in insertion order, the order `for (url in list)`
 * enumerates them.
 */
module StyleObjects {
  import opened Declarations

  /** A StyleObj: one image, by the url written in the style sheet and by absolute path, and its declarations. */
  datatype StyleObj = StyleObj(imageUrl: string, imageAbsUrl: string, cssRules: seq<Declaration>)

  /** One declaration accepted for spriting, with the url and absolute path of its image. */
  datatype Hit = Hit(url: string, abs: string, decl: Declaration)

  /** The value of a StyleObjList: its urls in insertion order and the object per url. */
  datatype Groups = Groups(urls: seq<string>, objs: map<string, StyleObj>)

  const NoGroups := Groups([], map[])

  /** Urls listed once each, exactly the keys of the map, each object filed under its own url. */
  predicate ValidGroups(g: Groups) {
    && (forall i, j :: 0 <= i < j < |g.urls| ==> g.urls[i] != g.urls[j])
    && (forall u :: u in g.objs ==> u in g.urls)
    && (forall i :: 0 <= i < |g.urls| ==> g.urls[i] in g.objs)
    && (forall u :: u in g.objs ==> g.objs[u].imageUrl == u)
  }

  /** The declarations filed under url u. */
  function RulesFor(g: Groups, u: string): seq<Declaration> {
    if u in g.objs then g.objs[u].cssRules else []
  }

  /**
   * Filing one hit: a known url gets the declaration appended to its rules;
   * an unknown one gets a new object, listed last, holding just it.
   */
  function Absorb(g: Groups, h: Hit): Groups {
    if h.url in g.objs then
      var o := g.objs[h.url];
      g.(objs := g.objs[h.url := o.(cssRules := o.cssRules + [h.decl])])
    else
      Groups(g.urls + [h.url], g.objs[h.url := StyleObj(h.url, h.abs, [h.decl])])
  }

  /** The hits filed one after the other. */
  function AbsorbAll(g: Groups, hits: seq<Hit>): Groups
    decreases |hits|
  {
    if hits == [] then g else Absorb(AbsorbAll(g, hits[..|hits| - 1]), hits[|hits| - 1])
  }

  /** The declarations of the hits on url u, in order. */
  function HitsFor(hits: seq<Hit>, u: string): seq<Declaration>
    decreases |hits|
  {
    if hits == [] then []
    else
      var last := hits[|hits| - 1];
      HitsFor(hits[..|hits| - 1], u) + (if last.url == u then [last.decl] else [])
  }

  lemma AbsorbValid(g: Groups, h: Hit)
    requires ValidGroups(g)
    ensures ValidGroups(Absorb(g, h))
  {
  }

  lemma AbsorbRules(g: Groups, h: Hit, u: string)
    ensures RulesFor(Absorb(g, h), u) == RulesFor(g, u) + (if h.url == u then [h.decl] else [])
  {
  }

  /** Filing keeps the list valid. */
  lemma {:induction false} AbsorbAllValid(g: Groups, hits: seq<Hit>)
    requires ValidGroups(g)
    ensures ValidGroups(AbsorbAll(g, hits))
    decreases |hits|
  {
    if hits != [] {
      AbsorbAllValid(g, hits[..|hits| - 1]);
      AbsorbValid(AbsorbAll(g, hits[..|hits| - 1]), hits[|hits| - 1]);
    }
  }

  /** Filing two runs of hits one after the other is filing their concatenation. */
  lemma {:induction false} AbsorbAllAppend(g: Groups, a: seq<Hit>, b: seq<Hit>)
    ensures AbsorbAll(g, a + b) == AbsorbAll(AbsorbAll(g, a), b)
    decreases |b|
  {
    if b == [] {
      assert a + b == a;
    } else {
      var n := |b| - 1;
      assert (a + b)[..|a + b| - 1] == a + b[..n];
      assert (a + b)[|a + b| - 1] == b[n];
      AbsorbAllAppend(g, a, b[..n]);
    }
  }

  /** Every url's rules grow by exactly the declarations of its hits, in the order they came. */
  lemma {:induction false} AbsorbAllRules(g: Groups, hits: seq<Hit>, u: string)
    ensures RulesFor(AbsorbAll(g, hits), u) == RulesFor(g, u) + HitsFor(hits, u)
    decreases |hits|
  {
    if hits != [] {
      var prefix := hits[..|hits| - 1];
      AbsorbAllRules(g, prefix, u);
      AbsorbRules(AbsorbAll(g, prefix), hits[|hits| - 1], u);
    }
  }

  /** A url has an entry afterwards exactly when it had one before or some hit used it. */
  lemma {:induction false} AbsorbAllUrls(g: Groups, hits: seq<Hit>, u: string)
    ensures u in AbsorbAll(g, hits).objs <==> u in g.objs || HitsFor(hits, u) != []
    decreases |hits|
  {
    if hits != [] {
      AbsorbAllUrls(g, hits[..|hits| - 1], u);
    }
  }

  /**
   * The image path of a url is fixed by the first declaration filed under
   * it: later hits on the same url, even from a style sheet in another
   * directory, leave imageUrl and imageAbsUrl as they were.
   */
  lemma {:induction false} AbsorbAllKeepsImage(g: Groups, hits: seq<Hit>, u: string)
    requires u in g.objs
    ensures u in AbsorbAll(g, hits).objs
    ensures AbsorbAll(g, hits).objs[u].imageAbsUrl == g.objs[u].imageAbsUrl
    ensures AbsorbAll(g, hits).objs[u].imageUrl == g.objs[u].imageUrl
    decreases |hits|
  {
    if hits != [] {
      AbsorbAllKeepsImage(g, hits[..|hits| - 1], u);
    }
  }

  /** The first hit on a new url opens its object with that hit's path. */
  lemma AbsorbNewUrl(g: Groups, h: Hit)
    requires ValidGroups(g) && h.url !in g.objs
    ensures Absorb(g, h).urls == g.urls + [h.url]
    ensures Absorb(g, h).objs[h.url] == StyleObj(h.url, h.abs, [h.decl])
  {
  }

  /** In a valid list the url count is the number of distinct urls held. */
  lemma UrlCount(g: Groups)
    requires ValidGroups(g)
    ensures |g.objs.Keys| == |g.urls|
  {
    DistinctCard(g.urls);
    assert g.objs.Keys == set i | 0 <= i < |g.urls| :: g.urls[i];
  }

  lemma {:induction false} DistinctCard(s: seq<string>)
    requires forall i, j :: 0 <= i < j < |s| ==> s[i] != s[j]
    ensures |set i | 0 <= i < |s| :: s[i]| == |s|
    decreases |s|
  {
    if s != [] {
      var prefix := s[..|s| - 1];
      DistinctCard(prefix);
      var a := set i | 0 <= i < |prefix| :: prefix[i];
      var b := set i | 0 <= i < |s| :: s[i];
      assert b == a + {s[|s| - 1]};
      assert s[|s| - 1] !in a;
    }
  }

  // ---------------------------------------------------------------------
  // The union of mergeCombineSprites
  // ---------------------------------------------------------------------

  /**
   * One url of another list taken over: appended to an object already held
   * for it (`cssRules.concat`), or else the object itself is added, listed last.
   */
  function TakeOver(acc: Groups, o: StyleObj): Groups {
    if o.imageUrl in acc.objs then
      var e := acc.objs[o.imageUrl];
      acc.(objs := acc.objs[o.imageUrl := e.(cssRules := e.cssRules + o.cssRules)])
    else
      Groups(acc.urls + [o.imageUrl], acc.objs[o.imageUrl := o])
  }

  /** The first `n` urls of g taken over, in g's order (in a valid g every listed url has its object). */
  function TakeOverUrls(acc: Groups, g: Groups, n: nat): Groups
    requires n <= |g.urls|
  {
    if n == 0 then acc
    else
      var prev := TakeOverUrls(acc, g, n - 1);
      if g.urls[n - 1] in g.objs then TakeOver(prev, g.objs[g.urls[n - 1]]) else prev
  }

  /** The lists merged one after the other into one, starting from an empty list. */
  function Union(gs: seq<Groups>): Groups
    decreases |gs|
  {
    if gs == [] then NoGroups
    else
      var g := gs[|gs| - 1];
      TakeOverUrls(Union(gs[..|gs| - 1]), g, |g.urls|)
  }

  /** The rules of url u in each list, concatenated in list order. */
  function RulesAcross(gs: seq<Groups>, u: string): seq<Declaration>
    decreases |gs|
  {
    if gs == [] then [] else RulesAcross(gs[..|gs| - 1], u) + RulesFor(gs[|gs| - 1], u)
  }

  lemma TakeOverValid(acc: Groups, o: StyleObj)
    requires ValidGroups(acc)
    ensures ValidGroups(TakeOver(acc, o))
  {
  }

  lemma TakeOverRules(acc: Groups, o: StyleObj, u: string)
    ensures RulesFor(TakeOver(acc, o), u) == RulesFor(acc, u) + (if u == o.imageUrl then o.cssRules else [])
  {
  }

  lemma {:induction false} TakeOverUrlsValid(acc: Groups, g: Groups, n: nat)
    requires ValidGroups(acc) && n <= |g.urls|
    ensures ValidGroups(TakeOverUrls(acc, g, n))
  {
    if n > 0 {
      TakeOverUrlsValid(acc, g, n - 1);
      if g.urls[n - 1] in g.objs {
        TakeOverValid(TakeOverUrls(acc, g, n - 1), g.objs[g.urls[n - 1]]);
      }
    }
  }

  lemma {:induction false} TakeOverUrlsRules(acc: Groups, g: Groups, n: nat, u: string)
    requires ValidGroups(g) && n <= |g.urls|
    ensures RulesFor(TakeOverUrls(acc, g, n), u) ==
            RulesFor(acc, u) + (if u in g.urls[..n] then g.objs[u].cssRules else [])
  {
    if n > 0 {
      TakeOverUrlsRules(acc, g, n - 1, u);
      var prev := TakeOverUrls(acc, g, n - 1);
      var v := g.urls[n - 1];
      var o := g.objs[v];
      assert TakeOverUrls(acc, g, n) == TakeOver(prev, o);
      TakeOverRules(prev, o, u);
      InPrefix(g.urls, n, u);
      if u == v {
        DistinctLast(g.urls, n);
      }
    }
  }

  lemma {:induction false} TakeOverUrlsHas(acc: Groups, g: Groups, n: nat, u: string)
    requires ValidGroups(g) && n <= |g.urls|
    ensures u in TakeOverUrls(acc, g, n).objs <==> u in acc.objs || u in g.urls[..n]
  {
    if n > 0 {
      TakeOverUrlsHas(acc, g, n - 1, u);
      InPrefix(g.urls, n, u);
    }
  }

  lemma InPrefix(s: seq<string>, n: nat, u: string)
    requires 0 < n <= |s|
    ensures u in s[..n] <==> u in s[..n - 1] || u == s[n - 1]
  {
    assert s[..n] == s[..n - 1] + [s[n - 1]];
  }

  lemma DistinctLast(s: seq<string>, n: nat)
    requires forall i, j :: 0 <= i < j < |s| ==> s[i] != s[j]
    requires 0 < n <= |s|
    ensures s[n - 1] !in s[..n - 1]
  {
  }

  /**
   * mergeCombineSprites' union: it is a valid list; every url's rules are
   * the rules it had in each input list, concatenated in the order of the
   * lists; and it holds exactly the urls some input list holds.
   */
  lemma UnionEffect(gs: seq<Groups>, u: string)
    requires forall i :: 0 <= i < |gs| ==> ValidGroups(gs[i])
    ensures ValidGroups(Union(gs))
    ensures RulesFor(Union(gs), u) == RulesAcross(gs, u)
    ensures u in Union(gs).objs <==> exists i :: 0 <= i < |gs| && u in gs[i].objs
  {
    UnionValid(gs);
    UnionRules(gs, u);
    UnionHas(gs, u);
  }

  lemma {:induction false} UnionValid(gs: seq<Groups>)
    ensures ValidGroups(Union(gs))
    decreases |gs|
  {
    if gs != [] {
      var g := gs[|gs| - 1];
      UnionValid(gs[..|gs| - 1]);
      TakeOverUrlsValid(Union(gs[..|gs| - 1]), g, |g.urls|);
    }
  }

  lemma {:induction false} UnionRules(gs: seq<Groups>, u: string)
    requires forall i :: 0 <= i < |gs| ==> ValidGroups(gs[i])
    ensures RulesFor(Union(gs), u) == RulesAcross(gs, u)
    decreases |gs|
  {
    if gs != [] {
      var prefix := gs[..|gs| - 1];
      var g := gs[|gs| - 1];
      assert ValidGroups(g);
      assert forall i :: 0 <= i < |prefix| ==> prefix[i] == gs[i];
      UnionRules(prefix, u);
      TakeOverUrlsRules(Union(prefix), g, |g.urls|, u);
      assert g.urls[..|g.urls|] == g.urls;
    }
  }

  lemma {:induction false} UnionHas(gs: seq<Groups>, u: string)
    requires forall i :: 0 <= i < |gs| ==> ValidGroups(gs[i])
    ensures u in Union(gs).objs <==> exists i :: 0 <= i < |gs| && u in gs[i].objs
    decreases |gs|
  {
    if gs != [] {
      var prefix := gs[..|gs| - 1];
      var g := gs[|gs| - 1];
      assert ValidGroups(g);
      assert forall i :: 0 <= i < |prefix| ==> prefix[i] == gs[i];
      UnionHas(prefix, u);
      TakeOverUrlsHas(Union(prefix), g, |g.urls|, u);
      assert g.urls[..|g.urls|] == g.urls;
      if u in Union(gs).objs && u !in g.objs {
        var i :| 0 <= i < |prefix| && u in prefix[i].objs;
        assert gs[i] == prefix[i];
      }
      if exists i :: 0 <= i < |gs| && u in gs[i].objs {
        var i :| 0 <= i < |gs| && u in gs[i].objs;
        if i < |gs| - 1 {
          assert prefix[i] == gs[i];
        }
      }
    }
  }

  /** The StyleObjList object: its urls, its objects, and the `length` counter. */
  class StyleObjList {
    var urls: seq<string>
    var objs: map<string, StyleObj>
    var length: int

    function View(): Groups
      reads this
    {
      Groups(urls, objs)
    }

    /** The list is consistent and `length` counts its urls. */
    predicate Valid()
      reads this
    {
      ValidGroups(View()) && length == |urls|
    }

    /** `{ length: 0 }` */
    constructor ()
      ensures Valid() && View() == NoGroups
    {
      urls := [];
      objs := map[];
      length := 0;
    }

    /** `result[url].cssRules.push(style)`, opening `result[url]` (and counting it) first when missing. */
    method Add(h: Hit)
      requires Valid()
      modifies this
      ensures Valid() && View() == Absorb(old(View()), h)
    {
      if h.url !in objs {
        objs := objs[h.url := StyleObj(h.url, h.abs, [h.decl])];
        urls := urls + [h.url];
        length := length + 1;
      } else {
        var o := objs[h.url];
        objs := objs[h.url := o.(cssRules := o.cssRules + [h.decl])];
      }
    }

    /** The union step of mergeCombineSprites for one object of another list. */
    method TakeOverObj(o: StyleObj)
      requires Valid()
      modifies this
      ensures Valid() && View() == TakeOver(old(View()), o)
    {
      if o.imageUrl in objs {
        var e := objs[o.imageUrl];
        objs := objs[o.imageUrl := e.(cssRules := e.cssRules + o.cssRules)];
      } else {
        objs := objs[o.imageUrl := o];
        urls := urls + [o.imageUrl];
        length := length + 1;
      }
    }
  }
}
