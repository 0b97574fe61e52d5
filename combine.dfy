/**
 * mergeCombineSprites: with `combine` on, the lists collected from all the
 * style sheets become one list, and the sheets one array, under a single
 * css file name.
 */
module Combine {
  import opened StyleObjects
  import opened Collect

  /** A SpriteObj: a css file, its rules and the list collected from it. */
  datatype SpriteObj = SpriteObj(cssFileName: string, styleSheet: seq<Rule>, styleObjList: StyleObjList)

  function Lists(sprites: seq<SpriteObj>): set<StyleObjList> {
    set i | 0 <= i < |sprites| :: sprites[i].styleObjList
  }

  /** The values of the sprites' lists. */
  function Views(sprites: seq<SpriteObj>): (r: seq<Groups>)
    reads Lists(sprites)
    ensures |r| == |sprites|
    ensures forall i :: 0 <= i < |sprites| ==> r[i] == sprites[i].styleObjList.View()
  {
    seq(|sprites|, i requires 0 <= i < |sprites| reads Lists(sprites) => sprites[i].styleObjList.View())
  }

  /** The inner loop of mergeCombineSprites: every url of `other`, in order, taken over into `list`. */
  method TakeOverList(list: StyleObjList, other: StyleObjList)
    requires list.Valid() && other.Valid() && list != other
    modifies list
    ensures list.Valid() && list.View() == TakeOverUrls(old(list.View()), other.View(), |other.urls|)
  {
    ghost var start := list.View();
    for k := 0 to |other.urls|
      invariant list.Valid()
      invariant list.View() == TakeOverUrls(start, other.View(), k)
    {
      list.TakeOverObj(other.objs[other.urls[k]]);
    }
  }

  /** Round i of mergeCombineSprites' outer loop: the i-th list taken over into the combined one. */
  method MergeOne(list: StyleObjList, sprites: seq<SpriteObj>, i: int, ghost views: seq<Groups>)
    requires 0 <= i < |sprites| && views == Views(sprites) && list !in Lists(sprites)
    requires sprites[i].styleObjList.Valid()
    requires list.Valid() && list.View() == Union(views[..i])
    modifies list
    ensures list.Valid() && list.View() == Union(views[..i + 1])
  {
    TakeOverList(list, sprites[i].styleObjList);
    assert views[..i + 1][..i] == views[..i];
  }

  /**
   * mergeCombineSprites(spriteObjArray), whose one combined SpriteObj is
   * returned as its file name and list: the file name is the resolved
   * `cssDist + prefix + "all.css"`; the list is a fresh one holding the union of the lists, url by url in order of
   * first appearance, the rules of a url shared by several sheets
   * concatenated in sheet order.
   */
  method MergeCombineSprites(sprites: seq<SpriteObj>, cssDist: string, prefix: string, resolve: string -> string)
    returns (cssFileName: string, styleObjList: StyleObjList)
    requires forall i :: 0 <= i < |sprites| ==> sprites[i].styleObjList.Valid()
    ensures cssFileName == resolve(cssDist + prefix + "all.css")
    ensures fresh(styleObjList) && styleObjList.Valid()
    ensures styleObjList.View() == Union(Views(sprites))
  {
    cssFileName := resolve(cssDist + prefix + "all.css");
    ghost var views := Views(sprites);
    styleObjList := new StyleObjList();
    for i := 0 to |sprites|
      invariant fresh(styleObjList) && styleObjList.Valid()
      invariant styleObjList.View() == Union(views[..i])
      invariant Views(sprites) == views
    {
      MergeOne(styleObjList, sprites, i, views);
    }
    assert views[..|sprites|] == views;
  }
}
