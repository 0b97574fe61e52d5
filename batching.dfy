/**
 * positionImages: the images of a list are split into those an earlier
 * sprite already holds and the rest; the rest, largest file first, are cut
 * into batches whose byte sizes stay under `maxSingleSize`, and each batch
 * is laid out by the packer. The already drawn images form one trailing
 * batch of their own.
 */
module Batching {
  import opened Geometry

  /**
   * One image of the list: its url, its encoded byte size, its slot (w, h)
   * and whether an earlier sprite already holds it (`imageInfo.drew`).
   */
  datatype Item = Item(url: string, size: nat, w: int, h: int, drew: bool)

  /** What the packer gives for a batch: a position per image and the sprite's size (`root`). */
  datatype Packing = Packing(fits: seq<Point>, root: Size)

  /**
   * A sprite to draw: a packed batch, in the packer's order, with its
   * positions and size; or the trailing batch of already drawn images,
   * which has no `root`.
   */
  datatype Sheet =
    | Packed(items: seq<Item>, fits: seq<Point>, root: Size)
    | Reused(items: seq<Item>)

  function SizeKey(it: Item): int { it.size }

  function AreaKey(it: Item): int { it.w * it.h }

  // ---------------------------------------------------------------------
  // Partition
  // ---------------------------------------------------------------------

  /** The images not yet drawn, in list order. */
  function Undrawn(items: seq<Item>): seq<Item>
    decreases |items|
  {
    if items == [] then []
    else Undrawn(items[..|items| - 1]) + (if items[|items| - 1].drew then [] else [items[|items| - 1]])
  }

  /** The images already drawn, in list order. */
  function Drawn(items: seq<Item>): seq<Item>
    decreases |items|
  {
    if items == [] then []
    else Drawn(items[..|items| - 1]) + (if items[|items| - 1].drew then [items[|items| - 1]] else [])
  }

  /** Every image lands on exactly one side, and each side holds only its kind. */
  lemma PartitionSplits(items: seq<Item>)
    ensures multiset(Undrawn(items)) + multiset(Drawn(items)) == multiset(items)
    ensures forall i :: 0 <= i < |Undrawn(items)| ==> !Undrawn(items)[i].drew
    ensures forall i :: 0 <= i < |Drawn(items)| ==> Drawn(items)[i].drew
  {
    PartitionMultiset(items);
    UndrawnKind(items);
    DrawnKind(items);
  }

  lemma {:induction false} PartitionMultiset(items: seq<Item>)
    ensures multiset(Undrawn(items)) + multiset(Drawn(items)) == multiset(items)
    decreases |items|
  {
    if items != [] {
      var n := |items| - 1;
      PartitionMultiset(items[..n]);
      assert multiset(items) == multiset(items[..n]) + multiset{items[n]} by {
        assert items == items[..n] + [items[n]];
      }
    }
  }

  lemma {:induction false} UndrawnKind(items: seq<Item>)
    ensures forall i :: 0 <= i < |Undrawn(items)| ==> !Undrawn(items)[i].drew
    decreases |items|
  {
    if items != [] {
      UndrawnKind(items[..|items| - 1]);
    }
  }

  lemma {:induction false} DrawnKind(items: seq<Item>)
    ensures forall i :: 0 <= i < |Drawn(items)| ==> Drawn(items)[i].drew
    decreases |items|
  {
    if items != [] {
      DrawnKind(items[..|items| - 1]);
    }
  }

  /** The first loop of positionImages: `existArr` gets the drawn images, `arr` the others. */
  method Partition(items: seq<Item>) returns (arr: seq<Item>, existArr: seq<Item>)
    ensures arr == Undrawn(items) && existArr == Drawn(items)
  {
    arr, existArr := [], [];
    for k := 0 to |items|
      invariant arr == Undrawn(items[..k]) && existArr == Drawn(items[..k])
    {
      assert items[..k + 1][..k] == items[..k];
      if items[k].drew {
        existArr := existArr + [items[k]];
      } else {
        arr := arr + [items[k]];
      }
    }
    assert items[..|items|] == items;
  }

  // ---------------------------------------------------------------------
  // Sorting in place, largest key first
  // ---------------------------------------------------------------------

  predicate SortedDesc(s: seq<Item>, key: Item -> int) {
    forall p, q :: 0 <= p < q < |s| ==> key(s[p]) >= key(s[q])
  }

  lemma SwapKeepsMultiset(s: seq<Item>, p: nat)
    requires p + 1 < |s|
    ensures multiset(s[p := s[p + 1]][p + 1 := s[p]]) == multiset(s)
  {
    var t := s[p := s[p + 1]][p + 1 := s[p]];
    assert s == s[..p] + [s[p], s[p + 1]] + s[p + 2..];
    assert t == s[..p] + [s[p + 1], s[p]] + s[p + 2..];
  }

  /**
   * `arr.sort(function(a, b){ return key(b) - key(a); })`: the array is
   * rearranged so that keys never increase.
   */
  method SortDescending(a: array<Item>, key: Item -> int)
    modifies a
    ensures SortedDesc(a[..], key)
    ensures multiset(a[..]) == multiset(old(a[..]))
  {
    var i := 0;
    while i < a.Length
      invariant 0 <= i <= a.Length
      invariant SortedDesc(a[..i], key)
      invariant multiset(a[..]) == multiset(old(a[..]))
    {
      InsertAt(a, i, key);
      i := i + 1;
    }
    assert a[..a.Length] == a[..];
  }

  /** One pass of the insertion: a[i] swapped leftwards past every smaller key. */
  method InsertAt(a: array<Item>, i: nat, key: Item -> int)
    requires i < a.Length && SortedDesc(a[..i], key)
    modifies a
    ensures SortedDesc(a[..i + 1], key)
    ensures multiset(a[..]) == multiset(old(a[..]))
  {
    var j := i;
    InsertStart(a[..], i, key);
    while j > 0 && key(a[j - 1]) < key(a[j])
      invariant Inserting(a[..], i, j, key)
      invariant multiset(a[..]) == multiset(old(a[..]))
    {
      InsertStep(a[..], i, j, key);
      a[j - 1], a[j] := a[j], a[j - 1];
      j := j - 1;
    }
    InsertDone(a[..], i, j, key);
  }

  /**
   * Midway through inserting s[..i + 1]'s last element, now at j: every
   * other pair up to i is in order, and everything right of j is smaller.
   */
  predicate Inserting(s: seq<Item>, i: int, j: int, key: Item -> int) {
    && 0 <= j <= i < |s|
    && (forall p, q :: 0 <= p < q <= i && q != j ==> key(s[p]) >= key(s[q]))
    && (forall q :: j < q <= i ==> key(s[j]) > key(s[q]))
  }

  lemma InsertStart(s: seq<Item>, i: nat, key: Item -> int)
    requires i < |s| && SortedDesc(s[..i], key)
    ensures Inserting(s, i, i, key)
  {
    forall p, q | 0 <= p < q <= i && q != i
      ensures key(s[p]) >= key(s[q])
    {
      assert s[..i][p] == s[p] && s[..i][q] == s[q];
    }
  }

  lemma InsertStep(s: seq<Item>, i: nat, j: nat, key: Item -> int)
    requires Inserting(s, i, j, key) && j > 0 && key(s[j - 1]) < key(s[j])
    ensures Inserting(s[j - 1 := s[j]][j := s[j - 1]], i, j - 1, key)
    ensures multiset(s[j - 1 := s[j]][j := s[j - 1]]) == multiset(s)
  {
    SwapKeepsMultiset(s, j - 1);
    var t := s[j - 1 := s[j]][j := s[j - 1]];
    forall p, q | 0 <= p < q <= i && q != j - 1
      ensures key(t[p]) >= key(t[q])
    {
      if q == j {
        if p < j - 1 {
          assert key(s[p]) >= key(s[j - 1]);
        }
      } else if p == j - 1 {
        assert key(s[j]) > key(s[q]);
      } else if p == j {
        assert key(s[j - 1]) >= key(s[q]);
      }
    }
    forall q | j - 1 < q <= i
      ensures key(t[j - 1]) > key(t[q])
    {
    }
  }

  lemma InsertDone(s: seq<Item>, i: nat, j: int, key: Item -> int)
    requires Inserting(s, i, j, key) && (j == 0 || key(s[j - 1]) >= key(s[j]))
    ensures SortedDesc(s[..i + 1], key)
  {
    forall p, q | 0 <= p < q <= i
      ensures key(s[p]) >= key(s[q])
    {
      if q == j && p < j - 1 {
        assert key(s[p]) >= key(s[j - 1]);
      }
    }
  }

  // ---------------------------------------------------------------------
  // Greedy grouping
  // ---------------------------------------------------------------------

  /** The total byte size of a batch. */
  function Sum(s: seq<Item>): nat
    decreases |s|
  {
    if s == [] then 0 else Sum(s[..|s| - 1]) + s[|s| - 1].size
  }

  /** The batches laid end to end. */
  function Flatten(bs: seq<seq<Item>>): seq<Item>
    decreases |bs|
  {
    if bs == [] then [] else Flatten(bs[..|bs| - 1]) + bs[|bs| - 1]
  }

  /** The grouping loop's variables: the batches pushed, the open batch `ret`, and `total`. */
  datatype GroupState = GroupState(done: seq<seq<Item>>, ret: seq<Item>, total: int)

  /**
   * One image: added to the total; when that passes the limit and the open
   * batch is not empty, the open batch is closed and the image starts a new
   * one (its size the new total); either way it joins the open batch.
   */
  function Step(g: GroupState, it: Item, maxSize: int): GroupState {
    if g.total + it.size > maxSize && g.ret != [] then GroupState(g.done + [g.ret], [it], it.size)
    else GroupState(g.done, g.ret + [it], g.total + it.size)
  }

  function Run(items: seq<Item>, maxSize: int): GroupState
    decreases |items|
  {
    if items == [] then GroupState([], [], 0)
    else Step(Run(items[..|items| - 1], maxSize), items[|items| - 1], maxSize)
  }

  /** The batches: those closed by the loop, then the open one if it is not empty. */
  function Grouped(items: seq<Item>, maxSize: int): seq<seq<Item>> {
    var g := Run(items, maxSize);
    if g.ret != [] then g.done + [g.ret] else g.done
  }

  /** The grouping loop of positionImages. */
  method GroupBySize(arr: seq<Item>, maxSize: int) returns (spriteArray: seq<seq<Item>>)
    ensures spriteArray == Grouped(arr, maxSize)
  {
    var total := 0;
    var ret: seq<Item> := [];
    spriteArray := [];
    for k := 0 to |arr|
      invariant Run(arr[..k], maxSize) == GroupState(spriteArray, ret, total)
    {
      assert arr[..k + 1][..k] == arr[..k];
      var item := arr[k];
      total := total + item.size;
      if total > maxSize {
        if |ret| > 0 {
          spriteArray := spriteArray + [ret];
          ret := [];
          total := item.size;
        }
      }
      ret := ret + [item];
    }
    assert arr[..|arr|] == arr;
    if |ret| > 0 {
      spriteArray := spriteArray + [ret];
    }
  }

  /** Nothing is lost or reordered: the closed batches and the open one give the images back. */
  lemma {:induction false} RunFlatten(items: seq<Item>, maxSize: int)
    ensures Flatten(Run(items, maxSize).done) + Run(items, maxSize).ret == items
    decreases |items|
  {
    if items != [] {
      var n := |items| - 1;
      RunFlatten(items[..n], maxSize);
      StepFlatten(Run(items[..n], maxSize), items[n], maxSize);
      assert items == items[..n] + [items[n]];
    }
  }

  lemma StepFlatten(g: GroupState, it: Item, maxSize: int)
    ensures Flatten(Step(g, it, maxSize).done) + Step(g, it, maxSize).ret == Flatten(g.done) + g.ret + [it]
  {
    if g.total + it.size > maxSize && g.ret != [] {
      assert (g.done + [g.ret])[..|g.done|] == g.done;
    }
  }

  /** `total` is the size of the open batch, which is empty only before the first image. */
  lemma RunTotal(items: seq<Item>, maxSize: int)
    ensures Run(items, maxSize).total == Sum(Run(items, maxSize).ret)
    ensures items != [] ==> Run(items, maxSize).ret != []
  {
    RunTotalSum(items, maxSize);
  }

  lemma {:induction false} RunTotalSum(items: seq<Item>, maxSize: int)
    ensures Run(items, maxSize).total == Sum(Run(items, maxSize).ret)
    decreases |items|
  {
    if items != [] {
      var n := |items| - 1;
      RunTotalSum(items[..n], maxSize);
      var g := Run(items[..n], maxSize);
      var it := items[n];
      assert Run(items, maxSize) == Step(g, it, maxSize);
      if g.total + it.size > maxSize && g.ret != [] {
        assert Sum([it]) == Sum([it][..0]) + it.size;
      } else {
        SumSnoc(g.ret, it);
      }
    }
  }

  lemma SumSnoc(s: seq<Item>, it: Item)
    ensures Sum(s + [it]) == Sum(s) + it.size
  {
    assert (s + [it])[..|s|] == s;
  }

  /** No closed batch is empty. */
  lemma {:induction false} RunNoEmpty(items: seq<Item>, maxSize: int)
    ensures forall j :: 0 <= j < |Run(items, maxSize).done| ==> Run(items, maxSize).done[j] != []
    decreases |items|
  {
    if items != [] {
      RunNoEmpty(items[..|items| - 1], maxSize);
    }
  }

  /** Every batch of two or more images, open or closed, stays within the limit. */
  lemma {:induction false} RunWithinLimit(items: seq<Item>, maxSize: int)
    ensures var g := Run(items, maxSize);
      && (|g.ret| >= 2 ==> Sum(g.ret) <= maxSize)
      && (forall j :: 0 <= j < |g.done| && |g.done[j]| >= 2 ==> Sum(g.done[j]) <= maxSize)
    decreases |items|
  {
    if items != [] {
      var n := |items| - 1;
      RunWithinLimit(items[..n], maxSize);
      RunTotal(items[..n], maxSize);
      var g := Run(items[..n], maxSize);
      if !(g.total + items[n].size > maxSize && g.ret != []) {
        assert (g.ret + [items[n]])[..|g.ret|] == g.ret;
      }
    }
  }

  /** A closed batch could not take the first image of the batch after it. */
  predicate Greedy(g: GroupState, maxSize: int) {
    && (forall j :: 1 <= j < |g.done| ==> g.done[j] != [] && Sum(g.done[j - 1]) + g.done[j][0].size > maxSize)
    && (g.done != [] ==> g.ret != [] && Sum(g.done[|g.done| - 1]) + g.ret[0].size > maxSize)
  }

  lemma {:induction false} RunGreedy(items: seq<Item>, maxSize: int)
    ensures Greedy(Run(items, maxSize), maxSize)
    decreases |items|
  {
    if items != [] {
      var n := |items| - 1;
      RunGreedy(items[..n], maxSize);
      RunTotal(items[..n], maxSize);
      StepGreedy(Run(items[..n], maxSize), items[n], maxSize);
    }
  }

  lemma StepGreedy(g: GroupState, it: Item, maxSize: int)
    requires Greedy(g, maxSize) && g.total == Sum(g.ret)
    ensures Greedy(Step(g, it, maxSize), maxSize)
  {
    if g.total + it.size > maxSize && g.ret != [] {
      var d: seq<seq<Item>> := g.done + [g.ret];
      forall j | 1 <= j < |d|
        ensures d[j] != [] && Sum(d[j - 1]) + d[j][0].size > maxSize
      {
        if j < |g.done| {
          assert d[j - 1] == g.done[j - 1] && d[j] == g.done[j];
        }
      }
    } else if g.ret != [] {
      assert (g.ret + [it])[0] == g.ret[0];
    }
  }

  /**
   * The batches laid end to end give the images back in their order, and
   * no batch is empty.
   */
  lemma GroupedPartitions(items: seq<Item>, maxSize: int)
    ensures Flatten(Grouped(items, maxSize)) == items
    ensures forall j :: 0 <= j < |Grouped(items, maxSize)| ==> Grouped(items, maxSize)[j] != []
  {
    RunFlatten(items, maxSize);
    RunTotal(items, maxSize);
    RunNoEmpty(items, maxSize);
    var g := Run(items, maxSize);
    if g.ret != [] {
      assert (g.done + [g.ret])[..|g.done|] == g.done;
    } else {
      assert Flatten(g.done) + g.ret == Flatten(g.done);
    }
  }

  /**
   * A batch of two or more images has a total size within the limit, and
   * every batch but the last was closed because the next image would have
   * pushed it over.
   */
  lemma GroupedWithinLimit(items: seq<Item>, maxSize: int)
    ensures var bs := Grouped(items, maxSize);
      forall j :: 0 <= j < |bs| && |bs[j]| >= 2 ==> Sum(bs[j]) <= maxSize
    ensures var bs := Grouped(items, maxSize);
      forall j :: 1 <= j < |bs| ==> bs[j] != [] && Sum(bs[j - 1]) + bs[j][0].size > maxSize
  {
    GroupedSmall(items, maxSize);
    GroupedFull(items, maxSize);
  }

  lemma GroupedSmall(items: seq<Item>, maxSize: int)
    ensures var bs := Grouped(items, maxSize);
      forall j :: 0 <= j < |bs| && |bs[j]| >= 2 ==> Sum(bs[j]) <= maxSize
  {
    RunWithinLimit(items, maxSize);
    var g := Run(items, maxSize);
    if g.ret != [] {
      var bs: seq<seq<Item>> := g.done + [g.ret];
      assert Grouped(items, maxSize) == bs;
      forall j | 0 <= j < |bs| && |bs[j]| >= 2
        ensures Sum(bs[j]) <= maxSize
      {
        if j < |g.done| {
          assert bs[j] == g.done[j];
        }
      }
    }
  }

  lemma GroupedFull(items: seq<Item>, maxSize: int)
    ensures var bs := Grouped(items, maxSize);
      forall j :: 1 <= j < |bs| ==> bs[j] != [] && Sum(bs[j - 1]) + bs[j][0].size > maxSize
  {
    RunGreedy(items, maxSize);
    var g := Run(items, maxSize);
    if g.ret != [] {
      var bs: seq<seq<Item>> := g.done + [g.ret];
      assert Grouped(items, maxSize) == bs;
      forall j | 1 <= j < |bs|
        ensures bs[j] != [] && Sum(bs[j - 1]) + bs[j][0].size > maxSize
      {
        assert bs[j - 1] == g.done[j - 1];
        if j < |g.done| {
          assert bs[j] == g.done[j];
        }
      }
    }
  }

  lemma {:induction false} SumAtLeastMember(s: seq<Item>, k: nat)
    requires k < |s|
    ensures Sum(s) >= s[k].size
    decreases |s|
  {
    var n := |s| - 1;
    if k < n {
      SumAtLeastMember(s[..n], k);
    }
  }

  /** An image larger than the limit ends up alone in its batch. */
  lemma OversizedAlone(items: seq<Item>, maxSize: int, j: nat, k: nat)
    requires j < |Grouped(items, maxSize)| && k < |Grouped(items, maxSize)[j]|
    requires Grouped(items, maxSize)[j][k].size > maxSize
    ensures |Grouped(items, maxSize)[j]| == 1
  {
    GroupedWithinLimit(items, maxSize);
    SumAtLeastMember(Grouped(items, maxSize)[j], k);
  }

  /** Sizes 12, 8, 5, 3 with a limit of 15 give the batches [12], [8, 5], [3]. */
  lemma GroupedExample(a: Item, b: Item, c: Item, d: Item)
    requires a.size == 12 && b.size == 8 && c.size == 5 && d.size == 3
    ensures Grouped([a, b, c, d], 15) == [[a], [b, c], [d]]
  {
    var s := [a, b, c, d];
    assert s[..3] == [a, b, c] && [a, b, c][..2] == [a, b] && [a, b][..1] == [a] && [a][..0] == [];
    assert Run([a], 15) == GroupState([], [a], 12);
    assert Run([a, b], 15) == GroupState([[a]], [b], 8);
    assert Run([a, b, c], 15) == GroupState([[a]], [b, c], 13);
    assert Run(s, 15) == GroupState([[a], [b, c]], [d], 3);
  }

  // ---------------------------------------------------------------------
  // Packing and the whole of positionImages
  // ---------------------------------------------------------------------

  /** A fresh array holding s. */
  method ToArray(s: seq<Item>) returns (a: array<Item>)
    ensures fresh(a) && a[..] == s
  {
    a := new Item[|s|](i requires 0 <= i < |s| => s[i]);
  }

  /**
   * The packing loop of positionImages: every batch, largest slot area
   * first, handed to the packer, which gives its positions and its `root`.
   */
  method PackBatches(batches: seq<seq<Item>>, pack: seq<Item> -> Packing) returns (sheets: seq<Sheet>)
    ensures |sheets| == |batches|
    ensures forall j :: 0 <= j < |batches| ==> Packs(sheets[j], batches[j], pack)
  {
    sheets := [];
    for j := 0 to |batches|
      invariant |sheets| == j
      invariant forall i :: 0 <= i < j ==> Packs(sheets[i], batches[i], pack)
    {
      var a := ToArray(batches[j]);
      SortDescending(a, AreaKey);
      var packing := pack(a[..]);
      sheets := sheets + [Packed(a[..], packing.fits, packing.root)];
    }
  }

  /** `sheet` is batch `b` sorted by slot area, largest first, as the packer laid it out. */
  predicate Packs(sheet: Sheet, b: seq<Item>, pack: seq<Item> -> Packing) {
    && sheet.Packed?
    && multiset(sheet.items) == multiset(b)
    && SortedDesc(sheet.items, AreaKey)
    && sheet.fits == pack(sheet.items).fits
    && sheet.root == pack(sheet.items).root
  }

  /**
   * The batches positionImages packs: with a limit (`maxSingleSize`
   * non-zero), the undrawn images in `order` grouped under it; without,
   * all of them in one batch, even none.
   */
  function Batches(undrawn: seq<Item>, order: seq<Item>, maxSize: int): seq<seq<Item>> {
    if maxSize != 0 then Grouped(order, maxSize) else [undrawn]
  }

  /**
   * positionImages(styleObjList): the packed sheets, one per batch, then,
   * only when some image was already drawn, one trailing sheet of those.
   * With a limit, `order` is the undrawn images as the size sort left
   * them: the same images, largest first.
   */
  method PositionImages(items: seq<Item>, maxSize: int, pack: seq<Item> -> Packing)
    returns (spriteArray: seq<Sheet>, ghost order: seq<Item>)
    ensures maxSize != 0 ==> SortedDesc(order, SizeKey) && multiset(order) == multiset(Undrawn(items))
    ensures var bs := Batches(Undrawn(items), order, maxSize);
      && |spriteArray| == |bs| + (if Drawn(items) != [] then 1 else 0)
      && (forall j :: 0 <= j < |bs| ==> Packs(spriteArray[j], bs[j], pack))
      && (Drawn(items) != [] ==> spriteArray[|bs|] == Reused(Drawn(items)))
  {
    var arr, existArr := Partition(items);
    order := arr;
    var batches: seq<seq<Item>>;
    if maxSize != 0 {
      var a := ToArray(arr);
      SortDescending(a, SizeKey);
      order := a[..];
      batches := GroupBySize(a[..], maxSize);
    } else {
      batches := [arr];
    }
    spriteArray := PackBatches(batches, pack);
    if |existArr| > 0 {
      spriteArray := spriteArray + [Reused(existArr)];
    }
  }
}
