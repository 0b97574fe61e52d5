/**
 * setImageWidthHeight and getPxValue: the slot an image takes in a sprite
 * is as large as the image or as any box a declaration using it gives
 * itself in pixels, whichever is larger, plus the configured margin.
 */
module Sizing {
  import opened Wrappers
  import opened JsText
  import opened StyleDeclaration
  import opened Declarations

  /** What reading a PNG gives: its dimensions and its encoded byte size. */
  datatype ImageInfo = ImageInfo(width: int, height: int, size: int)

  /**
   * getPxValue(cssValue): a truthy value containing "px" is read with
   * parseInt (None standing for NaN); anything else counts as 0.
   */
  function GetPxValue(value: Option<string>): Option<int> {
    if value.Some? && value.value != "" && Contains(value.value, "px") then ParseInt(value.value) else Some(0)
  }

  /** `if (v > m) m = v`: a NaN compares false and never wins. */
  function Larger(m: int, v: Option<int>): int {
    if v.Some? && v.value > m then v.value else m
  }

  /** The px values the declarations give property `name`, in order. */
  function PxValues(sts: seq<DeclState>, name: string): (r: seq<Option<int>>)
    ensures |r| == |sts|
    ensures forall i :: 0 <= i < |sts| ==> r[i] == GetPxValue(Get(sts[i], name))
  {
    seq(|sts|, i requires 0 <= i < |sts| => GetPxValue(Get(sts[i], name)))
  }

  /** The running maximum of the loop: `side`, raised by every value that beats it. */
  function Largest(vs: seq<Option<int>>, side: int): int
    decreases |vs|
  {
    if vs == [] then side else Larger(Largest(vs[..|vs| - 1], side), vs[|vs| - 1])
  }

  /** The side of the slot for property `name`: the image side, raised by the declared px values. */
  function Side(sts: seq<DeclState>, name: string, side: int): int {
    Largest(PxValues(sts, name), side)
  }

  /**
   * The side is the maximum: at least the image side and every declared px
   * value, and equal to the image side or to one of those values.
   */
  lemma SideIsMaximum(sts: seq<DeclState>, name: string, side: int)
    ensures Side(sts, name, side) >= side
    ensures forall i :: 0 <= i < |sts| && GetPxValue(Get(sts[i], name)).Some? ==>
              Side(sts, name, side) >= GetPxValue(Get(sts[i], name)).value
    ensures Side(sts, name, side) == side ||
            exists i :: 0 <= i < |sts| && GetPxValue(Get(sts[i], name)) == Some(Side(sts, name, side))
  {
    var vs := PxValues(sts, name);
    LargestBounds(vs, side);
    LargestAttained(vs, side);
    if Side(sts, name, side) != side {
      var i :| 0 <= i < |vs| && vs[i] == Some(Largest(vs, side));
      assert GetPxValue(Get(sts[i], name)) == Some(Side(sts, name, side));
    }
  }

  lemma {:induction false} LargestBounds(vs: seq<Option<int>>, side: int)
    ensures Largest(vs, side) >= side
    ensures forall i :: 0 <= i < |vs| && vs[i].Some? ==> Largest(vs, side) >= vs[i].value
    decreases |vs|
  {
    if vs != [] {
      var n := |vs| - 1;
      LargestBounds(vs[..n], side);
      assert forall i :: 0 <= i < n ==> vs[..n][i] == vs[i];
    }
  }

  lemma {:induction false} LargestAttained(vs: seq<Option<int>>, side: int)
    ensures Largest(vs, side) == side || exists i :: 0 <= i < |vs| && vs[i] == Some(Largest(vs, side))
    decreases |vs|
  {
    if vs != [] {
      var n := |vs| - 1;
      LargestAttained(vs[..n], side);
      var prev := Largest(vs[..n], side);
      if Largest(vs, side) != side && Largest(vs, side) == prev {
        var i :| 0 <= i < n && vs[..n][i] == Some(prev);
        assert vs[..n][i] == vs[i];
      }
    }
  }

  /** A value written by setPxValue (`<n>px`) reads back as n. */
  lemma GetPxValueOfPx(n: int)
    ensures GetPxValue(Some(IntToString(n) + "px")) == Some(n)
  {
    var s := IntToString(n) + "px";
    ParseIntOfIntToString(n, "px");
    assert OccursAt(s, "px", |s| - 2);
  }

  /** The states of a run of declarations. */
  function RuleStates(rules: seq<Declaration>): (r: seq<DeclState>)
    reads set i | 0 <= i < |rules| :: rules[i]
    ensures |r| == |rules|
    ensures forall i :: 0 <= i < |rules| ==> r[i] == rules[i].State()
  {
    seq(|rules|, i requires 0 <= i < |rules| reads set i | 0 <= i < |rules| :: rules[i] => rules[i].State())
  }

  /**
   * setImageWidthHeight(styleObj, imageInfo): the slot width and height
   * stored as `styleObj.w` and `styleObj.h`.
   */
  method SetImageWidthHeight(cssRules: seq<Declaration>, image: ImageInfo, margin: int) returns (w: int, h: int)
    ensures w == Side(RuleStates(cssRules), "width", image.width) + margin
    ensures h == Side(RuleStates(cssRules), "height", image.height) + margin
  {
    ghost var ws := PxValues(RuleStates(cssRules), "width");
    ghost var hs := PxValues(RuleStates(cssRules), "height");
    var mw, mh := image.width, image.height;
    for i := 0 to |cssRules|
      invariant mw == Largest(ws[..i], image.width)
      invariant mh == Largest(hs[..i], image.height)
    {
      var style := cssRules[i];
      var pw := GetPxValue(Get(style.State(), "width"));
      var ph := GetPxValue(Get(style.State(), "height"));
      assert ws[..i + 1][..i] == ws[..i] && ws[i] == pw;
      assert hs[..i + 1][..i] == hs[..i] && hs[i] == ph;
      if pw.Some? && pw.value > mw {
        mw := pw.value;
      }
      if ph.Some? && ph.value > mh {
        mh := ph.value;
      }
    }
    assert ws[..|cssRules|] == ws && hs[..|cssRules|] == hs;
    w := mw + margin;
    h := mh + margin;
  }
}
