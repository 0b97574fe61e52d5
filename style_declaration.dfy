/**
 * One CSS style declaration block as the stylesheet parser hands it over:
 * a name → value map plus the index list (`0: "border", 1: "color", length: 2`)
 * that fixes the order in which the block is serialised. The functions below
 * are the value-level meaning of the operations the sprite tool grafts onto
 * every declaration (splitBackground, mergeBackgound, extend) and of
 * setPxValue; the class Declaration at the end performs them in place.
 */
module StyleDeclaration {
  import opened Wrappers
  import opened JsText
  import opened Geometry

  const PosX := "background-position-x"
  const PosY := "background-position-y"

  /** The seven longhands mergeBackgound folds into `background`, in its order. */
  const MergeOrder: seq<string> := [
    "background-color", "background-image", "background-position",
    "background-repeat", "background-attachment",
    "background-origin", "background-clip"
  ]

  /** The value of a declaration block: its properties and its index list. */
  datatype DeclState = DeclState(props: map<string, string>, order: seq<string>)

  /** One layer of a parsed `background` shorthand: longhand name/value pairs in key order. */
  type Layer = seq<(string, string)>

  /** `style[name]`, None when the property is undefined. */
  function Get(st: DeclState, name: string): Option<string> {
    if name in st.props then Some(st.props[name]) else None
  }

  /** JavaScript truthiness of `style[name]`: defined and not the empty string. */
  predicate Truthy(st: DeclState, name: string) {
    name in st.props && st.props[name] != ""
  }

  /** A plain property write, `style[name] = value`: the index list is not touched. */
  function Assigned(st: DeclState, name: string, value: string): DeclState {
    st.(props := st.props[name := value])
  }

  /** `style[style.length++] = name`: the name is appended to the index list. */
  function Indexed(st: DeclState, name: string): DeclState {
    st.(order := st.order + [name])
  }

  /** setProperty(name, value): the value is stored and the name listed once. */
  function WithProperty(st: DeclState, name: string, value: string): DeclState {
    DeclState(st.props[name := value], if name in st.order then st.order else st.order + [name])
  }

  /** The sequence with the first occurrence of x taken out (Array.prototype.splice at indexOf). */
  function RemoveFirst(s: seq<string>, x: string): (r: seq<string>)
    ensures multiset(r) == multiset(s) - multiset{x}
  {
    if s == [] then []
    else
      assert s == [s[0]] + s[1..];
      if s[0] == x then s[1..] else [s[0]] + RemoveFirst(s[1..], x)
  }

  /** Taking out the first `x` leaves every other name listed exactly when it was. */
  lemma RemoveFirstKeeps(s: seq<string>, x: string, n: string)
    requires n != x
    ensures n in RemoveFirst(s, x) <==> n in s
  {
    assert multiset(RemoveFirst(s, x))[n] == multiset(s)[n];
  }

  /** The state removeProperty(name) leaves: the property and its first index entry gone. */
  function Without(st: DeclState, name: string): DeclState {
    DeclState(st.props - {name}, RemoveFirst(st.order, name))
  }

  /** The value removeProperty(name) returns: the old value, or "" when there was none. */
  function ValueOf(st: DeclState, name: string): string {
    Get(st, name).GetOr("")
  }

  // ---------------------------------------------------------------------
  // extend
  // ---------------------------------------------------------------------

  /** extend(obj, override): each pair of the layer is set unless the property is already truthy and override is off. */
  function Extended(st: DeclState, layer: Layer, override: bool): DeclState
    decreases |layer|
  {
    if layer == [] then st
    else
      var (name, value) := layer[0];
      var next := if Truthy(st, name) && !override then st else WithProperty(st, name, value);
      Extended(next, layer[1..], override)
  }

  predicate DistinctNames(layer: Layer) {
    forall i, j :: 0 <= i < j < |layer| ==> layer[i].0 != layer[j].0
  }

  predicate InLayer(layer: Layer, name: string) {
    exists i :: 0 <= i < |layer| && layer[i].0 == name
  }

  /**
   * What extend leaves behind: a property the layer does not name keeps its
   * value; a property it names takes the layer's value, except that without
   * override an already truthy property is never overwritten. A property
   * ends up listed in the index when it was, or when the layer sets it.
   */
  lemma {:induction false} ExtendedProps(st: DeclState, layer: Layer, override: bool, name: string)
    requires DistinctNames(layer)
    ensures name in Extended(st, layer, override).order <==>
              name in st.order || (InLayer(layer, name) && (override || !Truthy(st, name)))
    ensures !InLayer(layer, name) ==> Get(Extended(st, layer, override), name) == Get(st, name)
    ensures Truthy(st, name) && !override ==> Get(Extended(st, layer, override), name) == Get(st, name)
    ensures forall i :: 0 <= i < |layer| && layer[i].0 == name && (override || !Truthy(st, name)) ==>
              Get(Extended(st, layer, override), name) == Some(layer[i].1)
    decreases |layer|
  {
    if layer != [] {
      var (n, v) := layer[0];
      var next := if Truthy(st, n) && !override then st else WithProperty(st, n, v);
      assert DistinctNames(layer[1..]);
      ExtendedProps(next, layer[1..], override, name);
      if n == name {
        assert !InLayer(layer[1..], name);
        assert InLayer(layer, name) by { assert layer[0].0 == name; }
      } else {
        assert Get(next, name) == Get(st, name);
        assert Truthy(next, name) == Truthy(st, name);
        assert name in next.order <==> name in st.order;
        forall i | 0 <= i < |layer| && layer[i].0 == name
          ensures i >= 1 && layer[1..][i - 1].0 == name
        {
        }
        if InLayer(layer[1..], name) {
          var i :| 0 <= i < |layer[1..]| && layer[1..][i].0 == name;
          assert layer[i + 1].0 == name;
        } else {
          assert !InLayer(layer, name);
        }
      }
    }
  }

  // ---------------------------------------------------------------------
  // splitBackground
  // ---------------------------------------------------------------------

  /**
   * The position split as written: `value.trim().replace(/\s{2}/g,'').split(' ')`,
   * with y defaulting to x when the second piece is missing or empty.
   */
  function SplitPositionAsWritten(value: string): (string, string) {
    var parts := SplitOn(DropSpacePairs(Trim(value)), ' ');
    (parts[0], if |parts| > 1 && parts[1] != "" then parts[1] else parts[0])
  }

  /** `s.replace(/\s{2}/g, '')`: every pair of consecutive white-space characters, scanned left to right, deleted. */
  function DropSpacePairs(s: string): string {
    if |s| >= 2 && IsSpace(s[0]) && IsSpace(s[1]) then DropSpacePairs(s[2..])
    else if s == [] then []
    else [s[0]] + DropSpacePairs(s[1..])
  }

  /** The position split as intended: the first two white-space separated tokens, y defaulting to x. */
  function SplitPosition(value: string): (string, string) {
    var ts := Tokens(value);
    var x := if |ts| > 0 then ts[0] else "";
    (x, if |ts| > 1 then ts[1] else x)
  }

  /**
   * Two space-separated offsets written with a double space are glued
   * together by the code as written: `0  0` becomes x = y = `00`.
   */
  lemma SplitPositionAsWrittenGluesDoubleSpace()
    ensures SplitPositionAsWritten("0  0") == ("00", "00")
  {
    GlueTrim();
    GlueDrop();
    GlueSplit();
  }

  lemma GlueTrim()
    ensures Trim("0  0") == "0  0"
  {
    var v := "0  0";
    assert !IsSpace(v[0]) && !IsSpace(v[3]);
    TrimOfTrimmed(v);
  }

  lemma GlueDrop()
    ensures DropSpacePairs("0  0") == "00"
  {
    var v := "0  0";
    assert DropSpacePairs([]) == [];
    assert DropSpacePairs("0") == "0";
    assert IsSpace(' ');
    assert v[1..] == "  0" && v[1..][2..] == "0";
    assert DropSpacePairs("  0") == "0";
    assert !IsSpace(v[0]);
  }

  lemma GlueSplit()
    ensures SplitOn("00", ' ') == ["00"]
  {
    var z: string := "0";
    assert SplitOn([], ' ') == [""];
    assert z[1..] == [];
    assert [z[0]] + "" == z;
    assert [""][1..] == [];
    assert SplitOn(z, ' ') == [z];
    var zz: string := "00";
    assert zz[1..] == z;
    assert [zz[0]] + z == zz;
    assert [z][1..] == [];
  }

  /**
   * The intended split reads the two offsets back whatever white space
   * separates them, and a single token stands for both axes.
   */
  lemma SplitPositionReadsOffsets(x: string, gap: string, y: string)
    requires x != [] && y != [] && NoSpace(x) && NoSpace(y)
    requires gap != [] && forall i :: 0 <= i < |gap| ==> IsSpace(gap[i])
    ensures SplitPosition(x + gap + y) == (x, y)
    ensures SplitPosition(x) == (x, x)
  {
    TokensOfTwoWords(x, gap, y);
    TokensOfSpacedWord([], x);
    assert [] + x == x;
  }

  /**
   * splitBackground: without a truthy `background` nothing happens. Otherwise
   * a truthy `background-position` is split into the -x/-y longhands (plain
   * writes), `background` is parsed into layers, and only a single layer that
   * carries an image replaces the shorthand: `background` is removed and the
   * layer extends the declaration without overriding what is already set.
   */
  function Split(st: DeclState, analyse: string -> seq<Layer>): DeclState {
    if !Truthy(st, "background") then st
    else
      var positioned :=
        if Truthy(st, "background-position") then
          var (x, y) := SplitPositionAsWritten(st.props["background-position"]);
          Assigned(Assigned(st, PosX, x), PosY, y)
        else st;
      var layers := analyse(st.props["background"]);
      if |layers| != 1 || !LayerHasImage(layers[0]) then positioned
      else Extended(Without(positioned, "background"), layers[0], false)
  }

  /** `layer['background-image']` is truthy. */
  predicate LayerHasImage(layer: Layer) {
    exists i :: 0 <= i < |layer| && layer[i].0 == "background-image" && layer[i].1 != ""
  }

  /** splitBackground leaves a declaration without a truthy `background` untouched. */
  lemma SplitWithoutShorthand(st: DeclState, analyse: string -> seq<Layer>)
    requires !Truthy(st, "background")
    ensures Split(st, analyse) == st
  {
  }

  /**
   * A shorthand that parses into anything but one image layer stays in place,
   * with only the position longhands split out of a truthy background-position.
   */
  lemma SplitKeepsUnsupportedShorthand(st: DeclState, analyse: string -> seq<Layer>, name: string)
    requires Truthy(st, "background")
    requires var ls := analyse(st.props["background"]); |ls| != 1 || !LayerHasImage(ls[0])
    requires name != PosX && name != PosY
    ensures Get(Split(st, analyse), name) == Get(st, name)
    ensures Split(st, analyse).order == st.order
    ensures Truthy(st, "background-position") ==>
              (Get(Split(st, analyse), PosX), Get(Split(st, analyse), PosY)) ==
              (Some(SplitPositionAsWritten(st.props["background-position"]).0),
               Some(SplitPositionAsWritten(st.props["background-position"]).1))
  {
  }

  /**
   * A shorthand that parses into one image layer is replaced by that layer's
   * longhands: `background` is gone, and every property the layer names
   * takes the layer's value unless the declaration already had it truthy.
   */
  lemma SplitExpandsSingleLayer(st: DeclState, analyse: string -> seq<Layer>, name: string)
    requires Truthy(st, "background")
    requires var ls := analyse(st.props["background"]); |ls| == 1 && LayerHasImage(ls[0]) && DistinctNames(ls[0])
    requires name != "background" && name != PosX && name != PosY
    ensures var layer := analyse(st.props["background"])[0];
      && (!InLayer(layer, "background") ==> "background" !in Split(st, analyse).props)
      && (!InLayer(layer, name) || Truthy(st, name) ==> Get(Split(st, analyse), name) == Get(st, name))
      && (forall i :: 0 <= i < |layer| && layer[i].0 == name && !Truthy(st, name) ==>
            Get(Split(st, analyse), name) == Some(layer[i].1))
      && (name in Split(st, analyse).order <==> name in st.order || (InLayer(layer, name) && !Truthy(st, name)))
  {
    var layer := analyse(st.props["background"])[0];
    var positioned :=
      if Truthy(st, "background-position") then
        var (x, y) := SplitPositionAsWritten(st.props["background-position"]);
        Assigned(Assigned(st, PosX, x), PosY, y)
      else st;
    var bare := Without(positioned, "background");
    assert Split(st, analyse) == Extended(bare, layer, false);
    assert Get(bare, name) == Get(st, name);
    RemoveFirstKeeps(positioned.order, "background", name);
    ExtendedProps(bare, layer, false, name);
    ExtendedProps(bare, layer, false, "background");
  }

  // ---------------------------------------------------------------------
  // mergeBackgound
  // ---------------------------------------------------------------------

  /**
   * The loop of mergeBackgound: every truthy longhand of `names`, in order,
   * is removed and its value appended to `acc` followed by one space.
   */
  function FoldLonghands(st: DeclState, names: seq<string>, acc: string): (DeclState, string)
    decreases |names|
  {
    if names == [] then (st, acc)
    else if Truthy(st, names[0]) then
      FoldLonghands(Without(st, names[0]), names[1..], acc + (st.props[names[0]] + " "))
    else FoldLonghands(st, names[1..], acc)
  }

  /** The -x/-y longhands removed and their values, joined by a space and trimmed, written to background-position. */
  function Rejoined(st: DeclState): DeclState {
    var s1 := Without(st, PosX);
    Assigned(Without(s1, PosY), "background-position", Trim(ValueOf(st, PosX) + " " + ValueOf(s1, PosY)))
  }

  /** The truthy longhands of MergeOrder removed, and their values, space-joined, written to a new last `background`. */
  function Folded(st: DeclState): DeclState {
    var fold := FoldLonghands(st, MergeOrder, "");
    Indexed(Assigned(fold.0, "background", Trim(fold.1)), "background")
  }

  /**
   * mergeBackgound as written: the -x/-y longhands are always removed and
   * their joined values always written over `background-position`, and the
   * folded longhands are always written over `background`.
   */
  function MergedAsWritten(st: DeclState): DeclState {
    Folded(Rejoined(st))
  }

  /** The name listed in the index list, appended when it is not there yet. */
  function Listed(st: DeclState, name: string): DeclState {
    if name in st.order then st else Indexed(st, name)
  }

  /**
   * The position longhands, when the declaration holds them, rejoined into a
   * `background-position` that the index list names, so that it is written out.
   */
  function PositionJoined(st: DeclState): DeclState {
    if PosX in st.props || PosY in st.props then Listed(Rejoined(st), "background-position") else st
  }

  /**
   * mergeBackgound as intended: the position longhands, when present, are
   * rejoined into a listed `background-position`; a declaration that still
   * has its `background` keeps it, and otherwise the truthy longhands are
   * folded, in the fixed order, into a new `background` listed last.
   */
  function Merged(st: DeclState): DeclState {
    var joined := PositionJoined(st);
    if Truthy(joined, "background") then joined else Folded(joined)
  }

  /** The values of the truthy properties among `names`, in the order of `names`. */
  function PresentValues(st: DeclState, names: seq<string>): seq<string> {
    if names == [] then []
    else if Truthy(st, names[0]) then [st.props[names[0]]] + PresentValues(st, names[1..])
    else PresentValues(st, names[1..])
  }

  /** Each value followed by one space, concatenated. */
  function Spaced(values: seq<string>): string {
    if values == [] then "" else values[0] + " " + Spaced(values[1..])
  }

  predicate Distinct(names: seq<string>) {
    forall i, j :: 0 <= i < j < |names| ==> names[i] != names[j]
  }

  /** The fold removes exactly the truthy names and accumulates their values. */
  lemma {:induction false} FoldLonghandsValue(st: DeclState, names: seq<string>, acc: string)
    requires Distinct(names)
    ensures FoldLonghands(st, names, acc).1 == acc + Spaced(PresentValues(st, names))
    decreases |names|
  {
    if names != [] {
      assert Distinct(names[1..]);
      if Truthy(st, names[0]) {
        FoldLonghandsValueStep(st, names, acc);
      } else {
        assert FoldLonghands(st, names, acc) == FoldLonghands(st, names[1..], acc);
        assert PresentValues(st, names) == PresentValues(st, names[1..]);
        FoldLonghandsValue(st, names[1..], acc);
      }
    }
  }

  lemma {:induction false} FoldLonghandsValueStep(st: DeclState, names: seq<string>, acc: string)
    requires Distinct(names) && names != [] && Truthy(st, names[0])
    ensures FoldLonghands(st, names, acc).1 == acc + Spaced(PresentValues(st, names))
    decreases |names|, 0
  {
    var n := names[0];
    var value := st.props[n];
    var acc' := acc + (value + " ");
    var tail := PresentValues(st, names[1..]);
    FoldLonghandsUnfold(st, names, acc);
    assert Distinct(names[1..]) && n !in names[1..];
    FoldLonghandsValue(Without(st, n), names[1..], acc');
    PresentValuesIgnores(st, Without(st, n), names[1..], n);
    PresentValuesUnfold(st, names);
    SpacedCons(value, tail);
    Associate(acc, value + " ", Spaced(tail));
  }

  lemma FoldLonghandsUnfold(st: DeclState, names: seq<string>, acc: string)
    requires names != [] && Truthy(st, names[0])
    ensures FoldLonghands(st, names, acc) ==
            FoldLonghands(Without(st, names[0]), names[1..], acc + (st.props[names[0]] + " "))
  {
  }

  lemma PresentValuesUnfold(st: DeclState, names: seq<string>)
    requires names != [] && Truthy(st, names[0])
    ensures PresentValues(st, names) == [st.props[names[0]]] + PresentValues(st, names[1..])
  {
  }

  lemma Associate(a: string, b: string, c: string)
    ensures (a + b) + c == a + (b + c)
  {
  }

  lemma SpacedCons(value: string, tail: seq<string>)
    ensures Spaced([value] + tail) == value + " " + Spaced(tail)
  {
    assert ([value] + tail)[1..] == tail;
  }

  lemma {:induction false} FoldLonghandsClears(st: DeclState, names: seq<string>, acc: string, name: string)
    ensures name in names ==> !Truthy(FoldLonghands(st, names, acc).0, name)
    ensures name !in names ==> Get(FoldLonghands(st, names, acc).0, name) == Get(st, name)
    decreases |names|
  {
    if names != [] {
      var n := names[0];
      if Truthy(st, n) {
        var rest, acc' := Without(st, n), acc + (st.props[n] + " ");
        FoldLonghandsClears(rest, names[1..], acc', name);
        if name == n {
          FoldLonghandsKeepsFalsy(rest, names[1..], acc', name);
        }
      } else {
        FoldLonghandsClears(st, names[1..], acc, name);
        if name == n {
          FoldLonghandsKeepsFalsy(st, names[1..], acc, name);
        }
      }
    }
  }

  /** The fold unlists no name but the ones it folds. */
  lemma {:induction false} FoldLonghandsKeepsListed(st: DeclState, names: seq<string>, acc: string, n: string)
    requires n !in names
    ensures n in FoldLonghands(st, names, acc).0.order <==> n in st.order
    decreases |names|
  {
    if names != [] {
      if Truthy(st, names[0]) {
        RemoveFirstKeeps(st.order, names[0], n);
        FoldLonghandsKeepsListed(Without(st, names[0]), names[1..], acc + (st.props[names[0]] + " "), n);
      } else {
        FoldLonghandsKeepsListed(st, names[1..], acc, n);
      }
    }
  }

  /** The fold never makes a property truthy. */
  lemma {:induction false} FoldLonghandsKeepsFalsy(st: DeclState, names: seq<string>, acc: string, name: string)
    requires !Truthy(st, name)
    ensures !Truthy(FoldLonghands(st, names, acc).0, name)
    decreases |names|
  {
    if names != [] {
      var n := names[0];
      if Truthy(st, n) {
        FoldLonghandsKeepsFalsy(Without(st, n), names[1..], acc + (st.props[n] + " "), name);
      } else {
        FoldLonghandsKeepsFalsy(st, names[1..], acc, name);
      }
    }
  }

  lemma {:induction false} PresentValuesIgnores(st: DeclState, other: DeclState, names: seq<string>, n: string)
    requires n !in names
    requires forall m :: m != n ==> Get(other, m) == Get(st, m)
    ensures PresentValues(other, names) == PresentValues(st, names)
    decreases |names|
  {
    if names != [] {
      assert Get(other, names[0]) == Get(st, names[0]);
      PresentValuesIgnores(st, other, names[1..], n);
    }
  }

  /** Two declarations that agree on which of `names` are truthy, and on their values, present the same values. */
  lemma {:induction false} PresentValuesAgree(st: DeclState, other: DeclState, names: seq<string>)
    requires forall m :: m in names ==> (Truthy(other, m) <==> Truthy(st, m))
    requires forall m :: m in names && Truthy(st, m) ==> Get(other, m) == Get(st, m)
    ensures PresentValues(other, names) == PresentValues(st, names)
    decreases |names|
  {
    if names != [] {
      assert names[0] in names;
      PresentValuesAgree(st, other, names[1..]);
    }
  }

  /** When only names[k] is truthy, its value is the only one presented. */
  lemma {:induction false} PresentValuesSingle(st: DeclState, names: seq<string>, k: nat)
    requires k < |names| && Truthy(st, names[k])
    requires forall j :: 0 <= j < |names| && j != k ==> !Truthy(st, names[j])
    ensures PresentValues(st, names) == [st.props[names[k]]]
    decreases |names|
  {
    if k == 0 {
      PresentValuesNone(st, names[1..]);
    } else {
      assert !Truthy(st, names[0]);
      PresentValuesSingle(st, names[1..], k - 1);
    }
  }

  lemma {:induction false} PresentValuesNone(st: DeclState, names: seq<string>)
    requires forall j :: 0 <= j < |names| ==> !Truthy(st, names[j])
    ensures PresentValues(st, names) == []
    decreases |names|
  {
    if names != [] {
      assert !Truthy(st, names[0]);
      PresentValuesNone(st, names[1..]);
    }
  }

  /** A value with something in it and no white space at either end. */
  predicate Clean(v: string) {
    v != [] && !IsSpace(v[0]) && !IsSpace(v[|v| - 1])
  }

  /** Trimming the fold's accumulator gives the values joined by single spaces. */
  lemma {:induction false} TrimSpaced(values: seq<string>)
    requires forall i :: 0 <= i < |values| ==> Clean(values[i])
    ensures Trim(Spaced(values)) == if values == [] then "" else JoinWith(values, ' ')
  {
    if values != [] {
      SpacedIsJoinPlusSpace(values);
      var j := JoinWith(values, ' ');
      JoinEnds(values);
      var s := j + " ";
      assert TrimStart(s) == s;
      assert s[..|s| - 1] == j;
      assert TrimEnd(s) == TrimEnd(j);
    }
  }

  lemma {:induction false} SpacedIsJoinPlusSpace(values: seq<string>)
    requires values != []
    ensures Spaced(values) == JoinWith(values, ' ') + " "
    decreases |values|
  {
    if |values| > 1 {
      SpacedIsJoinPlusSpace(values[1..]);
    }
  }

  lemma {:induction false} JoinEnds(values: seq<string>)
    requires values != []
    requires forall i :: 0 <= i < |values| ==> Clean(values[i])
    ensures Clean(JoinWith(values, ' '))
    decreases |values|
  {
    if |values| > 1 {
      JoinEnds(values[1..]);
      var tail := JoinWith(values[1..], ' ');
      assert JoinWith(values, ' ') == values[0] + [' '] + tail;
    }
  }

  lemma MergeOrderDistinct()
    ensures Distinct(MergeOrder)
  {
  }

  /**
   * The folded `background` holds the values of the truthy longhands joined
   * by single spaces in the fixed order color, image, position, repeat,
   * attachment, origin, clip, and it is listed last.
   */
  lemma FoldedBackground(st: DeclState)
    requires var vs := PresentValues(st, MergeOrder); forall i :: 0 <= i < |vs| ==> Clean(vs[i])
    ensures var vs := PresentValues(st, MergeOrder);
      && Folded(st).props["background"] == (if vs == [] then "" else JoinWith(vs, ' '))
      && Folded(st).order == FoldLonghands(st, MergeOrder, "").0.order + ["background"]
  {
    var vs := PresentValues(st, MergeOrder);
    MergeOrderDistinct();
    FoldLonghandsValue(st, MergeOrder, "");
    TrimSpaced(vs);
    assert "" + Spaced(vs) == Spaced(vs);
  }

  /** Folding leaves none of the seven longhands truthy and every other property but `background` as it was. */
  lemma FoldedClears(st: DeclState, name: string)
    ensures name in MergeOrder ==> !Truthy(Folded(st), name)
    ensures name !in MergeOrder && !Truthy(st, name) && name != "background" ==> !Truthy(Folded(st), name)
    ensures name !in MergeOrder && name != "background" ==> Get(Folded(st), name) == Get(st, name)
  {
    assert "background" != MergeOrder[0];
    FoldLonghandsClears(st, MergeOrder, "", name);
    if !Truthy(st, name) {
      FoldLonghandsKeepsFalsy(st, MergeOrder, "", name);
    }
  }

  /**
   * mergeBackgound on a decomposed declaration (no truthy `background`):
   * the new `background` holds the truthy longhands' values joined by single
   * spaces in the fixed order and is listed last.
   */
  lemma MergedBackground(st: DeclState)
    requires !Truthy(PositionJoined(st), "background")
    requires var vs := PresentValues(PositionJoined(st), MergeOrder);
      forall i :: 0 <= i < |vs| ==> Clean(vs[i])
    ensures var r := Merged(st);
      var vs := PresentValues(PositionJoined(st), MergeOrder);
      && r.props["background"] == (if vs == [] then "" else JoinWith(vs, ' '))
      && r.order[|r.order| - 1] == "background"
  {
    FoldedBackground(PositionJoined(st));
  }

  /**
   * mergeBackgound on a decomposed declaration leaves none of the seven
   * longhands nor the position longhands truthy, and every other property
   * but `background` as it was.
   */
  lemma MergedClears(st: DeclState, name: string)
    requires !Truthy(PositionJoined(st), "background")
    ensures name in MergeOrder || name == PosX || name == PosY ==> !Truthy(Merged(st), name)
    ensures name !in MergeOrder && name != PosX && name != PosY && name != "background" ==>
              Get(Merged(st), name) == Get(st, name)
  {
    FoldedClears(PositionJoined(st), name);
    PositionJoinedOthers(st, name);
  }

  /** Rejoining the position touches only the three position properties, and leaves no -x/-y longhand. */
  lemma PositionJoinedOthers(st: DeclState, name: string)
    ensures name == PosX || name == PosY ==> name !in PositionJoined(st).props
    ensures name != PosX && name != PosY && name != "background-position" ==>
              Get(PositionJoined(st), name) == Get(st, name)
  {
    if PosX in st.props || PosY in st.props {
      ListedKeeps(Rejoined(st), "background-position");
      RejoinedOthers(st, name);
    }
  }

  /** Listing a name changes no property and leaves the name listed. */
  lemma ListedKeeps(st: DeclState, name: string)
    ensures Listed(st, name).props == st.props && name in Listed(st, name).order
  {
  }

  /**
   * mergeBackgound as written leaves none of the seven longhands nor the
   * position longhands truthy, and every other property but `background`
   * as it was and listed exactly when it was; the new `background` is listed last.
   */
  lemma MergedAsWrittenClears(st: DeclState, name: string)
    ensures name in MergeOrder || name == PosX || name == PosY ==> !Truthy(MergedAsWritten(st), name)
    ensures name !in MergeOrder && name != PosX && name != PosY && name != "background" ==>
              Get(MergedAsWritten(st), name) == Get(st, name)
    ensures name !in MergeOrder && name != PosX && name != PosY && name != "background" ==>
              (name in MergedAsWritten(st).order <==> name in st.order)
    ensures "background" in MergedAsWritten(st).props
    ensures MergedAsWritten(st).order != [] && MergedAsWritten(st).order[|MergedAsWritten(st).order| - 1] == "background"
  {
    var r := Rejoined(st);
    PositionLonghandsNotMerged();
    FoldedClears(r, name);
    RejoinedOthers(st, name);
    if name == PosX || name == PosY {
      FoldLonghandsKeepsFalsy(r, MergeOrder, "", name);
    }
    if name !in MergeOrder && name != PosX && name != PosY && name != "background" {
      MergedAsWrittenKeepsListed(st, name);
    }
  }

  /** mergeBackgound as written unlists no name but the ones it folds and the position longhands. */
  lemma MergedAsWrittenKeepsListed(st: DeclState, name: string)
    requires name !in MergeOrder && name != PosX && name != PosY && name != "background"
    ensures name in MergedAsWritten(st).order <==> name in st.order
  {
    RemoveFirstKeeps(st.order, PosX, name);
    RemoveFirstKeeps(Without(st, PosX).order, PosY, name);
    FoldLonghandsKeepsListed(Rejoined(st), MergeOrder, "", name);
  }

  lemma RejoinedOthers(st: DeclState, name: string)
    ensures name == PosX || name == PosY ==> name !in Rejoined(st).props
    ensures name != PosX && name != PosY && name != "background-position" ==>
              Get(Rejoined(st), name) == Get(st, name)
  {
    var s2 := Without(Without(st, PosX), PosY);
    assert PosX !in s2.props && PosY !in s2.props;
  }

  /** The rejoined position: both offsets, separated by one space. */
  lemma RejoinedValue(st: DeclState)
    requires PosX in st.props && PosY in st.props
    requires Clean(st.props[PosX]) && Clean(st.props[PosY])
    ensures Get(Rejoined(st), "background-position") == Some(st.props[PosX] + " " + st.props[PosY])
  {
    var x, y := st.props[PosX], st.props[PosY];
    var s := x + " " + y;
    assert s[0] == x[0] && s[|s| - 1] == y[|y| - 1];
    TrimOfTrimmed(s);
  }

  /** Without position longhands the written merge blanks background-position and changes nothing else. */
  lemma RejoinedWithoutLonghands(st: DeclState)
    requires PosX !in st.props && PosY !in st.props
    ensures Rejoined(st).props == st.props["background-position" := ""]
  {
    WithoutAbsent(st, PosX);
    WithoutAbsent(Without(st, PosX), PosY);
    TrimOfBlank();
  }

  lemma WithoutAbsent(st: DeclState, name: string)
    requires name !in st.props
    ensures Without(st, name).props == st.props && ValueOf(st, name) == ""
  {
  }

  lemma TrimOfBlank()
    ensures Trim("" + " " + "") == ""
  {
    assert "" + " " + "" == " ";
    assert IsSpace(' ');
    assert TrimStart(" ") == "";
  }

  lemma PositionLonghandsNotMerged()
    ensures PosX !in MergeOrder && PosY !in MergeOrder && "background" !in MergeOrder
  {
  }

  /** A declaration that still holds its `background` keeps it through the intended merge. */
  lemma MergedKeepsShorthand(st: DeclState)
    requires Truthy(st, "background")
    ensures Get(Merged(st), "background") == Get(st, "background")
    ensures Merged(st) == PositionJoined(st)
  {
    PositionJoinedOthers(st, "background");
  }

  /**
   * The written merge destroys a shorthand it did not decompose. For a
   * declaration whose `background` survived splitting (say `background:
   * #fff`, unsupported by the image pipeline) with the position split out
   * to -x/-y longhands and no other longhand set, the written merge replaces
   * the whole shorthand by the rejoined position (`background: right top`),
   * while the intended merge keeps the shorthand and rejoins the position
   * into background-position.
   */
  lemma MergedAsWrittenDropsShorthand(st: DeclState)
    requires Truthy(st, "background")
    requires PosX in st.props && PosY in st.props && Clean(st.props[PosX]) && Clean(st.props[PosY])
    requires forall j :: 0 <= j < |MergeOrder| && j != 2 ==> !Truthy(st, MergeOrder[j])
    ensures MergedAsWritten(st).props["background"] == st.props[PosX] + " " + st.props[PosY]
  {
    var joined := st.props[PosX] + " " + st.props[PosY];
    RejoinedOnlyPosition(st);
    JoinedClean(st.props[PosX], st.props[PosY]);
    FoldedBackground(Rejoined(st));
    assert [joined][0] == joined;
  }

  /**
   * The intended merge of the same declaration keeps its shorthand and
   * rejoins the position into a background-position the index list names.
   */
  lemma MergedRejoinsBesideShorthand(st: DeclState)
    requires Truthy(st, "background")
    requires PosX in st.props && PosY in st.props && Clean(st.props[PosX]) && Clean(st.props[PosY])
    ensures Get(Merged(st), "background") == Get(st, "background")
    ensures Get(Merged(st), "background-position") == Some(st.props[PosX] + " " + st.props[PosY])
    ensures "background-position" in Merged(st).order
  {
    RejoinedValue(st);
    ListedKeeps(Rejoined(st), "background-position");
    MergedKeepsShorthand(st);
  }

  lemma JoinedClean(x: string, y: string)
    requires Clean(x) && Clean(y)
    ensures Clean(x + " " + y)
  {
    var j := x + " " + y;
    assert j[0] == x[0];
    assert j[|j| - 1] == y[|y| - 1];
  }

  /** With only the position longhands set, the rejoined position is the one value left to fold. */
  lemma RejoinedOnlyPosition(st: DeclState)
    requires PosX in st.props && PosY in st.props && Clean(st.props[PosX]) && Clean(st.props[PosY])
    requires forall j :: 0 <= j < |MergeOrder| && j != 2 ==> !Truthy(st, MergeOrder[j])
    ensures PresentValues(Rejoined(st), MergeOrder) == [st.props[PosX] + " " + st.props[PosY]]
  {
    var r := Rejoined(st);
    RejoinedValue(st);
    RejoinedOthersFalsy(st);
    PresentValuesSingle(r, MergeOrder, 2);
  }

  lemma RejoinedOthersFalsy(st: DeclState)
    requires forall j :: 0 <= j < |MergeOrder| && j != 2 ==> !Truthy(st, MergeOrder[j])
    ensures forall j :: 0 <= j < |MergeOrder| && j != 2 ==> !Truthy(Rejoined(st), MergeOrder[j])
  {
    forall j | 0 <= j < |MergeOrder| && j != 2
      ensures !Truthy(Rejoined(st), MergeOrder[j])
    {
      MergeOrderOthers(j);
      RejoinedOthers(st, MergeOrder[j]);
    }
  }

  lemma MergeOrderOthers(j: nat)
    requires j < |MergeOrder| && j != 2
    ensures MergeOrder[j] != PosX && MergeOrder[j] != PosY && MergeOrder[j] != "background-position"
  {
  }

  /**
   * The written merge also wipes a longhand background-position when there
   * are no -x/-y longhands to rejoin (say `background-image: url(a.png);
   * background-repeat: repeat-x; background-position: 0 -10px`, which folds
   * to `url(a.png) repeat-x`): it folds as if the declaration had no
   * position at all, while the intended merge folds the position in.
   */
  lemma MergedAsWrittenDropsPosition(st: DeclState)
    requires PosX !in st.props && PosY !in st.props
    requires Truthy(st, "background-position") && !Truthy(st, "background")
    ensures MergedAsWritten(st).props["background"] ==
            Merged(st.(props := st.props - {"background-position"})).props["background"]
    ensures !Truthy(MergedAsWritten(st), "background-position")
  {
    var bp := "background-position";
    var r := Rejoined(st);
    var bare := st.(props := st.props - {bp});
    RejoinedWithoutLonghands(st);
    assert PositionJoined(bare) == bare && !Truthy(bare, "background");
    assert Merged(bare) == Folded(bare);
    PresentValuesAgree(bare, r, MergeOrder);
    FoldedSameBackground(r, bare);
    FoldedClears(r, bp);
  }

  /** The intended merge of such a declaration folds its background-position into `background`. */
  lemma MergedKeepsLonghandPosition(st: DeclState)
    requires PosX !in st.props && PosY !in st.props
    requires Truthy(st, "background-position") && !Truthy(st, "background")
    ensures Merged(st) == Folded(st)
    ensures st.props["background-position"] in PresentValues(st, MergeOrder)
  {
    assert PositionJoined(st) == st;
    PresentValuesHas(st, MergeOrder, 2);
  }

  lemma FoldedSameBackground(a: DeclState, b: DeclState)
    requires PresentValues(a, MergeOrder) == PresentValues(b, MergeOrder)
    ensures Folded(a).props["background"] == Folded(b).props["background"]
  {
    MergeOrderDistinct();
    FoldLonghandsValue(a, MergeOrder, "");
    FoldLonghandsValue(b, MergeOrder, "");
  }

  lemma {:induction false} PresentValuesHas(st: DeclState, names: seq<string>, k: nat)
    requires k < |names| && Truthy(st, names[k])
    ensures st.props[names[k]] in PresentValues(st, names)
    decreases |names|
  {
    if k > 0 {
      PresentValuesHas(st, names[1..], k - 1);
    }
  }

  // ---------------------------------------------------------------------
  // setPxValue
  // ---------------------------------------------------------------------

  /** How setPxValue writes a number: `value ? value + 'px' : '0'`, NaN written as '0'. */
  function PxText(value: Option<int>): string {
    match value
    case None => "0"
    case Some(n) => if n == 0 then "0" else IntToString(n) + "px"
  }

  /** The keywords that place an image at offset zero on their axis. */
  predicate IsStartKeyword(value: string) {
    EqualsCI(value, "left") || EqualsCI(value, "top")
  }

  /** The old offset as written: parseInt of a truthy value, 0 for a missing one. */
  function PxBaseAsWritten(st: DeclState, attr: string): Option<int> {
    if Truthy(st, attr) then ParseInt(st.props[attr]) else Some(0)
  }

  /** The old offset as intended: as written, except that `left`/`top` stand for 0. */
  function PxBase(st: DeclState, attr: string): Option<int> {
    if Truthy(st, attr) && IsStartKeyword(st.props[attr]) then Some(0) else PxBaseAsWritten(st, attr)
  }

  /**
   * The write of setPxValue from a given old offset: the offset subtracted
   * and written back, attr appended to the index list when the old value
   * was not truthy.
   */
  function PxWritten(st: DeclState, attr: string, offset: int, base: Option<int>): DeclState {
    var listed := if Truthy(st, attr) then st else Indexed(st, attr);
    Assigned(listed, attr, PxText(Moved(base, offset)))
  }

  /** `value - newValue` on a number that may be NaN. */
  function Moved(base: Option<int>, offset: int): Option<int> {
    if base.Some? then Some(base.value - offset) else None
  }

  /** setPxValue(style, attr, offset) as written. */
  function WithPxAsWritten(st: DeclState, attr: string, offset: int): DeclState {
    PxWritten(st, attr, offset, PxBaseAsWritten(st, attr))
  }

  /** setPxValue(style, attr, offset) as intended. */
  function WithPx(st: DeclState, attr: string, offset: int): DeclState {
    PxWritten(st, attr, offset, PxBase(st, attr))
  }

  /**
   * The number setPxValue writes reads back as the old offset minus the new
   * one: '0' exactly when that difference is zero (or the old value was NaN),
   * `<n>px` otherwise. The name is appended to the index list only when the
   * old value was not truthy, and nothing else changes.
   */
  lemma WithPxReadsBack(st: DeclState, attr: string, offset: int)
    ensures var r := WithPxAsWritten(st, attr, offset);
      var base := PxBaseAsWritten(st, attr);
      && attr in r.props
      && r.props == st.props[attr := r.props[attr]]
      && r.order == (if Truthy(st, attr) then st.order else st.order + [attr])
      && (base.None? ==> r.props[attr] == "0")
      && (base.Some? && base.value == offset ==> r.props[attr] == "0")
      && (base.Some? && base.value != offset ==>
            r.props[attr] == IntToString(base.value - offset) + "px"
            && ParseInt(r.props[attr]) == Some(base.value - offset))
  {
    var base := PxBaseAsWritten(st, attr);
    if base.Some? && base.value != offset {
      ParseIntOfIntToString(base.value - offset, "px");
    }
  }

  /**
   * As written, a keyword offset is lost: parseInt('left') is NaN, so an
   * image declared at `left` (or `top`) is written at '0' whatever its
   * place in the composite, where the intended write moves it by the
   * placement like an explicit `0`.
   */
  lemma WithPxAsWrittenLosesKeyword(st: DeclState, attr: string, offset: int)
    requires attr in st.props && (st.props[attr] == "left" || st.props[attr] == "top")
    requires offset != 0
    ensures WithPxAsWritten(st, attr, offset).props[attr] == "0"
    ensures WithPx(st, attr, offset).props[attr] == IntToString(-offset) + "px"
  {
    var v := st.props[attr];
    ParseIntOfWord(v);
    assert IsStartKeyword(v);
  }

  // ---------------------------------------------------------------------
  // replaceAndPositionBackground, per declaration
  // ---------------------------------------------------------------------

  /** The declaration with its image pointed at the composite and both offsets moved by the placement. */
  function Shifted(st: DeclState, imageName: string, fit: Point): DeclState {
    var imaged := Assigned(st, "background-image", "url(" + imageName + ")");
    WithPxAsWritten(WithPxAsWritten(imaged, PosX, fit.x), PosY, fit.y)
  }

  /**
   * One declaration of replaceAndPositionBackground: the image points at the
   * composite, both offsets move by the placement, and the background is
   * merged back into its shorthand.
   */
  function Repositioned(st: DeclState, imageName: string, fit: Point): DeclState {
    MergedAsWritten(Shifted(st, imageName, fit))
  }

  /** The offset text written for one axis: the old offset less the placement. */
  function OffsetText(st: DeclState, attr: string, offset: int): string {
    PxText(Moved(PxBaseAsWritten(st, attr), offset))
  }

  /** Every truthy one of the seven longhands has a value with no white space at either end. */
  predicate CleanLonghands(st: DeclState) {
    forall i :: 0 <= i < |MergeOrder| && Truthy(st, MergeOrder[i]) ==> Clean(st.props[MergeOrder[i]])
  }

  /**
   * What replaceAndPositionBackground makes of a declaration: a `background`
   * listed last that holds, joined by single spaces, the old color if any,
   * `url(<composite>)`, the two offsets each moved by the placement, and the
   * old repeat, attachment, origin and clip if any; none of the longhands it
   * folds stays truthy, and every other property keeps its value and
   * stays listed in the index exactly when it was.
   */
  lemma RepositionedMeans(st: DeclState, imageName: string, fit: Point, name: string)
    requires CleanLonghands(st)
    ensures var r := Repositioned(st, imageName, fit);
      var color := if Truthy(st, "background-color") then [st.props["background-color"]] else [];
      var position := OffsetText(st, PosX, fit.x) + " " + OffsetText(st, PosY, fit.y);
      && "background" in r.props
      && r.props["background"] == JoinWith(color + ["url(" + imageName + ")", position] + PresentValues(st, MergeOrder[3..]), ' ')
      && r.order != [] && r.order[|r.order| - 1] == "background"
      && (name in MergeOrder || name == PosX || name == PosY ==> !Truthy(r, name))
      && (name !in MergeOrder && name != PosX && name != PosY && name != "background" ==> Get(r, name) == Get(st, name))
      && (name !in MergeOrder && name != PosX && name != PosY && name != "background" ==> (name in r.order <==> name in st.order))
  {
    var sh := Shifted(st, imageName, fit);
    var vs := ShiftedValues(st, imageName, fit);
    FoldedBackground(Rejoined(sh));
    MergedAsWrittenClears(sh, name);
    if name !in MergeOrder && name != PosX && name != PosY && name != "background" {
      ShiftedOthers(st, imageName, fit, name);
    }
  }

  /** The values the merge folds after the shift, all clean. */
  lemma ShiftedValues(st: DeclState, imageName: string, fit: Point) returns (vs: seq<string>)
    requires CleanLonghands(st)
    ensures var color := if Truthy(st, "background-color") then [st.props["background-color"]] else [];
      vs == PresentValues(Rejoined(Shifted(st, imageName, fit)), MergeOrder)
      && vs == color + ["url(" + imageName + ")", OffsetText(st, PosX, fit.x) + " " + OffsetText(st, PosY, fit.y)]
               + PresentValues(st, MergeOrder[3..])
      && vs != []
      && forall i :: 0 <= i < |vs| ==> Clean(vs[i])
  {
    var r := Rejoined(Shifted(st, imageName, fit));
    var x, y := OffsetText(st, PosX, fit.x), OffsetText(st, PosY, fit.y);
    RejoinedShifted(st, imageName, fit);
    JoinedClean(x, y);
    UrlClean(imageName);
    RejoinedKeeps(st, imageName, fit);
    vs := MergedValues(r, st, "url(" + imageName + ")", x + " " + y);
  }

  /** After the shift and the rejoin: the composite's url, and the two moved offsets joined into the position. */
  lemma RejoinedShifted(st: DeclState, imageName: string, fit: Point)
    ensures var r := Rejoined(Shifted(st, imageName, fit));
      var x, y := OffsetText(st, PosX, fit.x), OffsetText(st, PosY, fit.y);
      && Get(r, "background-image") == Some("url(" + imageName + ")")
      && Get(r, "background-position") == Some(x + " " + y)
      && Clean(x) && Clean(y)
  {
    var sh := Shifted(st, imageName, fit);
    ShiftedFields(st, imageName, fit);
    OffsetTextClean(st, PosX, fit.x);
    OffsetTextClean(st, PosY, fit.y);
    RejoinedValue(sh);
    RejoinedOthers(sh, "background-image");
  }

  /** The folded values of a state whose image and position are set and which keeps the other longhands of `st`. */
  lemma MergedValues(r: DeclState, st: DeclState, url: string, pos: string) returns (vs: seq<string>)
    requires CleanLonghands(st) && Clean(url) && Clean(pos)
    requires Get(r, "background-color") == Get(st, "background-color")
    requires Get(r, "background-image") == Some(url)
    requires Get(r, "background-position") == Some(pos)
    requires PresentValues(r, MergeOrder[3..]) == PresentValues(st, MergeOrder[3..])
    ensures vs == PresentValues(r, MergeOrder)
    ensures vs == (if Truthy(st, "background-color") then [st.props["background-color"]] else [])
                  + [url, pos] + PresentValues(st, MergeOrder[3..])
    ensures vs != [] && forall i :: 0 <= i < |vs| ==> Clean(vs[i])
  {
    HeadValues(r, st, url, pos);
    vs := PresentValues(r, MergeOrder);
    var color := if Truthy(st, "background-color") then [st.props["background-color"]] else [];
    var rest := PresentValues(st, MergeOrder[3..]);
    PresentValuesClean(st, MergeOrder[3..]);
    CleanColor(st);
    forall i | 0 <= i < |vs| ensures Clean(vs[i])
    {
      if i >= |color| + 2 {
        assert vs[i] == rest[i - |color| - 2];
      }
    }
  }

  /** The offset text of an axis is never blank at either end. */
  lemma OffsetTextClean(st: DeclState, attr: string, offset: int)
    ensures Clean(OffsetText(st, attr, offset))
  {
    PxTextClean(Moved(PxBaseAsWritten(st, attr), offset));
  }

  /** The image and both offsets as the shift writes them. */
  lemma ShiftedFields(st: DeclState, imageName: string, fit: Point)
    ensures var sh := Shifted(st, imageName, fit);
      && sh.props["background-image"] == "url(" + imageName + ")"
      && PosX in sh.props && sh.props[PosX] == OffsetText(st, PosX, fit.x)
      && PosY in sh.props && sh.props[PosY] == OffsetText(st, PosY, fit.y)
  {
    var imaged := Assigned(st, "background-image", "url(" + imageName + ")");
    assert PxBaseAsWritten(imaged, PosX) == PxBaseAsWritten(st, PosX);
    var sx := WithPxAsWritten(imaged, PosX, fit.x);
    assert PxBaseAsWritten(sx, PosY) == PxBaseAsWritten(st, PosY);
  }

  /** The shift changes no property but the image and the two offsets. */
  lemma ShiftedOthers(st: DeclState, imageName: string, fit: Point, name: string)
    requires name != "background-image" && name != PosX && name != PosY
    ensures Get(Shifted(st, imageName, fit), name) == Get(st, name)
    ensures name in Shifted(st, imageName, fit).order <==> name in st.order
  {
  }

  lemma CleanColor(st: DeclState)
    requires CleanLonghands(st)
    ensures Truthy(st, "background-color") ==> Clean(st.props["background-color"])
  {
    assert MergeOrder[0] == "background-color";
  }

  /** The names of the last four longhands: none of the properties the shift or the rejoin writes. */
  lemma TailNames(m: string)
    requires m in MergeOrder[3..]
    ensures m != PosX && m != PosY && m != "background-position" && m != "background-image" && m != "background-color"
  {
  }

  /** The shift and the rejoin keep the color and the last four longhands. */
  lemma RejoinedKeeps(st: DeclState, imageName: string, fit: Point)
    ensures Get(Rejoined(Shifted(st, imageName, fit)), "background-color") == Get(st, "background-color")
    ensures PresentValues(Rejoined(Shifted(st, imageName, fit)), MergeOrder[3..]) == PresentValues(st, MergeOrder[3..])
  {
    var sh := Shifted(st, imageName, fit);
    var r := Rejoined(sh);
    RejoinedOthers(sh, "background-color");
    ShiftedOthers(st, imageName, fit, "background-color");
    forall m | m in MergeOrder[3..]
      ensures Get(r, m) == Get(st, m)
    {
      TailNames(m);
      RejoinedOthers(sh, m);
      ShiftedOthers(st, imageName, fit, m);
    }
    PresentValuesAgree(st, r, MergeOrder[3..]);
  }

  /** The first three of the folded values: the color if truthy, then the image and the position. */
  lemma HeadValues(r: DeclState, st: DeclState, url: string, pos: string)
    requires Get(r, "background-color") == Get(st, "background-color")
    requires Get(r, "background-image") == Some(url) && url != []
    requires Get(r, "background-position") == Some(pos) && pos != []
    requires PresentValues(r, MergeOrder[3..]) == PresentValues(st, MergeOrder[3..])
    ensures PresentValues(r, MergeOrder) ==
            (if Truthy(st, "background-color") then [st.props["background-color"]] else [])
            + [url, pos] + PresentValues(st, MergeOrder[3..])
  {
    var rest := PresentValues(st, MergeOrder[3..]);
    assert MergeOrder[0] == "background-color" && MergeOrder[1..][0] == "background-image";
    assert MergeOrder[1..][1..][0] == "background-position" && MergeOrder[1..][1..][1..] == MergeOrder[3..];
    PresentValuesStep(r, MergeOrder[1..][1..]);
    PresentValuesStep(r, MergeOrder[1..]);
    PresentValuesStep(r, MergeOrder);
  }

  /** One step of PresentValues. */
  lemma PresentValuesStep(st: DeclState, names: seq<string>)
    requires names != []
    ensures PresentValues(st, names) ==
            (if Truthy(st, names[0]) then [st.props[names[0]]] else []) + PresentValues(st, names[1..])
  {
  }

  /** The presented values of clean longhands are clean. */
  lemma {:induction false} PresentValuesClean(st: DeclState, names: seq<string>)
    requires forall i :: 0 <= i < |names| && Truthy(st, names[i]) ==> Clean(st.props[names[i]])
    ensures var vs := PresentValues(st, names); forall i :: 0 <= i < |vs| ==> Clean(vs[i])
    decreases |names|
  {
    if names != [] {
      var tail := PresentValues(st, names[1..]);
      assert forall i :: 0 <= i < |names[1..]| && Truthy(st, names[1..][i]) ==> Clean(st.props[names[1..][i]]) by {
        forall i | 0 <= i < |names[1..]| ensures names[1..][i] == names[i + 1] { }
      }
      PresentValuesClean(st, names[1..]);
      PresentValuesStep(st, names);
      if Truthy(st, names[0]) {
        var vs := PresentValues(st, names);
        forall i | 0 <= i < |vs| ensures Clean(vs[i])
        {
          if i > 0 {
            assert vs[i] == tail[i - 1];
          }
        }
      }
    }
  }

  /** What setPxValue writes is never blank at either end. */
  lemma PxTextClean(v: Option<int>)
    ensures Clean(PxText(v))
  {
    if v.Some? && v.value != 0 {
      var digits := NatToString(if v.value < 0 then -v.value else v.value);
      var t := IntToString(v.value) + "px";
      assert IsRadixDigit(digits[0], false);
      assert t[|t| - 1] == 'x';
      assert v.value < 0 ==> t[0] == '-';
      assert v.value > 0 ==> t[0] == digits[0];
    }
  }

  lemma UrlClean(imageName: string)
    ensures Clean("url(" + imageName + ")")
  {
    var u := "url(" + imageName + ")";
    assert u[0] == 'u' && u[|u| - 1] == ')';
  }
}

/** The declaration object itself, whose operations update it in place. */
module Declarations {
  import opened Wrappers
  import opened JsText
  import opened Geometry
  import opened StyleDeclaration

  class Declaration {
    var props: map<string, string>
    var order: seq<string>

    /** The declaration's current value. */
    function State(): DeclState
      reads this
    {
      DeclState(props, order)
    }

    constructor (props0: map<string, string>, order0: seq<string>)
      ensures State() == DeclState(props0, order0)
    {
      props := props0;
      order := order0;
    }

    /** `style[name]` as a JavaScript truthiness test. */
    function Has(name: string): (b: bool)
      reads this
      ensures b <==> Truthy(State(), name)
    {
      name in props && props[name] != ""
    }

    /** setProperty(name, value). */
    method SetProperty(name: string, value: string)
      modifies this
      ensures State() == WithProperty(old(State()), name, value)
    {
      if name !in order {
        order := order + [name];
      }
      props := props[name := value];
    }

    /** removeProperty(name): returns the old value, or "" when there was none. */
    method RemoveProperty(name: string) returns (value: string)
      modifies this
      ensures State() == Without(old(State()), name)
      ensures value == ValueOf(old(State()), name)
    {
      value := if name in props then props[name] else "";
      props := props - {name};
      order := RemoveFirst(order, name);
    }

    /** extend(layer, override): every pair set unless already truthy and not overridden. */
    method Extend(layer: Layer, override: bool)
      modifies this
      ensures State() == Extended(old(State()), layer, override)
    {
      var i := 0;
      while i < |layer|
        invariant 0 <= i <= |layer|
        invariant Extended(State(), layer[i..], override) == Extended(old(State()), layer, override)
      {
        var (name, value) := layer[i];
        assert layer[i..][1..] == layer[i + 1..];
        if !(Has(name) && !override) {
          SetProperty(name, value);
        }
        i := i + 1;
      }
    }

    /** splitBackground, with the shorthand parser given as `analyse`. */
    method SplitBackground(analyse: string -> seq<Layer>)
      modifies this
      ensures State() == Split(old(State()), analyse)
    {
      if !Has("background") {
        return;
      }
      if Has("background-position") {
        var (x, y) := SplitPositionAsWritten(props["background-position"]);
        props := props[PosX := x];
        props := props[PosY := y];
      }
      var layers := analyse(props["background"]);
      if |layers| != 1 || !LayerHasImage(layers[0]) {
        return;
      }
      var _ := RemoveProperty("background");
      Extend(layers[0], false);
    }

    /** mergeBackgound: see MergedAsWritten. */
    method MergeBackground()
      modifies this
      ensures State() == MergedAsWritten(old(State()))
    {
      JoinPosition();
      FoldBackground();
    }

    /** The -x/-y longhands removed and their values, joined and trimmed, written to background-position. */
    method JoinPosition()
      modifies this
      ensures State() == Rejoined(old(State()))
    {
      var x := RemoveProperty(PosX);
      var y := RemoveProperty(PosY);
      props := props["background-position" := Trim(x + " " + y)];
    }

    /** The loop of mergeBackgound and the new `background` it writes. */
    method FoldBackground()
      modifies this
      ensures State() == Folded(old(State()))
    {
      var background := "";
      var i := 0;
      while i < |MergeOrder|
        invariant 0 <= i <= |MergeOrder|
        invariant FoldLonghands(State(), MergeOrder[i..], background) == FoldLonghands(old(State()), MergeOrder, "")
      {
        assert MergeOrder[i..][1..] == MergeOrder[i + 1..];
        background := FoldOne(MergeOrder[i..], background);
        i := i + 1;
      }
      props := props["background" := Trim(background)];
      order := order + ["background"];
    }

    /** One round of that loop: the first of `names` folded into `acc` when it is truthy. */
    method FoldOne(names: seq<string>, acc: string) returns (acc': string)
      requires names != []
      modifies this
      ensures FoldLonghands(State(), names[1..], acc') == FoldLonghands(old(State()), names, acc)
    {
      acc' := acc;
      if Has(names[0]) {
        FoldLonghandsUnfold(State(), names, acc);
        var value := RemoveProperty(names[0]);
        acc' := acc + (value + " ");
      }
    }
  }

  /**
   * setPxValue(style, attr, offset): the declared offset minus the new
   * placement, written back in pixels.
   */
  method SetPxValue(style: Declaration, attr: string, offset: int)
    modifies style
    ensures style.State() == WithPxAsWritten(old(style.State()), attr, offset)
  {
    ghost var st := style.State();
    var base: Option<int>;
    if style.Has(attr) {
      base := ParseInt(style.props[attr]);
    } else {
      style.order := style.order + [attr];
      base := Some(0);
    }
    assert base == PxBaseAsWritten(st, attr);
    var text := PxText(Moved(base, offset));
    style.props := style.props[attr := text];
  }
}
