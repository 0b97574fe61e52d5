/**
 * adjustOldProperty: configurations written for older versions name some
 * settings differently; each old key is carried over to its new name when
 * the new one is not set, and then removed.
 */
module Config {
  /** A value of the JSON configuration. */
  datatype Value = Null | Bool(b: bool) | Num(n: int) | Str(s: string) | Array(items: seq<Value>) | Object(fields: map<string, Value>)

  /** JavaScript truthiness of `section[key]`: present and not null, false, 0 or "". */
  predicate Truthy(section: map<string, Value>, key: string) {
    key in section &&
    match section[key]
    case Null => false
    case Bool(b) => b
    case Num(n) => n != 0
    case Str(s) => s != ""
    case _ => true
  }

  /**
   * One rename: when `section[newKey]` is not truthy and `section[oldKey]`
   * is, the old value is stored under the new key and the old key deleted;
   * otherwise nothing changes.
   */
  function Moved(section: map<string, Value>, newKey: string, oldKey: string): map<string, Value> {
    if !Truthy(section, newKey) && Truthy(section, oldKey) then section[newKey := section[oldKey]] - {oldKey}
    else section
  }

  /** The renames of the `input` section. */
  function AdjustedInput(input: map<string, Value>): map<string, Value> {
    Moved(input, "cssSource", "cssRoot")
  }

  /** The renames of the `output` section, in the order they are made. */
  function AdjustedOutput(output: map<string, Value>): map<string, Value> {
    Moved(Moved(Moved(output, "cssDist", "cssRoot"), "imageDist", "imageRoot"), "maxSingleSize", "maxSize")
  }

  /**
   * After a rename the new key is truthy exactly when either key was; a
   * truthy new key keeps its value, and otherwise a truthy old value moves
   * over and the old key is gone.
   */
  lemma MovedMeans(section: map<string, Value>, newKey: string, oldKey: string)
    requires newKey != oldKey
    ensures var r := Moved(section, newKey, oldKey);
      && (Truthy(r, newKey) <==> Truthy(section, newKey) || Truthy(section, oldKey))
      && (Truthy(section, newKey) ==> r == section)
      && (!Truthy(section, newKey) && Truthy(section, oldKey) ==> r[newKey] == section[oldKey] && oldKey !in r)
      && (!Truthy(section, oldKey) ==> r == section)
  {
  }

  /** A rename touches only its two keys. */
  lemma MovedOthers(section: map<string, Value>, newKey: string, oldKey: string, k: string)
    requires k != newKey && k != oldKey
    ensures var r := Moved(section, newKey, oldKey);
      (k in r <==> k in section) && (k in section ==> r[k] == section[k])
  {
  }

  /** A second rename finds nothing to do. */
  lemma MovedIdempotent(section: map<string, Value>, newKey: string, oldKey: string)
    requires newKey != oldKey
    ensures Moved(Moved(section, newKey, oldKey), newKey, oldKey) == Moved(section, newKey, oldKey)
  {
    MovedMeans(section, newKey, oldKey);
  }

  /** Nothing is left to rename: the new key is set or the old one is not. */
  predicate Settled(section: map<string, Value>, newKey: string, oldKey: string) {
    Truthy(section, newKey) || !Truthy(section, oldKey)
  }

  /** A rename settles its keys, and a rename of two other keys leaves them settled. */
  lemma MovedSettles(section: map<string, Value>, newKey: string, oldKey: string, n: string, o: string)
    requires newKey != oldKey && n != o
    requires (n, o) == (newKey, oldKey) || (n != newKey && n != oldKey && o != newKey && o != oldKey && Settled(section, n, o))
    ensures Settled(Moved(section, newKey, oldKey), n, o)
  {
    if (n, o) != (newKey, oldKey) {
      MovedOthers(section, newKey, oldKey, n);
      MovedOthers(section, newKey, oldKey, o);
    }
  }

  /** Adjusting an adjusted output section changes nothing more. */
  lemma AdjustedOutputIdempotent(output: map<string, Value>)
    ensures AdjustedOutput(AdjustedOutput(output)) == AdjustedOutput(output)
  {
    var a := Moved(output, "cssDist", "cssRoot");
    var b := Moved(a, "imageDist", "imageRoot");
    var c := Moved(b, "maxSingleSize", "maxSize");
    MovedSettles(output, "cssDist", "cssRoot", "cssDist", "cssRoot");
    MovedSettles(a, "imageDist", "imageRoot", "cssDist", "cssRoot");
    MovedSettles(a, "imageDist", "imageRoot", "imageDist", "imageRoot");
    MovedSettles(b, "maxSingleSize", "maxSize", "cssDist", "cssRoot");
    MovedSettles(b, "maxSingleSize", "maxSize", "imageDist", "imageRoot");
    MovedSettles(b, "maxSingleSize", "maxSize", "maxSingleSize", "maxSize");
    assert Moved(c, "cssDist", "cssRoot") == c;
    assert Moved(c, "imageDist", "imageRoot") == c;
    assert Moved(c, "maxSingleSize", "maxSize") == c;
  }

  /** The configuration object, whose sections adjustOldProperty updates in place. */
  class Configuration {
    var input: map<string, Value>
    var output: map<string, Value>

    /** adjustOldProperty(config): the four legacy keys renamed. */
    method AdjustOldProperty()
      modifies this
      ensures input == AdjustedInput(old(input)) && output == AdjustedOutput(old(output))
    {
      ghost var out0 := output;
      if !Truthy(input, "cssSource") && Truthy(input, "cssRoot") {
        input := input["cssSource" := input["cssRoot"]];
        input := input - {"cssRoot"};
      }
      assert input == AdjustedInput(old(input));
      if !Truthy(output, "cssDist") && Truthy(output, "cssRoot") {
        output := output["cssDist" := output["cssRoot"]];
        output := output - {"cssRoot"};
      }
      ghost var out1 := output;
      assert out1 == Moved(out0, "cssDist", "cssRoot");
      if !Truthy(output, "imageDist") && Truthy(output, "imageRoot") {
        output := output["imageDist" := output["imageRoot"]];
        output := output - {"imageRoot"};
      }
      ghost var out2 := output;
      assert out2 == Moved(out1, "imageDist", "imageRoot");
      if !Truthy(output, "maxSingleSize") && Truthy(output, "maxSize") {
        output := output["maxSingleSize" := output["maxSize"]];
        output := output - {"maxSize"};
      }
      assert output == Moved(out2, "maxSingleSize", "maxSize");
    }
  }
}
