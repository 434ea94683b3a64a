/** Plugin descriptions: named, typed attribute lists handed to the renderer,
    and the handles the renderer gives back. */
module Plugins {
  import opened Raster
  import opened ColorSpaces

  datatype Vector = Vector(x: real, y: real, z: real)

  /** A 3x3 matrix given by its three vectors. */
  datatype Matrix = Matrix(v0: Vector, v1: Vector, v2: Vector)

  /** The handle an export returns: empty, or naming the created plugin. */
  datatype Plugin = NoPlugin | Handle(name: string)

  datatype AttrValue =
    | IntValue(i: int)
    | BoolValue(b: bool)
    | RealValue(x: real)
    | StringValue(s: string)
    | IntListValue(words: seq<Word>)
    | MatrixValue(m: Matrix)
    | PluginValue(p: Plugin)
    | ColorSpaceValue(cs: BitmapColorSpace)

  datatype Attr = Attr(name: string, value: AttrValue)

  /** A plugin description as a value: name, plugin type and attributes in
      the order they were added. */
  datatype Desc = Desc(name: string, id: string, attrs: seq<Attr>)

  /** The attribute names of `attrs`, in order. */
  function AttrNames(attrs: seq<Attr>): (names: seq<string>)
    ensures |names| == |attrs|
    ensures forall k :: 0 <= k < |attrs| ==> names[k] == attrs[k].name
  {
    if attrs == [] then [] else [attrs[0].name] + AttrNames(attrs[1..])
  }

  /** A plugin description under construction. */
  class PluginDesc {
    var pluginName: string
    var pluginID: string
    var attrs: seq<Attr>

    constructor (name: string, id: string)
      ensures pluginName == name && pluginID == id && attrs == []
    {
      pluginName := name;
      pluginID := id;
      attrs := [];
    }

    /** The description as it stands. */
    function Value(): Desc
      reads this
    {
      Desc(pluginName, pluginID, attrs)
    }

    /** Appends one attribute. */
    method Add(a: Attr)
      modifies this
      ensures pluginName == old(pluginName) && pluginID == old(pluginID)
      ensures attrs == old(attrs) + [a]
    {
      attrs := attrs + [a];
    }
  }
}
