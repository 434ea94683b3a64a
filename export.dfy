/** Export of compositing-node images and texture files as chains of renderer
    plugins: a bitmap buffer, a default UVW generator, and a TexBitmap that
    joins the two. The host application and the renderer are reached only
    through the oracles of `Host`. */
module Export {
  import opened Wrappers
  import opened Raster
  import opened ColorSpaces
  import opened Plugins
  import opened Mapping
  import opened Naming

  datatype OpKind = CopKind | VopKind | OtherKind

  /** A host node: its path and whether it is a compositing (COP) node, a
      shader (VOP) node, or anything else. */
  datatype OpNode = OpNode(path: string, kind: OpKind)

  /** A float RGBA raster cooked from a compositing node. */
  datatype Image = Image(xres: nat, yres: nat, pixels: seq<Pixel>, colorSpace: HostColorSpace, gamma: real)

  /** A raster whose buffer holds exactly `xres * yres` pixels. */
  type CookedImage = im: Image | |im.pixels| == im.yres * im.xres
    witness Image(0, 0, [], CsUnknown, 1.0)

  /** What the host and the renderer answer. */
  datatype Host = Host(
    // the raster a compositing node cooks to at the exporter's current time, if any
    cook: OpNode -> Option<CookedImage>,
    // the plugin name the exporter derives for a node and a plugin kind
    pluginName: (OpNode, string) -> string,
    // whether the renderer creates a plugin for a description
    accepts: Desc -> bool,
    // the 32-bit hash of a path's bytes
    hash: string -> uint32,
    // the node a path refers to, if any
    findNode: string -> Option<OpNode>,
    // whether a file exists at a path
    fileExists: string -> bool,
    // what the separate shader export exports for a shader node, and what it returns
    vopExports: OpNode -> seq<Desc>,
    vopResult: OpNode -> Plugin)

  /** The handle the renderer returns for description `d`: a handle named
      after the description when the renderer accepts it, empty otherwise. */
  function ExportOf(host: Host, d: Desc): (p: Plugin)
    ensures p.Handle? <==> host.accepts(d)
    ensures p.Handle? ==> p.name == d.name
  {
    if host.accepts(d) then Handle(d.name) else NoPlugin
  }

  /** The descriptions one export call passes to the renderer, in order, and
      the handle it returns. */
  datatype Route = Route(exports: seq<Desc>, result: Plugin)

  const NoRoute := Route([], NoPlugin)

  /** A log that grew by one, two or three descriptions, one at a time. */
  lemma LogGrewBy2(log0: seq<Desc>, log1: seq<Desc>, log2: seq<Desc>, x: Desc, y: Desc)
    requires log1 == log0 + [x] && log2 == log1 + [y]
    ensures log2 == log0 + [x, y]
  {
  }

  lemma LogGrewBy3(log0: seq<Desc>, log1: seq<Desc>, log2: seq<Desc>, log3: seq<Desc>, x: Desc, y: Desc, z: Desc)
    requires log1 == log0 + [x] && log2 == log1 + [y] && log3 == log2 + [z]
    ensures log3 == log0 + [x, y, z]
  {
  }

  // -----------------------------------------------------------------------
  // Bitmap buffer of a compositing node

  const BitmapAttrNames: seq<string> := ["pixels", "pixels_type", "width", "height", "color_space", "gamma"]

  /** The `pixels` attribute of raster `im`: its buffer flipped vertically
      and reinterpreted as 32-bit words. */
  function BitmapPixelWords(im: CookedImage): (words: seq<Word>)
    ensures |words| == 4 * |im.pixels|
  {
    PixelWords(FlippedV(im.pixels, im.xres, im.yres))
  }

  /** The words of pixel (row r, column c) of the `pixels` attribute are the
      components of the raster's pixel (row yres - 1 - r, column c). */
  lemma BitmapPixelsAt(im: CookedImage, r: nat, c: nat)
    requires r < im.yres && c < im.xres
    ensures Index(im.xres, im.yres - 1 - r, c) < |im.pixels|
    ensures 4 * Index(im.xres, r, c) + 4 <= |BitmapPixelWords(im)|
    ensures
      var k := Index(im.xres, r, c);
      var p := im.pixels[Index(im.xres, im.yres - 1 - r, c)];
      BitmapPixelWords(im)[4 * k .. 4 * k + 4] == [p.r, p.g, p.b, p.a]
  {
    FlippedWordsAt(im.pixels, im.xres, im.yres, r, c);
  }

  /** The six attributes of a raw bitmap buffer for raster `im`. */
  function BitmapBufferAttrs(im: CookedImage): (attrs: seq<Attr>)
    ensures AttrNames(attrs) == BitmapAttrNames
  {
    var color := BitmapColorOf(im.colorSpace, im.gamma);
    [ Attr("pixels", IntListValue(BitmapPixelWords(im))),
      Attr("pixels_type", IntValue(1)),
      Attr("width", IntValue(im.xres)),
      Attr("height", IntValue(im.yres)),
      Attr("color_space", ColorSpaceValue(color.space)),
      Attr("gamma", RealValue(color.gamma)) ]
  }

  /** The attributes the bitmap of a cooked raster gets: none when there is
      no raster or it has no pixels, otherwise all six, in a fixed order. */
  function CopBitmapAttrs(raster: Option<CookedImage>): (r: Option<seq<Attr>>)
    ensures r.None? <==> raster.None? || |raster.value.pixels| == 0
    ensures r.Some? ==> AttrNames(r.value) == BitmapAttrNames
    ensures r.Some? ==>
      r.value[0].value == IntListValue(BitmapPixelWords(raster.value)) &&
      r.value[1].value == IntValue(1) &&
      r.value[2].value == IntValue(raster.value.xres) &&
      r.value[3].value == IntValue(raster.value.yres)
    ensures r.Some? ==>
      var color := BitmapColorOf(raster.value.colorSpace, raster.value.gamma);
      r.value[4].value == ColorSpaceValue(color.space) && r.value[5].value == RealValue(color.gamma)
  {
    match raster
    case None => None
    case Some(im) => if |im.pixels| == 0 then None else Some(BitmapBufferAttrs(im))
  }

  /** The raw bitmap buffer description of a compositing node, if its raster
      yields one. */
  function CopBitmapDesc(host: Host, node: OpNode): (r: Option<Desc>)
    ensures r.Some? <==> CopBitmapAttrs(host.cook(node)).Some?
    ensures r.Some? ==> r.value.name == host.pluginName(node, "RawBitmapBuffer") && r.value.id == "RawBitmapBuffer"
    ensures r.Some? ==> r.value.attrs == CopBitmapAttrs(host.cook(node)).value
  {
    match CopBitmapAttrs(host.cook(node))
    case None => None
    case Some(attrs) => Some(Desc(host.pluginName(node, "RawBitmapBuffer"), "RawBitmapBuffer", attrs))
  }

  // -----------------------------------------------------------------------
  // Default mapping and texture of a compositing node

  /** The description of a texture joining a bitmap and a UVW generator. */
  function TexBitmapDesc(name: string, bitmap: Plugin, uvwgen: Plugin): Desc {
    Desc(name, "TexBitmap", [Attr("bitmap", PluginValue(bitmap)), Attr("uvwgen", PluginValue(uvwgen))])
  }

  /** The mapping types the compositing route exports a UVW generator for. */
  predicate CopRouteMapping(mappingType: DefaultMappingType) {
    mappingType.MappingChannel? || mappingType.MappingChannelName? || mappingType.MappingSpherical?
  }

  /** The UVW generator description the compositing route exports for
      `bitmap`, named after the node and the generator's plugin type; none
      for tri-planar or unknown mapping types. */
  function CopUvwgenDesc(host: Host, node: OpNode, mappingType: DefaultMappingType, bitmap: Plugin): (r: Option<Desc>)
    requires bitmap.Handle?
    ensures r.Some? <==> CopRouteMapping(mappingType)
    ensures r.Some? ==>
      r.value.name == host.pluginName(node, r.value.id) &&
      r.value.id == DefaultMappingSetup(mappingType).value.pluginID &&
      r.value.attrs == DefaultMappingSetup(mappingType).value.attrs
  {
    var filled := ApplyMapping(Desc("DefaultMapping|" + bitmap.name, "", []), mappingType);
    match mappingType
    case MappingChannel => Some(filled.(name := host.pluginName(node, "UVWGenChannel")))
    case MappingChannelName => Some(filled.(name := host.pluginName(node, "UVWGenMayaPlace2dTexture")))
    case MappingSpherical => Some(filled.(name := host.pluginName(node, "UVWGenEnvironment")))
    case _ => None
  }

  /** The exports of a compositing node with a default mapping. Each stage
      runs only if the one before produced a plugin: the bitmap, then (for
      the channel, channel-name and spherical mappings only) the UVW
      generator, then a TexBitmap referencing both. */
  function CopRoute(host: Host, node: OpNode, mappingType: DefaultMappingType): (r: Route)
    ensures |r.exports| <= 3
    ensures r.exports == [] <==> CopBitmapAttrs(host.cook(node)).None?
    ensures |r.exports| >= 1 ==> r.exports[0] == CopBitmapDesc(host, node).value
    ensures |r.exports| == 1 ==> ExportOf(host, r.exports[0]).NoPlugin? || !CopRouteMapping(mappingType)
    ensures |r.exports| >= 2 ==>
      ExportOf(host, r.exports[0]).Handle? && CopRouteMapping(mappingType) &&
      r.exports[1].name == host.pluginName(node, r.exports[1].id) &&
      r.exports[1].id == DefaultMappingSetup(mappingType).value.pluginID &&
      r.exports[1].attrs == DefaultMappingSetup(mappingType).value.attrs
    ensures |r.exports| == 2 ==> ExportOf(host, r.exports[1]).NoPlugin?
    ensures |r.exports| == 3 ==>
      ExportOf(host, r.exports[1]).Handle? &&
      r.exports[2] == TexBitmapDesc(host.pluginName(node, "TexBitmap"), ExportOf(host, r.exports[0]), ExportOf(host, r.exports[1]))
    ensures r.result == if |r.exports| == 3 then ExportOf(host, r.exports[2]) else NoPlugin
    ensures !CopRouteMapping(mappingType) ==> |r.exports| <= 1 && r.result == NoPlugin
  {
    match CopBitmapDesc(host, node)
    case None => NoRoute
    case Some(bitmapDesc) =>
      var bitmap := ExportOf(host, bitmapDesc);
      if bitmap.NoPlugin? then Route([bitmapDesc], NoPlugin)
      else
        match CopUvwgenDesc(host, node, mappingType, bitmap)
        case None => Route([bitmapDesc], NoPlugin)
        case Some(uvwgenDesc) =>
          var uvwgen := ExportOf(host, uvwgenDesc);
          if uvwgen.NoPlugin? then Route([bitmapDesc, uvwgenDesc], NoPlugin)
          else
            var texDesc := TexBitmapDesc(host.pluginName(node, "TexBitmap"), bitmap, uvwgen);
            Route([bitmapDesc, uvwgenDesc, texDesc], ExportOf(host, texDesc))
  }

  /** The route of a node whose bitmap the renderer rejected, or that has
      no bitmap at all, ends there. */
  lemma CopRouteNoBitmap(host: Host, node: OpNode, mappingType: DefaultMappingType)
    requires CopBitmapDesc(host, node).None? || ExportOf(host, CopBitmapDesc(host, node).value).NoPlugin?
    ensures CopRoute(host, node, mappingType).exports ==
      if CopBitmapDesc(host, node).None? then [] else [CopBitmapDesc(host, node).value]
    ensures CopRoute(host, node, mappingType).result == NoPlugin
  {
  }

  /** The route of a node whose bitmap the renderer accepted continues with
      the UVW generator stage and, when that produced a plugin, a TexBitmap. */
  lemma CopRouteWithBitmap(host: Host, node: OpNode, mappingType: DefaultMappingType, bitmap: Plugin, uvwgen: Plugin)
    requires CopBitmapDesc(host, node).Some? && bitmap == ExportOf(host, CopBitmapDesc(host, node).value)
    requires bitmap.Handle?
    requires uvwgen ==
      if CopUvwgenDesc(host, node, mappingType, bitmap).None? then NoPlugin
      else ExportOf(host, CopUvwgenDesc(host, node, mappingType, bitmap).value)
    ensures CopUvwgenDesc(host, node, mappingType, bitmap).None? ==>
      CopRoute(host, node, mappingType) == Route([CopBitmapDesc(host, node).value], NoPlugin)
    ensures CopUvwgenDesc(host, node, mappingType, bitmap).Some? && uvwgen.NoPlugin? ==>
      CopRoute(host, node, mappingType) ==
        Route([CopBitmapDesc(host, node).value, CopUvwgenDesc(host, node, mappingType, bitmap).value], NoPlugin)
    ensures uvwgen.Handle? ==>
      var texDesc := TexBitmapDesc(host.pluginName(node, "TexBitmap"), bitmap, uvwgen);
      CopRoute(host, node, mappingType) ==
        Route([CopBitmapDesc(host, node).value, CopUvwgenDesc(host, node, mappingType, bitmap).value, texDesc],
              ExportOf(host, texDesc))
  {
  }

  // -----------------------------------------------------------------------
  // Texture files

  /** The bitmap name of a texture file: a fixed prefix and the decimal hash
      of the path. */
  function FileBitmapName(host: Host, filePath: string): string {
    "BitmapBuffer|" + DecimalString(host.hash(filePath))
  }

  /** The bitmap buffer description of a texture file. */
  function FileBitmapDesc(host: Host, filePath: string, colorSpace: BitmapColorSpace): Desc {
    Desc(FileBitmapName(host, filePath), "BitmapBuffer",
      [Attr("color_space", ColorSpaceValue(colorSpace)), Attr("file", StringValue(filePath))])
  }

  /** The exports of a texture file with a default mapping: the bitmap, then
      the UVW generator named after it, then a TexBitmap named after it, each
      only if the one before produced a plugin. */
  function FileRoute(host: Host, filePath: string, mappingType: DefaultMappingType, colorSpace: BitmapColorSpace): (r: Route)
    ensures 1 <= |r.exports| <= 3
    ensures r.exports[0].name == "BitmapBuffer|" + DecimalString(host.hash(filePath))
    ensures r.exports[0].id == "BitmapBuffer"
    ensures r.exports[0].attrs == [Attr("color_space", ColorSpaceValue(colorSpace)), Attr("file", StringValue(filePath))]
    ensures |r.exports| < 3 ==> ExportOf(host, r.exports[|r.exports| - 1]).NoPlugin?
    ensures |r.exports| >= 2 ==>
      ExportOf(host, r.exports[0]).Handle? &&
      r.exports[1] == ApplyMapping(Desc("DefaultMapping|" + r.exports[0].name, "", []), mappingType)
    ensures |r.exports| == 3 ==>
      ExportOf(host, r.exports[1]).Handle? &&
      r.exports[2] == TexBitmapDesc("TexBitmap|" + r.exports[0].name, ExportOf(host, r.exports[0]), ExportOf(host, r.exports[1]))
    ensures r.result == if |r.exports| == 3 then ExportOf(host, r.exports[2]) else NoPlugin
  {
    var bitmapDesc := FileBitmapDesc(host, filePath, colorSpace);
    var bitmap := ExportOf(host, bitmapDesc);
    if bitmap.NoPlugin? then Route([bitmapDesc], NoPlugin)
    else
      var uvwgenDesc := ApplyMapping(Desc("DefaultMapping|" + bitmap.name, "", []), mappingType);
      var uvwgen := ExportOf(host, uvwgenDesc);
      if uvwgen.NoPlugin? then Route([bitmapDesc, uvwgenDesc], NoPlugin)
      else
        var texDesc := TexBitmapDesc("TexBitmap|" + bitmap.name, bitmap, uvwgen);
        Route([bitmapDesc, uvwgenDesc, texDesc], ExportOf(host, texDesc))
  }

  /** The file route stage by stage: the bitmap, then the UVW generator
      when the bitmap produced a plugin, then the TexBitmap when the
      generator did. */
  lemma FileRouteStages(host: Host, filePath: string, mappingType: DefaultMappingType, colorSpace: BitmapColorSpace,
                        bitmap: Plugin, uvwgen: Plugin)
    requires bitmap == ExportOf(host, FileBitmapDesc(host, filePath, colorSpace))
    requires bitmap.Handle? ==>
      uvwgen == ExportOf(host, ApplyMapping(Desc("DefaultMapping|" + bitmap.name, "", []), mappingType))
    ensures bitmap.NoPlugin? ==>
      FileRoute(host, filePath, mappingType, colorSpace) == Route([FileBitmapDesc(host, filePath, colorSpace)], NoPlugin)
    ensures bitmap.Handle? && uvwgen.NoPlugin? ==>
      FileRoute(host, filePath, mappingType, colorSpace) ==
        Route([FileBitmapDesc(host, filePath, colorSpace),
               ApplyMapping(Desc("DefaultMapping|" + bitmap.name, "", []), mappingType)], NoPlugin)
    ensures bitmap.Handle? && uvwgen.Handle? ==>
      var texDesc := TexBitmapDesc("TexBitmap|" + bitmap.name, bitmap, uvwgen);
      FileRoute(host, filePath, mappingType, colorSpace) ==
        Route([FileBitmapDesc(host, filePath, colorSpace),
               ApplyMapping(Desc("DefaultMapping|" + bitmap.name, "", []), mappingType), texDesc],
              ExportOf(host, texDesc))
  {
  }

  /** Paths with different hashes give every plugin of the file route a
      different name, so the renderer cannot mistake one file's plugins for
      another's. */
  lemma {:induction false} FileRouteNamesDistinct(
    host: Host, path1: string, path2: string, mappingType: DefaultMappingType, colorSpace: BitmapColorSpace, k: nat)
    requires host.hash(path1) != host.hash(path2)
    requires k < |FileRoute(host, path1, mappingType, colorSpace).exports|
    requires k < |FileRoute(host, path2, mappingType, colorSpace).exports|
    ensures FileRoute(host, path1, mappingType, colorSpace).exports[k].name
         != FileRoute(host, path2, mappingType, colorSpace).exports[k].name
  {
    var name1 := FileBitmapName(host, path1);
    var name2 := FileBitmapName(host, path2);
    if name1 == name2 {
      PrefixCancel("BitmapBuffer|", DecimalString(host.hash(path1)), DecimalString(host.hash(path2)));
      DecimalStringInjective(host.hash(path1), host.hash(path2));
      assert false;
    }
    var n1 := FileRoute(host, path1, mappingType, colorSpace).exports[k].name;
    var n2 := FileRoute(host, path2, mappingType, colorSpace).exports[k].name;
    if k == 1 && n1 == n2 {
      PrefixCancel("DefaultMapping|", name1, name2);
    } else if k == 2 && n1 == n2 {
      PrefixCancel("TexBitmap|", name1, name2);
    }
  }

  // -----------------------------------------------------------------------
  // Path resolution

  /** The exports for a path: a node reference goes to the compositing route
      when the node is a compositing node and to the shader export when it is
      a shader node; any other path goes to the file route when the file
      exists. Anything else exports nothing and yields no plugin. */
  function ResolveRoute(host: Host, path: string, mappingType: DefaultMappingType, colorSpace: BitmapColorSpace): (r: Route)
    ensures StartsWith(path, OPREF_PREFIX) && host.findNode(path).None? ==> r == NoRoute
    ensures StartsWith(path, OPREF_PREFIX) && host.findNode(path).Some? ==>
      var node := host.findNode(path).value;
      r == match node.kind
           case CopKind => CopRoute(host, node, mappingType)
           case VopKind => Route(host.vopExports(node), host.vopResult(node))
           case OtherKind => NoRoute
    ensures !StartsWith(path, OPREF_PREFIX) ==>
      r == if host.fileExists(path) then FileRoute(host, path, mappingType, colorSpace) else NoRoute
  {
    if StartsWith(path, OPREF_PREFIX) then
      match host.findNode(path)
      case None => NoRoute
      case Some(node) =>
        if node.kind.CopKind? then CopRoute(host, node, mappingType)
        else if node.kind.VopKind? then Route(host.vopExports(node), host.vopResult(node))
        else NoRoute
    else if host.fileExists(path) then FileRoute(host, path, mappingType, colorSpace)
    else NoRoute
  }

  /** With the defaults of the plain path export (tri-planar mapping, linear
      colour space) a compositing node never yields a plugin: at most its
      bitmap is exported. */
  lemma {:induction false} NodeFromPathCopIsEmpty(host: Host, path: string)
    requires StartsWith(path, OPREF_PREFIX)
    requires host.findNode(path).Some? && host.findNode(path).value.kind.CopKind?
    ensures |ResolveRoute(host, path, MappingTriPlanar, Linear).exports| <= 1
    ensures ResolveRoute(host, path, MappingTriPlanar, Linear).result == NoPlugin
  {
    var node := host.findNode(path).value;
    assert ResolveRoute(host, path, MappingTriPlanar, Linear) == CopRoute(host, node, MappingTriPlanar);
  }

  /** Appends the six bitmap attributes of raster `im`, whose flipped pixel
      words are `pixels`, to `desc`. */
  method AddBitmapAttrs(desc: PluginDesc, im: CookedImage, pixels: seq<Word>)
    requires pixels == BitmapPixelWords(im)
    modifies desc
    ensures desc.pluginName == old(desc.pluginName) && desc.pluginID == old(desc.pluginID)
    ensures desc.attrs == old(desc.attrs) + BitmapBufferAttrs(im)
  {
    var color := BitmapColorOf(im.colorSpace, im.gamma);
    ghost var before := desc.attrs;
    desc.Add(Attr("pixels", IntListValue(pixels)));
    desc.Add(Attr("pixels_type", IntValue(1)));
    desc.Add(Attr("width", IntValue(im.xres)));
    desc.Add(Attr("height", IntValue(im.yres)));
    desc.Add(Attr("color_space", ColorSpaceValue(color.space)));
    desc.Add(Attr("gamma", RealValue(color.gamma)));
    assert desc.attrs == before + BitmapBufferAttrs(im);
  }

  // -----------------------------------------------------------------------
  // The exporter

  /** The exporter: the host it talks to, and the log of every description
      it has handed to the renderer, in order. */
  class Exporter {
    const host: Host
    var log: seq<Desc>

    constructor (host: Host)
      ensures this.host == host && log == []
    {
      this.host := host;
      log := [];
    }

    /** Hands a description to the renderer. */
    method ExportPlugin(desc: PluginDesc) returns (p: Plugin)
      modifies this
      ensures log == old(log) + [desc.Value()]
      ensures p == ExportOf(host, desc.Value())
    {
      log := log + [desc.Value()];
      p := ExportOf(host, desc.Value());
    }

    /** The separate shader export: outside this model, its exports and its
        result are the host's answer. */
    method ExportVop(node: OpNode) returns (p: Plugin)
      modifies this
      ensures log == old(log) + host.vopExports(node)
      ensures p == host.vopResult(node)
    {
      log := log + host.vopExports(node);
      p := host.vopResult(node);
    }

    /** Cooks the node, flips its raster in place and appends the six bitmap
        attributes to `rawBitmapBuffer`; returns 0 and appends nothing when
        there is no raster or it has no pixels. */
    method FillCopNodeBitmapBuffer(copNode: OpNode, rawBitmapBuffer: PluginDesc) returns (filled: int)
      modifies rawBitmapBuffer
      ensures filled == if CopBitmapAttrs(host.cook(copNode)).Some? then 1 else 0
      ensures rawBitmapBuffer.pluginName == old(rawBitmapBuffer.pluginName)
      ensures rawBitmapBuffer.pluginID == old(rawBitmapBuffer.pluginID)
      ensures rawBitmapBuffer.attrs == old(rawBitmapBuffer.attrs) + CopBitmapAttrs(host.cook(copNode)).GetOr([])
    {
      var raster := host.cook(copNode);
      if raster.None? {
        return 0;
      }
      var im := raster.value;
      var numPixels := |im.pixels|;
      if numPixels == 0 {
        return 0;
      }
      var w := im.xres;
      var h := im.yres;
      var buffer := new Pixel[numPixels](k requires 0 <= k < numPixels => im.pixels[k]);
      assert buffer[..] == im.pixels;
      FlipRasterU(buffer, w, h);
      var pixels := PixelWords(buffer[..]);
      AddBitmapAttrs(rawBitmapBuffer, im, pixels);
      return 1;
    }

    /** Exports the raw bitmap buffer of a compositing node, if it has one. */
    method ExportCopNodeBitmapBuffer(copNode: OpNode) returns (res: Plugin)
      modifies this
      ensures CopBitmapDesc(host, copNode).None? ==> log == old(log) && res == NoPlugin
      ensures CopBitmapDesc(host, copNode).Some? ==>
        log == old(log) + [CopBitmapDesc(host, copNode).value] &&
        res == ExportOf(host, CopBitmapDesc(host, copNode).value)
    {
      res := NoPlugin;
      var rawBitmapBuffer := new PluginDesc(host.pluginName(copNode, "RawBitmapBuffer"), "RawBitmapBuffer");
      var filled := FillCopNodeBitmapBuffer(copNode, rawBitmapBuffer);
      if filled != 0 {
        assert rawBitmapBuffer.Value() == CopBitmapDesc(host, copNode).value;
        res := ExportPlugin(rawBitmapBuffer);
      }
    }

    /** The UVW generator stage of the compositing route: fills a default
        mapping description for `bitmap`, renames it after the node and the
        generator's plugin type and exports it, for the channel, channel-name
        and spherical mappings only. */
    method ExportCopUvwgen(copNode: OpNode, mappingType: DefaultMappingType, bitmap: Plugin) returns (uvwgen: Plugin)
      requires bitmap.Handle?
      modifies this
      ensures CopUvwgenDesc(host, copNode, mappingType, bitmap).None? ==> log == old(log) && uvwgen == NoPlugin
      ensures CopUvwgenDesc(host, copNode, mappingType, bitmap).Some? ==>
        log == old(log) + [CopUvwgenDesc(host, copNode, mappingType, bitmap).value] &&
        uvwgen == ExportOf(host, CopUvwgenDesc(host, copNode, mappingType, bitmap).value)
    {
      var uvwgenDesc := new PluginDesc("", "");
      uvwgenDesc.pluginName := "DefaultMapping|" + bitmap.name;
      assert uvwgenDesc.Value() == Desc("DefaultMapping|" + bitmap.name, "", []);
      FillDefaultMappingDesc(mappingType, uvwgenDesc);
      ghost var expected := CopUvwgenDesc(host, copNode, mappingType, bitmap);

      uvwgen := NoPlugin;
      match mappingType {
        case MappingChannel =>
          uvwgenDesc.pluginName := host.pluginName(copNode, "UVWGenChannel");
          assert uvwgenDesc.Value() == expected.value;
          uvwgen := ExportPlugin(uvwgenDesc);
        case MappingChannelName =>
          uvwgenDesc.pluginName := host.pluginName(copNode, "UVWGenMayaPlace2dTexture");
          assert uvwgenDesc.Value() == expected.value;
          uvwgen := ExportPlugin(uvwgenDesc);
        case MappingSpherical =>
          uvwgenDesc.pluginName := host.pluginName(copNode, "UVWGenEnvironment");
          assert uvwgenDesc.Value() == expected.value;
          uvwgen := ExportPlugin(uvwgenDesc);
        case _ =>
      }
    }

    /** Exports a TexBitmap named `name` that joins `bitmap` and `uvwgen`. */
    method ExportTexBitmap(name: string, bitmap: Plugin, uvwgen: Plugin) returns (res: Plugin)
      modifies this
      ensures log == old(log) + [TexBitmapDesc(name, bitmap, uvwgen)]
      ensures res == ExportOf(host, TexBitmapDesc(name, bitmap, uvwgen))
    {
      var texBitmapDesc := new PluginDesc(name, "TexBitmap");
      texBitmapDesc.Add(Attr("bitmap", PluginValue(bitmap)));
      texBitmapDesc.Add(Attr("uvwgen", PluginValue(uvwgen)));
      assert texBitmapDesc.Value() == TexBitmapDesc(name, bitmap, uvwgen);
      res := ExportPlugin(texBitmapDesc);
    }

    /** Exports a compositing node as a bitmap, a default UVW generator and a
        TexBitmap joining them. */
    method ExportCopNodeWithDefaultMapping(copNode: OpNode, mappingType: DefaultMappingType) returns (res: Plugin)
      modifies this
      ensures log == old(log) + CopRoute(host, copNode, mappingType).exports
      ensures res == CopRoute(host, copNode, mappingType).result
    {
      res := NoPlugin;
      ghost var log0 := log;
      var bitmapBuffer := ExportCopNodeBitmapBuffer(copNode);
      if bitmapBuffer.Handle? {
        ghost var bitmapDesc := CopBitmapDesc(host, copNode).value;
        ghost var log1 := log;
        var uvwgen := ExportCopUvwgen(copNode, mappingType, bitmapBuffer);
        ghost var uvwgenDesc := CopUvwgenDesc(host, copNode, mappingType, bitmapBuffer);
        CopRouteWithBitmap(host, copNode, mappingType, bitmapBuffer, uvwgen);
        if uvwgen.Handle? {
          ghost var log2 := log;
          var texName := host.pluginName(copNode, "TexBitmap");
          res := ExportTexBitmap(texName, bitmapBuffer, uvwgen);
          LogGrewBy3(log0, log1, log2, log, bitmapDesc, uvwgenDesc.value, TexBitmapDesc(texName, bitmapBuffer, uvwgen));
        } else if uvwgenDesc.Some? {
          LogGrewBy2(log0, log1, log, bitmapDesc, uvwgenDesc.value);
        }
      } else {
        CopRouteNoBitmap(host, copNode, mappingType);
      }
    }

    /** Exports the bitmap buffer description of a texture file. */
    method ExportFileTextureBitmapBuffer(filePath: string, colorSpace: BitmapColorSpace) returns (res: Plugin)
      modifies this
      ensures log == old(log) + [FileBitmapDesc(host, filePath, colorSpace)]
      ensures res == ExportOf(host, FileBitmapDesc(host, filePath, colorSpace))
    {
      var bitmapBufferDesc := new PluginDesc("BitmapBuffer|" + DecimalString(host.hash(filePath)), "BitmapBuffer");
      bitmapBufferDesc.Add(Attr("color_space", ColorSpaceValue(colorSpace)));
      bitmapBufferDesc.Add(Attr("file", StringValue(filePath)));
      assert bitmapBufferDesc.Value() == FileBitmapDesc(host, filePath, colorSpace);
      res := ExportPlugin(bitmapBufferDesc);
    }

    /** Exports the default UVW generator of `bitmap`, named after it. */
    method ExportDefaultUvwgen(bitmap: Plugin, mappingType: DefaultMappingType) returns (uvwgen: Plugin)
      requires bitmap.Handle?
      modifies this
      ensures log == old(log) + [ApplyMapping(Desc("DefaultMapping|" + bitmap.name, "", []), mappingType)]
      ensures uvwgen == ExportOf(host, ApplyMapping(Desc("DefaultMapping|" + bitmap.name, "", []), mappingType))
    {
      var uvwgenDesc := new PluginDesc("", "");
      uvwgenDesc.pluginName := "DefaultMapping|" + bitmap.name;
      assert uvwgenDesc.Value() == Desc("DefaultMapping|" + bitmap.name, "", []);
      FillDefaultMappingDesc(mappingType, uvwgenDesc);
      uvwgen := ExportPlugin(uvwgenDesc);
    }

    /** Exports a texture file as a bitmap, a default UVW generator and a
        TexBitmap joining them. */
    method ExportFileTextureWithDefaultMapping(filePath: string, mappingType: DefaultMappingType, colorSpace: BitmapColorSpace)
      returns (res: Plugin)
      modifies this
      ensures log == old(log) + FileRoute(host, filePath, mappingType, colorSpace).exports
      ensures res == FileRoute(host, filePath, mappingType, colorSpace).result
    {
      res := NoPlugin;
      ghost var log0 := log;
      var bitmapBuffer := ExportFileTextureBitmapBuffer(filePath, colorSpace);
      var uvwgen := NoPlugin;
      if bitmapBuffer.Handle? {
        ghost var log1 := log;
        uvwgen := ExportDefaultUvwgen(bitmapBuffer, mappingType);
        ghost var uvwgenDesc := ApplyMapping(Desc("DefaultMapping|" + bitmapBuffer.name, "", []), mappingType);
        if uvwgen.Handle? {
          ghost var log2 := log;
          res := ExportTexBitmap("TexBitmap|" + bitmapBuffer.name, bitmapBuffer, uvwgen);
          LogGrewBy3(log0, log1, log2, log, FileBitmapDesc(host, filePath, colorSpace), uvwgenDesc,
            TexBitmapDesc("TexBitmap|" + bitmapBuffer.name, bitmapBuffer, uvwgen));
        } else {
          LogGrewBy2(log0, log1, log, FileBitmapDesc(host, filePath, colorSpace), uvwgenDesc);
        }
      }
      FileRouteStages(host, filePath, mappingType, colorSpace, bitmapBuffer, uvwgen);
    }

    /** Exports whatever a path refers to: a compositing node, a shader node,
        or a texture file. */
    method ExportNodeFromPathWithDefaultMapping(path: string, mappingType: DefaultMappingType, colorSpace: BitmapColorSpace)
      returns (res: Plugin)
      modifies this
      ensures log == old(log) + ResolveRoute(host, path, mappingType, colorSpace).exports
      ensures res == ResolveRoute(host, path, mappingType, colorSpace).result
    {
      res := NoPlugin;
      if StartsWith(path, OPREF_PREFIX) {
        var opNode := host.findNode(path);
        if opNode.Some? {
          if opNode.value.kind.CopKind? {
            res := ExportCopNodeWithDefaultMapping(opNode.value, mappingType);
          } else if opNode.value.kind.VopKind? {
            res := ExportVop(opNode.value);
          }
        }
      } else {
        if host.fileExists(path) {
          res := ExportFileTextureWithDefaultMapping(path, mappingType, colorSpace);
        }
      }
    }

    /** Exports a path with tri-planar mapping and linear colour space. */
    method ExportNodeFromPath(path: string) returns (res: Plugin)
      modifies this
      ensures log == old(log) + ResolveRoute(host, path, MappingTriPlanar, Linear).exports
      ensures res == ResolveRoute(host, path, MappingTriPlanar, Linear).result
    {
      res := ExportNodeFromPathWithDefaultMapping(path, MappingTriPlanar, Linear);
    }
  }
}
