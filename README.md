# Texture export of compositing nodes and texture files

This project models the part of the V-Ray for Houdini exporter that turns an
image into renderer plugins (`src/export/export/vfh_export_op.cpp`). It covers
two kinds of image. The first is a compositing (COP) node. It is cooked to a
float RGBA raster, and that raster is flipped vertically in place. Its pixels
are then packed into a `RawBitmapBuffer` description together with a
colour space and a gamma. The second is a texture file on disk. It is
described by a `BitmapBuffer` named after a hash of its path. The exporter
then exports a default UVW generator and a `TexBitmap` that joins the bitmap
and the generator. The compositing route exports the generator only for
channel, channel-name and spherical mapping. The file route exports it for
every mapping type, including an unknown one. Each stage runs only if the
renderer returned a plugin for the one before. A path resolver chooses between the node route, the shader (VOP)
export and the file route.

Layout:

- `raster.dfy`:
  - the pixel buffer;
  - the specification of the vertical flip (`FlippedV`) with its properties;
  - the in-place flip `FlipRasterU` on an `array`, proved against that
    specification;
  - the reinterpretation of pixels as 32-bit words.
- `colorspace.dfy`: the translation of host colour-space tags into bitmap
  colour spaces and gammas.
- `plugins.dfy`: attribute values, descriptions, and the mutable
  `PluginDesc` with its `Add`.
- `mapping.dfy`: the default-mapping table and `FillDefaultMappingDesc`.
- `naming.dfy`: the decimal spelling of the path hash and the node-reference
  prefix.
- `export.dfy`: the host and renderer oracles (`Host`). It also holds the
  route specifications (`CopRoute`, `FileRoute`, `ResolveRoute`), which list
  the descriptions an export hands to the renderer, in order, and the handle
  it returns. The `Exporter` class carries an export log and the imperative
  export methods. Each method is proved to append exactly its route's
  descriptions to the log and to return its route's result.

## Model

| member | source | states |
|---|---|---|
| Raster.FlipRasterU | src/export/export/vfh_export_op.cpp:72-100 | After the in-place flip the buffer equals `FlippedV` of the old buffer: the first `h` rows come in reverse order and the rest of the buffer is untouched. |
| Raster.SwapFacingRows | src/export/export/vfh_export_op.cpp:91-96 | One loop step: rows `i` and `h-1-i` trade places through the scratch row and nothing else in the buffer changes. This includes the middle row of an odd height, which is copied onto itself. |
| Raster.CopyPixels | src/export/export/vfh_export_op.cpp:94-96 | A row copy writes `n` source pixels at the destination offset, leaves every other destination pixel alone, and leaves a distinct source array unchanged. |
| Raster.FlippedAt | src/export/export/vfh_export_op.cpp:83-97 | Pixel (row r, column c) of the flipped buffer is the original pixel (row h-1-r, column c), so columns keep their order within a row. |
| Raster.FlippedRow | src/export/export/vfh_export_op.cpp:90-97 | Row r of the flipped buffer is the row m that faces it (r + m = h-1). |
| Raster.FlippedTail | src/export/export/vfh_export_op.cpp:83-97 | The flip keeps every pixel after the first `h*w` where it was. |
| Raster.MiddleRowFixed | src/export/export/vfh_export_op.cpp:83-97 | For an odd height the middle row (h-1)/2 is unchanged by the flip. |
| Raster.FlipTwice | src/export/export/vfh_export_op.cpp:72-100 | Flipping twice restores the original buffer. |
| Raster.RowStartIsProduct | src/export/export/vfh_export_op.cpp:91-92 | The start of row r, computed by repeated addition, is `r * w`, which is the source's row offset. |
| Raster.PixelWordsAt | src/export/export/vfh_export_op.cpp:125-126 | Words 4i to 4i+3 of the reinterpreted buffer are the r, g, b, a components of pixel i. |
| Raster.WordsRoundTrip | src/export/export/vfh_export_op.cpp:125-126 | Reading the word list back as pixels gives the original pixels: the reinterpretation loses nothing. |
| Raster.FlippedWordsAt | src/export/export/vfh_export_op.cpp:122-126 | The four words of pixel (r, c) in the flipped word list are the components of the original pixel (h-1-r, c). |
| ColorSpaces.BitmapColorOf | src/export/export/vfh_export_op.cpp:128-161 | The host gamma is forwarded exactly for linear, gamma 2.2 and custom gamma, and otherwise the gamma is 1.0. The result is sRGB iff the tag is sRGB, and gamma-corrected iff it is gamma 2.2 or custom gamma. Every other tag (unknown, OCIO, Rec.709 or any other value) falls back to linear. |
| Mapping.SphericalUvwMatrix | src/export/export/vfh_export_op.cpp:199-201 | The spherical UVW matrix has rows [1,0,0], [0,0,1], [0,-1,0] and determinant 1. |
| Mapping.DefaultMappingSetup | src/export/export/vfh_export_op.cpp:187-216 | The table has an entry exactly for the four named mapping types. Each entry is a `UVWGen…` plugin type with one or two attributes, and two attributes never share a name. |
| Mapping.MappingPluginsDistinct | src/export/export/vfh_export_op.cpp:187-216 | Distinct mapping types select distinct plugin types. |
| Mapping.ApplyMapping | src/export/export/vfh_export_op.cpp:185-217 | The name is kept and the old attributes stay as a prefix. Type and new attributes are those of the table entry. The description is left untouched iff the mapping type is not one of the four. |
| Mapping.FillDefaultMappingDesc | src/export/export/vfh_export_op.cpp:185-217 | Filling a description in place leaves it equal to `ApplyMapping` of its old value. |
| Naming.DecimalString | src/export/export/vfh_export_op.cpp:266 | The decimal spelling of n: digits only, whose decimal value (`DecimalValue`) is n, without leading zeros, and a single character iff n < 10. |
| Naming.DecimalStringInjective | src/export/export/vfh_export_op.cpp:266 | Different hashes are spelled as different decimal strings, because the spelling reads back to its number. |
| Export.BitmapPixelsAt | src/export/export/vfh_export_op.cpp:122-126 | The `pixels` attribute holds, at pixel (r, c), the four components of the cooked raster's pixel (yres-1-r, c). |
| Export.CopBitmapAttrs | src/export/export/vfh_export_op.cpp:104-168 | There are no attributes iff there is no raster or it has no pixels. Otherwise the attributes are `pixels` (the flipped buffer as words), `pixels_type`=1, `width`, `height`, `color_space` and `gamma`, in that order. The last two come from the colour-space translation. |
| Export.AddBitmapAttrs | src/export/export/vfh_export_op.cpp:163-168 | Appends exactly the six bitmap attributes to the description and keeps its name and type. |
| Export.Exporter.FillCopNodeBitmapBuffer | src/export/export/vfh_export_op.cpp:102-171 | Returns 0 and leaves the description unchanged when the raster is absent or empty. Otherwise it returns 1 and appends the six attributes of `CopBitmapAttrs`. Name and type are kept. |
| Export.Exporter.ExportCopNodeBitmapBuffer | src/export/export/vfh_export_op.cpp:173-183 | Exports the `RawBitmapBuffer` named after the node exactly when the fill succeeds, and returns its handle. Otherwise nothing is exported and the handle is empty. |
| Export.CopUvwgenDesc | src/export/export/vfh_export_op.cpp:223-249 | The compositing route has a UVW generator exactly for the channel, channel-name and spherical mappings. Its type and attributes come from the mapping table and its name from the node and that type. |
| Export.CopRoute | src/export/export/vfh_export_op.cpp:219-262 | Specifies at most three exports. It is empty iff the node has no bitmap. The generator is exported only after a bitmap handle and only for the three mappings. The TexBitmap is exported only after both handles, and it references both. The result is the TexBitmap's handle or empty. Tri-planar and unknown mapping types never yield a plugin. |
| Export.Exporter.ExportCopUvwgen | src/export/export/vfh_export_op.cpp:225-249 | Exports the generator of `CopUvwgenDesc` when there is one and returns its handle. Otherwise it exports nothing and returns an empty handle. |
| Export.Exporter.ExportTexBitmap | src/export/export/vfh_export_op.cpp:251-258 | Exports one TexBitmap that references the bitmap and the UVW generator, and returns its handle. |
| Export.Exporter.ExportCopNodeWithDefaultMapping | src/export/export/vfh_export_op.cpp:219-262 | Appends exactly the exports of `CopRoute` to the log and returns its result. |
| Export.FileRoute | src/export/export/vfh_export_op.cpp:264-297 | Specifies one to three exports. The bitmap comes first, named "BitmapBuffer\|" and the decimal hash of the path, with `color_space` and then `file`. The generator is named "DefaultMapping\|" and the bitmap name, and the TexBitmap "TexBitmap\|" and the bitmap name. Each export is made only when the one before gave a handle. The result is the TexBitmap's handle or empty. |
| Export.FileRouteNamesDistinct | src/export/export/vfh_export_op.cpp:266-287 | Two paths with different hashes give different names to the plugins at the same stage of the file route. |
| Export.Exporter.ExportFileTextureBitmapBuffer | src/export/export/vfh_export_op.cpp:264-273 | Exports the file's bitmap description and returns its handle. |
| Export.Exporter.ExportDefaultUvwgen | src/export/export/vfh_export_op.cpp:281-285 | Exports the default mapping description named after the bitmap and returns its handle. |
| Export.Exporter.ExportFileTextureWithDefaultMapping | src/export/export/vfh_export_op.cpp:275-297 | Appends exactly the exports of `FileRoute` to the log and returns its result. |
| Export.ResolveRoute | src/export/export/vfh_export_op.cpp:299-324 | A node reference goes to the compositing route for a COP node and to the shader export for a VOP node. It exports nothing for any other node or a missing one. Any other path goes to the file route iff the file exists, and otherwise exports nothing. |
| Export.Exporter.ExportNodeFromPathWithDefaultMapping | src/export/export/vfh_export_op.cpp:299-324 | Appends exactly the exports of `ResolveRoute` to the log and returns its result. |
| Export.Exporter.ExportNodeFromPath | src/export/export/vfh_export_op.cpp:326-329 | Is the resolver with tri-planar mapping and the linear colour space. |
| Export.NodeFromPathCopIsEmpty | src/export/export/vfh_export_op.cpp:231-249 | With those defaults a compositing node exports at most its bitmap and never yields a plugin, because the second switch has no tri-planar case. |
| Export.Exporter.ExportVop | src/export/export/vfh_export_op.cpp:312 | Appends the host's shader-export descriptions to the log and returns the host's result. |
| Export.Exporter.ExportPlugin | src/export/export/vfh_export_op.cpp:179 | Handing a description to the renderer appends it to the log and returns the renderer's answer for it. |

## Left out

- Cooking a compositing node (`getImageFromCop`, lines 24-66) is not modelled. `Host.cook` gives the raster it yields, or none.
- The cooked raster is assumed to hold exactly `xres * yres` pixels (`CookedImage`), which is what a `TIL_Raster` built from those resolutions holds.
- Several calls are not modelled: the renderer's `exportPlugin` decision, `getPluginName`, `VUtils::hashlittle`, `findNode`, the COP/VOP casts, `QFile::exists` and `exportVop`. Each is an uninterpreted field of `Host`. The renderer's answer (`Host.accepts`) depends on the description alone, so the model cannot express an answer that depends on what the session exported earlier.
- A returned plugin handle is assumed to carry the name of the description it was created from.
- `OPREF_PREFIX` is taken to be "op:"; the host header that defines it is not part of this model.
- Pixels are modelled as opaque 32-bit patterns, and `memcpy` and `reinterpret_cast` as sequence copies. Floating point, byte order and pointer aliasing are not modelled.
- `fast_ceil(float(h) / 2)` is modelled as `(h + 1) / 2`, taking `VUtils::fast_ceil` to be the ceiling of its float argument (its source is not part of this model). The two differ once `float(h)` rounds, for h above 2^24. For example, for h = 2^25+2 the source leaves its two middle rows unswapped.
- Overflow of the C++ `int` arithmetic is not modelled (`numPixels * 16`, row offsets `i * w`). Sizes are unbounded naturals. The model does not capture what the source does on very large rasters.
- Raster.FlipRasterU: a non-positive width or height in the source is not modelled, since widths and heights are naturals.
- The attribute container behind `PluginDesc::add` is not part of this model. `add` is modelled as appending. Every description in these routes starts empty and receives distinct attribute names, so its handling of a repeated name never comes into play.
- The scratch row of the flip is never freed in the model (`FreePtrArr`), since memory release has no counterpart in Dafny.
- `src/sop/sop_vrayproxy.cpp` is not part of this model. It only moves host parameters into options and has no logic of its own.
