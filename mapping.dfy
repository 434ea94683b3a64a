/** The default UVW-generator descriptions: which plugin type and which
    attributes each default mapping type selects. */
module Mapping {
  import opened Wrappers
  import opened Plugins

  /** The default mapping types. `MappingOther` stands for any enumerator
      value outside the four named ones. */
  datatype DefaultMappingType =
    | MappingChannel
    | MappingChannelName
    | MappingSpherical
    | MappingTriPlanar
    | MappingOther

  function Identity(): Matrix {
    Matrix(Vector(1.0, 0.0, 0.0), Vector(0.0, 1.0, 0.0), Vector(0.0, 0.0, 1.0))
  }

  function Det(m: Matrix): real {
    m.v0.x * (m.v1.y * m.v2.z - m.v1.z * m.v2.y)
    - m.v0.y * (m.v1.x * m.v2.z - m.v1.z * m.v2.x)
    + m.v0.z * (m.v1.x * m.v2.y - m.v1.y * m.v2.x)
  }

  /** The spherical mapping's UVW matrix: the identity with its second and
      third vectors swapped, then the y component of the third negated. The
      result is a proper rotation (a quarter turn about x), not a mirror. */
  function SphericalUvwMatrix(): (m: Matrix)
    ensures m == Matrix(Vector(1.0, 0.0, 0.0), Vector(0.0, 0.0, 1.0), Vector(0.0, -1.0, 0.0))
    ensures Det(m) == 1.0
  {
    var uvwTm := Identity();
    var swapped := Matrix(uvwTm.v0, uvwTm.v2, uvwTm.v1);
    swapped.(v2 := swapped.v2.(y := -swapped.v2.y))
  }

  /** The plugin type and attributes of a default UVW generator. */
  datatype UvwgenSetup = UvwgenSetup(pluginID: string, attrs: seq<Attr>)

  /** The table of default UVW generators: one entry per named mapping type,
      none for any other value. Every entry is a UVWGen plugin with one or two
      attributes under distinct names. */
  function DefaultMappingSetup(mappingType: DefaultMappingType): (r: Option<UvwgenSetup>)
    ensures r.None? <==> mappingType.MappingOther?
    ensures r.Some? ==> |r.value.pluginID| > 6 && r.value.pluginID[..6] == "UVWGen"
    ensures r.Some? ==> 1 <= |r.value.attrs| <= 2 && (|r.value.attrs| == 2 ==> r.value.attrs[0].name != r.value.attrs[1].name)
  {
    match mappingType
    case MappingChannel =>
      Some(UvwgenSetup("UVWGenChannel", [Attr("uvw_channel", IntValue(0))]))
    case MappingChannelName =>
      Some(UvwgenSetup("UVWGenMayaPlace2dTexture", [Attr("uv_set_name", StringValue("uv"))]))
    case MappingSpherical =>
      Some(UvwgenSetup("UVWGenEnvironment",
        [Attr("mapping_type", StringValue("spherical")), Attr("uvw_matrix", MatrixValue(SphericalUvwMatrix()))]))
    case MappingTriPlanar =>
      Some(UvwgenSetup("UVWGenProjection", [Attr("type", IntValue(6)), Attr("object_space", BoolValue(true))]))
    case MappingOther => None
  }

  /** Distinct mapping types select distinct plugin types. */
  lemma MappingPluginsDistinct(m1: DefaultMappingType, m2: DefaultMappingType)
    requires DefaultMappingSetup(m1).Some? && DefaultMappingSetup(m2).Some? && m1 != m2
    ensures DefaultMappingSetup(m1).value.pluginID != DefaultMappingSetup(m2).value.pluginID
  {
  }

  /** A description after the default mapping of `mappingType` is applied to
      it: the name is kept, the attributes only grow, and only an unknown
      mapping type leaves it untouched. */
  function ApplyMapping(d: Desc, mappingType: DefaultMappingType): (r: Desc)
    ensures r.name == d.name
    ensures |d.attrs| <= |r.attrs| && r.attrs[..|d.attrs|] == d.attrs
    ensures r == d <==> mappingType.MappingOther?
    ensures DefaultMappingSetup(mappingType).Some? ==>
      r.id == DefaultMappingSetup(mappingType).value.pluginID &&
      r.attrs[|d.attrs|..] == DefaultMappingSetup(mappingType).value.attrs
  {
    match DefaultMappingSetup(mappingType)
    case None => d
    case Some(setup) => d.(id := setup.pluginID, attrs := d.attrs + setup.attrs)
  }

  /** Sets the plugin type of `uvwgenDesc` and adds the attributes of the
      default mapping `mappingType`; leaves it alone for an unknown type. */
  method FillDefaultMappingDesc(mappingType: DefaultMappingType, uvwgenDesc: PluginDesc)
    modifies uvwgenDesc
    ensures uvwgenDesc.Value() == ApplyMapping(old(uvwgenDesc.Value()), mappingType)
  {
    match mappingType
    case MappingChannel =>
      uvwgenDesc.pluginID := "UVWGenChannel";
      uvwgenDesc.Add(Attr("uvw_channel", IntValue(0)));
    case MappingChannelName =>
      uvwgenDesc.pluginID := "UVWGenMayaPlace2dTexture";
      uvwgenDesc.Add(Attr("uv_set_name", StringValue("uv")));
    case MappingSpherical =>
      var uvwTm := SphericalUvwMatrix();
      uvwgenDesc.pluginID := "UVWGenEnvironment";
      uvwgenDesc.Add(Attr("mapping_type", StringValue("spherical")));
      uvwgenDesc.Add(Attr("uvw_matrix", MatrixValue(uvwTm)));
    case MappingTriPlanar =>
      uvwgenDesc.pluginID := "UVWGenProjection";
      uvwgenDesc.Add(Attr("type", IntValue(6)));
      uvwgenDesc.Add(Attr("object_space", BoolValue(true)));
    case MappingOther =>
  }
}
