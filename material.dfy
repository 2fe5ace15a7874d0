/**
  A rendering `Material` (Material.cpp): a shader name with keyed scalar, vector and
  texture properties, its defaults, and its conversion into a `MaterialRecord`, which
  copies a property only when the material has it.

  Property values are float payloads that are only copied; they are `real` here. Images
  are values: the device copy of `SetTextureMap` and the legacy conversion of
  `ToMaterialRecord` keep the pixels and are modelled as plain copies.
 */
module Rendering {
  import opened Wrappers

  datatype Vec3f = Vec3f(x: real, y: real, z: real)
  datatype Vec4f = Vec4f(x: real, y: real, z: real, w: real)

  datatype Image = Image(rows: nat, cols: nat, channels: nat, data: seq<real>)

  // Property keys of the accessors `HasBaseColor`, `GetBaseMetallic`, ... (Material.h).
  const BASE_COLOR := "base_color"
  const BASE_METALLIC := "metallic"
  const BASE_ROUGHNESS := "roughness"
  const BASE_REFLECTANCE := "reflectance"
  const BASE_CLEARCOAT := "clear_coat"
  const BASE_CLEARCOAT_ROUGHNESS := "clear_coat_roughness"
  const ANISOTROPY := "anisotropy"
  const THICKNESS := "thickness"
  const TRANSMISSION := "transmission"
  const ABSORPTION_COLOR := "absorption_color"
  const ABSORPTION_DISTANCE := "absorption_distance"
  const POINT_SIZE := "point_size"
  const LINE_WIDTH := "line_width"

  // Texture map keys of `HasAlbedoMap`, `GetNormalMap`, ... (Material.h).
  const ALBEDO_MAP := "albedo"
  const NORMAL_MAP := "normal"
  const AO_MAP := "ambient_occlusion"
  const METALLIC_MAP := "metallic"
  const ROUGHNESS_MAP := "roughness"
  const REFLECTANCE_MAP := "reflectance"
  const CLEARCOAT_MAP := "clear_coat"
  const CLEARCOAT_ROUGHNESS_MAP := "clear_coat_roughness"
  const ANISOTROPY_MAP := "anisotropy"
  const AO_ROUGH_METAL_MAP := "ao_rough_metal"

  /** The scalar properties `ToMaterialRecord` copies, and their keys. */
  datatype ScalarSlot =
    | Metallic | Roughness | Reflectance | Clearcoat | ClearcoatRoughness | Anisotropy
    | Thickness | Transmission | AbsorptionDistance | PointSize | LineWidth

  function ScalarKey(s: ScalarSlot): string {
    match s
    case Metallic => BASE_METALLIC
    case Roughness => BASE_ROUGHNESS
    case Reflectance => BASE_REFLECTANCE
    case Clearcoat => BASE_CLEARCOAT
    case ClearcoatRoughness => BASE_CLEARCOAT_ROUGHNESS
    case Anisotropy => ANISOTROPY
    case Thickness => THICKNESS
    case Transmission => TRANSMISSION
    case AbsorptionDistance => ABSORPTION_DISTANCE
    case PointSize => POINT_SIZE
    case LineWidth => LINE_WIDTH
  }

  /** The texture maps `ToMaterialRecord` copies, and their keys. */
  datatype TextureSlot =
    | AlbedoMap | NormalMap | AOMap | MetallicMap | RoughnessMap | ReflectanceMap
    | ClearcoatMap | ClearcoatRoughnessMap | AnisotropyMap | AORoughnessMetalMap

  function TextureKey(s: TextureSlot): string {
    match s
    case AlbedoMap => ALBEDO_MAP
    case NormalMap => NORMAL_MAP
    case AOMap => AO_MAP
    case MetallicMap => METALLIC_MAP
    case RoughnessMap => ROUGHNESS_MAP
    case ReflectanceMap => REFLECTANCE_MAP
    case ClearcoatMap => CLEARCOAT_MAP
    case ClearcoatRoughnessMap => CLEARCOAT_ROUGHNESS_MAP
    case AnisotropyMap => ANISOTROPY_MAP
    case AORoughnessMetalMap => AO_ROUGH_METAL_MAP
  }

  /** Different maps have different keys. */
  lemma TextureKeysDistinct(a: TextureSlot, b: TextureSlot)
    requires a != b
    ensures TextureKey(a) != TextureKey(b)
  {
    assert |TextureKey(a)| != |TextureKey(b)| || TextureKey(a)[0] != TextureKey(b)[0];
  }

  const White: Vec4f := Vec4f(1.0, 1.0, 1.0, 1.0)

  /** The scalar values `SetDefaultProperties` assigns. */
  const DefaultScalars: map<string, real> := map[
    BASE_METALLIC := 0.0, BASE_ROUGHNESS := 1.0, BASE_REFLECTANCE := 0.5, BASE_CLEARCOAT := 0.0,
    BASE_CLEARCOAT_ROUGHNESS := 0.0, ANISOTROPY := 0.0, THICKNESS := 1.0, TRANSMISSION := 1.0,
    ABSORPTION_DISTANCE := 1.0, POINT_SIZE := 3.0, LINE_WIDTH := 1.0]

  /** The whole of a material. */
  datatype MaterialData = MaterialData(
    name: string,
    scalars: map<string, real>,
    vectors: map<string, Vec4f>,
    textures: map<string, Image>)

  /** The fields of a `MaterialRecord` that `ToMaterialRecord` writes. */
  datatype Record = Record(
    shader: string,
    baseColor: Vec4f,
    baseMetallic: real, baseRoughness: real, baseReflectance: real, baseClearcoat: real,
    baseClearcoatRoughness: real, baseAnisotropy: real, thickness: real, transmission: real,
    absorptionColor: Vec3f, absorptionDistance: real, pointSize: real, lineWidth: real,
    albedoImg: Option<Image>, normalImg: Option<Image>, aoImg: Option<Image>,
    metallicImg: Option<Image>, roughnessImg: Option<Image>, reflectanceImg: Option<Image>,
    clearcoatImg: Option<Image>, clearcoatRoughnessImg: Option<Image>,
    anisotropyImg: Option<Image>, aoRoughMetalImg: Option<Image>)

  /** The record field that holds a scalar property. */
  function RecordScalar(r: Record, s: ScalarSlot): real {
    match s
    case Metallic => r.baseMetallic
    case Roughness => r.baseRoughness
    case Reflectance => r.baseReflectance
    case Clearcoat => r.baseClearcoat
    case ClearcoatRoughness => r.baseClearcoatRoughness
    case Anisotropy => r.baseAnisotropy
    case Thickness => r.thickness
    case Transmission => r.transmission
    case AbsorptionDistance => r.absorptionDistance
    case PointSize => r.pointSize
    case LineWidth => r.lineWidth
  }

  /** The record field that holds a texture map. */
  function RecordImage(r: Record, s: TextureSlot): Option<Image> {
    match s
    case AlbedoMap => r.albedoImg
    case NormalMap => r.normalImg
    case AOMap => r.aoImg
    case MetallicMap => r.metallicImg
    case RoughnessMap => r.roughnessImg
    case ReflectanceMap => r.reflectanceImg
    case ClearcoatMap => r.clearcoatImg
    case ClearcoatRoughnessMap => r.clearcoatRoughnessImg
    case AnisotropyMap => r.anisotropyImg
    case AORoughnessMetalMap => r.aoRoughMetalImg
  }

  function ScalarOr(m: map<string, real>, key: string, otherwise: real): real {
    if key in m then m[key] else otherwise
  }

  function ImageOr(m: map<string, Image>, key: string, otherwise: Option<Image>): Option<Image> {
    if key in m then Some(m[key]) else otherwise
  }

  /** The first three components. */
  function Rgb(v: Vec4f): Vec3f {
    Vec3f(v.x, v.y, v.z)
  }

  /** `ToMaterialRecord` on values: the record after converting `m` into `r`. */
  function Converted(m: MaterialData, r: Record): (c: Record)
    ensures c.shader == m.name
    ensures m.scalars == map[] && m.vectors == map[] && m.textures == map[] ==> c == r.(shader := m.name)
  {
    MapsConverted(m, PropertiesConverted(m, r))
  }

  /** The first half of `ToMaterialRecord`: the shader and the base properties. */
  function PropertiesConverted(m: MaterialData, r: Record): Record {
    r.(shader := m.name,
       baseColor := if BASE_COLOR in m.vectors then m.vectors[BASE_COLOR] else r.baseColor,
       baseMetallic := ScalarOr(m.scalars, BASE_METALLIC, r.baseMetallic),
       baseRoughness := ScalarOr(m.scalars, BASE_ROUGHNESS, r.baseRoughness),
       baseReflectance := ScalarOr(m.scalars, BASE_REFLECTANCE, r.baseReflectance),
       baseClearcoat := ScalarOr(m.scalars, BASE_CLEARCOAT, r.baseClearcoat),
       baseClearcoatRoughness := ScalarOr(m.scalars, BASE_CLEARCOAT_ROUGHNESS, r.baseClearcoatRoughness),
       baseAnisotropy := ScalarOr(m.scalars, ANISOTROPY, r.baseAnisotropy),
       thickness := ScalarOr(m.scalars, THICKNESS, r.thickness),
       transmission := ScalarOr(m.scalars, TRANSMISSION, r.transmission),
       absorptionColor := if ABSORPTION_COLOR in m.vectors then Rgb(m.vectors[ABSORPTION_COLOR]) else r.absorptionColor,
       absorptionDistance := ScalarOr(m.scalars, ABSORPTION_DISTANCE, r.absorptionDistance),
       pointSize := ScalarOr(m.scalars, POINT_SIZE, r.pointSize),
       lineWidth := ScalarOr(m.scalars, LINE_WIDTH, r.lineWidth))
  }

  /** The second half of `ToMaterialRecord`: the texture maps. */
  function MapsConverted(m: MaterialData, r: Record): Record {
    r.(albedoImg := ImageOr(m.textures, ALBEDO_MAP, r.albedoImg),
       normalImg := ImageOr(m.textures, NORMAL_MAP, r.normalImg),
       aoImg := ImageOr(m.textures, AO_MAP, r.aoImg),
       metallicImg := ImageOr(m.textures, METALLIC_MAP, r.metallicImg),
       roughnessImg := ImageOr(m.textures, ROUGHNESS_MAP, r.roughnessImg),
       reflectanceImg := ImageOr(m.textures, REFLECTANCE_MAP, r.reflectanceImg),
       clearcoatImg := ImageOr(m.textures, CLEARCOAT_MAP, r.clearcoatImg),
       clearcoatRoughnessImg := ImageOr(m.textures, CLEARCOAT_ROUGHNESS_MAP, r.clearcoatRoughnessImg),
       anisotropyImg := ImageOr(m.textures, ANISOTROPY_MAP, r.anisotropyImg),
       aoRoughMetalImg := ImageOr(m.textures, AO_ROUGH_METAL_MAP, r.aoRoughMetalImg))
  }

  /** Every scalar field is overwritten exactly when the material has that property and
      keeps its prior value otherwise. */
  lemma ConvertedScalar(m: MaterialData, r: Record, s: ScalarSlot)
    ensures RecordScalar(Converted(m, r), s) == ScalarOr(m.scalars, ScalarKey(s), RecordScalar(r, s))
  {
  }

  /** Every texture field is set exactly when the material has that map and keeps its
      prior value otherwise. */
  lemma ConvertedImage(m: MaterialData, r: Record, s: TextureSlot)
    ensures RecordImage(Converted(m, r), s) == ImageOr(m.textures, TextureKey(s), RecordImage(r, s))
  {
  }

  /** The shader is always the material's name; the absorption colour drops the fourth
      component; the base colour is copied whole. */
  lemma ConvertedColours(m: MaterialData, r: Record)
    ensures Converted(m, r).shader == m.name
    ensures ABSORPTION_COLOR in m.vectors ==>
      var c := m.vectors[ABSORPTION_COLOR];
      Converted(m, r).absorptionColor == Vec3f(c.x, c.y, c.z)
    ensures ABSORPTION_COLOR !in m.vectors ==> Converted(m, r).absorptionColor == r.absorptionColor
    ensures Converted(m, r).baseColor == (if BASE_COLOR in m.vectors then m.vectors[BASE_COLOR] else r.baseColor)
  {
  }

  /** A material with no properties and no maps only names the shader. */
  lemma ConvertedEmpty(m: MaterialData, r: Record)
    requires m.scalars == map[] && m.vectors == map[] && m.textures == map[]
    ensures Converted(m, r) == r.(shader := m.name)
  {
  }

  /** Converting twice is converting once. */
  lemma ConvertedIdempotent(m: MaterialData, r: Record)
    ensures Converted(m, Converted(m, r)) == Converted(m, r)
  {
  }

  /** `SetDefaultProperties` on values: the name and the default values, assigned in
      the order the source assigns them. */
  function WithDefaults(m: MaterialData): (d: MaterialData)
    ensures d.name == "defaultUnlit" && d.textures == m.textures
    ensures forall k :: k in DefaultScalars ==> k in d.scalars && d.scalars[k] == DefaultScalars[k]
    ensures forall k :: k in m.scalars && k !in DefaultScalars ==> k in d.scalars && d.scalars[k] == m.scalars[k]
    ensures d.scalars.Keys == m.scalars.Keys + DefaultScalars.Keys
    ensures d.vectors.Keys == m.vectors.Keys + {BASE_COLOR, ABSORPTION_COLOR}
    ensures d.vectors[BASE_COLOR] == White && d.vectors[ABSORPTION_COLOR] == White
    ensures forall k :: k in m.vectors && k != BASE_COLOR && k != ABSORPTION_COLOR ==> d.vectors[k] == m.vectors[k]
  {
    m.(name := "defaultUnlit",
       scalars := m.scalars[BASE_METALLIC := 0.0][BASE_ROUGHNESS := 1.0][BASE_REFLECTANCE := 0.5]
                  [BASE_CLEARCOAT := 0.0][BASE_CLEARCOAT_ROUGHNESS := 0.0][ANISOTROPY := 0.0]
                  [THICKNESS := 1.0][TRANSMISSION := 1.0][ABSORPTION_DISTANCE := 1.0]
                  [POINT_SIZE := 3.0][LINE_WIDTH := 1.0],
       vectors := m.vectors[BASE_COLOR := White][ABSORPTION_COLOR := White])
  }

  /** The defaults are set, no property is dropped and the texture maps are kept. */
  lemma DefaultsKept(m: MaterialData)
    ensures WithDefaults(m).name == "defaultUnlit"
    ensures forall s: ScalarSlot :: ScalarKey(s) in WithDefaults(m).scalars
    ensures BASE_COLOR in WithDefaults(m).vectors && ABSORPTION_COLOR in WithDefaults(m).vectors
    ensures m.scalars.Keys <= WithDefaults(m).scalars.Keys && m.vectors.Keys <= WithDefaults(m).vectors.Keys
    ensures WithDefaults(m).textures == m.textures
    ensures forall k :: k in DefaultScalars ==> WithDefaults(m).scalars[k] == DefaultScalars[k]
    ensures forall k :: k in m.vectors && k != BASE_COLOR && k != ABSORPTION_COLOR ==>
      WithDefaults(m).vectors[k] == m.vectors[k]
  {
  }

  /** Setting the defaults twice is setting them once. */
  lemma DefaultsIdempotent(m: MaterialData)
    ensures WithDefaults(WithDefaults(m)) == WithDefaults(m)
  {
  }

  /** A defaulted material converts to the default record whatever the record held
      before, except for the texture fields, which follow the maps. */
  lemma DefaultRecord(m: MaterialData, r: Record)
    ensures var c := Converted(WithDefaults(m), r);
      && c.shader == "defaultUnlit" && c.baseColor == White && c.absorptionColor == Vec3f(1.0, 1.0, 1.0)
      && c.baseMetallic == 0.0 && c.baseRoughness == 1.0 && c.baseReflectance == 0.5
      && c.baseClearcoat == 0.0 && c.baseClearcoatRoughness == 0.0 && c.baseAnisotropy == 0.0
      && c.thickness == 1.0 && c.transmission == 1.0 && c.absorptionDistance == 1.0
      && c.pointSize == 3.0 && c.lineWidth == 1.0
    ensures forall r2: Record :: Converted(WithDefaults(m), r2).(
      albedoImg := r.albedoImg, normalImg := r.normalImg, aoImg := r.aoImg, metallicImg := r.metallicImg,
      roughnessImg := r.roughnessImg, reflectanceImg := r.reflectanceImg, clearcoatImg := r.clearcoatImg,
      clearcoatRoughnessImg := r.clearcoatRoughnessImg, anisotropyImg := r.anisotropyImg,
      aoRoughMetalImg := r.aoRoughMetalImg) == Converted(WithDefaults(m), r).(
      albedoImg := r.albedoImg, normalImg := r.normalImg, aoImg := r.aoImg, metallicImg := r.metallicImg,
      roughnessImg := r.roughnessImg, reflectanceImg := r.reflectanceImg, clearcoatImg := r.clearcoatImg,
      clearcoatRoughnessImg := r.clearcoatRoughnessImg, anisotropyImg := r.anisotropyImg,
      aoRoughMetalImg := r.aoRoughMetalImg)
  {
  }

  /** `SetTextureMap` on values. */
  function WithTexture(m: MaterialData, key: string, image: Image): MaterialData {
    m.(textures := m.textures[key := image])
  }

  /** After `SetTextureMap` for one map, the record shows the new image in that map's
      field, and every other map converts as before. */
  lemma TextureShown(m: MaterialData, slot: TextureSlot, image: Image, r: Record, other: TextureSlot)
    requires other != slot
    ensures RecordImage(Converted(WithTexture(m, TextureKey(slot), image), r), slot) == Some(image)
    ensures RecordImage(Converted(WithTexture(m, TextureKey(slot), image), r), other) == RecordImage(Converted(m, r), other)
  {
    TextureKeysDistinct(slot, other);
    ConvertedImage(WithTexture(m, TextureKey(slot), image), r, slot);
    ConvertedImage(WithTexture(m, TextureKey(slot), image), r, other);
    ConvertedImage(m, r, other);
  }

  /** The caller's record, updated in place. */
  class MaterialRecord {
    var fields: Record

    constructor (r: Record)
      ensures fields == r
    {
      fields := r;
    }
  }

  class Material {
    var materialName: string
    var scalarProperties: map<string, real>
    var vectorProperties: map<string, Vec4f>
    var textureMaps: map<string, Image>

    function Data(): MaterialData
      reads this
    {
      MaterialData(materialName, scalarProperties, vectorProperties, textureMaps)
    }

    constructor (name: string)
      ensures Data() == MaterialData(name, map[], map[], map[])
    {
      materialName := name;
      scalarProperties := map[];
      vectorProperties := map[];
      textureMaps := map[];
    }

    method SetDefaultProperties()
      modifies this
      ensures Data() == WithDefaults(old(Data()))
    {
      materialName := "defaultUnlit";
      vectorProperties := vectorProperties[BASE_COLOR := Vec4f(1.0, 1.0, 1.0, 1.0)];
      scalarProperties := scalarProperties[BASE_METALLIC := 0.0];
      scalarProperties := scalarProperties[BASE_ROUGHNESS := 1.0];
      scalarProperties := scalarProperties[BASE_REFLECTANCE := 0.5];
      scalarProperties := scalarProperties[BASE_CLEARCOAT := 0.0];
      scalarProperties := scalarProperties[BASE_CLEARCOAT_ROUGHNESS := 0.0];
      scalarProperties := scalarProperties[ANISOTROPY := 0.0];
      scalarProperties := scalarProperties[THICKNESS := 1.0];
      scalarProperties := scalarProperties[TRANSMISSION := 1.0];
      vectorProperties := vectorProperties[ABSORPTION_COLOR := Vec4f(1.0, 1.0, 1.0, 1.0)];
      scalarProperties := scalarProperties[ABSORPTION_DISTANCE := 1.0];
      scalarProperties := scalarProperties[POINT_SIZE := 3.0];
      scalarProperties := scalarProperties[LINE_WIDTH := 1.0];
    }

    method SetTextureMap(key: string, image: Image)
      modifies this
      ensures Data() == WithTexture(old(Data()), key, image)
    {
      textureMaps := textureMaps[key := image];
    }

    /** `ToMaterialRecord` is const: the material is left alone. Each field is assigned
        the material's property when the material has it and its own value otherwise. */
    method ToMaterialRecord(record: MaterialRecord)
      modifies record
      ensures record.fields == Converted(old(Data()), old(record.fields))
    {
      var r := record.fields;
      r := r.(shader := materialName);
      r := r.(baseColor := if BASE_COLOR in vectorProperties then vectorProperties[BASE_COLOR] else r.baseColor);
      r := r.(baseMetallic := ScalarOr(scalarProperties, BASE_METALLIC, r.baseMetallic));
      r := r.(baseRoughness := ScalarOr(scalarProperties, BASE_ROUGHNESS, r.baseRoughness));
      r := r.(baseReflectance := ScalarOr(scalarProperties, BASE_REFLECTANCE, r.baseReflectance));
      r := r.(baseClearcoat := ScalarOr(scalarProperties, BASE_CLEARCOAT, r.baseClearcoat));
      r := r.(baseClearcoatRoughness := ScalarOr(scalarProperties, BASE_CLEARCOAT_ROUGHNESS, r.baseClearcoatRoughness));
      r := r.(baseAnisotropy := ScalarOr(scalarProperties, ANISOTROPY, r.baseAnisotropy));
      r := r.(thickness := ScalarOr(scalarProperties, THICKNESS, r.thickness));
      r := r.(transmission := ScalarOr(scalarProperties, TRANSMISSION, r.transmission));
      r := r.(absorptionColor := if ABSORPTION_COLOR in vectorProperties then Rgb(vectorProperties[ABSORPTION_COLOR]) else r.absorptionColor);
      r := r.(absorptionDistance := ScalarOr(scalarProperties, ABSORPTION_DISTANCE, r.absorptionDistance));
      r := r.(pointSize := ScalarOr(scalarProperties, POINT_SIZE, r.pointSize));
      r := r.(lineWidth := ScalarOr(scalarProperties, LINE_WIDTH, r.lineWidth));
      r := r.(albedoImg := ImageOr(textureMaps, ALBEDO_MAP, r.albedoImg));
      r := r.(normalImg := ImageOr(textureMaps, NORMAL_MAP, r.normalImg));
      r := r.(aoImg := ImageOr(textureMaps, AO_MAP, r.aoImg));
      r := r.(metallicImg := ImageOr(textureMaps, METALLIC_MAP, r.metallicImg));
      r := r.(roughnessImg := ImageOr(textureMaps, ROUGHNESS_MAP, r.roughnessImg));
      r := r.(reflectanceImg := ImageOr(textureMaps, REFLECTANCE_MAP, r.reflectanceImg));
      r := r.(clearcoatImg := ImageOr(textureMaps, CLEARCOAT_MAP, r.clearcoatImg));
      r := r.(clearcoatRoughnessImg := ImageOr(textureMaps, CLEARCOAT_ROUGHNESS_MAP, r.clearcoatRoughnessImg));
      r := r.(anisotropyImg := ImageOr(textureMaps, ANISOTROPY_MAP, r.anisotropyImg));
      r := r.(aoRoughMetalImg := ImageOr(textureMaps, AO_ROUGH_METAL_MAP, r.aoRoughMetalImg));
      record.fields := r;
    }
  }
}
