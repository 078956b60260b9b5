/**
 * The state of the Bake AO settings store as a value, and what each of its
 * operations does to that value. The class in editor.dfy keeps the same four
 * lists and the frame stamp in fields and is proved to follow these functions.
 */
module SettingsState {
  import opened Wrappers
  import opened Lists

  /**
   * A reference to a shader asset. Unity compares such references by asset
   * identity; a reference whose asset was deleted compares equal to null.
   */
  datatype Shader = Null | Asset(id: nat)

  /** One remap entry: a material using nonBakeAOShader is switched to bakeAOShader. */
  datatype RemapData = RemapData(nonBakeAOShader: Shader, bakeAOShader: Shader)

  /** A Unity LayerMask: a 32-bit word whose bit j stands for layer j. */
  type LayerMask = bv32

  /** The mask the source writes as -1: every layer interacts. */
  const AllLayers: LayerMask := 0xFFFF_FFFF

  const LayerCount: nat := 32

  /** The two exceptions the store throws. */
  datatype Error =
    | InvalidOperation(message: string)  // System.InvalidOperationException
    | GeneralException(message: string)  // System.Exception

  const LayerIndexError := InvalidOperation("Layer index should be in range [0;31]")
  const CannotUpdateError := GeneralException("Cant update this material")

  /** How UpdateMaterial returns when it does not throw. */
  datatype UpdateOutcome =
    | ShaderReassigned          // the material now uses the remap target
    | LoggedCannotRemap         // Debug.LogError was called and nothing changed

  /** The serialized state of BakeAOSettings, with the private validation stamp. */
  datatype Store = Store(
    shadersThatSupportBakeAO: seq<Shader>,
    shaderRemap: seq<RemapData>,
    layersInteraction: seq<LayerMask>,
    lastValidationFrame: int)

  /** A freshly created settings asset: empty lists, 32 all-ones rows, stamp 0. */
  const InitialStore := Store([], [], Repeat(AllLayers, LayerCount), 0)

  // ---------------------------------------------------------------- validation

  predicate IsLiveShader(s: Shader) { s != Null }

  predicate IsLiveRemap(p: RemapData) { p.nonBakeAOShader != Null && p.bakeAOShader != Null }

  /**
   * Validate(): skipped when the stamp already equals the frame; otherwise
   * stamps the frame and drops remap entries with a null side and null
   * supported shaders.
   */
  function Validated(st: Store, frame: int): Store
  {
    if frame == st.lastValidationFrame then st
    else st.(lastValidationFrame := frame,
             shaderRemap := Filter(IsLiveRemap, st.shaderRemap),
             shadersThatSupportBakeAO := Filter(IsLiveShader, st.shadersThatSupportBakeAO))
  }

  // ------------------------------------------------------------ layer matrix

  /** The matrix after the two self-healing loops: padded with AllLayers or cut to 32 rows. */
  function NormalizeLayers(rows: seq<LayerMask>): (r: seq<LayerMask>)
    ensures |r| == LayerCount
    ensures forall i :: 0 <= i < |rows| && i < LayerCount ==> r[i] == rows[i]
    ensures forall i :: |rows| <= i < LayerCount ==> r[i] == AllLayers
  {
    if |rows| < LayerCount then rows + Repeat(AllLayers, LayerCount - |rows|)
    else rows[..LayerCount]
  }

  /** The C# test (mask & (1 << j)) != 0 on a 32-bit word. */
  predicate HasBit(mask: LayerMask, j: nat)
    requires j < 32
  {
    mask & (1 << j) != 0
  }

  predicate IsLayerIndex(i: int) { 0 <= i <= 31 }

  /** The answer of DoesObjectsInteract once the matrix has 32 rows. */
  function Interaction(rows: seq<LayerMask>, bakedObjectIndex: int, otherObjectIndex: int): Result<bool, Error>
    requires |rows| == LayerCount
  {
    if !IsLayerIndex(bakedObjectIndex) || !IsLayerIndex(otherObjectIndex) then Err(LayerIndexError)
    else Ok(HasBit(rows[bakedObjectIndex], otherObjectIndex))
  }

  // ---------------------------------------------------------- supported list

  /** MarkShaderAsSupported: validate, then append the shader unless it is present. */
  function MarkedSupported(st: Store, shader: Shader, frame: int): Store
  {
    var v := Validated(st, frame);
    if shader in v.shadersThatSupportBakeAO then v
    else v.(shadersThatSupportBakeAO := v.shadersThatSupportBakeAO + [shader])
  }

  /** MarkShaderAsUnsupported: validate, then remove the first occurrence if there is one. */
  function MarkedUnsupported(st: Store, shader: Shader, frame: int): Store
  {
    var v := Validated(st, frame);
    if shader !in v.shadersThatSupportBakeAO then v
    else v.(shadersThatSupportBakeAO := RemoveFirst(v.shadersThatSupportBakeAO, shader))
  }

  /** RemoveShaderFromSupported: List.Remove with no validation pass. */
  function RemovedFromSupported(st: Store, shader: Shader): Store
  {
    st.(shadersThatSupportBakeAO := RemoveFirst(st.shadersThatSupportBakeAO, shader))
  }

  // -------------------------------------------------------------- remap table

  /** AddShaderRemap: append the pair unless the identical pair is present. */
  function RemapAdded(st: Store, nonBakeAOShader: Shader, bakeAOShader: Shader): Store
  {
    var remap := RemapData(nonBakeAOShader, bakeAOShader);
    if remap in st.shaderRemap then st
    else st.(shaderRemap := st.shaderRemap + [remap])
  }

  /** RemoveShaderRemap: List.Remove of the identical pair. */
  function RemapRemoved(st: Store, nonBakeAOShader: Shader, bakeAOShader: Shader): Store
  {
    st.(shaderRemap := RemoveFirst(st.shaderRemap, RemapData(nonBakeAOShader, bakeAOShader)))
  }

  /** The LINQ test shaderRemap.Any(p => p.nonBakeAOShader == shader && p.bakeAOShader != null). */
  predicate HasRemapTarget(remaps: seq<RemapData>, shader: Shader)
  {
    exists i :: 0 <= i < |remaps| && remaps[i].nonBakeAOShader == shader && remaps[i].bakeAOShader != Null
  }

  /** The LINQ test shaderRemap.Any(entry => entry.nonBakeAOShader == shader). */
  predicate HasRemapSource(remaps: seq<RemapData>, shader: Shader)
  {
    exists i :: 0 <= i < |remaps| && remaps[i].nonBakeAOShader == shader
  }

  /**
   * The entry shaderRemap.First(p => p.nonBakeAOShader == shader) returns, by
   * position; |remaps| when there is none (where First would throw).
   */
  function FirstRemapIndex(remaps: seq<RemapData>, shader: Shader): (k: nat)
    ensures k <= |remaps|
    ensures k < |remaps| ==> remaps[k].nonBakeAOShader == shader
    ensures forall i :: 0 <= i < k ==> remaps[i].nonBakeAOShader != shader
  {
    if remaps == [] then 0
    else if remaps[0].nonBakeAOShader == shader then 0
    else 1 + FirstRemapIndex(remaps[1..], shader)
  }

  /** CanUpdateMaterial, for a material with the given shader and main-asset status. */
  predicate CanUpdateMaterial(st: Store, shader: Shader, isMainAsset: bool)
  {
    isMainAsset && HasRemapSource(st.shaderRemap, shader)
  }

  /** What UpdateMaterial leaves behind: the store, the material's shader and how it returned. */
  datatype MaterialUpdate = MaterialUpdate(store: Store, shader: Shader, result: Result<UpdateOutcome, Error>)

  /**
   * UpdateMaterial: validate; throw unless CanUpdateMaterial; log and return
   * unless CanShaderBeRemapped (whose own validation pass is a no-op in the
   * same frame); otherwise take the target of the first entry for the shader.
   */
  function MaterialUpdated(st: Store, shader: Shader, isMainAsset: bool, frame: int): MaterialUpdate
  {
    var v := Validated(st, frame);
    if !CanUpdateMaterial(v, shader, isMainAsset) then MaterialUpdate(v, shader, Err(CannotUpdateError))
    else if !HasRemapTarget(v.shaderRemap, shader) then MaterialUpdate(v, shader, Ok(LoggedCannotRemap))
    else
      var k := FirstRemapIndex(v.shaderRemap, shader);
      MaterialUpdate(v, v.shaderRemap[k].bakeAOShader, Ok(ShaderReassigned))
  }
}
