/**
 * BakeAOSettings as the object the editor holds: four lists and the
 * validation stamp in fields that its methods update in place. Each method's
 * contract ties the new state to the value-level operation in SettingsState.
 */
module Editor {
  import opened Wrappers
  import opened Lists
  import opened SettingsState

  /** A material asset: its shader can be reassigned; AssetDatabase.IsMainAsset is fixed. */
  class Material {
    var shader: Shader
    const isMainAsset: bool

    constructor (shader: Shader, isMainAsset: bool)
      ensures this.shader == shader && this.isMainAsset == isMainAsset
    {
      this.shader := shader;
      this.isMainAsset := isMainAsset;
    }
  }

  class BakeAOSettings {
    var shadersThatSupportBakeAO: seq<Shader>
    var shaderRemap: seq<RemapData>
    var layersInteraction: seq<LayerMask>
    var lastValidationFrame: int

    /** The fields as a Store value. */
    function State(): Store
      reads this
    {
      Store(shadersThatSupportBakeAO, shaderRemap, layersInteraction, lastValidationFrame)
    }

    constructor ()
      ensures State() == InitialStore
    {
      shadersThatSupportBakeAO := [];
      shaderRemap := [];
      layersInteraction := Repeat(AllLayers, LayerCount);
      lastValidationFrame := 0;
    }

    /**
     * Pads or truncates the matrix to 32 rows, then range-checks both indices
     * and tests bit otherObjectIndex of row bakedObjectIndex.
     */
    method DoesObjectsInteract(bakedObjectIndex: int, otherObjectIndex: int) returns (r: Result<bool, Error>)
      modifies this
      ensures State() == old(State()).(layersInteraction := NormalizeLayers(old(layersInteraction)))
      ensures r == Interaction(layersInteraction, bakedObjectIndex, otherObjectIndex)
    {
      while |layersInteraction| < LayerCount
        invariant |old(layersInteraction)| <= |layersInteraction|
        invariant |old(layersInteraction)| < LayerCount ==> |layersInteraction| <= LayerCount
        invariant layersInteraction == old(layersInteraction) + Repeat(AllLayers, |layersInteraction| - |old(layersInteraction)|)
        invariant shadersThatSupportBakeAO == old(shadersThatSupportBakeAO) && shaderRemap == old(shaderRemap)
        invariant lastValidationFrame == old(lastValidationFrame)
        decreases LayerCount - |layersInteraction|
      {
        layersInteraction := layersInteraction + [AllLayers];
      }
      while |layersInteraction| > LayerCount
        invariant LayerCount <= |layersInteraction|
        invariant layersInteraction[..LayerCount] == NormalizeLayers(old(layersInteraction))
        invariant shadersThatSupportBakeAO == old(shadersThatSupportBakeAO) && shaderRemap == old(shaderRemap)
        invariant lastValidationFrame == old(lastValidationFrame)
      {
        layersInteraction := layersInteraction[..|layersInteraction| - 1];
      }
      assert layersInteraction == layersInteraction[..LayerCount];
      if bakedObjectIndex < 0 || bakedObjectIndex > 31 || otherObjectIndex < 0 || otherObjectIndex > 31 {
        return Err(LayerIndexError);
      }
      var interactLayers := layersInteraction[bakedObjectIndex];
      r := Ok(interactLayers & (1 << otherObjectIndex) != 0);
    }

    /** Validate(): at most one purge of null references per rendered frame. */
    method Validate(frame: int)
      modifies this
      ensures State() == Validated(old(State()), frame)
    {
      if frame == lastValidationFrame {
        return;
      }
      lastValidationFrame := frame;
      shaderRemap := Filter(IsLiveRemap, shaderRemap);
      shadersThatSupportBakeAO := Filter(IsLiveShader, shadersThatSupportBakeAO);
    }

    method IsShaderSupported(shader: Shader, frame: int) returns (r: bool)
      modifies this
      ensures State() == Validated(old(State()), frame)
      ensures r <==> shader in shadersThatSupportBakeAO
    {
      Validate(frame);
      r := shader in shadersThatSupportBakeAO;
    }

    method CanShaderBeRemapped(shader: Shader, frame: int) returns (r: bool)
      modifies this
      ensures State() == Validated(old(State()), frame)
      ensures r <==> exists i :: 0 <= i < |shaderRemap| && shaderRemap[i].nonBakeAOShader == shader && shaderRemap[i].bakeAOShader != Null
    {
      Validate(frame);
      r := HasRemapTarget(shaderRemap, shader);
    }

    method MarkShaderAsSupported(shader: Shader, frame: int)
      modifies this
      ensures State() == MarkedSupported(old(State()), shader, frame)
    {
      Validate(frame);
      if shader in shadersThatSupportBakeAO {
        return;
      }
      shadersThatSupportBakeAO := shadersThatSupportBakeAO + [shader];
    }

    method MarkShaderAsUnsupported(shader: Shader, frame: int)
      modifies this
      ensures State() == MarkedUnsupported(old(State()), shader, frame)
    {
      Validate(frame);
      if shader !in shadersThatSupportBakeAO {
        return;
      }
      shadersThatSupportBakeAO := RemoveFirst(shadersThatSupportBakeAO, shader);
    }

    method RemoveShaderFromSupported(shader: Shader)
      modifies this
      ensures State() == RemovedFromSupported(old(State()), shader)
    {
      shadersThatSupportBakeAO := RemoveFirst(shadersThatSupportBakeAO, shader);
    }

    method AddShaderRemap(nonBakeAOShader: Shader, bakeAOShader: Shader)
      modifies this
      ensures State() == RemapAdded(old(State()), nonBakeAOShader, bakeAOShader)
    {
      var remap := RemapData(nonBakeAOShader, bakeAOShader);
      if remap !in shaderRemap {
        shaderRemap := shaderRemap + [RemapData(nonBakeAOShader, bakeAOShader)];
      }
    }

    method RemoveShaderRemap(nonBakeAOShader: Shader, bakeAOShader: Shader)
      modifies this
      ensures State() == RemapRemoved(old(State()), nonBakeAOShader, bakeAOShader)
    {
      shaderRemap := RemoveFirst(shaderRemap, RemapData(nonBakeAOShader, bakeAOShader));
    }

    /** No validation pass here: the table is read as it stands. */
    function CanUpdateMaterial(material: Material): (r: bool)
      reads this, material
      ensures r <==> material.isMainAsset &&
                     exists i :: 0 <= i < |shaderRemap| && shaderRemap[i].nonBakeAOShader == material.shader
    {
      material.isMainAsset && FirstRemapIndex(shaderRemap, material.shader) < |shaderRemap|
    }

    method IsMaterialSupported(material: Material, frame: int) returns (r: bool)
      modifies this
      ensures State() == Validated(old(State()), frame)
      ensures r <==> material.shader in shadersThatSupportBakeAO
    {
      r := IsShaderSupported(material.shader, frame);
    }

    method UpdateMaterial(material: Material, frame: int) returns (r: Result<UpdateOutcome, Error>)
      modifies this, material
      ensures var u := MaterialUpdated(old(State()), old(material.shader), material.isMainAsset, frame);
              State() == u.store && material.shader == u.shader && r == u.result
    {
      Validate(frame);
      if !CanUpdateMaterial(material) {
        return Err(CannotUpdateError);
      }
      var remappable := CanShaderBeRemapped(material.shader, frame);
      if !remappable {
        return Ok(LoggedCannotRemap);
      }
      var k := FirstRemapIndex(shaderRemap, material.shader);
      material.shader := shaderRemap[k].bakeAOShader;
      r := Ok(ShaderReassigned);
    }
  }
}
