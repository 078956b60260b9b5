/** What the settings store's operations promise, proved on SettingsState. */
module SettingsProperties {
  import opened Wrappers
  import opened Lists
  import opened SettingsState

  // ------------------------------------------------------------ layer matrix

  /** Every row of the initial matrix has every bit set. */
  lemma AllLayersHasEveryBit(j: nat)
    requires j < 32
    ensures HasBit(AllLayers, j)
  {
  }

  /**
   * On a fresh store every in-range pair of layers interacts, and the
   * self-healing step leaves the 32 initial rows as they are.
   */
  lemma InitialStoreInteractsEverywhere(bakedObjectIndex: int, otherObjectIndex: int)
    requires IsLayerIndex(bakedObjectIndex) && IsLayerIndex(otherObjectIndex)
    ensures NormalizeLayers(InitialStore.layersInteraction) == InitialStore.layersInteraction
    ensures Interaction(NormalizeLayers(InitialStore.layersInteraction), bakedObjectIndex, otherObjectIndex) == Ok(true)
  {
  }

  /** Normalizing a second time changes nothing: a later query does no more healing. */
  lemma NormalizeLayersIdempotent(rows: seq<LayerMask>)
    ensures NormalizeLayers(NormalizeLayers(rows)) == NormalizeLayers(rows)
  {
  }

  /**
   * The range check runs on the healed matrix, whatever its stored length,
   * and fails exactly for an index outside [0, 31]; for a row that was
   * stored, the answer is that stored row's bit.
   */
  lemma InteractionReadsStoredRow(rows: seq<LayerMask>, bakedObjectIndex: int, otherObjectIndex: int)
    ensures var r := Interaction(NormalizeLayers(rows), bakedObjectIndex, otherObjectIndex);
            (r.Err? <==> !(0 <= bakedObjectIndex < 32 && 0 <= otherObjectIndex < 32)) &&
            (r.Err? ==> r.error == LayerIndexError) &&
            (r.Ok? && bakedObjectIndex < |rows| ==> r.value == HasBit(rows[bakedObjectIndex], otherObjectIndex))
  {
  }

  /** A row added by the healing step reads as "interacts with every layer". */
  lemma PaddedRowInteractsEverywhere(rows: seq<LayerMask>, bakedObjectIndex: int, otherObjectIndex: int)
    requires |rows| <= bakedObjectIndex < 32 && IsLayerIndex(otherObjectIndex)
    ensures Interaction(NormalizeLayers(rows), bakedObjectIndex, otherObjectIndex) == Ok(true)
  {
  }

  // --------------------------------------------------------------- validation

  /** Validation is skipped in the frame of the stamp, the first call at frame 0 included. */
  lemma ValidateSameFrameIsNoop(st: Store, frame: int)
    requires frame == st.lastValidationFrame
    ensures Validated(st, frame) == st
  {
  }

  /** A second validation in the same frame changes nothing. */
  lemma ValidateTwiceIsOnce(st: Store, frame: int)
    ensures Validated(Validated(st, frame), frame) == Validated(st, frame)
  {
  }

  /**
   * A pass in a new frame leaves no null reference behind, keeps every live
   * entry, keeps the survivors' order and leaves the matrix alone.
   */
  lemma ValidatePurgesNulls(st: Store, frame: int)
    requires frame != st.lastValidationFrame
    ensures var v := Validated(st, frame);
            v.lastValidationFrame == frame &&
            v.layersInteraction == st.layersInteraction &&
            (forall i :: 0 <= i < |v.shadersThatSupportBakeAO| ==> v.shadersThatSupportBakeAO[i] != Null) &&
            (forall i :: 0 <= i < |v.shaderRemap| ==> IsLiveRemap(v.shaderRemap[i])) &&
            (forall s :: s != Null ==> (s in v.shadersThatSupportBakeAO <==> s in st.shadersThatSupportBakeAO)) &&
            (forall p :: IsLiveRemap(p) ==> (p in v.shaderRemap <==> p in st.shaderRemap))
  {
  }

  /** Survivors keep their order: purging a concatenation purges each part in place. */
  lemma ValidateKeepsOrder(st: Store, frame: int, k: nat)
    requires frame != st.lastValidationFrame && k <= |st.shadersThatSupportBakeAO|
    ensures Validated(st, frame).shadersThatSupportBakeAO ==
            Filter(IsLiveShader, st.shadersThatSupportBakeAO[..k]) + Filter(IsLiveShader, st.shadersThatSupportBakeAO[k..])
  {
    var xs := st.shadersThatSupportBakeAO;
    assert xs == xs[..k] + xs[k..];
    FilterAppend(IsLiveShader, xs[..k], xs[k..]);
  }

  /**
   * Once purged, a pass in any later frame only moves the stamp: with no new
   * dangling reference there is nothing left to remove.
   */
  lemma ValidateAgainLaterOnlyStamps(st: Store, frame: int, laterFrame: int)
    requires frame != st.lastValidationFrame && laterFrame != frame
    ensures Validated(Validated(st, frame), laterFrame) == Validated(st, frame).(lastValidationFrame := laterFrame)
  {
    FilterIdempotent(IsLiveShader, st.shadersThatSupportBakeAO);
    FilterIdempotent(IsLiveRemap, st.shaderRemap);
  }

  /** After a pass in a new frame, a deleted shader is never reported as supported. */
  lemma NullNotSupportedAfterPurge(st: Store, frame: int)
    requires frame != st.lastValidationFrame
    ensures Null !in Validated(st, frame).shadersThatSupportBakeAO
  {
  }

  // ---------------------------------------------------------- supported list

  /**
   * MarkShaderAsSupported keeps the validated list as a prefix, adds the
   * shader once at the end if it was missing and nothing otherwise.
   */
  lemma MarkedSupportedAppendsOnce(st: Store, shader: Shader, frame: int)
    ensures var v := Validated(st, frame).shadersThatSupportBakeAO;
            var r := MarkedSupported(st, shader, frame).shadersThatSupportBakeAO;
            shader in r &&
            r[..|v|] == v &&
            |r| == |v| + (if shader in v then 0 else 1) &&
            multiset(r) == multiset(v) + (if shader in v then multiset{} else multiset{shader})
  {
  }

  /** Marking twice in the same frame is the same as marking once. */
  lemma MarkedSupportedIdempotent(st: Store, shader: Shader, frame: int)
    ensures MarkedSupported(MarkedSupported(st, shader, frame), shader, frame) == MarkedSupported(st, shader, frame)
  {
  }

  /**
   * A shader just marked is reported as supported by IsShaderSupported in the
   * same frame, and in any later frame unless it is a dangling reference.
   */
  lemma SupportedAfterMark(st: Store, shader: Shader, frame: int, queryFrame: int)
    requires queryFrame == frame || shader != Null
    ensures shader in Validated(MarkedSupported(st, shader, frame), queryFrame).shadersThatSupportBakeAO
  {
    var m := MarkedSupported(st, shader, frame);
    MarkedSupportedAppendsOnce(st, shader, frame);
    if queryFrame != m.lastValidationFrame {
      var i :| 0 <= i < |m.shadersThatSupportBakeAO| && m.shadersThatSupportBakeAO[i] == shader;
    }
  }

  /**
   * The Contains guard of MarkShaderAsUnsupported changes nothing: it is a
   * validation pass followed by exactly what RemoveShaderFromSupported does.
   */
  lemma MarkedUnsupportedIsValidateThenRemove(st: Store, shader: Shader, frame: int)
    ensures MarkedUnsupported(st, shader, frame) == RemovedFromSupported(Validated(st, frame), shader)
  {
    RemoveFirstSplices(Validated(st, frame).shadersThatSupportBakeAO, shader);
  }

  /**
   * RemoveShaderFromSupported cuts out the first occurrence of the shader,
   * keeping everything else in order, changes nothing when it is absent,
   * and runs no validation pass.
   */
  lemma RemovedFromSupportedRemovesFirst(st: Store, shader: Shader)
    ensures var r := RemovedFromSupported(st, shader);
            var xs := st.shadersThatSupportBakeAO;
            var k := IndexOf(xs, shader);
            r.shaderRemap == st.shaderRemap && r.layersInteraction == st.layersInteraction &&
            r.lastValidationFrame == st.lastValidationFrame &&
            (shader !in xs ==> r == st) &&
            (shader in xs ==> r.shadersThatSupportBakeAO == xs[..k] + xs[k + 1..]) &&
            multiset(r.shadersThatSupportBakeAO) == multiset(xs) - multiset{shader}
  {
    RemoveFirstSplices(st.shadersThatSupportBakeAO, shader);
    RemoveFirstMultiset(st.shadersThatSupportBakeAO, shader);
  }

  /** A list without duplicates stays without duplicates through a purge. */
  lemma FilterKeepsDistinct<T>(keep: T -> bool, xs: seq<T>)
    requires Distinct(xs)
    ensures Distinct(Filter(keep, xs))
  {
    var r := Filter(keep, xs);
    FilterMultisetShrinks(keep, xs);
    forall i | 0 <= i < |r| ensures multiset(r)[r[i]] == 1 {
      var j :| 0 <= j < |xs| && xs[j] == r[i];
      assert multiset(xs)[xs[j]] == 1;
    }
  }

  /** A list without duplicates stays without duplicates through List.Remove. */
  lemma RemoveFirstKeepsDistinct<T>(xs: seq<T>, x: T)
    requires Distinct(xs)
    ensures Distinct(RemoveFirst(xs, x))
  {
    var r := RemoveFirst(xs, x);
    RemoveFirstMultiset(xs, x);
    forall i | 0 <= i < |r| ensures multiset(r)[r[i]] == 1 {
      assert r[i] in multiset(r);
      assert r[i] in multiset(xs);
      var j :| 0 <= j < |xs| && xs[j] == r[i];
      assert multiset(xs)[xs[j]] == 1;
    }
  }

  /**
   * The supported list is used as a set: if it holds no duplicate, none of
   * the operations on it introduces one.
   */
  lemma SupportedStaysDistinct(st: Store, shader: Shader, frame: int)
    requires Distinct(st.shadersThatSupportBakeAO)
    ensures Distinct(Validated(st, frame).shadersThatSupportBakeAO)
    ensures Distinct(MarkedSupported(st, shader, frame).shadersThatSupportBakeAO)
    ensures Distinct(MarkedUnsupported(st, shader, frame).shadersThatSupportBakeAO)
    ensures Distinct(RemovedFromSupported(st, shader).shadersThatSupportBakeAO)
  {
    var v := Validated(st, frame).shadersThatSupportBakeAO;
    if frame != st.lastValidationFrame {
      FilterKeepsDistinct(IsLiveShader, st.shadersThatSupportBakeAO);
    }
    if shader !in v {
      var r := v + [shader];
      assert multiset(r) == multiset(v) + multiset{shader};
      forall i | 0 <= i < |r| ensures multiset(r)[r[i]] == 1 {
        if i < |v| {
          assert r[i] == v[i];
          assert r[i] != shader;
        }
      }
      assert MarkedSupported(st, shader, frame).shadersThatSupportBakeAO == r;
    }
    RemoveFirstKeepsDistinct(v, shader);
    RemoveFirstKeepsDistinct(st.shadersThatSupportBakeAO, shader);
  }

  /**
   * On a list without duplicates, marking a shader unsupported after marking
   * it supported leaves it unsupported in that frame.
   */
  lemma UnsupportedAfterMarkingBoth(st: Store, shader: Shader, frame: int)
    requires Distinct(st.shadersThatSupportBakeAO)
    ensures var r := MarkedUnsupported(MarkedSupported(st, shader, frame), shader, frame);
            shader !in Validated(r, frame).shadersThatSupportBakeAO
  {
    var m := MarkedSupported(st, shader, frame);
    SupportedStaysDistinct(st, shader, frame);
    MarkedSupportedAppendsOnce(st, shader, frame);
    var i :| 0 <= i < |m.shadersThatSupportBakeAO| && m.shadersThatSupportBakeAO[i] == shader;
    assert multiset(m.shadersThatSupportBakeAO)[shader] == 1;
    var r := MarkedUnsupported(m, shader, frame);
    assert Validated(m, frame) == m;
    RemoveFirstMultiset(m.shadersThatSupportBakeAO, shader);
    assert multiset(r.shadersThatSupportBakeAO)[shader] == 0;
  }

  /**
   * With duplicates in the list (the field is editable directly), one
   * MarkShaderAsUnsupported leaves the shader supported.
   */
  lemma UnmarkLeavesDuplicate()
    ensures var st := Store([Asset(1), Asset(1)], [], [], 0);
            Asset(1) in MarkedUnsupported(st, Asset(1), 0).shadersThatSupportBakeAO
  {
  }

  // -------------------------------------------------------------- remap table

  /**
   * AddShaderRemap appends the exact pair once: afterwards it is present,
   * the old table is a prefix, and the table grew by one only if the pair
   * was missing.
   */
  lemma RemapAddedAppendsOnce(st: Store, a: Shader, b: Shader)
    ensures var r := RemapAdded(st, a, b).shaderRemap;
            RemapData(a, b) in r &&
            r[..|st.shaderRemap|] == st.shaderRemap &&
            |r| == |st.shaderRemap| + (if RemapData(a, b) in st.shaderRemap then 0 else 1)
  {
  }

  /** Adding the same pair twice is the same as adding it once. */
  lemma RemapAddedIdempotent(st: Store, a: Shader, b: Shader)
    ensures RemapAdded(RemapAdded(st, a, b), a, b) == RemapAdded(st, a, b)
  {
  }

  /**
   * Dedup is on the exact pair, not on the source: a second target for the
   * same source gets an entry of its own, and the first one stays.
   */
  lemma SecondTargetGetsOwnEntry(st: Store, a: Shader, b: Shader, c: Shader)
    requires b != c && RemapData(a, b) !in st.shaderRemap && RemapData(a, c) !in st.shaderRemap
    ensures var r := RemapAdded(RemapAdded(st, a, b), a, c).shaderRemap;
            r == st.shaderRemap + [RemapData(a, b), RemapData(a, c)]
  {
  }

  /**
   * RemoveShaderRemap cuts out only the first exact pair and keeps the rest
   * in order; an absent pair leaves the table alone.
   */
  lemma RemapRemovedRemovesFirst(st: Store, a: Shader, b: Shader)
    ensures var xs := st.shaderRemap;
            var r := RemapRemoved(st, a, b);
            var k := IndexOf(xs, RemapData(a, b));
            r.shadersThatSupportBakeAO == st.shadersThatSupportBakeAO &&
            r.lastValidationFrame == st.lastValidationFrame &&
            (RemapData(a, b) !in xs ==> r == st) &&
            (RemapData(a, b) in xs ==> r.shaderRemap == xs[..k] + xs[k + 1..]) &&
            multiset(r.shaderRemap) == multiset(xs) - multiset{RemapData(a, b)}
  {
    RemoveFirstSplices(st.shaderRemap, RemapData(a, b));
    RemoveFirstMultiset(st.shaderRemap, RemapData(a, b));
  }

  /** Any(source matches) holds exactly when First(source matches) finds an entry. */
  lemma FirstRemapFoundIffSource(remaps: seq<RemapData>, shader: Shader)
    ensures HasRemapSource(remaps, shader) <==> FirstRemapIndex(remaps, shader) < |remaps|
  {
  }

  /**
   * CanShaderBeRemapped implies the source test of CanUpdateMaterial: a main
   * asset whose shader is remappable can be updated.
   */
  lemma RemappableMainAssetIsUpdatable(st: Store, shader: Shader)
    requires HasRemapTarget(st.shaderRemap, shader)
    ensures CanUpdateMaterial(st, shader, true)
  {
  }

  /**
   * The converse fails: an entry with a null target makes the material
   * updatable but not remappable.
   */
  lemma NullTargetUpdatableNotRemappable()
    ensures var st := Store([], [RemapData(Asset(1), Null)], [], 0);
            CanUpdateMaterial(st, Asset(1), true) && !HasRemapTarget(st.shaderRemap, Asset(1))
  {
    var st := Store([], [RemapData(Asset(1), Null)], [], 0);
    assert st.shaderRemap[0].nonBakeAOShader == Asset(1);
  }

  /** CanUpdateMaterial is false for an embedded (non-main) asset whatever the table holds. */
  lemma EmbeddedAssetNotUpdatable(st: Store, shader: Shader)
    ensures !CanUpdateMaterial(st, shader, false)
  {
  }

  // ----------------------------------------------------------- UpdateMaterial

  /**
   * The three outcomes of UpdateMaterial: it throws, leaving the shader
   * alone, exactly when the validated store cannot update the material; it
   * logs and leaves the shader alone when no entry has a live target;
   * otherwise the shader becomes the target of the first entry for it.
   * The validation pass is the only change to the store in every case.
   */
  lemma MaterialUpdateOutcomes(st: Store, shader: Shader, isMainAsset: bool, frame: int)
    ensures var v := Validated(st, frame);
            var u := MaterialUpdated(st, shader, isMainAsset, frame);
            u.store == v &&
            (u.result.Err? <==> !CanUpdateMaterial(v, shader, isMainAsset)) &&
            (u.result.Err? ==> u.result.error == CannotUpdateError && u.shader == shader) &&
            (u.result == Ok(LoggedCannotRemap) <==>
               CanUpdateMaterial(v, shader, isMainAsset) && !HasRemapTarget(v.shaderRemap, shader)) &&
            (u.result == Ok(LoggedCannotRemap) ==> u.shader == shader) &&
            (u.result == Ok(ShaderReassigned) ==>
               exists k :: 0 <= k < |v.shaderRemap| &&
                 v.shaderRemap[k] == RemapData(shader, u.shader) &&
                 forall i :: 0 <= i < k ==> v.shaderRemap[i].nonBakeAOShader != shader)
  {
  }

  /**
   * When the material is updated in a frame that purges the table, the new
   * shader is never null: every entry left has a live target.
   */
  lemma UpdatedShaderLiveAfterPurge(st: Store, shader: Shader, isMainAsset: bool, frame: int)
    requires frame != st.lastValidationFrame
    ensures var u := MaterialUpdated(st, shader, isMainAsset, frame);
            u.result == Ok(ShaderReassigned) ==> u.shader != Null
  {
  }

  /**
   * When validation was already done in this frame, an entry with a null
   * target added since then can shadow a live one: the check passes on the
   * live entry, and First takes the null one.
   */
  lemma UpdateCanAssignNullInValidatedFrame()
    ensures var st := Store([], [RemapData(Asset(1), Null), RemapData(Asset(1), Asset(2))], [], 7);
            MaterialUpdated(st, Asset(1), true, 7) == MaterialUpdate(st, Null, Ok(ShaderReassigned))
  {
    var st := Store([], [RemapData(Asset(1), Null), RemapData(Asset(1), Asset(2))], [], 7);
    assert st.shaderRemap[1].nonBakeAOShader == Asset(1) && st.shaderRemap[1].bakeAOShader != Null;
  }

  /**
   * With a single live entry for a main asset's shader, UpdateMaterial
   * switches the material to that entry's target.
   */
  lemma UpdateFollowsOnlyRemap(st: Store, a: Shader, b: Shader, frame: int)
    requires a != Null && b != Null && RemapData(a, b) in st.shaderRemap
    requires forall i :: 0 <= i < |st.shaderRemap| && st.shaderRemap[i].nonBakeAOShader == a ==> st.shaderRemap[i].bakeAOShader == b
    ensures CanUpdateMaterial(Validated(st, frame), a, true)
    ensures MaterialUpdated(st, a, true, frame) == MaterialUpdate(Validated(st, frame), b, Ok(ShaderReassigned))
  {
  }
}
