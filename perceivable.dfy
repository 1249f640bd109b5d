/**
 * A perceivable individual: an individual whose owner is a static mesh actor
 * and which can show a flat "visual mask" colour instead of its materials.
 *
 * It keeps an init / loaded pair of flags on top of its base class (whose own
 * IsInit / IsLoaded / Init / Load / tag import and export results are given
 * values here), the material slots of the owner's mesh component as an array,
 * the original materials captured at init, the visual mask and calibrated
 * visual mask strings, and the owner's tag as a key/value map.
 */
module Perceivable {
  import opened Wrappers

  /** What a material slot holds: the mask's dynamic material (one value for every instance) or one of the mesh's own materials. */
  datatype Material = MaskMaterial | AssetMaterial(id: nat)

  /** The dynamic mask material; its colour parameter is absent until set (the asset's default). */
  datatype DynamicMaterial = DynamicMaterial(color: Option<string>)

  const VisualMaskKey := "VisualMask"
  const CalibratedVisualMaskKey := "CalibratedVisualMask"

  /** FSLTagIO::GetValue: the value stored under key in the owner's tag, empty when there is none. */
  function TagValue(tag: map<string, string>, key: string): string {
    if key in tag then tag[key] else ""
  }

  /**
   * FSLTagIO::AddKVPair: writes the pair when the key is not yet in the tag or
   * when overwriting, and reports whether it wrote.
   */
  function AddKVPair(tag: map<string, string>, key: string, value: string, overwrite: bool): (r: (map<string, string>, bool))
    ensures r.1 <==> key !in tag || overwrite
    ensures r.1 ==> r.0 == tag[key := value]
    ensures !r.1 ==> r.0 == tag
  {
    if key !in tag || overwrite then (tag[key := value], true) else (tag, false)
  }

  /**
   * ExportToTag on the tag: the base class's export first, then each
   * non-empty mask field; the result is whether anything was written.
   */
  function ExportedTag(tag: map<string, string>, mask: string, calibrated: string, overwrite: bool, baseDirty: bool)
    : (r: (map<string, string>, bool))
    ensures r.1 <==> (baseDirty || (mask != "" && (VisualMaskKey !in tag || overwrite))
                      || (calibrated != "" && (CalibratedVisualMaskKey !in tag || overwrite)))
    ensures forall k :: k in tag && k != VisualMaskKey && k != CalibratedVisualMaskKey ==> k in r.0 && r.0[k] == tag[k]
    ensures mask != "" && (VisualMaskKey !in tag || overwrite) ==> TagValue(r.0, VisualMaskKey) == mask
    ensures !(mask != "" && (VisualMaskKey !in tag || overwrite)) ==> TagValue(r.0, VisualMaskKey) == TagValue(tag, VisualMaskKey)
    ensures calibrated != "" && (CalibratedVisualMaskKey !in tag || overwrite) ==> TagValue(r.0, CalibratedVisualMaskKey) == calibrated
    ensures !(calibrated != "" && (CalibratedVisualMaskKey !in tag || overwrite)) ==>
              TagValue(r.0, CalibratedVisualMaskKey) == TagValue(tag, CalibratedVisualMaskKey)
  {
    var dirty := baseDirty;
    var afterMask := if mask != "" then AddKVPair(tag, VisualMaskKey, mask, overwrite) else (tag, false);
    var afterCalibrated := if calibrated != "" then AddKVPair(afterMask.0, CalibratedVisualMaskKey, calibrated, overwrite) else (afterMask.0, false);
    (afterCalibrated.0, dirty || afterMask.1 || afterCalibrated.1)
  }

  /**
   * One import helper, as written: when the field is empty or overwriting, the
   * field takes the tag's value, and the result is whether the value stayed
   * the same. Otherwise nothing changes and the result is false.
   */
  function ImportedValue(current: string, tagValue: string, overwrite: bool): (string, bool) {
    if current == "" || overwrite then (tagValue, tagValue == current) else (current, false)
  }

  /**
   * The import helpers report true exactly when they ran and the value is
   * unchanged, so a newly written value is reported false: the opposite of
   * their documented meaning ("true if new value is written").
   */
  lemma ImportReportsUnchanged(current: string, tagValue: string, overwrite: bool)
    ensures var r := ImportedValue(current, tagValue, overwrite);
      && (r.1 <==> (current == "" || overwrite) && tagValue == current)
      && ((current == "" || overwrite) ==> r.0 == tagValue)
      && (!(current == "" || overwrite) ==> r.0 == current)
      && (r.0 != current ==> !r.1)
  {
  }

  /**
   * Exporting a non-empty mask with overwrite and importing it into an empty
   * field (with or without overwrite) recovers the mask, reported false since it changed;
   * importing it with overwrite into any field recovers it too.
   */
  lemma ExportThenImportMask(tag: map<string, string>, mask: string, calibrated: string, baseDirty: bool, overwrite: bool, current: string)
    requires mask != ""
    ensures var exported := ExportedTag(tag, mask, calibrated, true, baseDirty).0;
      && ImportedValue("", TagValue(exported, VisualMaskKey), overwrite) == (mask, false)
      && ImportedValue(current, TagValue(exported, VisualMaskKey), true) == (mask, mask == current)
  {
  }

  /** Every slot of n holding the mask material. */
  function MaskSlots(n: nat): (r: seq<Material>)
    ensures |r| == n && forall i :: 0 <= i < n ==> r[i] == MaskMaterial
  {
    seq(n, _ => MaskMaterial)
  }

  class PerceivableIndividual {
    /** What Super::Init() returns; a call leaves the base initialised exactly when it returns true. */
    const baseInitResult: bool
    /** What Super::Load() returns; a call leaves the base loaded exactly when it returns true. */
    const baseLoadResult: bool
    /** Whether the visual mask material asset was found by the constructor. */
    const hasMaskAsset: bool
    /** The owner's static mesh component slots; null when the owner is not a static mesh actor or has none. */
    const ownerMesh: array?<Material>

    /** Super::IsInit() and Super::IsLoaded(). */
    var baseIsInit: bool
    var baseIsLoaded: bool
    var isInit: bool
    var isLoaded: bool
    var maskMaterialOn: bool
    var visualMask: string
    var calibratedVisualMask: string
    var dynamicMaterial: Option<DynamicMaterial>
    var visualSMC: array?<Material>
    var originalMaterials: seq<Material>
    /** The owner's tag pairs of this individual's tag type. */
    var tag: map<string, string>

    ghost predicate Valid()
      reads this
    {
      && (visualSMC != null ==> visualSMC == ownerMesh && |originalMaterials| == visualSMC.Length)
      && (isInit ==> visualSMC != null && dynamicMaterial.Some?)
      && (isLoaded ==> visualSMC != null && dynamicMaterial.Some?)
    }

    constructor (baseIsInit: bool, baseIsLoaded: bool, baseInitResult: bool, baseLoadResult: bool,
                 hasMaskAsset: bool, ownerMesh: array?<Material>, tag: map<string, string>)
      ensures Valid()
      ensures this.baseIsInit == baseIsInit && this.baseIsLoaded == baseIsLoaded
      ensures this.baseInitResult == baseInitResult && this.baseLoadResult == baseLoadResult
      ensures this.hasMaskAsset == hasMaskAsset && this.ownerMesh == ownerMesh && this.tag == tag
      ensures !isInit && !isLoaded && !maskMaterialOn
      ensures visualMask == "" && calibratedVisualMask == ""
      ensures dynamicMaterial == None && visualSMC == null && originalMaterials == []
    {
      this.baseIsInit, this.baseIsLoaded := baseIsInit, baseIsLoaded;
      this.baseInitResult, this.baseLoadResult := baseInitResult, baseLoadResult;
      this.hasMaskAsset, this.ownerMesh, this.tag := hasMaskAsset, ownerMesh, tag;
      isInit, isLoaded, maskMaterialOn := false, false, false;
      visualMask, calibratedVisualMask := "", "";
      dynamicMaterial, visualSMC, originalMaterials := None, null, [];
    }

    /** Initialised here and in the base; an initialised individual holds its mesh component and dynamic material. */
    predicate IsInit(): (r: bool)
      reads this
      ensures r ==> isInit && baseIsInit
      ensures isInit && baseIsInit ==> r
      ensures r && Valid() ==> visualSMC == ownerMesh && visualSMC != null && dynamicMaterial.Some?
    {
      isInit && baseIsInit
    }

    /** Loaded here and in the base; a loaded individual holds its mesh component and dynamic material. */
    predicate IsLoaded(): (r: bool)
      reads this
      ensures r ==> isLoaded && baseIsLoaded
      ensures isLoaded && baseIsLoaded ==> r
      ensures r && Valid() ==> visualSMC == ownerMesh && visualSMC != null && dynamicMaterial.Some?
    {
      isLoaded && baseIsLoaded
    }

    function GetVisualMask(): string
      reads this
    {
      visualMask
    }

    predicate HasVisualMask()
      reads this
    {
      visualMask != ""
    }

    function GetCalibratedVisualMask(): string
      reads this
    {
      calibratedVisualMask
    }

    predicate HasCalibratedVisualMask()
      reads this
    {
      calibratedVisualMask != ""
    }

    /**
     * Creates the dynamic mask material and captures the owner's mesh component
     * and its current materials; fails without the mask asset or without a
     * static mesh component.
     */
    method InitImpl() returns (ok: bool)
      requires Valid()
      modifies this
      ensures Valid()
      ensures ok <==> hasMaskAsset && ownerMesh != null
      ensures hasMaskAsset ==> dynamicMaterial == Some(DynamicMaterial(None))
      ensures !hasMaskAsset ==> dynamicMaterial == old(dynamicMaterial)
      ensures ok ==> visualSMC == ownerMesh && originalMaterials == ownerMesh[..]
      ensures !ok ==> visualSMC == old(visualSMC) && originalMaterials == old(originalMaterials)
      ensures isInit == old(isInit) && isLoaded == old(isLoaded) && maskMaterialOn == old(maskMaterialOn)
      ensures baseIsInit == old(baseIsInit) && baseIsLoaded == old(baseIsLoaded)
      ensures visualMask == old(visualMask) && calibratedVisualMask == old(calibratedVisualMask) && tag == old(tag)
    {
      if !hasMaskAsset {
        return false;
      }
      dynamicMaterial := Some(DynamicMaterial(None));
      if ownerMesh != null {
        visualSMC := ownerMesh;
        originalMaterials := ownerMesh[..];
        return true;
      } else {
        return false;
      }
    }

    /**
     * With reset the local flag is cleared first; an individual initialised
     * here and in the base stays as it is; otherwise the base is initialised
     * and, when that succeeds, InitImpl decides. The result is IsInit()
     * afterwards.
     */
    method Init(reset: bool := false) returns (ok: bool)
      requires Valid()
      modifies this
      ensures Valid()
      ensures ok == IsInit()
      ensures ok <==> (old(IsInit()) && !reset) || (baseInitResult && hasMaskAsset && ownerMesh != null)
      ensures old(IsInit()) && !reset ==> unchanged(this)
      ensures !(old(IsInit()) && !reset) ==> baseIsInit == baseInitResult
      ensures !ok ==> visualSMC == old(visualSMC) && originalMaterials == old(originalMaterials)
      ensures !(old(IsInit()) && !reset) && !baseInitResult ==>
        isInit == (old(isInit) && !reset) && visualSMC == old(visualSMC) && originalMaterials == old(originalMaterials)
      ensures !(old(IsInit()) && !reset) && baseInitResult ==>
        isInit == (hasMaskAsset && ownerMesh != null) && (isInit ==> originalMaterials == ownerMesh[..])
      ensures !(old(IsInit()) && !reset) && baseInitResult && hasMaskAsset ==> dynamicMaterial == Some(DynamicMaterial(None))
      ensures !(!(old(IsInit()) && !reset) && baseInitResult && hasMaskAsset) ==> dynamicMaterial == old(dynamicMaterial)
      ensures baseIsLoaded == old(baseIsLoaded) && isLoaded == old(isLoaded)
      ensures maskMaterialOn == old(maskMaterialOn) && tag == old(tag)
      ensures visualMask == old(visualMask) && calibratedVisualMask == old(calibratedVisualMask)
    {
      if reset {
        isInit := false;
      }
      if IsInit() {
        return true;
      }
      baseIsInit := baseInitResult;
      if !baseIsInit {
        return false;
      }
      isInit := InitImpl();
      return isInit;
    }

    /**
     * Without a visual mask, imports one from the tag but fails anyway;
     * otherwise sets the dynamic material's colour and succeeds.
     */
    method LoadImpl() returns (ok: bool)
      requires Valid() && dynamicMaterial.Some?
      modifies this, visualSMC
      ensures Valid()
      ensures ok <==> old(visualMask) != ""
      ensures visualSMC == old(visualSMC)
      ensures ok ==> dynamicMaterial == Some(DynamicMaterial(Some(visualMask))) && (visualSMC != null ==> visualSMC[..] == old(visualSMC[..]))
      ensures ok ==> visualMask == old(visualMask) && calibratedVisualMask == old(calibratedVisualMask)
      ensures !ok ==> visualMask == TagValue(tag, VisualMaskKey)
      ensures !ok ==> calibratedVisualMask == if visualMask != "" then "" else old(calibratedVisualMask)
      ensures !ok ==> dynamicMaterial == if visualMask != "" then Some(DynamicMaterial(Some(visualMask))) else old(dynamicMaterial)
      ensures !ok && old(maskMaterialOn) && isLoaded ==> visualSMC[..] == MaskSlots(visualSMC.Length)
      ensures !(!ok && old(maskMaterialOn) && isLoaded) ==> visualSMC != null ==> visualSMC[..] == old(visualSMC[..])
      ensures maskMaterialOn == old(maskMaterialOn) && originalMaterials == old(originalMaterials)
      ensures isInit == old(isInit) && isLoaded == old(isLoaded) && tag == old(tag)
      ensures baseIsInit == old(baseIsInit) && baseIsLoaded == old(baseIsLoaded)
    {
      if !HasVisualMask() {
        var imported := ImportVisualMaskFromTag(false);
        return false;
      }
      dynamicMaterial := Some(DynamicMaterial(Some(visualMask)));
      return true;
    }

    /**
     * With reset the local flag is cleared first; an individual loaded here
     * and in the base stays as it is; one not initialised fails; otherwise the
     * base is loaded and, when that fails, the individual is initialised again
     * (with the same reset); then LoadImpl decides. A success after a failed
     * base load leaves IsLoaded() false.
     */
    method Load(reset: bool := false) returns (ok: bool)
      requires Valid()
      modifies this, visualSMC
      ensures Valid()
      ensures ok ==> isLoaded
      ensures tag == old(tag) && maskMaterialOn == old(maskMaterialOn) && visualSMC == old(visualSMC)
      ensures old(IsLoaded()) && !reset ==> ok && unchanged(this) && (visualSMC != null ==> visualSMC[..] == old(visualSMC[..]))
      // not initialised: only the reset of the local flag
      ensures !(old(IsLoaded()) && !reset) && !old(IsInit()) ==>
        !ok && isLoaded == (old(isLoaded) && !reset) && isInit == old(isInit)
        && baseIsInit == old(baseIsInit) && baseIsLoaded == old(baseIsLoaded)
        && visualMask == old(visualMask) && calibratedVisualMask == old(calibratedVisualMask)
        && dynamicMaterial == old(dynamicMaterial) && originalMaterials == old(originalMaterials)
        && (visualSMC != null ==> visualSMC[..] == old(visualSMC[..]))
      // initialised: the base is loaded, a failed base load re-initialises with reset, then LoadImpl
      ensures !(old(IsLoaded()) && !reset) && old(IsInit()) ==>
        var reinit := !baseLoadResult && reset;
        var initOk := !reinit || (baseInitResult && hasMaskAsset && ownerMesh != null);
        var initMaterial := if reinit && baseInitResult && hasMaskAsset then Some(DynamicMaterial(None)) else old(dynamicMaterial);
        && baseIsLoaded == baseLoadResult
        && baseIsInit == (if reinit then baseInitResult else old(baseIsInit))
        && isInit == initOk
        && (ok <==> old(visualMask) != "" && initOk)
        && (IsLoaded() <==> ok && baseLoadResult)
        && (reinit && initOk ==> originalMaterials == old(ownerMesh[..]))
        && (!(reinit && initOk) ==> originalMaterials == old(originalMaterials))
        && (ok ==> dynamicMaterial == Some(DynamicMaterial(Some(visualMask))) && visualMask == old(visualMask)
                   && calibratedVisualMask == old(calibratedVisualMask))
        && (initOk && old(visualMask) == "" ==> visualMask == TagValue(tag, VisualMaskKey))
        && (initOk && old(visualMask) == "" ==>
              calibratedVisualMask == (if visualMask != "" then "" else old(calibratedVisualMask))
              && dynamicMaterial == (if visualMask != "" then Some(DynamicMaterial(Some(visualMask))) else initMaterial))
        && (!initOk ==> visualMask == old(visualMask) && calibratedVisualMask == old(calibratedVisualMask)
                        && dynamicMaterial == initMaterial)
        && (initOk && old(visualMask) == "" && old(maskMaterialOn) && old(isLoaded) && !reset ==>
              visualSMC[..] == MaskSlots(visualSMC.Length))
        && (!(initOk && old(visualMask) == "" && old(maskMaterialOn) && old(isLoaded) && !reset) ==>
              visualSMC[..] == old(visualSMC[..]))
    {
      if reset {
        isLoaded := false;
      }
      if IsLoaded() {
        return true;
      }
      if !IsInit() {
        return false;
      }
      baseIsLoaded := baseLoadResult;
      if !baseIsLoaded {
        var initOk := Init(reset);
        if !initOk {
          return false;
        }
      }
      isLoaded := LoadImpl();
      return isLoaded;
    }

    /**
     * Fails unless loaded (the local flag only). When the mask is off or a
     * reload is asked, every slot gets the mask material and the mask is on.
     */
    method ApplyVisualMaskMaterials(reload: bool := false) returns (ok: bool)
      requires Valid()
      modifies this, visualSMC
      ensures Valid()
      ensures isInit == old(isInit) && isLoaded == old(isLoaded) && visualSMC == old(visualSMC)
      ensures baseIsInit == old(baseIsInit) && baseIsLoaded == old(baseIsLoaded)
      ensures ok <==> old(isLoaded) && (!old(maskMaterialOn) || reload)
      ensures ok ==> maskMaterialOn && visualSMC[..] == MaskSlots(visualSMC.Length)
      ensures !ok ==> maskMaterialOn == old(maskMaterialOn) && (visualSMC != null ==> visualSMC[..] == old(visualSMC[..]))
      ensures visualMask == old(visualMask) && calibratedVisualMask == old(calibratedVisualMask)
      ensures dynamicMaterial == old(dynamicMaterial) && originalMaterials == old(originalMaterials) && tag == old(tag)
    {
      if !isLoaded {
        return false;
      }
      if !maskMaterialOn || reload {
        var slots := visualSMC;
        var i := 0;
        while i < slots.Length
          invariant 0 <= i <= slots.Length
          invariant forall j :: 0 <= j < i ==> slots[j] == MaskMaterial
          modifies slots
        {
          slots[i] := MaskMaterial;
          i := i + 1;
        }
        maskMaterialOn := true;
        return true;
      }
      return false;
    }

    /**
     * Fails unless loaded and the mask is on; otherwise slot i gets the i-th
     * original material, for every captured material, and the mask is off.
     */
    method ApplyOriginalMaterials() returns (ok: bool)
      requires Valid()
      modifies this, visualSMC
      ensures Valid()
      ensures isInit == old(isInit) && isLoaded == old(isLoaded) && visualSMC == old(visualSMC)
      ensures baseIsInit == old(baseIsInit) && baseIsLoaded == old(baseIsLoaded)
      ensures ok <==> old(isLoaded) && old(maskMaterialOn)
      ensures ok ==> !maskMaterialOn && visualSMC[..] == originalMaterials
      ensures !ok ==> maskMaterialOn == old(maskMaterialOn) && (visualSMC != null ==> visualSMC[..] == old(visualSMC[..]))
      ensures visualMask == old(visualMask) && calibratedVisualMask == old(calibratedVisualMask)
      ensures dynamicMaterial == old(dynamicMaterial) && originalMaterials == old(originalMaterials) && tag == old(tag)
    {
      if !isLoaded {
        return false;
      }
      if maskMaterialOn {
        var slots := visualSMC;
        var i := 0;
        while i < |originalMaterials|
          invariant 0 <= i <= |originalMaterials| == slots.Length
          invariant slots[..i] == originalMaterials[..i]
          modifies slots
        {
          slots[i] := originalMaterials[i];
          i := i + 1;
        }
        maskMaterialOn := false;
        return true;
      }
      return false;
    }

    /** Switches to the originals when the mask is on, to the mask (without reload) otherwise. */
    method ToggleMaterials() returns (ok: bool)
      requires Valid()
      modifies this, visualSMC
      ensures Valid()
      ensures isInit == old(isInit) && isLoaded == old(isLoaded) && visualSMC == old(visualSMC)
      ensures baseIsInit == old(baseIsInit) && baseIsLoaded == old(baseIsLoaded)
      ensures ok <==> old(isLoaded)
      ensures ok ==> maskMaterialOn == !old(maskMaterialOn)
      ensures ok && old(maskMaterialOn) ==> visualSMC[..] == originalMaterials
      ensures ok && !old(maskMaterialOn) ==> visualSMC[..] == MaskSlots(visualSMC.Length)
      ensures !ok ==> maskMaterialOn == old(maskMaterialOn) && (visualSMC != null ==> visualSMC[..] == old(visualSMC[..]))
      ensures visualMask == old(visualMask) && calibratedVisualMask == old(calibratedVisualMask)
      ensures dynamicMaterial == old(dynamicMaterial) && originalMaterials == old(originalMaterials) && tag == old(tag)
    {
      if maskMaterialOn {
        ok := ApplyOriginalMaterials();
      } else {
        ok := ApplyVisualMaskMaterials();
      }
    }

    /** Sets the dynamic material's colour to the mask, when both exist. */
    method ApplyVisualMaskColorToDynamicMaterial() returns (ok: bool)
      modifies this`dynamicMaterial
      ensures ok <==> old(dynamicMaterial).Some? && visualMask != ""
      ensures ok ==> dynamicMaterial == Some(DynamicMaterial(Some(visualMask)))
      ensures !ok ==> dynamicMaterial == old(dynamicMaterial)
    {
      if dynamicMaterial.Some? && HasVisualMask() {
        dynamicMaterial := Some(DynamicMaterial(Some(visualMask)));
        return true;
      }
      return false;
    }

    /**
     * Stores the new mask; a changed mask clears the calibrated value when
     * asked; the dynamic material takes the colour; with reload, a mask that
     * is on is applied again.
     */
    method SetVisualMask(input: string, reload: bool := true, clearCalibrated: bool := true)
      requires Valid()
      modifies this, visualSMC
      ensures Valid()
      ensures GetVisualMask() == input && (HasVisualMask() <==> input != "")
      ensures calibratedVisualMask == if old(visualMask) != input && clearCalibrated then "" else old(calibratedVisualMask)
      ensures dynamicMaterial == if old(dynamicMaterial).Some? && input != "" then Some(DynamicMaterial(Some(input))) else old(dynamicMaterial)
      ensures isInit == old(isInit) && isLoaded == old(isLoaded) && visualSMC == old(visualSMC)
      ensures baseIsInit == old(baseIsInit) && baseIsLoaded == old(baseIsLoaded)
      ensures old(maskMaterialOn) && reload && isLoaded ==> maskMaterialOn && visualSMC[..] == MaskSlots(visualSMC.Length)
      ensures !(old(maskMaterialOn) && reload && isLoaded) ==>
        maskMaterialOn == old(maskMaterialOn) && (visualSMC != null ==> visualSMC[..] == old(visualSMC[..]))
      ensures originalMaterials == old(originalMaterials) && tag == old(tag)
    {
      if visualMask != input && clearCalibrated {
        calibratedVisualMask := "";
      }
      visualMask := input;
      var colored := ApplyVisualMaskColorToDynamicMaterial();
      if maskMaterialOn && reload {
        var applied := ApplyVisualMaskMaterials(true);
      }
    }

    method SetCalibratedVisualMask(input: string)
      modifies this`calibratedVisualMask
      ensures GetCalibratedVisualMask() == input && (HasCalibratedVisualMask() <==> input != "")
    {
      calibratedVisualMask := input;
    }

    /** Imports the visual mask from the tag; see ImportedValue for the result. */
    method ImportVisualMaskFromTag(overwrite: bool := false) returns (newValue: bool)
      requires Valid()
      modifies this, visualSMC
      ensures Valid()
      ensures (visualMask, newValue) == ImportedValue(old(visualMask), TagValue(tag, VisualMaskKey), overwrite)
      ensures !(old(visualMask) == "" || overwrite) ==> unchanged(this) && (visualSMC != null ==> unchanged(visualSMC))
      ensures calibratedVisualMask == if old(visualMask) != visualMask then "" else old(calibratedVisualMask)
      ensures isInit == old(isInit) && isLoaded == old(isLoaded) && tag == old(tag) && visualSMC == old(visualSMC)
      ensures baseIsInit == old(baseIsInit) && baseIsLoaded == old(baseIsLoaded)
      ensures originalMaterials == old(originalMaterials) && maskMaterialOn == old(maskMaterialOn)
      ensures var value := TagValue(tag, VisualMaskKey);
        dynamicMaterial == if (old(visualMask) == "" || overwrite) && old(dynamicMaterial).Some? && value != ""
          then Some(DynamicMaterial(Some(value))) else old(dynamicMaterial)
      ensures (old(visualMask) == "" || overwrite) && old(maskMaterialOn) && isLoaded ==>
        visualSMC[..] == MaskSlots(visualSMC.Length)
      ensures !((old(visualMask) == "" || overwrite) && old(maskMaterialOn) && isLoaded) ==>
        visualSMC != null ==> visualSMC[..] == old(visualSMC[..])
    {
      newValue := false;
      if visualMask == "" || overwrite {
        var previous := visualMask;
        SetVisualMask(TagValue(tag, VisualMaskKey));
        newValue := visualMask == previous;
      }
    }

    /** Imports the calibrated visual mask from the tag; see ImportedValue for the result. */
    method ImportCalibratedVisualMaskFromTag(overwrite: bool := false) returns (newValue: bool)
      modifies this`calibratedVisualMask
      ensures (calibratedVisualMask, newValue) ==
        ImportedValue(old(calibratedVisualMask), TagValue(tag, CalibratedVisualMaskKey), overwrite)
    {
      newValue := false;
      if calibratedVisualMask == "" || overwrite {
        var previous := calibratedVisualMask;
        SetCalibratedVisualMask(TagValue(tag, CalibratedVisualMaskKey));
        newValue := calibratedVisualMask == previous;
      }
    }

    /**
     * The base class's import (its result is given), then the visual mask,
     * then the calibrated mask; true when any of the three reported true.
     */
    method ImportFromTag(baseImported: bool, overwrite: bool := false) returns (newValue: bool)
      requires Valid()
      modifies this, visualSMC
      ensures Valid()
      ensures tag == old(tag)
      ensures var mask := ImportedValue(old(visualMask), TagValue(tag, VisualMaskKey), overwrite);
        var calibratedBefore := if mask.0 != old(visualMask) then "" else old(calibratedVisualMask);
        var calibrated := ImportedValue(calibratedBefore, TagValue(tag, CalibratedVisualMaskKey), overwrite);
        && visualMask == mask.0
        && calibratedVisualMask == calibrated.0
        && newValue == (baseImported || mask.1 || calibrated.1)
      ensures isInit == old(isInit) && isLoaded == old(isLoaded)
      ensures baseIsInit == old(baseIsInit) && baseIsLoaded == old(baseIsLoaded)
      ensures visualSMC == old(visualSMC) && originalMaterials == old(originalMaterials) && maskMaterialOn == old(maskMaterialOn)
      ensures var value := TagValue(tag, VisualMaskKey);
        dynamicMaterial == if (old(visualMask) == "" || overwrite) && old(dynamicMaterial).Some? && value != ""
          then Some(DynamicMaterial(Some(value))) else old(dynamicMaterial)
      ensures (old(visualMask) == "" || overwrite) && old(maskMaterialOn) && isLoaded ==>
        visualSMC[..] == MaskSlots(visualSMC.Length)
      ensures !((old(visualMask) == "" || overwrite) && old(maskMaterialOn) && isLoaded) ==>
        visualSMC != null ==> visualSMC[..] == old(visualSMC[..])
    {
      newValue := false;
      newValue := baseImported || newValue;
      var maskNew := ImportVisualMaskFromTag(overwrite);
      newValue := maskNew || newValue;
      var calibratedNew := ImportCalibratedVisualMaskFromTag(overwrite);
      newValue := calibratedNew || newValue;
    }

    /** Writes the non-empty mask fields into the tag; see ExportedTag. */
    method ExportToTag(baseExported: bool, overwrite: bool := false) returns (dirty: bool)
      modifies this`tag
      ensures (tag, dirty) == ExportedTag(old(tag), visualMask, calibratedVisualMask, overwrite, baseExported)
    {
      dirty := false;
      dirty := baseExported || dirty;
      if visualMask != "" {
        var written := AddKVPair(tag, VisualMaskKey, visualMask, overwrite);
        tag := written.0;
        dirty := written.1 || dirty;
      }
      if calibratedVisualMask != "" {
        var written := AddKVPair(tag, CalibratedVisualMaskKey, calibratedVisualMask, overwrite);
        tag := written.0;
        dirty := written.1 || dirty;
      }
    }
  }
}
