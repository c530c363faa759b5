/**
 * The script inspector that offers to create an asset of a script's
 * ScriptableObject type, next to the script. The asset database is an
 * object holding the created assets and the selection; making an asset
 * path unique and instantiating the type are the host's, given as inputs.
 */
module ScriptableObjectCreator {

  import opened Wrappers
  import opened Paths
  import opened Reflection

  predicate StartsWith(s: string, prefix: string) {
    |prefix| <= |s| && s[..|prefix|] == prefix
  }

  /** The button test: a class with a namespace, deriving from ScriptableObject, outside the UnityEditor namespaces. */
  predicate OffersCreateButton(scriptType: Option<TypeDesc>) {
    && scriptType.Some?
    && scriptType.value.isClass
    && scriptType.value.namespace.Some?
    && scriptType.value.isScriptableObjectSubclass
    && !StartsWith(scriptType.value.namespace.value, "UnityEditor")
  }

  /** Which types are offered the button, and which never are. */
  lemma OfferedTypes(t: TypeDesc)
    ensures t.namespace.None? ==> !OffersCreateButton(Some(t))
    ensures !t.isClass || !t.isScriptableObjectSubclass ==> !OffersCreateButton(Some(t))
    ensures t.namespace.Some? && StartsWith(t.namespace.value, "UnityEditor") ==> !OffersCreateButton(Some(t))
    ensures t.isClass && t.isScriptableObjectSubclass && t.namespace.Some? && !StartsWith(t.namespace.value, "UnityEditor")
      ==> OffersCreateButton(Some(t))
    ensures !OffersCreateButton(None)
  {
  }

  /** The namespace test is a prefix test: UnityEditorInternal is excluded too, UnityEngine is not. */
  lemma NamespacePrefix()
    ensures StartsWith("UnityEditor.Experimental", "UnityEditor")
    ensures StartsWith("UnityEditorInternal", "UnityEditor")
    ensures !StartsWith("UnityEngine", "UnityEditor")
    ensures !StartsWith("MyGame.UnityEditor", "UnityEditor")
  {
    assert "UnityEditor.Experimental"[..11] == "UnityEditor";
    assert "UnityEditorInternal"[..11] == "UnityEditor";
    assert "UnityEngine"[7] != "UnityEditor"[7];
    assert "MyGame.UnityEditor"[0] != "UnityEditor"[0];
  }

  /** The asset's file name: the type's Name and the .asset extension. */
  function AssetFileName(scriptType: TypeDesc): (r: string)
    ensures |r| == |scriptType.name| + 6
    ensures r[..|scriptType.name|] == scriptType.name && r[|scriptType.name|..] == ".asset"
  {
    scriptType.name + ".asset"
  }

  /** The path handed to GenerateUniqueAssetPath: the file name in the script's directory. */
  function CandidateAssetPath(scriptPath: string, scriptType: TypeDesc): string {
    Combine(GetDirectoryName(scriptPath), AssetFileName(scriptType))
  }

  /** For a script at dir/file, the candidate asset sits in dir with the type's file name. */
  lemma CandidateBesideScript(dir: string, file: string, scriptType: TypeDesc)
    requires |dir| > 0 && dir[|dir| - 1] != Separator
    requires |file| > 0 && !HasSeparator(file)
    requires !HasSeparator(scriptType.name)
    ensures CandidateAssetPath(Combine(dir, file), scriptType) == Combine(dir, AssetFileName(scriptType))
    ensures GetDirectoryName(CandidateAssetPath(Combine(dir, file), scriptType)) == dir
    ensures GetFileName(CandidateAssetPath(Combine(dir, file), scriptType)) == AssetFileName(scriptType)
  {
    SplitCombined(dir, file);
    var name := AssetFileName(scriptType);
    assert !HasSeparator(name) by {
      forall k | 0 <= k < |name|
        ensures name[k] != Separator
      {
        if k < |scriptType.name| {
          assert name[k] == scriptType.name[k];
        } else {
          assert name[k] == ".asset"[k - |scriptType.name|];
        }
      }
    }
    SplitCombined(dir, name);
  }

  /** The created assets (path to type name) and the editor's selection. */
  class AssetDatabase {
    var assets: map<string, string>
    var activeObject: Option<string>

    constructor (assets: map<string, string>)
      ensures this.assets == assets && activeObject == None
    {
      this.assets := assets;
      activeObject := None;
    }

    method CreateAsset(assetPath: string, typeName: string)
      modifies this`assets
      ensures assets == old(assets)[assetPath := typeName]
    {
      assets := assets[assetPath := typeName];
    }

    method Select(assetPath: string)
      modifies this`activeObject
      ensures activeObject == Some(assetPath)
    {
      activeObject := Some(assetPath);
    }
  }

  datatype CreateAssetOutcome =
    | InstanceFailed(typeName: string)
    | AssetCreated(assetPath: string)

  /**
   * CreateScriptableObjectAsset: makeUnique stands for
   * GenerateUniqueAssetPath and instanceCreated for a non-null
   * CreateInstance result. A null instance creates and selects nothing.
   */
  method CreateScriptableObjectAsset(
    scriptPath: string, scriptType: TypeDesc, makeUnique: string -> string, instanceCreated: bool, db: AssetDatabase)
    returns (outcome: CreateAssetOutcome)
    modifies db
    ensures !instanceCreated ==> outcome == InstanceFailed(scriptType.name)
    ensures !instanceCreated ==> db.assets == old(db.assets) && db.activeObject == old(db.activeObject)
    ensures instanceCreated ==> outcome == AssetCreated(makeUnique(CandidateAssetPath(scriptPath, scriptType)))
    ensures instanceCreated ==> db.assets == old(db.assets)[outcome.assetPath := scriptType.name]
    ensures instanceCreated ==> db.activeObject == Some(outcome.assetPath)
  {
    var directory := GetDirectoryName(scriptPath);
    var fileName := scriptType.name + ".asset";
    var assetPath := makeUnique(Combine(directory, fileName));
    if !instanceCreated {
      return InstanceFailed(scriptType.name);
    }
    db.CreateAsset(assetPath, scriptType.name);
    db.Select(assetPath);
    outcome := AssetCreated(assetPath);
  }

  /**
   * OnInspectorGUI after the default inspector: the button is shown only
   * for an eligible type, and a click on it creates and selects the asset,
   * or reports the failed instance and changes nothing.
   */
  method OnInspectorGUI(
    scriptType: Option<TypeDesc>, buttonClicked: bool,
    scriptPath: string, makeUnique: string -> string, instanceCreated: bool, db: AssetDatabase)
    returns (offered: bool, outcome: Option<CreateAssetOutcome>)
    modifies db
    ensures offered == OffersCreateButton(scriptType)
    ensures outcome.Some? <==> offered && buttonClicked
    ensures outcome.None? ==> db.assets == old(db.assets) && db.activeObject == old(db.activeObject)
    ensures outcome.Some? && instanceCreated ==>
      outcome.value == AssetCreated(makeUnique(CandidateAssetPath(scriptPath, scriptType.value)))
    ensures outcome.Some? && instanceCreated ==>
      db.assets == old(db.assets)[outcome.value.assetPath := scriptType.value.name]
      && db.activeObject == Some(outcome.value.assetPath)
    ensures outcome.Some? && !instanceCreated ==>
      outcome.value == InstanceFailed(scriptType.value.name)
      && db.assets == old(db.assets) && db.activeObject == old(db.activeObject)
  {
    offered := OffersCreateButton(scriptType);
    outcome := None;
    if offered && buttonClicked {
      var created := CreateScriptableObjectAsset(scriptPath, scriptType.value, makeUnique, instanceCreated, db);
      outcome := Some(created);
    }
  }
}
