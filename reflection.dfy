/**
 * What the editor tools read of the host's reflection objects. The host
 * enumerates assemblies, types, fields and methods; the model receives
 * the results of those enumerations as these descriptors.
 */
module Reflection {

  import opened Wrappers

  /** A System.Type: its simple Name, its Namespace (None for the global namespace), IsClass, and IsSubclassOf(ScriptableObject). */
  datatype TypeDesc = TypeDesc(
    name: string,
    namespace: Option<string>,
    isClass: bool,
    isScriptableObjectSubclass: bool)

  /** An assembly, as the ordered array of types its GetTypes() returns. */
  type Assembly = seq<TypeDesc>

  /** A FieldInfo: its Name, IsPublic, and whether [NonSerialized], [HideInInspector] and [SerializeField] are defined on it. */
  datatype FieldDesc = FieldDesc(
    name: string,
    isPublic: bool,
    nonSerialized: bool,
    hideInInspector: bool,
    serializeField: bool)

  /** A MethodInfo: its Name, IsStatic, whether [Button] is declared on it directly (not inherited), and its parameter count. */
  datatype MethodDesc = MethodDesc(
    name: string,
    isStatic: bool,
    declaresButton: bool,
    parameterCount: nat)
}
