/**
 * The non-graphical logic of the static EditorUtils helpers: the
 * PPtr<$T> type-name extractor, type lookup by simple name, hide flags,
 * the field selection of DrawAllFields, the state rule of the header
 * foldouts and the one live button of DrawAddRemoveButton.
 */
module EditorUtils {

  import opened Wrappers
  import opened Reflection

  // ---------------------------------------------------------------------
  // GetPropertyType: Regex.Match(type, @"PPtr<\$(.*?)>")
  // ---------------------------------------------------------------------

  const PPtrPrefix: string := "PPtr<$"

  /** The lazy group that starts at k is closed by the '>' at j: nothing before j is a '>' or a newline ('.' does not match "\n"). */
  ghost predicate ClosesAt(t: string, k: nat, j: nat) {
    k <= j < |t| && t[j] == '>' && forall m :: k <= m < j ==> t[m] != '>' && t[m] != '\n'
  }

  /** The pattern matches at position i, and its closing '>' is at j. */
  ghost predicate MatchAt(t: string, i: nat, j: nat) {
    i + |PPtrPrefix| <= |t| && t[i..i + |PPtrPrefix|] == PPtrPrefix && ClosesAt(t, i + |PPtrPrefix|, j)
  }

  /** Where the lazy group starting at k closes, if it does. */
  function CloseFrom(t: string, k: nat): (r: Option<nat>)
    decreases |t| - k
    ensures r.Some? ==> ClosesAt(t, k, r.value)
    ensures r.None? ==> forall j :: !ClosesAt(t, k, j)
  {
    if k >= |t| then None
    else if t[k] == '>' then Some(k)
    else if t[k] == '\n' then None
    else
      var r := CloseFrom(t, k + 1);
      assert forall j :: ClosesAt(t, k, j) ==> ClosesAt(t, k + 1, j);
      r
  }

  /** The leftmost match at or after position i, as the regex engine finds it. */
  function FirstMatch(t: string, i: nat): (r: Option<(nat, nat)>)
    decreases |t| - i
    ensures r.Some? ==> i <= r.value.0 && MatchAt(t, r.value.0, r.value.1)
    ensures r.Some? ==> forall i', j :: i <= i' < r.value.0 ==> !MatchAt(t, i', j)
    ensures r.None? ==> forall i', j :: i <= i' ==> !MatchAt(t, i', j)
  {
    if i + |PPtrPrefix| > |t| then None
    else if t[i..i + |PPtrPrefix|] == PPtrPrefix && CloseFrom(t, i + |PPtrPrefix|).Some? then
      Some((i, CloseFrom(t, i + |PPtrPrefix|).value))
    else FirstMatch(t, i + 1)
  }

  /**
   * GetPropertyType on property.type: the text captured between the
   * leftmost "PPtr<$" and the next '>' when the pattern matches, and the
   * type string unchanged when it does not.
   */
  function GetPropertyType(propertyType: string): (r: string)
    ensures (forall i: nat, j: nat :: !MatchAt(propertyType, i, j)) ==> r == propertyType
    ensures forall i: nat, j: nat ::
      MatchAt(propertyType, i, j) && (forall i': nat, j': nat :: i' < i ==> !MatchAt(propertyType, i', j')) ==>
        r == propertyType[i + |PPtrPrefix|..j]
  {
    match FirstMatch(propertyType, 0)
    case None => propertyType
    case Some((i, j)) => propertyType[i + |PPtrPrefix|..j]
  }

  lemma PropertyTypeOfObjectReference()
    ensures GetPropertyType("PPtr<$Texture2D>") == "Texture2D"
  {
    var t := "PPtr<$Texture2D>";
    assert t[..|PPtrPrefix|] == PPtrPrefix;
    assert forall m :: 6 <= m < 15 ==> t[m] != '>' && t[m] != '\n';
    assert MatchAt(t, 0, 15);
    assert t[6..15] == "Texture2D";
  }

  // ---------------------------------------------------------------------
  // GetTypesByName / GetTypeByName
  // ---------------------------------------------------------------------

  /** The types of all assemblies, assembly by assembly, in the order SelectMany(a => a.GetTypes()) yields them. */
  function Flatten(assemblies: seq<Assembly>): seq<TypeDesc> {
    if assemblies == [] then []
    else Flatten(assemblies[..|assemblies| - 1]) + assemblies[|assemblies| - 1]
  }

  /** Flatten holds exactly the types of the given assemblies. */
  lemma {:induction false} FlattenMembers(assemblies: seq<Assembly>)
    ensures forall t :: t in Flatten(assemblies) <==> exists a :: a in assemblies && t in a
  {
    if assemblies != [] {
      var init := assemblies[..|assemblies| - 1];
      FlattenMembers(init);
      assert forall a :: a in assemblies <==> a in init || a == assemblies[|assemblies| - 1];
    }
  }

  /** The order-preserving filter of the types whose simple Name is className. */
  function Named(types: seq<TypeDesc>, className: string): seq<TypeDesc> {
    if types == [] then []
    else
      var last := types[|types| - 1];
      Named(types[..|types| - 1], className) + (if last.name == className then [last] else [])
  }

  /** The filter keeps exactly the types named className, and never grows its input. */
  lemma {:induction false} NamedMembers(types: seq<TypeDesc>, className: string)
    ensures forall t :: t in Named(types, className) <==> t in types && t.name == className
    ensures |Named(types, className)| <= |types|
  {
    if types != [] {
      var init := types[..|types| - 1];
      NamedMembers(init, className);
      assert forall t :: t in types <==> t in init || t == types[|types| - 1];
    }
  }

  /** Filtering by name distributes over concatenation, so the assembly-by-assembly search equals the search over all types. */
  lemma {:induction false} NamedAppend(a: seq<TypeDesc>, b: seq<TypeDesc>, className: string)
    ensures Named(a + b, className) == Named(a, className) + Named(b, className)
  {
    if b == [] {
      assert a + b == a;
    } else {
      var b' := b[..|b| - 1];
      assert (a + b)[..|a + b| - 1] == a + b';
      NamedAppend(a, b', className);
    }
  }

  /** GetTypesByName: every type of every assembly whose Name equals className, in assembly-then-type order, and nothing else. */
  method GetTypesByName(assemblies: seq<Assembly>, className: string) returns (types: seq<TypeDesc>)
    ensures types == Named(Flatten(assemblies), className)
  {
    types := [];
    var a := 0;
    while a < |assemblies|
      invariant 0 <= a <= |assemblies|
      invariant types == Named(Flatten(assemblies[..a]), className)
    {
      var assemblyTypes := assemblies[a];
      ghost var before := types;
      var j := 0;
      assert assemblyTypes[..0] == [];
      while j < |assemblyTypes|
        invariant 0 <= j <= |assemblyTypes|
        invariant types == before + Named(assemblyTypes[..j], className)
      {
        assert assemblyTypes[..j + 1][..j] == assemblyTypes[..j];
        if assemblyTypes[j].name == className {
          types := types + [assemblyTypes[j]];
        }
        j := j + 1;
      }
      assert assemblyTypes[..j] == assemblyTypes;
      assert assemblies[..a + 1][..a] == assemblies[..a];
      NamedAppend(Flatten(assemblies[..a]), assemblyTypes, className);
      a := a + 1;
    }
    assert assemblies[..a] == assemblies;
  }

  /** FirstOrDefault(t => t.Name == className) over a sequence of types. */
  function FirstNamed(types: seq<TypeDesc>, className: string): (r: Option<TypeDesc>)
    ensures r.None? <==> forall t :: t in types ==> t.name != className
    ensures r.Some? ==> r.value.name == className && r.value in types
  {
    if types == [] then None
    else if types[0].name == className then Some(types[0])
    else FirstNamed(types[1..], className)
  }

  /** GetTypeByName: the first type of all assemblies whose Name is className, or null (None). */
  function GetTypeByName(assemblies: seq<Assembly>, className: string): (r: Option<TypeDesc>)
    ensures r.Some? ==> r.value.name == className && exists a :: a in assemblies && r.value in a
    ensures r.None? <==> forall a, t :: a in assemblies && t in a ==> t.name != className
  {
    FlattenMembers(assemblies);
    FirstNamed(Flatten(assemblies), className)
  }

  lemma {:induction false} FirstNamedIsHeadOfNamed(types: seq<TypeDesc>, className: string)
    ensures FirstNamed(types, className) ==
      if Named(types, className) == [] then None else Some(Named(types, className)[0])
  {
    if types != [] {
      assert types == [types[0]] + types[1..];
      NamedAppend([types[0]], types[1..], className);
      assert Named([types[0]], className) == (if types[0].name == className then [types[0]] else []);
      FirstNamedIsHeadOfNamed(types[1..], className);
    }
  }

  /** GetTypeByName returns the first element of the sequence GetTypesByName returns, or null when that is empty. */
  lemma GetTypeByNameIsFirstOfGetTypesByName(assemblies: seq<Assembly>, className: string)
    ensures GetTypeByName(assemblies, className) ==
      if Named(Flatten(assemblies), className) == [] then None
      else Some(Named(Flatten(assemblies), className)[0])
  {
    FirstNamedIsHeadOfNamed(Flatten(assemblies), className);
  }

  // ---------------------------------------------------------------------
  // HidFlags
  // ---------------------------------------------------------------------

  /** The members of UnityEngine.HideFlags; a flags value is a set of them, HideFlags.None being the empty set. */
  datatype HideFlag = HideInHierarchy | HideInInspector | DontSaveInEditor | NotEditable | DontSaveInBuild | DontUnloadUnusedAsset

  /** A UnityEngine.Object, as far as its hideFlags go. */
  class EngineObject {
    var hideFlags: set<HideFlag>
  }

  /** The flags HidFlags assigns: hidden from inspector and hierarchy exactly when asked to hide, and nothing else. */
  function HideFlagsFor(shouldHide: bool): (r: set<HideFlag>)
    ensures HideInInspector in r <==> shouldHide
    ensures HideInHierarchy in r <==> shouldHide
    ensures r <= {HideInInspector, HideInHierarchy}
  {
    if shouldHide then {HideInInspector, HideInHierarchy} else {}
  }

  method HidFlags(instance: EngineObject, shouldHide: bool)
    modifies instance
    ensures instance.hideFlags == HideFlagsFor(shouldHide)
  {
    if shouldHide {
      instance.hideFlags := {HideInInspector, HideInHierarchy};
    } else {
      instance.hideFlags := {};
    }
  }

  // ---------------------------------------------------------------------
  // DrawAllFields
  // ---------------------------------------------------------------------

  /** The Where filter: public and neither [NonSerialized] nor [HideInInspector], or marked [SerializeField]. */
  predicate IsSerializable(f: FieldDesc) {
    (f.isPublic && !f.nonSerialized && !f.hideInInspector) || f.serializeField
  }

  /** The names the base-type pass draws: each serialisable field whose property FindProperty finds, in declaration order. */
  function BasePass(fields: seq<FieldDesc>, properties: set<string>): seq<string> {
    if fields == [] then []
    else
      var f := fields[|fields| - 1];
      BasePass(fields[..|fields| - 1], properties) +
        (if IsSerializable(f) && f.name in properties then [f.name] else [])
  }

  /** The base pass draws exactly the serialisable fields' names that the object serializes. */
  lemma {:induction false} BasePassMembers(fields: seq<FieldDesc>, properties: set<string>)
    ensures forall x :: x in BasePass(fields, properties) <==>
      exists f :: f in fields && IsSerializable(f) && f.name == x && x in properties
  {
    if fields != [] {
      var init := fields[..|fields| - 1];
      BasePassMembers(init, properties);
      assert forall f :: f in fields <==> f in init || f == fields[|fields| - 1];
    }
  }

  /** The names the own-type pass draws: as the base pass, skipping names already shown. */
  function OwnPass(fields: seq<FieldDesc>, properties: set<string>, shown: set<string>): seq<string> {
    if fields == [] then []
    else
      var f := fields[|fields| - 1];
      OwnPass(fields[..|fields| - 1], properties, shown) +
        (if IsSerializable(f) && f.name !in shown && f.name in properties then [f.name] else [])
  }

  /** The own pass draws exactly the serialisable fields' names that the object serializes and that are not shown yet. */
  lemma {:induction false} OwnPassMembers(fields: seq<FieldDesc>, properties: set<string>, shown: set<string>)
    ensures forall x :: x in OwnPass(fields, properties, shown) <==>
      exists f :: f in fields && IsSerializable(f) && f.name == x && x in properties && x !in shown
  {
    if fields != [] {
      var init := fields[..|fields| - 1];
      OwnPassMembers(init, properties, shown);
      assert forall f :: f in fields <==> f in init || f == fields[|fields| - 1];
    }
  }

  /** The names of a sequence, as the HashSet that records them. */
  function ToSet(s: seq<string>): set<string> {
    set x | x in s
  }

  lemma ToSetAppend(s: seq<string>, x: string)
    ensures ToSet(s + [x]) == ToSet(s) + {x}
  {
  }

  /** The base part of the drawing: empty unless base fields are asked for and a base type exists. */
  function BaseDrawn(baseFields: Option<seq<FieldDesc>>, properties: set<string>, includeBaseTypeFields: bool): seq<string> {
    if includeBaseTypeFields && baseFields.Some? then BasePass(baseFields.value, properties) else []
  }

  /**
   * The property names DrawAllFields passes to PropertyField, in order.
   * serialized is the SerializedObject (None for null), given as the set
   * of names its FindProperty resolves; baseFields is None when the
   * target's type has no BaseType.
   */
  function FieldsToDraw(
    targetFields: seq<FieldDesc>, baseFields: Option<seq<FieldDesc>>,
    serialized: Option<set<string>>, includeBaseTypeFields: bool): (r: seq<string>)
    ensures serialized.None? ==> r == []
    ensures serialized.Some? ==>
      var b := BaseDrawn(baseFields, serialized.value, includeBaseTypeFields);
      |b| <= |r| && r[..|b|] == b && forall k :: |b| <= k < |r| ==> r[k] !in b
    ensures forall x :: x in r ==>
      && serialized.Some? && x in serialized.value
      && exists f :: IsSerializable(f) && f.name == x &&
           (f in targetFields || (includeBaseTypeFields && baseFields.Some? && f in baseFields.value))
    ensures serialized.Some? ==>
      forall f :: f in targetFields && IsSerializable(f) && f.name in serialized.value ==> f.name in r
  {
    match serialized
    case None => []
    case Some(properties) =>
      var b := BaseDrawn(baseFields, properties, includeBaseTypeFields);
      BasePassMembers(if baseFields.Some? then baseFields.value else [], properties);
      OwnPassMembers(targetFields, properties, ToSet(b));
      b + OwnPass(targetFields, properties, ToSet(b))
  }

  /** The base-type pass of DrawAllFields: every serializable base field the object serializes, with the set of names drawn. */
  method DrawBaseFields(fields: seq<FieldDesc>, properties: set<string>)
    returns (drawn: seq<string>, shownFields: set<string>)
    ensures drawn == BasePass(fields, properties)
    ensures shownFields == ToSet(drawn)
  {
    drawn := [];
    shownFields := {};
    var i := 0;
    while i < |fields|
      invariant 0 <= i <= |fields|
      invariant drawn == BasePass(fields[..i], properties)
      invariant shownFields == ToSet(drawn)
    {
      assert fields[..i + 1][..i] == fields[..i];
      var field := fields[i];
      if IsSerializable(field) && field.name in properties {
        ToSetAppend(drawn, field.name);
        drawn := drawn + [field.name];
        shownFields := shownFields + {field.name};
      }
      i := i + 1;
    }
    assert fields[..i] == fields;
  }

  /** The own-type pass of DrawAllFields: appends the serializable fields not drawn already. */
  method DrawOwnFields(drawnBefore: seq<string>, targetFields: seq<FieldDesc>, properties: set<string>, shownFields: set<string>)
    returns (drawn: seq<string>)
    ensures drawn == drawnBefore + OwnPass(targetFields, properties, shownFields)
  {
    drawn := drawnBefore;
    var i := 0;
    while i < |targetFields|
      invariant 0 <= i <= |targetFields|
      invariant drawn == drawnBefore + OwnPass(targetFields[..i], properties, shownFields)
    {
      assert targetFields[..i + 1][..i] == targetFields[..i];
      var field := targetFields[i];
      if IsSerializable(field) && field.name !in shownFields && field.name in properties {
        drawn := drawn + [field.name];
      }
      i := i + 1;
    }
    assert targetFields[..i] == targetFields;
  }

  /** DrawAllFields: the base-type pass (recording drawn names), then the own-type pass that skips recorded names. */
  method DrawAllFields(
    targetFields: seq<FieldDesc>, baseFields: Option<seq<FieldDesc>>,
    serialized: Option<set<string>>, includeBaseTypeFields: bool)
    returns (drawn: seq<string>)
    ensures drawn == FieldsToDraw(targetFields, baseFields, serialized, includeBaseTypeFields)
  {
    drawn := [];
    if serialized.None? {
      return;
    }
    var properties := serialized.value;
    var shownFields: set<string> := {};
    if includeBaseTypeFields && baseFields.Some? {
      drawn, shownFields := DrawBaseFields(baseFields.value, properties);
    }
    assert drawn == BaseDrawn(baseFields, properties, includeBaseTypeFields);
    assert shownFields == ToSet(drawn);
    drawn := DrawOwnFields(drawn, targetFields, properties, shownFields);
  }

  // ---------------------------------------------------------------------
  // DrawHeaderFoldout and its variants: the state rule
  // ---------------------------------------------------------------------

  /** EventType values the header code distinguishes; Used is what Event.Use() turns an event into. */
  datatype EventType = MouseDown | MouseUp | KeyDown | KeyUp | Used | OtherEvent

  datatype KeyCode = KeyH | OtherKey

  /**
   * Event.current as the header code sees it after GUI.Toggle has run.
   * Whether the mouse lies inside the background rect is float geometry,
   * so the host supplies it.
   */
  datatype GuiEvent = GuiEvent(kind: EventType, overBackground: bool, mouseButton: int, keyCode: KeyCode)

  predicate IsLeftClickOnHeader(e: GuiEvent) {
    e.kind == MouseDown && e.overBackground && e.mouseButton == 0
  }

  predicate IsHideKeyOnHeader(e: GuiEvent) {
    e.kind == KeyDown && e.overBackground && e.keyCode == KeyH
  }

  /** The state a header foldout returns: the toggle's value, negated exactly when a left click lands on the header. */
  function HeaderState(toggled: bool, e: GuiEvent): (r: bool)
    ensures r != toggled <==> IsLeftClickOnHeader(e)
  {
    if IsLeftClickOnHeader(e) then !toggled else toggled
  }

  /** A second identical click undoes the first: the rule is its own inverse. */
  lemma HeaderStateInvolution(toggled: bool, e: GuiEvent)
    ensures HeaderState(HeaderState(toggled, e), e) == toggled
  {
  }

  /** toggle is GUI.Toggle on the foldout rect, as a function of the value it is given. */
  method DrawHeaderFoldout(state: bool, toggle: bool -> bool, e: GuiEvent) returns (result: bool, used: bool)
    ensures result == HeaderState(toggle(state), e)
    ensures used <==> IsLeftClickOnHeader(e)
  {
    result := toggle(state);
    used := false;
    if e.kind == MouseDown && e.overBackground && e.mouseButton == 0 {
      result := !result;
      used := true;
    }
  }

  method DrawHeaderFoldoutLessWidth(state: bool, toggle: bool -> bool, e: GuiEvent) returns (result: bool, used: bool)
    ensures result == HeaderState(toggle(state), e)
    ensures used <==> IsLeftClickOnHeader(e)
  {
    result := toggle(state);
    used := false;
    if e.kind == MouseDown && e.overBackground && e.mouseButton == 0 {
      result := !result;
      used := true;
    }
  }

  /** The mini button is drawn before the toggle; its click invokes onButtonClick when one is given. */
  method DrawHeaderFoldoutLessWithButton(
    state: bool, buttonClicked: bool, hasOnButtonClick: bool, toggle: bool -> bool, e: GuiEvent)
    returns (invokedButton: bool, result: bool, used: bool)
    ensures invokedButton <==> buttonClicked && hasOnButtonClick
    ensures result == HeaderState(toggle(state), e)
    ensures used <==> IsLeftClickOnHeader(e)
  {
    invokedButton := false;
    if buttonClicked && hasOnButtonClick {
      invokedButton := true;
    }
    result := toggle(state);
    used := false;
    if e.kind == MouseDown && e.overBackground && e.mouseButton == 0 {
      result := !result;
      used := true;
    }
  }

  /** After the click rule, an H key press over the header invokes onHide when one is given. */
  method DrawHeaderFoldoutLessWidthHide(state: bool, hasOnHide: bool, toggle: bool -> bool, e: GuiEvent)
    returns (result: bool, invokedHide: bool, used: bool)
    ensures result == HeaderState(toggle(state), e)
    ensures invokedHide <==> IsHideKeyOnHeader(e) && hasOnHide
    ensures used <==> IsLeftClickOnHeader(e) || IsHideKeyOnHeader(e)
  {
    var current := e;
    result := toggle(state);
    used := false;
    invokedHide := false;
    if current.kind == MouseDown && current.overBackground && current.mouseButton == 0 {
      result := !result;
      current := current.(kind := Used);
      used := true;
    }
    if current.kind == KeyDown && current.overBackground && current.keyCode == KeyH {
      if hasOnHide {
        invokedHide := true;
      }
      current := current.(kind := Used);
      used := true;
    }
  }

  // ---------------------------------------------------------------------
  // DrawAddRemoveButton
  // ---------------------------------------------------------------------

  datatype Callback = AddEvent | RemoveEvent

  /**
   * The only live button is the "Toolbar Plus More" one, placed on the
   * remove rect, and it invokes addEvent; the remove button is commented
   * out, so removeEvent is never invoked.
   */
  method DrawAddRemoveButton(plusClicked: bool, hasAddEvent: bool) returns (invoked: seq<Callback>)
    ensures invoked == if plusClicked && hasAddEvent then [AddEvent] else []
    ensures RemoveEvent !in invoked
  {
    invoked := [];
    if plusClicked && hasAddEvent {
      invoked := invoked + [AddEvent];
    }
  }
}
