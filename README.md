# Unity editor tools, modelled in Dafny

This project models the non-graphical logic of a set of Unity editor tools:

- the static `EditorUtils` helpers:
  - the `PPtr<$T>` type-name extractor;
  - type lookup by simple name;
  - hide flags;
  - the field selection of `DrawAllFields`;
  - the state rule of the header foldouts.
- the scrum report window: its report text and its Slack sender;
- the package creator window:
  - the `package.json` template;
  - the folder preview;
  - scaffolding a package folder on a file system;
  - the git commands it runs.
- the documentation generator window, a small state machine over a list of script paths and a markdown buffer that only grows;
- the script inspector that offers to create a ScriptableObject asset;
- the inspector that turns `[Button]` methods into buttons;
- the foldout header attribute and its property drawer.

Whatever the editor supplies becomes an input of the model. That covers:

- GUI control results, clicked buttons and the current event;
- directory listings and the assemblies and their types;
- field and method descriptors;
- the editor's line metrics.

An object whose fields the source updates in place is a Dafny `class` with `modifies` clauses. These are the object whose hide flags are set (`EngineObject`), the Slack sender, the scrum window, the documentation window, the foldout attribute, the editor GUI state, the file system, the asset database and the process runner. Pure code is functions and lemmas. Loops in the source are `while` loops with invariants, proved against a specification function:

- `GetTypesByName`;
- the two passes of `DrawAllFields`;
- the three task lists of `GenerateReport`;
- the method loop of the button inspector.

Modules, one per source file, plus three shared ones:

- `Wrappers`: `Option`.
- `Paths`: the part of `System.IO.Path` the tools use, with Unix semantics.
- `Reflection`: type, field and method descriptors.
- `EditorUtils`, `ScrumReport`, `PackageCreator`, `GPTDocumentation`, `ScriptableObjectCreator`, `ButtonAttributeEditor`, `FoldoutHeaderDrawer` and `Attributes`.

`Editor/ButtonAttributeEditor.cs` has no `try`/`catch` around `method.Invoke` (lines 36-39). In the model, as in the code, a throwing invocation ends the frame, and no later method gets a button or an invocation.

## Model

| member | source | states |
|---|---|---|
| EditorUtils.CloseFrom | Editor/EditorUtils.cs:87 | the lazy group `(.*?)>` started at k closes at the first '>' with no newline before it, or nowhere |
| EditorUtils.FirstMatch | Editor/EditorUtils.cs:87-88 | the leftmost position where `PPtr<$` is followed by a closing '>', and no match before it; None exactly when there is no match at all |
| EditorUtils.GetPropertyType | Editor/EditorUtils.cs:84-91 | without a match the type string comes back unchanged; with one, the result is the text between the leftmost `PPtr<$` and the next '>' (possibly empty) |
| EditorUtils.PropertyTypeOfObjectReference | Editor/EditorUtils.cs:86-90 | `PPtr<$Texture2D>` yields `Texture2D` |
| EditorUtils.Flatten | Editor/EditorUtils.cs:96-98 | definition of the concatenated type lists; FlattenMembers states what it holds |
| EditorUtils.Named | Editor/EditorUtils.cs:101-104 | definition of the name filter; NamedMembers and NamedAppend state its promise |
| EditorUtils.FlattenMembers | Editor/EditorUtils.cs:96-98 | the concatenated type lists hold exactly the types of the given assemblies |
| EditorUtils.NamedMembers | Editor/EditorUtils.cs:101-104 | the name filter keeps exactly the types whose Name is className, and never grows |
| EditorUtils.NamedAppend | Editor/EditorUtils.cs:96-106 | filtering assembly by assembly equals filtering all types at once |
| EditorUtils.GetTypesByName | Editor/EditorUtils.cs:93-109 | the nested loops return the name-filtered types of all assemblies, in assembly-then-type order |
| EditorUtils.FirstNamed | Editor/EditorUtils.cs:113 | FirstOrDefault: None exactly when no type has the name, otherwise a member of the list with that name |
| EditorUtils.GetTypeByName | Editor/EditorUtils.cs:111-114 | the result, when present, has the name and belongs to some assembly; null exactly when no type of any assembly has the name |
| EditorUtils.FirstNamedIsHeadOfNamed | Editor/EditorUtils.cs:113 | the first match is the head of the filtered list, or None when that list is empty |
| EditorUtils.GetTypeByNameIsFirstOfGetTypesByName | Editor/EditorUtils.cs:93-114 | over the given type lists, GetTypeByName returns the first element of the sequence GetTypesByName returns, or null when that is empty |
| EditorUtils.HideFlagsFor | Editor/EditorUtils.cs:153-159 | HideInInspector and HideInHierarchy are set exactly when hiding, and no other flag is ever set |
| EditorUtils.HidFlags | Editor/EditorUtils.cs:153-159 | the object's flags become HideInInspector and HideInHierarchy when hiding, None otherwise |
| EditorUtils.IsSerializable | Editor/EditorUtils.cs:430-431 | definition of the field filter: public and neither NonSerialized nor HideInInspector, or SerializeField; BasePassMembers and OwnPassMembers use it |
| EditorUtils.BasePass | Editor/EditorUtils.cs:429-444 | definition of the base pass; BasePassMembers states its promise |
| EditorUtils.OwnPass | Editor/EditorUtils.cs:449-465 | definition of the own pass; OwnPassMembers states its promise |
| EditorUtils.BasePassMembers | Editor/EditorUtils.cs:429-444 | the base pass draws exactly the serialisable base fields whose property is found |
| EditorUtils.OwnPassMembers | Editor/EditorUtils.cs:449-465 | the own pass draws exactly the serialisable own fields whose property is found and whose name was not recorded |
| EditorUtils.FieldsToDraw | Editor/EditorUtils.cs:414-465 | nothing for a null serialized object; otherwise the base-pass names come first and no later name repeats one of them, every drawn name is a found serialisable field, and every found serialisable own field is drawn |
| EditorUtils.DrawBaseFields | Editor/EditorUtils.cs:424-446 | the loop draws the base pass and records exactly the drawn names |
| EditorUtils.DrawOwnFields | Editor/EditorUtils.cs:453-465 | the loop appends the own pass that skips recorded names |
| EditorUtils.DrawAllFields | Editor/EditorUtils.cs:414-468 | the names passed to PropertyField are FieldsToDraw of the inputs |
| EditorUtils.HeaderState | Editor/EditorUtils.cs:240-248 | the returned state differs from the toggle's value exactly when a left-button MouseDown lands on the header |
| EditorUtils.HeaderStateInvolution | Editor/EditorUtils.cs:242-246 | applying the click rule twice restores the toggle's value |
| EditorUtils.DrawHeaderFoldout | Editor/EditorUtils.cs:217-249 | returns the click rule applied to the toggle's value; the event is used exactly on a header click |
| EditorUtils.DrawHeaderFoldoutLessWidth | Editor/EditorUtils.cs:251-279 | the same state rule and event use as DrawHeaderFoldout |
| EditorUtils.DrawHeaderFoldoutLessWithButton | Editor/EditorUtils.cs:281-317 | the callback runs exactly when the mini button is clicked and a callback is given; the state rule is unchanged |
| EditorUtils.DrawHeaderFoldoutLessWidthHide | Editor/EditorUtils.cs:343-377 | the state rule, onHide invoked exactly on an H key press over the header when given, and the event used on either |
| EditorUtils.DrawAddRemoveButton | Editor/EditorUtils.cs:470-498 | the one live button invokes addEvent when clicked and given; removeEvent is never invoked |
| ScrumReport.TaskLines | Editor/ScrumReportWindow.cs:134-150 | definition of one task list's rendering; TaskLinesAppend and TaskLinesShape state its promise, and GenerateReport's loops are proved equal to it |
| ScrumReport.TaskLinesAppend | Editor/ScrumReportWindow.cs:134-150 | rendering a concatenation of lists is rendering each list in turn |
| ScrumReport.TaskLinesShape | Editor/ScrumReportWindow.cs:134-150 | an empty list renders as "", one item as `- item\n`, and the text has three characters per item beyond the items |
| ScrumReport.ReportSections | Editor/ScrumReportWindow.cs:152-158 | definition of the report text between the title and the notes; Report states what surrounds it |
| ScrumReport.Report | Editor/ScrumReportWindow.cs:152-159 | the report starts with `Daily Scrum Report\n` and ends with the notes verbatim |
| ScrumReport.SlackMessageSender.constructor | Editor/ScrumReportWindow.cs:171-176 | the sender stores the three arguments |
| ScrumReport.SlackMessageSender.SetWebhookUrl | Editor/ScrumReportWindow.cs:178-181 | replaces the URL and leaves channel and user name unchanged |
| ScrumReport.SlackMessageSender.SetChannel | Editor/ScrumReportWindow.cs:183-186 | replaces the channel and leaves URL and user name unchanged |
| ScrumReport.SlackMessageSender.SetUsername | Editor/ScrumReportWindow.cs:188-191 | replaces the user name and leaves URL and channel unchanged |
| ScrumReport.SlackMessageSender.PostMessage | Editor/ScrumReportWindow.cs:193-206 | stops exactly when the URL is null or empty; otherwise posts to the URL a payload of the message and the current channel and user name |
| ScrumReport.ScrumReportWindow.constructor | Editor/ScrumReportWindow.cs:13-30 | the field initialisers: blank texts, empty lists, the placeholder Slack settings, no sender |
| ScrumReport.ScrumReportWindow.OnEnable | Editor/ScrumReportWindow.cs:39-50 | date and time from the clock, the saved game name when the key exists, and a fresh sender holding the window's Slack fields |
| ScrumReport.ScrumReportWindow.GenerateReport | Editor/ScrumReportWindow.cs:132-162 | the three loops and the concatenation yield Report of the window's fields, and no field changes |
| ScrumReport.ScrumReportWindow.SendReportToSlack | Editor/ScrumReportWindow.cs:123-130 | builds the report and pushes the window's URL, channel and user name into the sender |
| PackageCreator.DefaultWindow | Editor/PackageCreatorWindow.cs:10-22 | the field initialisers: MyPackage, every flag on, 2020.3, empty URLs and revision, Assets |
| PackageCreator.ToLower | Editor/PackageCreatorWindow.cs:130 | lowering keeps the length and maps each character by itself |
| PackageCreator.LowerKeepsQuotes | Editor/PackageCreatorWindow.cs:130 | the lowered name holds a '"' exactly when the name does |
| PackageCreator.ScanFill | Editor/PackageCreatorWindow.cs:129-148 | a template filled with quote-free values reads back to those values |
| PackageCreator.FillStartsWith | Editor/PackageCreatorWindow.cs:129-130 | a filled template starts with its first piece |
| PackageCreator.GeneratePackageJson | Editor/PackageCreatorWindow.cs:127-149 | definition of the manifest text as the template filled with the settings; PackageJsonFields and PackageJsonStartsWithName state its promise |
| PackageCreator.PackageJsonFields | Editor/PackageCreatorWindow.cs:129-147 | for settings without '"', the template's own scanner reads the generated text back with name `com.thebaddest.` plus the lowered name, version 1.0.0, displayName the raw name, unity the Unity version, and the documentation and repository fields as typed |
| PackageCreator.PackageJsonStartsWithName | Editor/PackageCreatorWindow.cs:129-130 | for any settings the text opens with the name field |
| PackageCreator.Selected | Editor/PackageCreatorWindow.cs:54-59 | the selected items are a subsequence of the items, hold each flagged item and nothing unflagged |
| PackageCreator.SelectedExactly | Editor/PackageCreatorWindow.cs:54-59 | over distinct items, an item is listed exactly when its flag is set |
| PackageCreator.PreviewLabelsDistinct | Editor/PackageCreatorWindow.cs:54-59 | the six preview labels differ from each other |
| PackageCreator.FolderPreview | Editor/PackageCreatorWindow.cs:54-59 | exactly the enabled items, in the fixed order Editor, Runtime, Tests, Documentation~, CHANGELOG.md, README.md |
| PackageCreator.IsNullOrWhiteSpace | Editor/PackageCreatorWindow.cs:74 | definition of the blank-name test; CheckPackage states that such a name is refused |
| PackageCreator.CheckPackage | Editor/PackageCreatorWindow.cs:74-85 | an empty or blank name is refused; otherwise an existing package folder is refused; otherwise creation goes ahead at Combine(customPath, packageName) |
| PackageCreator.ReadmeText | Editor/PackageCreatorWindow.cs:115 | the README text begins with `# ` and the package name |
| PackageCreator.ChildDistinct | Editor/PackageCreatorWindow.cs:92-114 | different entry names inside the package folder are different paths, none of them the folder |
| PackageCreator.PlannedDirectories | Editor/PackageCreatorWindow.cs:89-101 | the root always, each of Editor, Runtime, Tests and Documentation~ exactly when enabled, nothing else |
| PackageCreator.PlannedFiles | Editor/PackageCreatorWindow.cs:103-116 | package.json always with the generated text; CHANGELOG.md and README.md exactly when enabled, with their texts; nothing else |
| PackageCreator.CreateFolders | Editor/PackageCreatorWindow.cs:89-101 | the directory steps add exactly the planned directories and write no file |
| PackageCreator.WriteFiles | Editor/PackageCreatorWindow.cs:103-116 | the file steps add exactly the planned files and create no directory |
| PackageCreator.CreatePackageStructure | Editor/PackageCreatorWindow.cs:72-125 | the outcome is the check against the existing folders; on success exactly the planned directories and files are added, otherwise nothing changes |
| PackageCreator.CommandRunner.RunCommand | Editor/PackageCreatorWindow.cs:175-186 | each process start is logged with its program, arguments and working directory, after the earlier ones |
| PackageCreator.GitInitCommands | Editor/PackageCreatorWindow.cs:163-165 | three git commands in the package folder: init, checkout -b main, checkout -b develop |
| PackageCreator.CreateGitRepository | Editor/PackageCreatorWindow.cs:151-173 | no command when the package folder is missing; otherwise the three git commands in order |
| PackageCreator.OnGUIButtons | Editor/PackageCreatorWindow.cs:61-69 | each button's step runs exactly when it is clicked, scaffold first: a create click adds exactly the planned directories and files when CheckPackage allows it and changes nothing otherwise; a git click starts the three git commands exactly when the package folder then exists, and none otherwise; so a fresh scaffold followed by the git button initialises the new folder |
| Paths.Combine | Editor/PackageCreatorWindow.cs:80 | definition of Path.Combine; CombineParts, CombineDistinct and SplitCombined state its promise |
| Paths.CombineParts | Editor/PackageCreatorWindow.cs:80 | Path.Combine ends with its second part and, for a relative second part, starts with the first part and a separator |
| Paths.CombineDistinct | Editor/PackageCreatorWindow.cs:92-101 | one directory combined with two different relative names gives two different paths, both different from the directory |
| Paths.LastSeparator | Editor/GPTDocumentationGenerator.cs:106 | the index of the last separator, or None when there is none |
| Paths.GetFileName | Editor/GPTDocumentationGenerator.cs:106 | definition of Path.GetFileName; GetFileNameParts and SplitCombined state its promise |
| Paths.GetFileNameParts | Editor/GPTDocumentationGenerator.cs:106 | a file name holds no separator and ends the path |
| Paths.TrimSeparators | Editor/ScriptableObjectCreatorEditor.cs:33 | the cut point of GetDirectoryName: every dropped character is a separator and the kept text does not end with one |
| Paths.GetDirectoryName | Editor/ScriptableObjectCreatorEditor.cs:33 | "" for a path without a separator; otherwise the prefix of the path that ends before the run of separators preceding the file name, not itself ending with a separator, or the root when only separators precede the file name |
| Paths.SplitCombined | Editor/ScriptableObjectCreatorEditor.cs:33-37 | splitting dir combined with a name gives back the directory and the name |
| GPTDocumentation.Section | Editor/GPTDocumentationGenerator.cs:104-116 | definition of one script's section; SectionShape states its text |
| GPTDocumentation.SummaryBlock | Editor/GPTDocumentationGenerator.cs:110-114 | the summary block is empty exactly when the summary is |
| GPTDocumentation.SectionShape | Editor/GPTDocumentationGenerator.cs:104-116 | a section is the file-name heading, `### File Path`, the back-quoted path and the rule, with no summary block |
| GPTDocumentation.ChooseFolder | Editor/GPTDocumentationGenerator.cs:30-35 | the folder panel's answer is taken only while no folder is selected; nothing else changes |
| GPTDocumentation.Load | Editor/GPTDocumentationGenerator.cs:66-89 | definition of LoadScripts on the window's state; LoadWithoutFolder, LoadReplacesPaths and LoadRestarts state its promise |
| GPTDocumentation.LoadWithoutFolder | Editor/GPTDocumentationGenerator.cs:68-72 | loading without a folder changes no state |
| GPTDocumentation.LoadReplacesPaths | Editor/GPTDocumentationGenerator.cs:74-80 | a load replaces the paths with the listing; with no scripts found the document, index and flag stay |
| GPTDocumentation.LoadRestarts | Editor/GPTDocumentationGenerator.cs:81-88 | a non-empty listing restarts the document at the header, the index at 0 and the flag off |
| GPTDocumentation.ProcessNext | Editor/GPTDocumentationGenerator.cs:91-120 | definition of one ProcessNextScript step on the window's state; ProcessPastEnd, ProcessAppendsSection, ProcessOnlyAppends and ProcessKeepsInvariant state its promise |
| GPTDocumentation.ProcessPastEnd | Editor/GPTDocumentationGenerator.cs:93-98 | past the end only the done flag changes: nothing is appended and the index stays |
| GPTDocumentation.ProcessAppendsSection | Editor/GPTDocumentationGenerator.cs:100-117 | before the end exactly the current path's section is appended, the index moves by one and nothing else changes |
| GPTDocumentation.ProcessOnlyAppends | Editor/GPTDocumentationGenerator.cs:93-117 | one call keeps the paths and the earlier markdown as a prefix |
| GPTDocumentation.ProcessKeepsInvariant | Editor/GPTDocumentationGenerator.cs:93-117 | one call keeps the index within the paths |
| GPTDocumentation.StepsOnlyAppend | Editor/GPTDocumentationGenerator.cs:91-120 | any number of calls keeps the paths, keeps the earlier markdown as a prefix and the index in range |
| GPTDocumentation.ProcessOneMore | Editor/GPTDocumentationGenerator.cs:100-117 | processing path k of a document holding the sections before it adds that path's section |
| GPTDocumentation.StepsAfterLoad | Editor/GPTDocumentationGenerator.cs:84-117 | k calls after a fresh load leave the header followed by the first k sections and the index at k |
| GPTDocumentation.DocumentComplete | Editor/GPTDocumentationGenerator.cs:66-120 | n + 1 calls after loading n scripts leave the index at n, the flag on and every section in order |
| GPTDocumentation.GPTDocumentationWindow.constructor | Editor/GPTDocumentationGenerator.cs:12-16 | the field initialisers |
| GPTDocumentation.GPTDocumentationWindow.SelectFolder | Editor/GPTDocumentationGenerator.cs:30-35 | the fields change as ChooseFolder says |
| GPTDocumentation.GPTDocumentationWindow.LoadScripts | Editor/GPTDocumentationGenerator.cs:66-89 | the fields change as Load says |
| GPTDocumentation.GPTDocumentationWindow.ProcessNextScript | Editor/GPTDocumentationGenerator.cs:91-120 | the fields change as ProcessNext says: the appends build exactly one section |
| ScriptableObjectCreator.OffersCreateButton | Editor/ScriptableObjectCreatorEditor.cs:18-20 | definition of the button test; OfferedTypes states exactly which types pass it |
| ScriptableObjectCreator.OfferedTypes | Editor/ScriptableObjectCreatorEditor.cs:18-20 | the button is offered exactly for a non-null class with a namespace, deriving from ScriptableObject, whose namespace does not start with UnityEditor; never for the global namespace |
| ScriptableObjectCreator.NamespacePrefix | Editor/ScriptableObjectCreatorEditor.cs:20 | the namespace test is a prefix test: UnityEditorInternal is excluded, UnityEngine is not |
| ScriptableObjectCreator.AssetFileName | Editor/ScriptableObjectCreatorEditor.cs:34 | the file name is the type's Name followed by `.asset` |
| ScriptableObjectCreator.CandidateBesideScript | Editor/ScriptableObjectCreatorEditor.cs:32-37 | for a script at dir/file the candidate asset path lies in dir and is named after the type |
| ScriptableObjectCreator.CreateScriptableObjectAsset | Editor/ScriptableObjectCreatorEditor.cs:29-54 | a null instance creates and selects nothing; otherwise the asset is created and selected at the unique form of the candidate path |
| ScriptableObjectCreator.OnInspectorGUI | Editor/ScriptableObjectCreatorEditor.cs:9-27 | the button is offered exactly for eligible types, and only a click on it changes anything: with an instance, the asset is added at the unique candidate path and selected; without one, the outcome is the failed instance and nothing changes |
| ButtonAttributeEditor.InstanceMethods | Editor/ButtonAttributeEditor.cs:22 | the enumeration holds exactly the instance methods |
| ButtonAttributeEditor.HasButton | Editor/ButtonAttributeEditor.cs:26-33 | definition of the button test: [Button] declared and no parameters; MethodEventsLabels states its effect |
| ButtonAttributeEditor.MethodEvents | Editor/ButtonAttributeEditor.cs:26-39 | definition of one method's events; MethodEventsLabels states its promise |
| ButtonAttributeEditor.MethodEventsLabels | Editor/ButtonAttributeEditor.cs:26-39 | a method gets a button captioned with its name exactly when it declares [Button] and takes no parameters, and is invoked exactly when that button is clicked |
| ButtonAttributeEditor.Loop | Editor/ButtonAttributeEditor.cs:24-43 | definition of the method loop's events and whether it stopped; LoopWithoutThrow, LoopStopsAtThrow and ThrowIsLast state its promise |
| ButtonAttributeEditor.LoopWithoutThrow | Editor/ButtonAttributeEditor.cs:24-43 | without a throw, one button per qualifying method in enumeration order, and exactly the clicked ones invoked in order |
| ButtonAttributeEditor.LoopStopsAtThrow | Editor/ButtonAttributeEditor.cs:24-43 | once an invocation has thrown, later methods add nothing |
| ButtonAttributeEditor.ThrowIsLast | Editor/ButtonAttributeEditor.cs:36-39 | the first throwing invocation is the last event of the frame |
| ButtonAttributeEditor.OnInspectorGUI | Editor/ButtonAttributeEditor.cs:14-44 | the default inspector first; nothing more for a null target; otherwise the events of the method loop |
| FoldoutHeaderDrawer.HeaderRect | Editor/FoldoutHeaderDrawer.cs:36 | the header keeps the row's x, y and width and is one line high |
| FoldoutHeaderDrawer.ChildRect | Editor/FoldoutHeaderDrawer.cs:42 | the property is drawn a line and a spacing below the row's top, with the row's x, width and height |
| FoldoutHeaderDrawer.GetPropertyHeight | Editor/FoldoutHeaderDrawer.cs:17-29 | definition of the row height as written; ExpandedRowTooShort states where it falls short |
| FoldoutHeaderDrawer.ExpandedRowTooShort | Editor/FoldoutHeaderDrawer.cs:21-24 | when open, GetPropertyHeight as written leaves one line height less than the property needs under the header |
| FoldoutHeaderDrawer.IntendedPropertyHeight | Editor/FoldoutHeaderDrawer.cs:17-29 | definition of the corrected row height: a header line, a spacing and the property when open; IntendedRowFits states that the row then fits |
| FoldoutHeaderDrawer.IntendedRowFits | Editor/FoldoutHeaderDrawer.cs:17-28 | with the intended height an open row holds the header and exactly the property under it; a closed row is one line |
| FoldoutHeaderDrawer.OnGUI | Editor/FoldoutHeaderDrawer.cs:31-46 | Expanded becomes the foldout's answer for the header rect, the old state and the header text; the header text is untouched; the property is drawn one level deeper below the header exactly when open; the indent level ends where it began |
| Attributes.FoldoutHeaderAttribute.constructor | Runtime/FoldoutHeaderAttribute.cs:13-17 | the header is the argument and a new attribute is open |

## Findings

| source | as written | input that shows it | evidently intended | confidence | as-written member | corrected member |
|---|---|---|---|---|---|---|
| Editor/FoldoutHeaderDrawer.cs:21-24 | an open row asks for the property's height plus one spacing, while OnGUI draws the property one line and one spacing below the row's top | open, singleLineHeight 18, standardVerticalSpacing 2, property height 18: the row is 20 high and the property ends 38 below its top | the row asks for the header line, a spacing and the property's height | medium, not executed | FoldoutHeaderDrawer.ExpandedRowTooShort (about FoldoutHeaderDrawer.GetPropertyHeight) | FoldoutHeaderDrawer.IntendedRowFits (about FoldoutHeaderDrawer.IntendedPropertyHeight) |

## Left out

- GUIStyle and texture construction (`BoldFoldout`, `Window`, `Style`, `ColorToTexture2D`, the colour palette), and the drawing-only helpers (`DrawHeader`, `DrawSplitter`, `DrawBox`, `DrawLineHelpBox`, `DrawScript`, `DrawDescription`, `BoolButton`, `Arrays`, `Foldout`): host graphics objects, float geometry and immediate-mode drawing with no logic of their own.
- Rect arithmetic of the header foldouts and of `DrawAddRemoveButton`: whether the mouse is over the header is an input, as are the toggle's answer and the button clicks.
- `GetInheritedClasses`, `GetAllTypesDerivedFrom`, `GetAllAssemblyTypes`, `CreateScriptableInstance` and `SetScriptableParent`: assembly enumeration, TypeCache and asset-database calls. In the modelled lookups, the assemblies and their types are an input sequence.
- EditorUtils.GetTypesByName: a failing `Assembly.GetTypes()` is not modelled. At Editor/EditorUtils.cs:98 the call has no guard, so an assembly whose types cannot all load throws ReflectionTypeLoadException; the source guards the same call elsewhere (lines 163-176). The model takes every assembly's type list as a given value and cannot express that failure.
- EditorUtils.GetTypeByName: the same failure is not modelled. The source's `SelectMany(...).FirstOrDefault(...)` is lazy, so it stops at the first match and never calls `GetTypes` on later assemblies; with a match in an earlier assembly it returns the type where GetTypesByName throws.
- EditorUtils.GetTypeByNameIsFirstOfGetTypesByName: the agreement of the two lookups holds for the program only when every assembly's types load; with a failing assembly, GetTypesByName throws while GetTypeByName can still succeed.
- EditorUtils.DrawAllFields: `serializedObject.Update` and `ApplyModifiedProperties`, the horizontal layout and the recursion of `PropertyField` into children are not modelled. The serialized object is the set of property names its `FindProperty` resolves, and the base type's fields are given as an input.
- EditorUtils.DrawAllFields: a null `target` is not modelled. The source calls `target.GetType()` at line 449, and at line 426 when base fields are included, so a null target with a non-null serialized object throws NullReferenceException; the model takes the target's field descriptors as a value and cannot express that failure.
- EditorUtils.GetPropertyType: covers only the one pattern `PPtr<\$(.*?)>`, not a general regex engine.
- ScrumReport: these are inputs:
  - `DateTime.Now` formatting;
  - the `EditorPrefs` lookup.

  These are not modelled:
  - the clipboard, the `EditorPrefs` write and the logging in `UpdateReport`;
  - the `ReorderableList` setup and the window's `OnGUI`;
  - the transport of `PostMessage`: `JsonUtility` serialisation, `UnityWebRequest` and its result logging.
- ScrumReport.ScrumReportWindow.SendReportToSlack: the coroutine that would post the report is commented out in the source, so nothing is sent.
- PackageCreator: the window's `OnGUI` text fields and toggles are left out, so the settings are a value.
- PackageCreator.CreatePackageStructure: assumes every file-system step succeeds. The `catch` branch for an I/O exception is not modelled, and neither is a partial structure left by a failing step. `Directory.CreateDirectory` creating missing parent folders, `AssetDatabase.Refresh` and the log messages are not modelled either.
- PackageCreator.CreateGitRepository: the process run itself, its output, its error text and a failing `git` are not modelled. Only which commands are started, in which folder and in which order, is recorded.
- PackageCreator.ToLower: lowers ASCII letters only; culture-sensitive lowering of other letters is not modelled.
- PackageCreator.PackageJsonFields: proved only for settings without '"'. `GeneratePackageJson` does not JSON-escape the settings, so a `"`, a `\` or a control character in one gives text that is not the intended manifest. The read-back uses the template's own scanner, not a JSON reader, so an escape such as `\n` in a value comes back as typed rather than decoded.
- PackageCreator.IsNullOrWhiteSpace: uses the fixed set of Unicode white-space characters rather than the runtime's character tables.
- Paths.Combine: follows Unix path rules, with '/' as the only separator. Windows separators, drive letters and invalid-character checks are not modelled.
- Paths.GetDirectoryName: the root "/" gives "/" here, where .NET gives null. The empty path gives "" here, where .NET Core gives null and Mono throws. Repeated separators inside the directory part are kept here, where the runtime collapses them. The tools call it only on the asset path of a script file.
- GPTDocumentation:
  - `SaveMarkdown`, the file write, is left out.
  - `GetGPTSummary` is left out: its OpenAI request, JSON handling and coroutine. Its call is commented out in the source, and the summary is the constant "".
  - `File.ReadAllText` of each script is left out: its content is used only by that summary. Its failure is not modelled either: if the script cannot be read, for example because it was deleted after the load, the real step throws at line 101 with nothing appended and the index unchanged, while the model's step always appends the section.
  - `Directory.GetFiles` is an input listing, in the order the host returns it.
  - The log messages are not modelled.
  - `Environment.NewLine` is taken as "\n".
- GPTDocumentation.GPTDocumentationWindow.ProcessNextScript: `currentScriptIndex` is a natural number. Between loads it only grows, by one per path; LoadScripts resets it to 0 after a non-empty listing, and after an empty listing it stays where it was, which can leave it past the now-empty path list (the in-range invariant of ProcessKeepsInvariant and StepsOnlyAppend is then not established, and a step only raises the done flag). A 32-bit overflow would need more than two billion paths and is not modelled.
- GPTDocumentation.Load: a throwing `Directory.GetFiles` (a folder removed or unreadable since it was chosen) is not modelled as a failure. The source has already cleared `scriptPaths` at Editor/GPTDocumentationGenerator.cs:74, so the state it leaves is the model's `Load(s, [])`, but the exception itself and the skipped warning are not recorded.
- GPTDocumentation.GPTDocumentationWindow.SelectFolder: the folder panel's answer is an input; a cancelled panel gives "".
- ScriptableObjectCreator: these are inputs:
  - `MonoScript.GetClass`, as an optional type descriptor whose ScriptableObject ancestry is a flag;
  - `AssetDatabase.GetAssetPath`;
  - `GenerateUniqueAssetPath`, as a function;
  - whether `CreateInstance` returns an instance.

  `SaveAssets`, `FocusProjectWindow`, the default inspector's drawing and the log message are not modelled. Nothing beyond the asset path and the type's name is recorded for the asset.
- ButtonAttributeEditor: what an invoked method does to the target is not modelled. Which buttons are clicked and which invocations throw are inputs. The method enumeration order is the host's, given as the input sequence.
- FoldoutHeaderDrawer: `float` metrics are real numbers. The foldout control, the style and the property's own height (`EditorGUI.GetPropertyHeight` with children) are inputs.
- Editor/AutoSaveProject/AutoSaveProject.cs is not part of this model: it only registers a shortcut and calls menu items.
