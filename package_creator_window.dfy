/**
 * The package creator window: the package.json template, the folder
 * preview, the scaffolding of a package folder on a file system, and the
 * git commands run in it. The window's fields change only through its
 * GUI, so they are a value here; the file system and the process runner
 * are objects whose state the operations change.
 */
module PackageCreator {

  import opened Wrappers
  import opened Paths

  /** The window's settings; DefaultWindow gives the field initialisers. */
  datatype PackageCreatorWindow = PackageCreatorWindow(
    packageName: string,
    includeEditorFolder: bool,
    includeRuntimeFolder: bool,
    includeTestsFolder: bool,
    includeDocumentationFolder: bool,
    includeChangeLog: bool,
    includeReadMe: bool,
    unityVersion: string,
    documentationUrl: string,
    repositoryUrl: string,
    repositoryRevision: string,
    customPath: string)

  function DefaultWindow(): (w: PackageCreatorWindow)
    ensures w.packageName == "MyPackage" && w.unityVersion == "2020.3" && w.customPath == "Assets"
    ensures w.includeEditorFolder && w.includeRuntimeFolder && w.includeTestsFolder && w.includeDocumentationFolder
    ensures w.includeChangeLog && w.includeReadMe
    ensures w.documentationUrl == "" && w.repositoryUrl == "" && w.repositoryRevision == ""
  {
    PackageCreatorWindow("MyPackage", true, true, true, true, true, true, "2020.3", "", "", "", "Assets")
  }

  // ---------------------------------------------------------------------
  // Text helpers

  /** char.IsWhiteSpace: the Unicode separators and the control characters U+0009-U+000D, U+0085. */
  predicate IsWhiteSpace(c: char) {
    c == ' ' || ('\t' <= c <= '\r') || c == '\U{0085}' || c == '\U{00A0}' || c == '\U{1680}'
    || ('\U{2000}' <= c <= '\U{200A}') || c == '\U{2028}' || c == '\U{2029}'
    || c == '\U{202F}' || c == '\U{205F}' || c == '\U{3000}'
  }

  /** string.IsNullOrWhiteSpace for a non-null string. */
  predicate IsNullOrWhiteSpace(s: string) {
    forall k :: 0 <= k < |s| ==> IsWhiteSpace(s[k])
  }

  function LowerChar(c: char): (r: char)
    ensures 'A' <= c <= 'Z' ==> r as int == c as int + 32
    ensures !('A' <= c <= 'Z') ==> r == c
  {
    if 'A' <= c <= 'Z' then (c as int + 32) as char else c
  }

  /** string.ToLower restricted to the ASCII letters. */
  function ToLower(s: string): (r: string)
    ensures |r| == |s|
    ensures forall k :: 0 <= k < |s| ==> r[k] == LowerChar(s[k])
  {
    if s == [] then [] else [LowerChar(s[0])] + ToLower(s[1..])
  }

  /** Lowering keeps the characters that may not appear in a JSON string value where they were. */
  lemma LowerKeepsQuotes(s: string)
    ensures '"' in ToLower(s) <==> '"' in s
  {
    if '"' in ToLower(s) {
      var k :| 0 <= k < |s| && ToLower(s)[k] == '"';
      assert s[k] == '"';
    }
    if '"' in s {
      var k :| 0 <= k < |s| && s[k] == '"';
      assert ToLower(s)[k] == '"';
    }
  }

  // ---------------------------------------------------------------------
  // package.json: a template of fixed pieces with values between them

  /** pieces[0] + values[0] + pieces[1] + ... + values[n - 1] + pieces[n]. */
  function Fill(pieces: seq<string>, values: seq<string>): string
    requires |pieces| == |values| + 1
    decreases |values|
  {
    if values == [] then pieces[0] else pieces[0] + (values[0] + Fill(pieces[1..], values[1..]))
  }

  /** The prefix removed, if s starts with it. */
  function StripPrefix(prefix: string, s: string): (r: Option<string>)
    ensures r.Some? <==> |prefix| <= |s| && s[..|prefix|] == prefix
    ensures r.Some? ==> r.value == s[|prefix|..]
  {
    if |prefix| <= |s| && s[..|prefix|] == prefix then Some(s[|prefix|..]) else None
  }

  /** Splits s before its first '"': the value read and the rest. */
  function ReadValue(s: string): (r: (string, string))
    ensures r.0 + r.1 == s
    ensures '"' !in r.0
    ensures r.1 == [] || r.1[0] == '"'
  {
    if s == [] then ("", "")
    else if s[0] == '"' then ("", s)
    else
      var (v, rest) := ReadValue(s[1..]);
      ([s[0]] + v, rest)
  }

  /** Reading back the values between the pieces of a template; None when s does not fit it. */
  function Scan(pieces: seq<string>, s: string): Option<seq<string>>
    requires |pieces| >= 1
    decreases |pieces|
  {
    if |pieces| == 1 then (if s == pieces[0] then Some([]) else None)
    else
      var rest :- StripPrefix(pieces[0], s);
      var (value, after) := ReadValue(rest);
      var values :- Scan(pieces[1..], after);
      Some([value] + values)
  }

  lemma {:induction false} ReadValueOf(v: string, rest: string)
    requires '"' !in v
    requires |rest| > 0 && rest[0] == '"'
    ensures ReadValue(v + rest) == (v, rest)
    decreases |v|
  {
    if v != [] {
      assert (v + rest)[0] == v[0];
      assert (v + rest)[1..] == v[1..] + rest;
      ReadValueOf(v[1..], rest);
      assert [v[0]] + v[1..] == v;
    } else {
      assert v + rest == rest;
    }
  }

  /** Filling a template whose pieces after the first start with '"', with values free of '"', can be read back. */
  lemma {:induction false} ScanFill(pieces: seq<string>, values: seq<string>)
    requires |pieces| == |values| + 1
    requires forall i :: 1 <= i < |pieces| ==> |pieces[i]| > 0 && pieces[i][0] == '"'
    requires forall i :: 0 <= i < |values| ==> '"' !in values[i]
    ensures Scan(pieces, Fill(pieces, values)) == Some(values)
    decreases |values|
  {
    if values != [] {
      var tail := Fill(pieces[1..], values[1..]);
      var s := Fill(pieces, values);
      assert s == pieces[0] + (values[0] + tail);
      assert StripPrefix(pieces[0], s) == Some(values[0] + tail);
      assert tail[..|pieces[1]|] == pieces[1] by {
        FillStartsWith(pieces[1..], values[1..]);
      }
      ReadValueOf(values[0], tail);
      ScanFill(pieces[1..], values[1..]);
      assert [values[0]] + values[1..] == values;
    }
  }

  lemma {:induction false} FillStartsWith(pieces: seq<string>, values: seq<string>)
    requires |pieces| == |values| + 1
    ensures |Fill(pieces, values)| >= |pieces[0]|
    ensures Fill(pieces, values)[..|pieces[0]|] == pieces[0]
  {
    if values != [] {
      var rest := values[0] + Fill(pieces[1..], values[1..]);
      assert Fill(pieces, values) == pieces[0] + rest;
      assert (pieces[0] + rest)[..|pieces[0]|] == pieces[0];
    }
  }

  /** The literal text of the template, split around its six interpolated values. */
  const Quote: string := "\""
  const NamePiece: string := "{\n\t\"name\": \"com.thebaddest."
  const DisplayNamePiece: string := Quote + ",\n\t\"version\": \"1.0.0\",\n\t\"displayName\": \""
  const UnityPiece: string := Quote + ",\n\t\"description\": \"A short description of your package.\",\n\t\"unity\": \""
  const DocumentationPiece: string := Quote + ",\n\t\"author\": {\n\t\t\"name\": \"Umair Saifullah\",\n\t\t\"email\": \"contact@umairsaifullah.com\",\n\t\t\"url\": \"https://www.umairsaifullah.com\"\n\t},\n\t\"documentationUrl\": \""
  const RepositoryPiece: string := Quote + ",\n\t\"repository\": {\n\t\t\"url\": \""
  const RevisionPiece: string := Quote + ",\n\t\t\"type\": \"git\",\n\t\t\"revision\": \""
  const ClosingPiece: string := Quote + "\n\t},\n\t\"dependencies\": {}\n}\n\t\t\t"

  const PackageJsonPieces: seq<string> :=
    [NamePiece, DisplayNamePiece, UnityPiece, DocumentationPiece, RepositoryPiece, RevisionPiece, ClosingPiece]

  /** The values interpolated into the template, in order. */
  function PackageJsonValues(w: PackageCreatorWindow): seq<string> {
    [ToLower(w.packageName), w.packageName, w.unityVersion, w.documentationUrl, w.repositoryUrl, w.repositoryRevision]
  }

  function GeneratePackageJson(w: PackageCreatorWindow): string {
    Fill(PackageJsonPieces, PackageJsonValues(w))
  }

  /** The fields of a manifest as a reader of the generated text sees them. */
  datatype Manifest = Manifest(
    name: string, version: string, displayName: string, unity: string,
    documentationUrl: string, repositoryUrl: string, repositoryRevision: string)

  /** Reads a manifest in the generated layout; None for any other text. */
  function ParsePackageJson(s: string): Option<Manifest> {
    var v :- Scan(PackageJsonPieces, s);
    if |v| == 6 then Some(Manifest("com.thebaddest." + v[0], "1.0.0", v[1], v[2], v[3], v[4], v[5])) else None
  }

  /** No setting contains a '"', so each lands in its own JSON string value. */
  predicate QuoteFree(w: PackageCreatorWindow) {
    '"' !in w.packageName && '"' !in w.unityVersion && '"' !in w.documentationUrl
    && '"' !in w.repositoryUrl && '"' !in w.repositoryRevision
  }

  /**
   * The generated manifest carries the settings: name is com.thebaddest.
   * and the lowered package name, displayName the raw name, version
   * 1.0.0, unity the Unity version, the documentation and repository
   * fields verbatim.
   */
  lemma PackageJsonFields(w: PackageCreatorWindow)
    requires QuoteFree(w)
    ensures ParsePackageJson(GeneratePackageJson(w)) == Some(Manifest(
      "com.thebaddest." + ToLower(w.packageName), "1.0.0", w.packageName, w.unityVersion,
      w.documentationUrl, w.repositoryUrl, w.repositoryRevision))
  {
    LowerKeepsQuotes(w.packageName);
    var values := PackageJsonValues(w);
    assert forall i :: 0 <= i < |values| ==> '"' !in values[i];
    assert DisplayNamePiece[0] == '"' && UnityPiece[0] == '"' && DocumentationPiece[0] == '"';
    assert RepositoryPiece[0] == '"' && RevisionPiece[0] == '"' && ClosingPiece[0] == '"';
    ScanFill(PackageJsonPieces, values);
  }

  /** The text always opens with the name field, whatever the settings hold. */
  lemma PackageJsonStartsWithName(w: PackageCreatorWindow)
    ensures var prefix := "{\n\t\"name\": \"com.thebaddest." + ToLower(w.packageName);
      |GeneratePackageJson(w)| >= |prefix| && GeneratePackageJson(w)[..|prefix|] == prefix
  {
    var values := PackageJsonValues(w);
    var rest := values[1] + Fill(PackageJsonPieces[2..], values[2..]);
    FillStartsWith(PackageJsonPieces[1..], values[1..]);
    var prefix := PackageJsonPieces[0] + ToLower(w.packageName);
    assert GeneratePackageJson(w) == prefix + Fill(PackageJsonPieces[1..], values[1..]);
    assert (prefix + Fill(PackageJsonPieces[1..], values[1..]))[..|prefix|] == prefix;
  }

  // ---------------------------------------------------------------------
  // Folder preview

  /** a occurs in b in order, possibly with gaps. */
  predicate IsSubsequence<T(==)>(a: seq<T>, b: seq<T>)
    decreases |b|
  {
    a == [] || (b != [] && ((a[0] == b[0] && IsSubsequence(a[1..], b[1..])) || IsSubsequence(a, b[1..])))
  }

  /** The items whose flag is set, in their order. */
  function Selected<T(==)>(items: seq<T>, keep: seq<bool>): (r: seq<T>)
    requires |items| == |keep|
    ensures IsSubsequence(r, items)
    ensures forall k :: 0 <= k < |items| && keep[k] ==> items[k] in r
    ensures forall x :: x in r ==> exists k :: 0 <= k < |items| && items[k] == x && keep[k]
  {
    if items == [] then []
    else
      var rest := Selected(items[1..], keep[1..]);
      assert forall k :: 1 <= k < |items| ==> items[k] == items[1..][k - 1] && keep[k] == keep[1..][k - 1];
      if keep[0] then [items[0]] + rest else rest
  }

  const PreviewLabels: seq<string> := ["- Editor", "- Runtime", "- Tests", "- Documentation~", "- CHANGELOG.md", "- README.md"]

  function PreviewFlags(w: PackageCreatorWindow): seq<bool> {
    [w.includeEditorFolder, w.includeRuntimeFolder, w.includeTestsFolder,
     w.includeDocumentationFolder, w.includeChangeLog, w.includeReadMe]
  }

  predicate Distinct<T(==)>(items: seq<T>) {
    forall i, j :: 0 <= i < j < |items| ==> items[i] != items[j]
  }

  /** Over distinct items, an item is selected exactly when its flag is set. */
  lemma {:induction false} SelectedExactly<T>(items: seq<T>, keep: seq<bool>)
    requires |items| == |keep| && Distinct(items)
    ensures forall k :: 0 <= k < |items| ==> (items[k] in Selected(items, keep) <==> keep[k])
  {
    if items != [] {
      var tail := items[1..];
      assert Distinct(tail) by {
        forall i, j | 0 <= i < j < |tail|
          ensures tail[i] != tail[j]
        {
          assert tail[i] == items[i + 1] && tail[j] == items[j + 1];
        }
      }
      SelectedExactly(tail, keep[1..]);
      forall k | 0 < k < |items|
        ensures items[0] != items[k]
      {
      }
    }
  }

  /** The six labels differ from each other, already in their fourth character. */
  lemma PreviewLabelsDistinct()
    ensures Distinct(PreviewLabels)
  {
    var fourth := seq(6, i requires 0 <= i < 6 => PreviewLabels[i][3]);
    assert fourth == ['d', 'u', 'e', 'o', 'H', 'E'];
  }

  /** The labels under "Folder Preview:": exactly the enabled items, in the fixed order. */
  function FolderPreview(w: PackageCreatorWindow): (r: seq<string>)
    ensures IsSubsequence(r, PreviewLabels)
    ensures forall k :: 0 <= k < |PreviewLabels| ==> (PreviewLabels[k] in r <==> PreviewFlags(w)[k])
    ensures forall x :: x in r ==> x in PreviewLabels
  {
    PreviewLabelsDistinct();
    SelectedExactly(PreviewLabels, PreviewFlags(w));
    Selected(PreviewLabels, PreviewFlags(w))
  }

  // ---------------------------------------------------------------------
  // Scaffolding

  /** The directories and files of the host's file system. */
  class FileSystem {
    var directories: set<string>
    var files: map<string, string>

    constructor (directories: set<string>, files: map<string, string>)
      ensures this.directories == directories && this.files == files
    {
      this.directories := directories;
      this.files := files;
    }

    predicate DirectoryExists(path: string)
      reads this
    {
      path in directories
    }

    method CreateDirectory(path: string)
      modifies this
      ensures directories == old(directories) + {path}
      ensures files == old(files)
    {
      directories := directories + {path};
    }

    method WriteAllText(path: string, contents: string)
      modifies this
      ensures files == old(files)[path := contents]
      ensures directories == old(directories)
    {
      files := files[path := contents];
    }
  }

  /** Which of the three messages CreatePackageStructure logs. */
  datatype CreateOutcome =
    | EmptyPackageName
    | PackageFolderExists(path: string)
    | Created(path: string)

  function PackagePath(w: PackageCreatorWindow): string {
    Combine(w.customPath, w.packageName)
  }

  /** The checks made before anything is created, against the directories that exist. */
  function CheckPackage(w: PackageCreatorWindow, existing: set<string>): (r: CreateOutcome)
    ensures r.EmptyPackageName? <==> IsNullOrWhiteSpace(w.packageName)
    ensures r.PackageFolderExists? <==> !IsNullOrWhiteSpace(w.packageName) && PackagePath(w) in existing
    ensures !r.EmptyPackageName? ==> r.path == PackagePath(w)
  {
    if IsNullOrWhiteSpace(w.packageName) then EmptyPackageName
    else if PackagePath(w) in existing then PackageFolderExists(PackagePath(w))
    else Created(PackagePath(w))
  }

  const ChangelogText: string := "# Changelog\n\nAll notable changes to this project will be documented in this file."

  function ReadmeText(packageName: string): (r: string)
    ensures |r| >= 2 + |packageName| && r[..2 + |packageName|] == "# " + packageName
  {
    var r := "# " + packageName + "\n\nA description of your Unity package.";
    assert r == ("# " + packageName) + "\n\nA description of your Unity package.";
    r
  }

  /** A path directly inside the package folder. */
  function Child(root: string, name: string): string {
    Combine(root, name)
  }

  /** Two different child names give two different paths, neither of them the package folder. */
  lemma ChildDistinct(root: string, a: string, b: string)
    requires |a| > 0 && |b| > 0 && !IsRooted(a) && !IsRooted(b) && a != b
    ensures Child(root, a) != Child(root, b)
    ensures Child(root, a) != root && Child(root, b) != root
  {
    CombineDistinct(root, a, b);
  }

  /** {x} when the flag is set, {} otherwise. */
  function Optional<T>(flag: bool, x: T): set<T> {
    if flag then {x} else {}
  }

  /** The one-entry map when the flag is set, the empty map otherwise. */
  function OptionalEntry<K, V>(flag: bool, k: K, v: V): map<K, V> {
    if flag then map[k := v] else map[]
  }

  /** Membership in a root plus four optional members that differ from it and from each other. */
  lemma OptionalMembers(root: string, a: string, b: string, c: string, d: string, fa: bool, fb: bool, fc: bool, fd: bool)
    requires a != b && a != c && a != d && b != c && b != d && c != d
    requires a != root && b != root && c != root && d != root
    ensures var s := {root} + Optional(fa, a) + Optional(fb, b) + Optional(fc, c) + Optional(fd, d);
      && root in s && (a in s <==> fa) && (b in s <==> fb) && (c in s <==> fc) && (d in s <==> fd)
      && s <= {root, a, b, c, d}
  {
  }

  /** The directories a successful run creates: the package folder root and its enabled subfolders. */
  function PlannedDirectories(w: PackageCreatorWindow, root: string): (r: set<string>)
    ensures root in r
    ensures Child(root, "Editor") in r <==> w.includeEditorFolder
    ensures Child(root, "Runtime") in r <==> w.includeRuntimeFolder
    ensures Child(root, "Tests") in r <==> w.includeTestsFolder
    ensures Child(root, "Documentation~") in r <==> w.includeDocumentationFolder
    ensures r <= {root, Child(root, "Editor"), Child(root, "Runtime"), Child(root, "Tests"), Child(root, "Documentation~")}
  {
    ChildDistinct(root, "Editor", "Runtime");
    ChildDistinct(root, "Editor", "Tests");
    ChildDistinct(root, "Editor", "Documentation~");
    ChildDistinct(root, "Runtime", "Tests");
    ChildDistinct(root, "Runtime", "Documentation~");
    ChildDistinct(root, "Tests", "Documentation~");
    OptionalMembers(root, Child(root, "Editor"), Child(root, "Runtime"), Child(root, "Tests"), Child(root, "Documentation~"),
      w.includeEditorFolder, w.includeRuntimeFolder, w.includeTestsFolder, w.includeDocumentationFolder);
    {root}
    + Optional(w.includeEditorFolder, Child(root, "Editor"))
    + Optional(w.includeRuntimeFolder, Child(root, "Runtime"))
    + Optional(w.includeTestsFolder, Child(root, "Tests"))
    + Optional(w.includeDocumentationFolder, Child(root, "Documentation~"))
  }

  /** Lookup in one entry plus two optional entries whose keys differ from each other. */
  lemma OptionalEntries(a: string, va: string, b: string, vb: string, c: string, vc: string, fb: bool, fc: bool)
    requires a != b && a != c && b != c
    ensures var m := map[a := va] + OptionalEntry(fb, b, vb) + OptionalEntry(fc, c, vc);
      && a in m && m[a] == va
      && (b in m <==> fb) && (fb ==> m[b] == vb)
      && (c in m <==> fc) && (fc ==> m[c] == vc)
      && m.Keys <= {a, b, c}
  {
  }

  /** The files a successful run writes in the package folder root: package.json always, the changelog and the readme when enabled. */
  function PlannedFiles(w: PackageCreatorWindow, root: string): (r: map<string, string>)
    ensures Child(root, "package.json") in r && r[Child(root, "package.json")] == GeneratePackageJson(w)
    ensures Child(root, "CHANGELOG.md") in r <==> w.includeChangeLog
    ensures w.includeChangeLog ==> r[Child(root, "CHANGELOG.md")] == ChangelogText
    ensures Child(root, "README.md") in r <==> w.includeReadMe
    ensures w.includeReadMe ==> r[Child(root, "README.md")] == ReadmeText(w.packageName)
    ensures r.Keys <= {Child(root, "package.json"), Child(root, "CHANGELOG.md"), Child(root, "README.md")}
  {
    ChildDistinct(root, "package.json", "CHANGELOG.md");
    ChildDistinct(root, "package.json", "README.md");
    ChildDistinct(root, "CHANGELOG.md", "README.md");
    OptionalEntries(Child(root, "package.json"), GeneratePackageJson(w), Child(root, "CHANGELOG.md"), ChangelogText,
      Child(root, "README.md"), ReadmeText(w.packageName), w.includeChangeLog, w.includeReadMe);
    map[Child(root, "package.json") := GeneratePackageJson(w)]
    + OptionalEntry(w.includeChangeLog, Child(root, "CHANGELOG.md"), ChangelogText)
    + OptionalEntry(w.includeReadMe, Child(root, "README.md"), ReadmeText(w.packageName))
  }

  /** Regrouping unions: ((a + b) + c) + d == a + ((b + c) + d), for sets and for maps. */
  lemma RegroupSets(a: set<string>, b: set<string>, c: set<string>, d: set<string>)
    ensures a + b + c + d == a + (b + c + d)
  {
  }

  /** Writing one entry is a union with the one-entry map. */
  lemma UpdateIsUnion(m: map<string, string>, k: string, v: string)
    ensures m[k := v] == m + map[k := v]
  {
  }

  lemma RegroupMaps(a: map<string, string>, b: map<string, string>, c: map<string, string>, d: map<string, string>)
    ensures a + b + c + d == a + (b + c + d)
  {
  }

  /** The directory steps of the try block: the root, then each enabled subfolder. */
  method CreateFolders(w: PackageCreatorWindow, root: string, fs: FileSystem)
    modifies fs
    ensures fs.directories == old(fs.directories) + PlannedDirectories(w, root)
    ensures fs.files == old(fs.files)
  {
    ghost var directories0 := fs.directories;
    ghost var editor := Optional(w.includeEditorFolder, Child(root, "Editor"));
    ghost var runtime := Optional(w.includeRuntimeFolder, Child(root, "Runtime"));
    ghost var tests := Optional(w.includeTestsFolder, Child(root, "Tests"));
    ghost var documentation := Optional(w.includeDocumentationFolder, Child(root, "Documentation~"));
    fs.CreateDirectory(root);
    ghost var step := fs.directories;
    assert step == directories0 + {root};
    if w.includeEditorFolder {
      fs.CreateDirectory(Combine(root, "Editor"));
    }
    assert fs.directories == step + editor;
    step := fs.directories;
    if w.includeRuntimeFolder {
      fs.CreateDirectory(Combine(root, "Runtime"));
    }
    assert fs.directories == step + runtime;
    step := fs.directories;
    if w.includeTestsFolder {
      fs.CreateDirectory(Combine(root, "Tests"));
    }
    assert fs.directories == step + tests;
    step := fs.directories;
    if w.includeDocumentationFolder {
      fs.CreateDirectory(Combine(root, "Documentation~"));
    }
    assert fs.directories == step + documentation;
    RegroupSets(directories0 + {root} + editor, runtime, tests, documentation);
    RegroupSets(directories0, {root}, editor, runtime + tests + documentation);
  }

  /** The file steps of the try block: package.json, then the enabled changelog and readme. */
  method WriteFiles(w: PackageCreatorWindow, root: string, fs: FileSystem)
    modifies fs
    ensures fs.files == old(fs.files) + PlannedFiles(w, root)
    ensures fs.directories == old(fs.directories)
  {
    ghost var files0 := fs.files;
    ghost var packageJson := map[Child(root, "package.json") := GeneratePackageJson(w)];
    ghost var changelog := OptionalEntry(w.includeChangeLog, Child(root, "CHANGELOG.md"), ChangelogText);
    ghost var readme := OptionalEntry(w.includeReadMe, Child(root, "README.md"), ReadmeText(w.packageName));
    var packageJsonPath := Combine(root, "package.json");
    fs.WriteAllText(packageJsonPath, GeneratePackageJson(w));
    UpdateIsUnion(files0, packageJsonPath, GeneratePackageJson(w));
    ghost var step := fs.files;
    assert step == files0 + packageJson;
    if w.includeChangeLog {
      fs.WriteAllText(Combine(root, "CHANGELOG.md"), ChangelogText);
      UpdateIsUnion(step, Combine(root, "CHANGELOG.md"), ChangelogText);
    }
    assert fs.files == step + changelog;
    step := fs.files;
    if w.includeReadMe {
      fs.WriteAllText(Combine(root, "README.md"), ReadmeText(w.packageName));
      UpdateIsUnion(step, Combine(root, "README.md"), ReadmeText(w.packageName));
    }
    assert fs.files == step + readme;
    RegroupMaps(files0, packageJson, changelog, readme);
  }

  /**
   * CreatePackageStructure: on an empty or blank name, or when the package
   * folder exists, nothing changes; otherwise the planned directories and
   * files are added and nothing else changes.
   */
  method CreatePackageStructure(w: PackageCreatorWindow, fs: FileSystem) returns (outcome: CreateOutcome)
    modifies fs
    ensures outcome == CheckPackage(w, old(fs.directories))
    ensures outcome.Created? ==> fs.directories == old(fs.directories) + PlannedDirectories(w, PackagePath(w))
    ensures outcome.Created? ==> fs.files == old(fs.files) + PlannedFiles(w, PackagePath(w))
    ensures !outcome.Created? ==> fs.directories == old(fs.directories) && fs.files == old(fs.files)
  {
    if IsNullOrWhiteSpace(w.packageName) {
      return EmptyPackageName;
    }
    var packagePath := Combine(w.customPath, w.packageName);
    if fs.DirectoryExists(packagePath) {
      return PackageFolderExists(packagePath);
    }
    CreateFolders(w, packagePath, fs);
    WriteFiles(w, packagePath, fs);
    outcome := Created(packagePath);
  }

  // ---------------------------------------------------------------------
  // Git

  /** One process start: program, arguments and working directory. */
  datatype Command = Command(fileName: string, arguments: string, workingDirectory: string)

  /** The processes started so far, in order. */
  class CommandRunner {
    var issued: seq<Command>

    constructor ()
      ensures issued == []
    {
      issued := [];
    }

    method RunCommand(command: string, arguments: string, workingDirectory: string)
      modifies this
      ensures issued == old(issued) + [Command(command, arguments, workingDirectory)]
    {
      issued := issued + [Command(command, arguments, workingDirectory)];
    }
  }

  /** The three commands that make a repository with main and develop branches. */
  function GitInitCommands(path: string): (r: seq<Command>)
    ensures |r| == 3
    ensures forall i :: 0 <= i < 3 ==> r[i].fileName == "git" && r[i].workingDirectory == path
    ensures r[0].arguments == "init" && r[1].arguments == "checkout -b main" && r[2].arguments == "checkout -b develop"
  {
    [Command("git", "init", path), Command("git", "checkout -b main", path), Command("git", "checkout -b develop", path)]
  }

  datatype GitOutcome =
    | PackageFolderMissing(path: string)
    | GitInitialized(path: string)

  /** CreateGitRepository: no command unless the package folder exists, then the three git commands in it. */
  method CreateGitRepository(w: PackageCreatorWindow, fs: FileSystem, runner: CommandRunner) returns (outcome: GitOutcome)
    modifies runner
    ensures outcome.path == PackagePath(w)
    ensures outcome.GitInitialized? <==> PackagePath(w) in fs.directories
    ensures outcome.PackageFolderMissing? ==> runner.issued == old(runner.issued)
    ensures outcome.GitInitialized? ==> runner.issued == old(runner.issued) + GitInitCommands(PackagePath(w))
  {
    var packagePath := Combine(w.customPath, w.packageName);
    if !fs.DirectoryExists(packagePath) {
      return PackageFolderMissing(packagePath);
    }
    runner.RunCommand("git", "init", packagePath);
    runner.RunCommand("git", "checkout -b main", packagePath);
    runner.RunCommand("git", "checkout -b develop", packagePath);
    outcome := GitInitialized(packagePath);
  }

  /**
   * The two buttons at the end of the window's OnGUI, in their order: the
   * scaffold runs when its button is clicked, then the repository step
   * when its button is clicked. Both in one frame on a fresh folder
   * initialise the repository in the folder just created.
   */
  method OnGUIButtons(w: PackageCreatorWindow, createClicked: bool, gitClicked: bool, fs: FileSystem, runner: CommandRunner)
    returns (created: Option<CreateOutcome>, git: Option<GitOutcome>)
    modifies fs, runner
    ensures created.Some? <==> createClicked
    ensures git.Some? <==> gitClicked
    ensures !createClicked ==> fs.directories == old(fs.directories) && fs.files == old(fs.files)
    ensures !gitClicked ==> runner.issued == old(runner.issued)
    ensures createClicked ==> created.value == CheckPackage(w, old(fs.directories))
    ensures createClicked && created.value.Created? ==>
      fs.directories == old(fs.directories) + PlannedDirectories(w, PackagePath(w))
      && fs.files == old(fs.files) + PlannedFiles(w, PackagePath(w))
    ensures createClicked && !created.value.Created? ==> fs.directories == old(fs.directories) && fs.files == old(fs.files)
    ensures gitClicked ==> git.value.path == PackagePath(w) && (git.value.GitInitialized? <==> PackagePath(w) in fs.directories)
    ensures gitClicked ==>
      runner.issued == old(runner.issued) + (if git.value.GitInitialized? then GitInitCommands(PackagePath(w)) else [])
    ensures createClicked && gitClicked && created.value.Created? ==>
      git.value == GitInitialized(PackagePath(w)) && runner.issued == old(runner.issued) + GitInitCommands(PackagePath(w))
  {
    created, git := None, None;
    if createClicked {
      var outcome := CreatePackageStructure(w, fs);
      created := Some(outcome);
    }
    if gitClicked {
      var outcome := CreateGitRepository(w, fs, runner);
      git := Some(outcome);
    }
  }
}
