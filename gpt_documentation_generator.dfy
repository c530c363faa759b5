/**
 * The documentation generator window: a folder, the script paths found in
 * it, a markdown buffer that only grows between loads, an index into the
 * paths and a done flag. The transitions are functions on DocState; the
 * window class updates its fields as the functions say.
 */
module GPTDocumentation {

  import opened Paths

  /** Environment.NewLine, which StringBuilder.AppendLine adds after its argument. */
  const NewLine: string := "\n"

  /** StringBuilder.AppendLine(line) on a buffer holding text. */
  function AppendLine(text: string, line: string): string {
    text + line + NewLine
  }

  /** Appending a line after t + u is appending it after u, behind t. */
  lemma AppendLineAfter(t: string, u: string, line: string)
    ensures AppendLine(t + u, line) == t + AppendLine(u, line)
  {
  }

  const Header: string := "# Project Documentation\n" + NewLine

  /** The summary text ProcessNextScript uses: the GPT call is commented out, so it is always empty. */
  const Summary: string := ""

  /** The heading and path lines of one script's section. */
  function FileSection(scriptPath: string): string {
    AppendLine(AppendLine(AppendLine("", "## " + GetFileName(scriptPath) + "\n"), "### File Path\n"), "`" + scriptPath + "`\n")
  }

  /** The summary lines, present only for a non-empty summary. */
  function SummaryBlock(summary: string): (r: string)
    ensures r == "" <==> summary == ""
  {
    if summary != "" then AppendLine(AppendLine("", "### GPT Summary\n"), summary) else ""
  }

  const Rule: string := "\n---\n" + NewLine

  /** The text ProcessNextScript appends for one script. */
  function Section(scriptPath: string): string {
    FileSection(scriptPath) + SummaryBlock(Summary) + Rule
  }

  /** A section is the file-name heading, the File Path heading, the back-quoted path and the rule, with no summary block. */
  lemma SectionShape(scriptPath: string)
    ensures Section(scriptPath) ==
      "## " + GetFileName(scriptPath) + "\n" + NewLine
      + "### File Path\n" + NewLine
      + "`" + scriptPath + "`\n" + NewLine
      + "\n---\n" + NewLine
  {
  }

  /** The sections of the paths, in order. */
  function Sections(scriptPaths: seq<string>): string {
    if scriptPaths == [] then ""
    else Sections(scriptPaths[..|scriptPaths| - 1]) + Section(scriptPaths[|scriptPaths| - 1])
  }

  /** The window's fields. */
  datatype DocState = DocState(
    selectedFolderPath: string,
    scriptPaths: seq<string>,
    markdown: string,
    currentScriptIndex: nat,
    summariesGenerated: bool)

  const InitialState: DocState := DocState("", [], "", 0, false)

  /** The index never passes the end of the paths. */
  predicate IndexInRange(s: DocState) {
    s.currentScriptIndex <= |s.scriptPaths|
  }

  /** The folder panel's answer is taken only while no folder is selected. */
  function ChooseFolder(s: DocState, chosen: string): (r: DocState)
    ensures r.selectedFolderPath == if s.selectedFolderPath == "" then chosen else s.selectedFolderPath
    ensures r.(selectedFolderPath := s.selectedFolderPath) == s
  {
    if s.selectedFolderPath == "" then s.(selectedFolderPath := chosen) else s
  }

  /**
   * LoadScripts with found the listing of *.cs files under the folder:
   * nothing without a folder; otherwise the paths are replaced, and a
   * non-empty listing also restarts the document.
   */
  function Load(s: DocState, found: seq<string>): DocState {
    if s.selectedFolderPath == "" then s
    else if found == [] then s.(scriptPaths := [])
    else s.(scriptPaths := found, markdown := AppendLine("", "# Project Documentation\n"),
            currentScriptIndex := 0, summariesGenerated := false)
  }

  /** ProcessNextScript: past the end it only raises the done flag; otherwise it appends one section and advances. */
  function ProcessNext(s: DocState): DocState {
    if s.currentScriptIndex >= |s.scriptPaths| then s.(summariesGenerated := true)
    else s.(markdown := s.markdown + Section(s.scriptPaths[s.currentScriptIndex]),
            currentScriptIndex := s.currentScriptIndex + 1)
  }

  /** k calls of ProcessNextScript. */
  function Steps(s: DocState, k: nat): DocState {
    if k == 0 then s else ProcessNext(Steps(s, k - 1))
  }

  /** Loading without a folder changes nothing. */
  lemma LoadWithoutFolder(s: DocState, found: seq<string>)
    requires s.selectedFolderPath == ""
    ensures Load(s, found) == s
  {
  }

  /** A load keeps the folder and replaces the paths; an empty listing leaves the document, the index and the flag alone. */
  lemma LoadReplacesPaths(s: DocState, found: seq<string>)
    requires s.selectedFolderPath != ""
    ensures Load(s, found).scriptPaths == found
    ensures Load(s, found).selectedFolderPath == s.selectedFolderPath
    ensures found == [] ==> Load(s, found) == s.(scriptPaths := [])
  {
  }

  /** A non-empty listing restarts the document at its header, with the index at 0 and the flag cleared. */
  lemma LoadRestarts(s: DocState, found: seq<string>)
    requires s.selectedFolderPath != "" && found != []
    ensures Load(s, found) == DocState(s.selectedFolderPath, found, Header, 0, false)
    ensures IndexInRange(Load(s, found))
  {
  }

  /** Past the end, only the flag changes. */
  lemma ProcessPastEnd(s: DocState)
    requires s.currentScriptIndex >= |s.scriptPaths|
    ensures ProcessNext(s) == s.(summariesGenerated := true)
  {
  }

  /** Before the end, exactly the section of the current path is appended and the index moves by one. */
  lemma ProcessAppendsSection(s: DocState)
    requires s.currentScriptIndex < |s.scriptPaths|
    ensures ProcessNext(s).markdown == s.markdown + Section(s.scriptPaths[s.currentScriptIndex])
    ensures ProcessNext(s).currentScriptIndex == s.currentScriptIndex + 1
    ensures ProcessNext(s).(markdown := s.markdown, currentScriptIndex := s.currentScriptIndex) == s
  {
  }

  predicate IsPrefix(a: string, b: string) {
    |a| <= |b| && b[..|a|] == a
  }

  lemma PrefixTransitive(a: string, b: string, c: string)
    requires IsPrefix(a, b) && IsPrefix(b, c)
    ensures IsPrefix(a, c)
  {
    assert c[..|a|] == c[..|b|][..|a|];
  }

  /** One call only appends to the markdown and keeps the paths. */
  lemma ProcessOnlyAppends(s: DocState)
    ensures ProcessNext(s).scriptPaths == s.scriptPaths
    ensures IsPrefix(s.markdown, ProcessNext(s).markdown)
  {
    if s.currentScriptIndex < |s.scriptPaths| {
      var section := Section(s.scriptPaths[s.currentScriptIndex]);
      assert (s.markdown + section)[..|s.markdown|] == s.markdown;
    }
  }

  /** ProcessNextScript keeps the index in range. */
  lemma ProcessKeepsInvariant(s: DocState)
    requires IndexInRange(s)
    ensures IndexInRange(ProcessNext(s))
  {
  }

  /** Any number of calls only appends to the markdown. */
  lemma {:induction false} StepsOnlyAppend(s: DocState, k: nat)
    ensures IsPrefix(s.markdown, Steps(s, k).markdown)
    ensures Steps(s, k).scriptPaths == s.scriptPaths
    ensures IndexInRange(s) ==> IndexInRange(Steps(s, k))
  {
    if k == 0 {
      assert s.markdown[..|s.markdown|] == s.markdown;
    } else {
      StepsOnlyAppend(s, k - 1);
      var t := Steps(s, k - 1);
      ProcessOnlyAppends(t);
      if IndexInRange(s) {
        ProcessKeepsInvariant(t);
      }
      PrefixTransitive(s.markdown, t.markdown, Steps(s, k).markdown);
    }
  }

  /** Processing the k-th path of a document holding the sections before it adds that path's section. */
  lemma ProcessOneMore(s: DocState, k: nat)
    requires 0 < k <= |s.scriptPaths|
    ensures ProcessNext(s.(markdown := Header + Sections(s.scriptPaths[..k - 1]), currentScriptIndex := k - 1))
      == s.(markdown := Header + Sections(s.scriptPaths[..k]), currentScriptIndex := k)
  {
    var done, path := s.scriptPaths[..k - 1], s.scriptPaths[k - 1];
    var ps := s.scriptPaths[..k];
    assert ps[..|ps| - 1] == done && ps[|ps| - 1] == path;
    assert Sections(ps) == Sections(done) + Section(path);
    assert Header + Sections(done) + Section(path) == Header + (Sections(done) + Section(path));
  }

  /** After k <= n calls from a fresh load of n paths, the document holds the first k sections. */
  lemma {:induction false} StepsAfterLoad(s: DocState, k: nat)
    requires s.currentScriptIndex == 0 && !s.summariesGenerated && s.markdown == Header
    requires k <= |s.scriptPaths|
    ensures Steps(s, k) == s.(markdown := Header + Sections(s.scriptPaths[..k]), currentScriptIndex := k)
  {
    if k > 0 {
      StepsAfterLoad(s, k - 1);
      ProcessOneMore(s, k);
    } else {
      assert s.scriptPaths[..0] == [];
    }
  }

  /** n + 1 calls after loading n > 0 scripts reach the end: index n, flag set, and every section in order. */
  lemma DocumentComplete(s: DocState, found: seq<string>)
    requires s.selectedFolderPath != "" && found != []
    ensures var t := Steps(Load(s, found), |found| + 1);
      t.currentScriptIndex == |found| && t.summariesGenerated && t.markdown == Header + Sections(found)
  {
    var l := Load(s, found);
    LoadRestarts(s, found);
    StepsAfterLoad(l, |found|);
    assert found[..|found|] == found;
  }

  /** The window: its fields, updated in place by LoadScripts and ProcessNextScript. */
  class GPTDocumentationWindow {
    var selectedFolderPath: string
    var scriptPaths: seq<string>
    var markdownBuilder: string
    var currentScriptIndex: nat
    var summariesGenerated: bool

    function State(): DocState
      reads this
    {
      DocState(selectedFolderPath, scriptPaths, markdownBuilder, currentScriptIndex, summariesGenerated)
    }

    constructor ()
      ensures State() == InitialState
    {
      selectedFolderPath := "";
      scriptPaths := [];
      markdownBuilder := "";
      currentScriptIndex := 0;
      summariesGenerated := false;
    }

    /** The Select Folder button: chosen is the folder panel's answer. */
    method SelectFolder(chosen: string)
      modifies this
      ensures State() == ChooseFolder(old(State()), chosen)
    {
      if selectedFolderPath == "" {
        selectedFolderPath := chosen;
      }
    }

    method LoadScripts(found: seq<string>)
      modifies this
      ensures State() == Load(old(State()), found)
    {
      if selectedFolderPath == "" {
        return;
      }
      scriptPaths := [];
      scriptPaths := scriptPaths + found;
      if |scriptPaths| == 0 {
        return;
      }
      markdownBuilder := "";
      markdownBuilder := AppendLine(markdownBuilder, "# Project Documentation\n");
      currentScriptIndex := 0;
      summariesGenerated := false;
    }

    method ProcessNextScript()
      modifies this
      ensures State() == ProcessNext(old(State()))
    {
      if currentScriptIndex >= |scriptPaths| {
        summariesGenerated := true;
        return;
      }
      var scriptPath := scriptPaths[currentScriptIndex];
      var summary := Summary;
      ghost var before := markdownBuilder;
      var heading, pathHeading, pathLine := "## " + GetFileName(scriptPath) + "\n", "### File Path\n", "`" + scriptPath + "`\n";
      assert before == before + "";
      markdownBuilder := AppendLine(markdownBuilder, heading);
      AppendLineAfter(before, "", heading);
      ghost var added := AppendLine("", heading);
      markdownBuilder := AppendLine(markdownBuilder, pathHeading);
      AppendLineAfter(before, added, pathHeading);
      added := AppendLine(added, pathHeading);
      markdownBuilder := AppendLine(markdownBuilder, pathLine);
      AppendLineAfter(before, added, pathLine);
      added := AppendLine(added, pathLine);
      assert added == FileSection(scriptPath);
      markdownBuilder := markdownBuilder + SummaryBlock(summary);
      assert markdownBuilder == before + (added + SummaryBlock(summary));
      added := added + SummaryBlock(summary);
      markdownBuilder := AppendLine(markdownBuilder, "\n---\n");
      AppendLineAfter(before, added, "\n---\n");
      assert AppendLine(added, "\n---\n") == Section(scriptPath);
      currentScriptIndex := currentScriptIndex + 1;
    }
  }
}
