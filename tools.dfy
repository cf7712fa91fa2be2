/** The tool layer: the closed set of tools the model may request, their results, the
    per-tool permission table, the lenient decoder of `tool_use` content blocks, and the
    decision and output-shaping logic of each tool. File-system and process effects are
    inputs here: each outcome function receives what the operating system reported. */
module Tools {
  import opened Wrappers
  import opened Text
  import Json

  /** A tool invocation requested by the model, one variant per tool. */
  datatype Tool =
    | ReadFile(path: string)
    | WriteFile(path: string, content: string)
    | ListFiles(path: string, pattern: Option<string>)
    | SearchFiles(regex: string, under: Option<string>)
    | Execute(command: string)
    | EditFile(path: string, oldText: string, newText: string)
  {
    /** The name used for permission checks and display. */
    function Name(): string
    {
      match this
      case ReadFile(_) => "read_file"
      case WriteFile(_, _) => "write_file"
      case ListFiles(_, _) => "list_files"
      case SearchFiles(_, _) => "search_files"
      case Execute(_) => "execute"
      case EditFile(_, _, _) => "edit_file"
    }
  }

  const KnownNames: seq<string> :=
    ["read_file", "write_file", "list_files", "search_files", "execute", "edit_file"]

  /** Tools built from the same variant. */
  predicate SameVariant(a: Tool, b: Tool)
  {
    (a.ReadFile? && b.ReadFile?) || (a.WriteFile? && b.WriteFile?) || (a.ListFiles? && b.ListFiles?)
    || (a.SearchFiles? && b.SearchFiles?) || (a.Execute? && b.Execute?) || (a.EditFile? && b.EditFile?)
  }

  /** Six variants, six distinct names, each one of `KnownNames`. */
  lemma NameIdentifiesVariant(a: Tool, b: Tool)
    ensures a.Name() in KnownNames
    ensures a.Name() == b.Name() <==> SameVariant(a, b)
  {
  }

  /** The outcome of running one tool. */
  datatype ToolResult = ToolResult(success: bool, output: string)

  function OkResult(output: string): (r: ToolResult)
    ensures r.success && r.output == output
  {
    ToolResult(true, output)
  }

  function ErrResult(output: string): (r: ToolResult)
    ensures !r.success && r.output == output
  {
    ToolResult(false, output)
  }

  datatype Permission = AutoAllow | AskFirst | Deny

  /** The Debug rendering of a permission (`{p:?}`). */
  function PermissionLabel(p: Permission): string
  {
    match p
    case AutoAllow => "AutoAllow"
    case AskFirst => "AskFirst"
    case Deny => "Deny"
  }

  /** The permission a table gives a name: its entry, `AskFirst` when it has none. */
  function Lookup(table: map<string, Permission>, name: string): (p: Permission)
    ensures name !in table ==> p == AskFirst
    ensures name in table ==> p == table[name]
  {
    if name in table then table[name] else AskFirst
  }

  /** Setting one name's permission changes what that name gets and nothing else. */
  lemma LookupAfterSet(table: map<string, Permission>, name: string, p: Permission, other: string)
    ensures Lookup(table[name := p], name) == p
    ensures other != name ==> Lookup(table[name := p], other) == Lookup(table, other)
  {
  }

  /** Default command timeout, in seconds. */
  const DefaultCommandTimeout: nat := 120

  /** Executes tools; holds the per-tool permission overrides and the command timeout. */
  class ToolExecutor {
    var permissions: map<string, Permission>
    var commandTimeout: nat

    constructor ()
      ensures permissions == map[] && commandTimeout == DefaultCommandTimeout
    {
      permissions := map[];
      commandTimeout := DefaultCommandTimeout;
    }

    function PermissionOf(name: string): Permission
      reads this
    {
      Lookup(permissions, name)
    }

    method SetPermission(name: string, p: Permission)
      modifies this
      ensures permissions == old(permissions)[name := p]
      ensures PermissionOf(name) == p
      ensures forall n :: n != name ==> PermissionOf(n) == old(PermissionOf(n))
      ensures commandTimeout == old(commandTimeout)
    {
      permissions := permissions[name := p];
    }

    method SetCommandTimeout(seconds: nat)
      modifies this
      ensures commandTimeout == seconds && permissions == old(permissions)
    {
      commandTimeout := seconds;
    }
  }

  // ---------------------------------------------------------------------------
  // Parsing tool calls from a Messages API response
  // ---------------------------------------------------------------------------

  /** A tool-use block: the id the provider assigned and the requested tool. */
  datatype ToolCall = ToolCall(id: string, tool: Tool)

  /** `input.get(key).and_then(as_str).unwrap_or(default)` */
  function InputStr(input: Json.Value, key: string, default: string): (r: string)
    ensures Json.StrField(input, key).Some? ==> r == Json.StrField(input, key).value
    ensures Json.StrField(input, key).None? ==> r == default
  {
    Json.StrField(input, key).GetOr(default)
  }

  /** The tool a known name and its input object describe; `None` for an unknown name. */
  function DecodeTool(name: string, input: Json.Value): (r: Option<Tool>)
    ensures r.Some? <==> name in KnownNames
    ensures r.Some? ==> r.value.Name() == name
  {
    if name == "read_file" then Some(ReadFile(InputStr(input, "path", "")))
    else if name == "write_file" then
      Some(WriteFile(InputStr(input, "path", ""), InputStr(input, "content", "")))
    else if name == "list_files" then
      Some(ListFiles(InputStr(input, "path", "."), Json.StrField(input, "pattern")))
    else if name == "search_files" then
      Some(SearchFiles(InputStr(input, "pattern", ""), Json.StrField(input, "path")))
    else if name == "execute" then Some(Execute(InputStr(input, "command", "")))
    else if name == "edit_file" then
      Some(EditFile(InputStr(input, "path", ""), InputStr(input, "old_text", ""),
                    InputStr(input, "new_text", "")))
    else None
  }

  /** A tool input without the string members it names decodes to the defaults: `""`, except
      `"."` for the `list_files` path, and `None` for the optional pattern and path. */
  lemma AbsentFieldsDefault(input: Json.Value)
    requires forall k :: Json.StrField(input, k).None?
    ensures DecodeTool("read_file", input) == Some(ReadFile(""))
    ensures DecodeTool("write_file", input) == Some(WriteFile("", ""))
    ensures DecodeTool("list_files", input) == Some(ListFiles(".", None))
    ensures DecodeTool("search_files", input) == Some(SearchFiles("", None))
    ensures DecodeTool("execute", input) == Some(Execute(""))
    ensures DecodeTool("edit_file", input) == Some(EditFile("", "", ""))
  {
  }

  /** The call one content block carries, if it is a well-formed `tool_use` block. */
  function DecodeBlock(block: Json.Value): (r: Option<ToolCall>)
    ensures r.Some? <==>
      && Json.StrField(block, "type") == Some("tool_use")
      && Json.StrField(block, "id").Some?
      && Json.StrField(block, "name").Some?
      && Json.StrField(block, "name").value in KnownNames
    ensures r.Some? ==> (r.value.id == Json.StrField(block, "id").value
                         && r.value.tool.Name() == Json.StrField(block, "name").value)
  {
    if Json.StrField(block, "type") != Some("tool_use") then None
    else match Json.StrField(block, "id")
      case None => None
      case Some(id) =>
        match Json.StrField(block, "name")
        case None => None
        case Some(name) =>
          var input := Json.Get(block, "input").GetOr(Json.Object(map[]));
          match DecodeTool(name, input)
          case Some(tool) => Some(ToolCall(id, tool))
          case None => None
  }

  /** The calls a block list carries, in block order. */
  function DecodeBlocks(blocks: seq<Json.Value>): (r: seq<ToolCall>)
    ensures |r| <= |blocks|
  {
    if blocks == [] then []
    else
      var rest := DecodeBlocks(blocks[1..]);
      match DecodeBlock(blocks[0])
      case Some(c) => [c] + rest
      case None => rest
  }

  lemma DecodeBlocksAppend(blocks: seq<Json.Value>, b: Json.Value)
    ensures DecodeBlocks(blocks + [b]) ==
      DecodeBlocks(blocks) + (match DecodeBlock(b) case Some(c) => [c] case None => [])
  {
    if blocks == [] {
      assert blocks + [b] == [b];
    } else {
      assert (blocks + [b])[1..] == blocks[1..] + [b];
      DecodeBlocksAppend(blocks[1..], b);
    }
  }

  /** `response.get("content").and_then(as_array)`: the content blocks, if any. */
  function ContentBlocks(response: Json.Value): Option<seq<Json.Value>>
  {
    match Json.Get(response, "content")
    case Some(c) => Json.AsArray(c)
    case None => None
  }

  /** `parse_tool_calls`: walks the response's content blocks and keeps, in order, every
      `tool_use` block with a string id and a known tool name. */
  method ParseToolCalls(response: Json.Value) returns (calls: seq<ToolCall>)
    ensures ContentBlocks(response).None? ==> calls == []
    ensures ContentBlocks(response).Some? ==> calls == DecodeBlocks(ContentBlocks(response).value)
  {
    calls := [];
    var content: seq<Json.Value>;
    match ContentBlocks(response) {
      case None => return;
      case Some(arr) => content := arr;
    }
    var i := 0;
    while i < |content|
      invariant 0 <= i <= |content|
      invariant calls == DecodeBlocks(content[..i])
    {
      var block := content[i];
      var call := DecodeToolUse(block);
      DecodeBlocksAppend(content[..i], block);
      TakeSnoc(content, i);
      i := i + 1;
      if call.Some? {
        calls := calls + [call.value];
      }
    }
    assert content[..|content|] == content;
  }

  /** The body of `parse_tool_calls`'s loop for one block: each missing piece skips it. */
  method DecodeToolUse(block: Json.Value) returns (call: Option<ToolCall>)
    ensures call == DecodeBlock(block)
  {
    if Json.StrField(block, "type") != Some("tool_use") {
      return None;
    }
    var id: string;
    match Json.StrField(block, "id") {
      case None => return None;
      case Some(v) => id := v;
    }
    var name: string;
    match Json.StrField(block, "name") {
      case None => return None;
      case Some(v) => name := v;
    }
    var input := Json.Get(block, "input").GetOr(Json.Object(map[]));
    match DecodeTool(name, input) {
      case None => return None;
      case Some(tool) => return Some(ToolCall(id, tool));
    }
  }

  /** Every decoded call is what some block of the list decodes to. */
  lemma {:induction false} DecodeBlocksSound(blocks: seq<Json.Value>, k: nat)
    requires k < |DecodeBlocks(blocks)|
    ensures exists j :: 0 <= j < |blocks| && DecodeBlock(blocks[j]) == Some(DecodeBlocks(blocks)[k])
  {
    var rest := DecodeBlocks(blocks[1..]);
    match DecodeBlock(blocks[0]) {
      case Some(c) =>
        if k > 0 {
          DecodeBlocksSound(blocks[1..], k - 1);
          var j :| 0 <= j < |blocks[1..]| && DecodeBlock(blocks[1..][j]) == Some(rest[k - 1]);
          assert blocks[j + 1] == blocks[1..][j];
        } else {
          assert DecodeBlock(blocks[0]) == Some(DecodeBlocks(blocks)[0]);
        }
      case None =>
        DecodeBlocksSound(blocks[1..], k);
        var j :| 0 <= j < |blocks[1..]| && DecodeBlock(blocks[1..][j]) == Some(rest[k]);
        assert blocks[j + 1] == blocks[1..][j];
    }
  }

  /** Every block that is a well-formed `tool_use` block yields a call, so a response whose
      blocks all decode yields one call per block, in block order. */
  lemma {:induction false} DecodeBlocksComplete(blocks: seq<Json.Value>)
    requires forall j :: 0 <= j < |blocks| ==> DecodeBlock(blocks[j]).Some?
    ensures |DecodeBlocks(blocks)| == |blocks|
    ensures forall j :: 0 <= j < |blocks| ==> Some(DecodeBlocks(blocks)[j]) == DecodeBlock(blocks[j])
  {
    if blocks != [] {
      DecodeBlocksComplete(blocks[1..]);
      assert forall j :: 1 <= j < |blocks| ==> blocks[j] == blocks[1..][j - 1];
    }
  }

  // ---------------------------------------------------------------------------
  // read_file: line numbering
  // ---------------------------------------------------------------------------

  /** One numbered line: the 1-based number right-aligned in six columns, a tab, the text. */
  function NumberedLine(i: nat, line: string): (r: string)
    ensures |r| >= |line| + 7 && r[|r| - |line| - 1] == '\t' && r[|r| - |line|..] == line
  {
    PadLeft(NatToString(i + 1), 6) + "\t" + line
  }

  function NumberedLines(lines: seq<string>): (r: seq<string>)
    ensures |r| == |lines|
    ensures forall i :: 0 <= i < |lines| ==> r[i] == NumberedLine(i, lines[i])
  {
    seq(|lines|, i requires 0 <= i < |lines| => NumberedLine(i, lines[i]))
  }

  /** `read_file`: "File not found" when the path does not exist, otherwise the numbered
      contents or the read error. */
  function ReadFileOutcome(path: string, exists_: bool, read: Result<string, string>): (r: ToolResult)
    ensures !exists_ ==> r == ErrResult("File not found: " + path)
    ensures exists_ && read.Ok? ==> r == OkResult(Join(NumberedLines(Lines(read.value)), "\n"))
    ensures exists_ && read.Err? ==> r == ErrResult("Failed to read " + path + ": " + read.error)
  {
    if !exists_ then ErrResult("File not found: " + path)
    else match read
      case Ok(contents) => OkResult(Join(NumberedLines(Lines(contents)), "\n"))
      case Err(e) => ErrResult("Failed to read " + path + ": " + e)
  }

  /** A line that `str::lines` gives back unchanged after joining with '\n'. */
  predicate PlainLine(l: string)
  {
    l != [] && '\n' !in l && l[|l| - 1] != '\r'
  }

  lemma {:induction false} LinesOfJoin(xs: seq<string>)
    requires forall i :: 0 <= i < |xs| ==> PlainLine(xs[i])
    ensures Lines(Join(xs, "\n")) == xs
  {
    if xs == [] {
    } else if |xs| == 1 {
      assert Join(xs, "\n") == xs[0];
    } else {
      var s := Join(xs, "\n");
      assert s == xs[0] + "\n" + Join(xs[1..], "\n");
      assert FindChar(s, '\n') == Some(|xs[0]|) by {
        assert s[|xs[0]|] == '\n';
        assert s[..|xs[0]|] == xs[0];
      }
      assert s[..|xs[0]|] == xs[0];
      assert s[|xs[0]| + 1..] == Join(xs[1..], "\n");
      LinesOfJoin(xs[1..]);
    }
  }

  lemma {:induction false} LinesHaveNoNewline(s: string)
    ensures forall i :: 0 <= i < |Lines(s)| ==> '\n' !in Lines(s)[i]
    decreases |s|
  {
    if s != [] {
      match FindChar(s, '\n') {
        case None =>
        case Some(k) =>
          LinesHaveNoNewline(s[k + 1..]);
          assert Lines(s) == [StripCr(s[..k])] + Lines(s[k + 1..]);
          assert '\n' !in s[..k];
          assert StripCr(s[..k]) <= s[..k];
      }
    }
  }

  lemma {:induction false} LinesHaveNoCr(s: string)
    requires '\r' !in s
    ensures forall i :: 0 <= i < |Lines(s)| ==> '\r' !in Lines(s)[i]
    decreases |s|
  {
    if s != [] {
      match FindChar(s, '\n') {
        case None =>
        case Some(k) =>
          assert '\r' !in s[k + 1..];
          LinesHaveNoCr(s[k + 1..]);
          assert Lines(s) == [StripCr(s[..k])] + Lines(s[k + 1..]);
          assert StripCr(s[..k]) <= s[..k];
          assert '\r' !in s[..k];
      }
    }
  }

  /** The number column holds only spaces and digits. */
  lemma NumberColumn(i: nat)
    ensures var pad := PadLeft(NatToString(i + 1), 6);
      forall j :: 0 <= j < |pad| ==> pad[j] == ' ' || IsAsciiDigit(pad[j])
  {
    var digits := NatToString(i + 1);
    var pad := PadLeft(digits, 6);
    assert pad[|pad| - |digits|..] == digits;
    forall j | 0 <= j < |pad| ensures pad[j] == ' ' || IsAsciiDigit(pad[j]) {
      if j >= |pad| - |digits| {
        assert pad[j] == pad[|pad| - |digits|..][j - (|pad| - |digits|)];
      }
    }
  }

  /** A numbered line of a line without '\n' or '\r' is read back as one line. */
  lemma NumberedLinePlain(i: nat, line: string)
    requires '\n' !in line && '\r' !in line
    ensures PlainLine(NumberedLine(i, line))
  {
    var pad := PadLeft(NatToString(i + 1), 6);
    var x := NumberedLine(i, line);
    assert x == pad + "\t" + line;
    NumberColumn(i);
    assert '\n' !in x by {
      forall j | 0 <= j < |x| ensures x[j] != '\n' {
        if j < |pad| { assert x[j] == pad[j]; }
        else if j > |pad| { assert x[j] == line[j - |pad| - 1]; }
      }
    }
    if line == [] {
      assert x[|x| - 1] == '\t';
    } else {
      assert x[|x| - 1] == line[|line| - 1];
    }
  }

  /** For a file without carriage returns, the output of `read_file` has exactly one line
      per line of the file, the i-th numbered i + 1, right-aligned in six columns, then a
      tab, then the file's line. */
  lemma ReadFileOneLinePerLine(path: string, contents: string)
    requires '\r' !in contents
    ensures var out := ReadFileOutcome(path, true, Ok(contents)).output;
      |Lines(out)| == |Lines(contents)|
      && forall i :: 0 <= i < |Lines(contents)| ==>
           Lines(out)[i] == PadLeft(NatToString(i + 1), 6) + "\t" + Lines(contents)[i]
  {
    var ls := Lines(contents);
    var xs := NumberedLines(ls);
    LinesHaveNoNewline(contents);
    LinesHaveNoCr(contents);
    forall i | 0 <= i < |xs| ensures PlainLine(xs[i]) {
      NumberedLinePlain(i, ls[i]);
    }
    LinesOfJoin(xs);
  }

  // ---------------------------------------------------------------------------
  // write_file and list_files: outcome shaping
  // ---------------------------------------------------------------------------

  /** Creating the missing parent directory of a file: the directory as displayed, and the
      outcome of `create_dir_all`. */
  datatype DirCreation = DirCreation(parent: string, outcome: Result<(), string>)

  /** `write_file`: `mkdir` is the creation of the missing parent directory (`None` when
      nothing had to be created), `create` and `write` the outcomes of the file steps. */
  function WriteFileOutcome(path: string, content: string, mkdir: Option<DirCreation>,
                            create: Result<(), string>, write: Result<(), string>): (r: ToolResult)
    ensures r.success <==> (mkdir.None? || mkdir.value.outcome.Ok?) && create.Ok? && write.Ok?
    ensures r.success ==> r.output == "Wrote " + NatToString(Utf8Len(content)) + " bytes to " + path
    ensures mkdir.Some? && mkdir.value.outcome.Err? ==>
      r == ErrResult("Failed to create directory " + mkdir.value.parent + ": " + mkdir.value.outcome.error)
    ensures (mkdir.None? || mkdir.value.outcome.Ok?) && create.Err? ==>
      r == ErrResult("Failed to create " + path + ": " + create.error)
    ensures (mkdir.None? || mkdir.value.outcome.Ok?) && create.Ok? && write.Err? ==>
      r == ErrResult("Failed to write " + path + ": " + write.error)
  {
    if mkdir.Some? && mkdir.value.outcome.Err? then
      ErrResult("Failed to create directory " + mkdir.value.parent + ": " + mkdir.value.outcome.error)
    else if create.Err? then ErrResult("Failed to create " + path + ": " + create.error)
    else if write.Err? then ErrResult("Failed to write " + path + ": " + write.error)
    else OkResult("Wrote " + NatToString(Utf8Len(content)) + " bytes to " + path)
  }

  /** The glob `list_files` expands: the pattern under the base, or everything below it. */
  function GlobPattern(path: string, pattern: Option<string>): (r: string)
    ensures path + "/" <= r
    ensures r[|path| + 1..] == if pattern.Some? then pattern.value else "**/*"
  {
    match pattern
    case Some(p) => path + "/" + p
    case None => path + "/**/*"
  }

  function GlobEntry(e: Result<string, string>): string
  {
    match e
    case Ok(p) => p
    case Err(msg) => "(error: " + msg + ")"
  }

  /** `list_files`: the matched paths one per line (a listing error as "(error: ...)"). The
      glob matcher is the parameter `glob`, asked about the pattern `GlobPattern` builds. */
  function ListFilesOutcome(path: string, pattern: Option<string>, exists_: bool,
                            glob: string -> Result<seq<Result<string, string>>, string>): (r: ToolResult)
    ensures var g := glob(GlobPattern(path, pattern));
      && (!exists_ ==> r == ErrResult("Directory not found: " + path))
      && (exists_ && g.Ok? && g.value == [] ==> r == OkResult("No files matched the pattern."))
      && (exists_ && g.Ok? && g.value != [] ==>
            r == OkResult(Join(seq(|g.value|, i requires 0 <= i < |g.value| => GlobEntry(g.value[i])), "\n")))
      && (exists_ && g.Err? ==> r == ErrResult("Invalid glob pattern: " + g.error))
  {
    if !exists_ then ErrResult("Directory not found: " + path)
    else match glob(GlobPattern(path, pattern))
      case Err(e) => ErrResult("Invalid glob pattern: " + e)
      case Ok(entries) =>
        if entries == [] then OkResult("No files matched the pattern.")
        else OkResult(Join(seq(|entries|, i requires 0 <= i < |entries| => GlobEntry(entries[i])), "\n"))
  }

  // ---------------------------------------------------------------------------
  // search_files and execute: process outcomes
  // ---------------------------------------------------------------------------

  /** What a finished child process produced; `code` is `None` when a signal ended it. */
  datatype ProcessOutput = ProcessOutput(stdout: string, stderr: string, code: Option<int>)
  {
    /** `ExitStatus::success` */
    predicate Succeeded()
    {
      code == Some(0)
    }
  }

  /** The search program and its arguments: ripgrep when available, else `grep -rn`. */
  function SearchCommand(rgAvailable: bool, pattern: string, under: Option<string>): (r: (string, seq<string>))
    ensures |r.1| >= 2 && r.1[|r.1| - 2] == pattern && r.1[|r.1| - 1] == under.GetOr(".")
  {
    var dir := under.GetOr(".");
    if rgAvailable then ("rg", ["--line-number", "--no-heading", "--color=never", pattern, dir])
    else ("grep", ["-rn", "--color=never", pattern, dir])
  }

  /** `search_files` given the spawn outcome: matches are a success, as is exit code 1 with
      nothing on stderr ("no matches"); anything else is an error. */
  function SearchOutcome(program: string, run: Result<ProcessOutput, string>): (r: ToolResult)
    ensures run.Err? ==> r == ErrResult("Failed to run " + program + ": " + run.error)
    ensures run.Ok? ==> (r.success <==>
      run.value.Succeeded() || run.value.stdout != [] || (run.value.code == Some(1) && run.value.stderr == []))
    ensures run.Ok? && run.value.stdout != [] ==> r == OkResult(run.value.stdout)
    ensures run.Ok? && run.value.stdout == [] && r.success ==> r == OkResult("No matches found.")
    ensures run.Ok? && !r.success ==> r == ErrResult(program + " error: " + run.value.stderr)
  {
    match run
    case Err(e) => ErrResult("Failed to run " + program + ": " + e)
    case Ok(out) =>
      if out.Succeeded() || out.stdout != [] then
        OkResult(if out.stdout == [] then "No matches found." else out.stdout)
      else if out.code == Some(1) && out.stderr == [] then OkResult("No matches found.")
      else ErrResult(program + " error: " + out.stderr)
  }

  /** How waiting for a command ended. */
  datatype WaitOutcome = Exited(output: ProcessOutput) | TimedOut | WaitFailed(message: string)

  /** The combined output of a command: stdout; then, when stderr is non-empty, a newline if
      stdout precedes it and "[stderr]\n" followed by stderr; "(no output)" when both streams
      are empty. Never empty, it starts with stdout and ends with stderr. */
  function Combined(stdout: string, stderr: string): (r: string)
    ensures r != []
    ensures stdout <= r
    ensures stderr != [] ==> |stderr| <= |r| && r[|r| - |stderr|..] == stderr
    ensures stdout == [] && stderr == [] ==> r == "(no output)"
  {
    if stdout == [] && stderr == [] then "(no output)"
    else if stderr == [] then stdout
    else if stdout == [] then "[stderr]\n" + stderr
    else stdout + "\n" + "[stderr]\n" + stderr
  }

  /** Building the combined output piece by piece, as `execute_command` does. */
  method CombineOutput(stdout: string, stderr: string) returns (combined: string)
    ensures combined == Combined(stdout, stderr)
  {
    combined := [];
    if stdout != [] {
      combined := combined + stdout;
    }
    if stderr != [] {
      if combined != [] {
        combined := combined + "\n";
      }
      combined := combined + "[stderr]\n";
      combined := combined + stderr;
    }
    if combined == [] {
      combined := "(no output)";
    }
  }

  /** `execute_command` given the spawn and wait outcomes: success iff the exit status is
      success; otherwise the combined output is prefixed with "Exit code N\n" (N is -1
      when no code is available). */
  method ExecuteCommandOutcome(spawn: Result<(), string>, wait: WaitOutcome, timeoutSecs: nat)
    returns (r: ToolResult)
    ensures spawn.Err? ==> r == ErrResult("Failed to spawn command: " + spawn.error)
    ensures spawn.Ok? && wait.TimedOut? ==>
      r == ErrResult("Command timed out after " + NatToString(timeoutSecs) + " seconds")
    ensures spawn.Ok? && wait.WaitFailed? ==> r == ErrResult("Error waiting for process: " + wait.message)
    ensures spawn.Ok? && wait.Exited? ==> (r.success <==> wait.output.Succeeded())
    ensures spawn.Ok? && wait.Exited? && wait.output.Succeeded() ==>
      r == OkResult(Combined(wait.output.stdout, wait.output.stderr))
    ensures spawn.Ok? && wait.Exited? && !wait.output.Succeeded() ==>
      r == ErrResult("Exit code " + IntToString(wait.output.code.GetOr(-1)) + "\n"
                     + Combined(wait.output.stdout, wait.output.stderr))
  {
    if spawn.Err? {
      return ErrResult("Failed to spawn command: " + spawn.error);
    }
    match wait {
      case TimedOut =>
        r := ErrResult("Command timed out after " + NatToString(timeoutSecs) + " seconds");
      case WaitFailed(msg) =>
        r := ErrResult("Error waiting for process: " + msg);
      case Exited(out) =>
        var combined := CombineOutput(out.stdout, out.stderr);
        if out.Succeeded() {
          r := OkResult(combined);
        } else {
          r := ErrResult("Exit code " + IntToString(out.code.GetOr(-1)) + "\n" + combined);
        }
    }
  }

  // ---------------------------------------------------------------------------
  // edit_file: unique-occurrence replacement
  // ---------------------------------------------------------------------------

  /** `str::matches(pat).count()`: non-overlapping occurrences scanned left to right; the
      empty pattern matches at each of the |s| + 1 positions. */
  function CountMatches(s: string, pat: string): nat
    decreases |s|
  {
    if pat == [] then |s| + 1
    else match Find(s, pat)
      case None => 0
      case Some(i) => 1 + CountMatches(s[i + |pat|..], pat)
  }

  /** `str::replacen(pat, rep, 1)`: the first occurrence replaced, if there is one. */
  function ReplaceFirst(s: string, pat: string, rep: string): string
  {
    match Find(s, pat)
    case None => s
    case Some(i) => s[..i] + rep + s[i + |pat|..]
  }

  /** No occurrence at all exactly when the count is zero. */
  lemma CountZeroIffAbsent(s: string, pat: string)
    ensures CountMatches(s, pat) == 0 <==> !Contains(s, pat)
  {
    if pat == [] {
      assert OccursAt(s, pat, 0);
    } else {
      FindFirst(s, pat);
      match Find(s, pat) {
        case None =>
        case Some(i) =>
      }
    }
  }

  /** A count of exactly one means: the first occurrence is the only one that starts at or
      after it without overlapping it, and the replacement puts `rep` exactly there. */
  lemma CountOneReplacesThatOccurrence(s: string, pat: string, rep: string)
    requires pat != [] && CountMatches(s, pat) == 1
    ensures Find(s, pat).Some?
    ensures var i := Find(s, pat).value;
      && OccursAt(s, pat, i)
      && (forall j :: 0 <= j < i ==> !OccursAt(s, pat, j))
      && (forall j :: i + |pat| <= j <= |s| ==> !OccursAt(s, pat, j))
      && ReplaceFirst(s, pat, rep) == s[..i] + rep + s[i + |pat|..]
  {
    CountOneSplit(s, pat);
    FindFirst(s, pat);
    var i := Find(s, pat).value;
    var m := i + |pat|;
    assert m <= |s|;
    assert Find(s[m..], pat).None?;
    AbsentAfter(s, pat, m);
  }

  /** A count of one: there is a first occurrence and none in the text after it. */
  lemma CountOneSplit(s: string, pat: string)
    requires pat != [] && CountMatches(s, pat) == 1
    ensures Find(s, pat).Some? && Find(s, pat).value + |pat| <= |s|
    ensures Find(s[Find(s, pat).value + |pat|..], pat).None?
  {
    assert Find(s, pat).Some?;
    var m := Find(s, pat).value + |pat|;
    assert m <= |s|;
    var rest := s[m..];
    assert CountMatches(rest, pat) == 0;
    assert Find(rest, pat).None?;
  }

  /** No occurrence found in a suffix means no occurrence starting in it. */
  lemma AbsentAfter(s: string, pat: string, m: nat)
    requires m <= |s| && Find(s[m..], pat).None?
    ensures forall j :: m <= j <= |s| ==> !OccursAt(s, pat, j)
  {
    forall j | m <= j <= |s| ensures !OccursAt(s, pat, j) {
      FindFirst(s[m..], pat);
      AbsentInSuffix(s, pat, m, j);
    }
  }

  lemma AbsentInSuffix(s: string, pat: string, m: nat, j: nat)
    requires m <= j <= |s| && !OccursAt(s[m..], pat, j - m)
    ensures !OccursAt(s, pat, j)
  {
    if j + |pat| <= |s| {
      assert s[j..j + |pat|] == s[m..][j - m..j - m + |pat|];
    }
  }

  /** The result of `edit_file` together with the contents it writes, if it writes. */
  datatype EditOutcome = EditOutcome(result: ToolResult, written: Option<string>)

  /** `edit_file`: `current` is the existence check and read of the file (`None` when it
      does not exist), `write` the outcome of writing the new contents. */
  function EditFileOutcome(path: string, current: Option<Result<string, string>>,
                           oldText: string, newText: string, write: Result<(), string>): (r: EditOutcome)
    ensures current.None? ==> r == EditOutcome(ErrResult("File not found: " + path), None)
    ensures current.Some? && current.value.Err? ==>
      r == EditOutcome(ErrResult("Failed to read " + path + ": " + current.value.error), None)
    ensures current.Some? && current.value.Ok? && CountMatches(current.value.value, oldText) == 0 ==>
      r == EditOutcome(ErrResult("old_text not found in " + path), None)
    ensures current.Some? && current.value.Ok? && CountMatches(current.value.value, oldText) > 1 ==>
      r.written.None? && !r.result.success
      && r.result.output == "old_text matches " + NatToString(CountMatches(current.value.value, oldText))
           + " locations in " + path + " -- provide more context to make it unique"
    ensures current.Some? && current.value.Ok? && CountMatches(current.value.value, oldText) == 1 ==>
      r.written == Some(ReplaceFirst(current.value.value, oldText, newText))
      && (r.result.success <==> write.Ok?)
  {
    match current
    case None => EditOutcome(ErrResult("File not found: " + path), None)
    case Some(Err(e)) => EditOutcome(ErrResult("Failed to read " + path + ": " + e), None)
    case Some(Ok(contents)) =>
      var count := CountMatches(contents, oldText);
      if count == 0 then EditOutcome(ErrResult("old_text not found in " + path), None)
      else if count > 1 then
        EditOutcome(ErrResult("old_text matches " + NatToString(count) + " locations in " + path
                              + " -- provide more context to make it unique"), None)
      else
        var newContents := ReplaceFirst(contents, oldText, newText);
        match write
        case Ok(_) => EditOutcome(OkResult("Applied edit to " + path + " (replaced 1 occurrence)"), Some(newContents))
        case Err(e) => EditOutcome(ErrResult("Failed to write " + path + ": " + e), Some(newContents))
  }

  /** An existing `old_text` occurring twice, without overlap, is refused and nothing is
      written, so the file stays byte-for-byte as it was. */
  lemma EditAmbiguousWritesNothing(path: string, contents: string, oldText: string, newText: string,
                                   write: Result<(), string>, i: nat, j: nat)
    requires oldText != [] && OccursAt(contents, oldText, i) && OccursAt(contents, oldText, j)
    requires i + |oldText| <= j
    ensures EditFileOutcome(path, Some(Ok(contents)), oldText, newText, write).written.None?
    ensures !EditFileOutcome(path, Some(Ok(contents)), oldText, newText, write).result.success
  {
    CountAtLeastTwo(contents, oldText, i, j);
  }

  lemma CountAtLeastOne(s: string, pat: string, j: nat)
    requires pat != [] && OccursAt(s, pat, j)
    ensures Find(s, pat).Some? && Find(s, pat).value <= j
    ensures CountMatches(s, pat) >= 1
  {
    FindFirst(s, pat);
  }

  lemma OccursInSuffix(s: string, pat: string, m: nat, j: nat)
    requires m <= j && OccursAt(s, pat, j)
    ensures OccursAt(s[m..], pat, j - m)
  {
    assert s[m..][j - m..j - m + |pat|] == s[j..j + |pat|];
  }

  lemma CountAtLeastTwo(s: string, pat: string, i: nat, j: nat)
    requires pat != [] && OccursAt(s, pat, i) && OccursAt(s, pat, j) && i + |pat| <= j
    ensures CountMatches(s, pat) >= 2
  {
    CountAtLeastOne(s, pat, i);
    var m := Find(s, pat).value + |pat|;
    OccursInSuffix(s, pat, m, j);
    CountAtLeastOne(s[m..], pat, j - m);
  }
}
