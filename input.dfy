/** The pure helpers behind the input line and the chat view: cursor motions, undo
    snapshots, command completion, `common_prefix`, model aliases, tool-argument display,
    fenced code-block extraction and search-match wrap-around. Positions are char
    indices into the input, where the program keeps UTF-8 byte offsets. */
module Input {
  import opened Wrappers
  import opened Text
  import Tools

  // ---------------------------------------------------------------------------
  // Cursor motions
  // ---------------------------------------------------------------------------

  function NotWhitespace(c: char): bool
  {
    !IsWhitespace(c)
  }

  /** Where a word that ends at the end of `before` starts: one past the last whitespace
      that precedes it, once trailing whitespace is set aside (0 when there is none). */
  function WordStart(before: string): (r: nat)
    ensures r <= |TrimEnd(before)| <= |before|
    ensures r == 0 || IsWhitespace(before[r - 1])
    ensures forall j :: r <= j < |TrimEnd(before)| ==> !IsWhitespace(before[j])
  {
    var t := TrimEnd(before);
    match RFindBy(t, IsWhitespace)
    case Some(i) => i + 1
    case None => 0
  }

  /** The start of the line holding the end of `before`: one past its last '\n'. */
  function LineStart(before: string): (r: nat)
    ensures r <= |before|
    ensures r == 0 || before[r - 1] == '\n'
    ensures '\n' !in before[r..]
  {
    match RFindChar(before, '\n')
    case Some(i) => i + 1
    case None => 0
  }

  /** How far the end of the current line is: up to the first '\n' of `after`. */
  function LineEndOffset(after: string): (r: nat)
    ensures r <= |after|
    ensures r == |after| || after[r] == '\n'
    ensures '\n' !in after[..r]
  {
    match FindChar(after, '\n')
    case Some(i) => i
    case None => |after|
  }

  /** The end of the word at the start of `after`: its first whitespace. */
  function WordEnd(after: string): (k: nat)
    ensures k <= |after|
    ensures forall j :: 0 <= j < k ==> !IsWhitespace(after[j])
    ensures k == |after| || IsWhitespace(after[k])
  {
    match FindBy(after, IsWhitespace) case Some(i) => i case None => |after|
  }

  /** How far `w` moves: over the rest of the word, then over the whitespace after it. */
  function WordForwardOffset(after: string): (r: nat)
    ensures WordEnd(after) <= r <= |after|
    ensures forall j :: WordEnd(after) <= j < r ==> IsWhitespace(after[j])
    ensures r == |after| || !IsWhitespace(after[r])
  {
    var skipWord := WordEnd(after);
    var rest := after[skipWord..];
    var skipSpace := match FindBy(rest, NotWhitespace) case Some(i) => i case None => |rest|;
    SpaceRunShift(after, skipWord, skipSpace);
    skipWord + skipSpace
  }

  /** A run of whitespace found in a suffix is the same run in the whole text. */
  lemma SpaceRunShift(s: string, k: nat, n: nat)
    requires k + n <= |s|
    requires forall j :: 0 <= j < n ==> IsWhitespace(s[k..][j])
    requires n == |s| - k || !IsWhitespace(s[k..][n])
    ensures forall j :: k <= j < k + n ==> IsWhitespace(s[j])
    ensures k + n == |s| || !IsWhitespace(s[k + n])
  {
    forall j | k <= j < k + n ensures IsWhitespace(s[j]) {
      assert s[k..][j - k] == s[j];
    }
    assert k + n < |s| ==> s[k + n] == s[k..][n];
  }

  // ---------------------------------------------------------------------------
  // Undo and redo
  // ---------------------------------------------------------------------------

  /** A saved `(text, cursor)` pair. */
  datatype Snapshot = Snapshot(text: string, cursor: nat)

  const UndoLimit: nat := 100

  /** The input line with its two stacks. */
  datatype EditState = EditState(input: string, cursor: nat, undo: seq<Snapshot>, redo: seq<Snapshot>)

  /** `save_undo_state`: pushes the current line, drops the oldest entry past 100, and
      forgets everything that could be redone. */
  function SaveUndo(e: EditState): (r: EditState)
    ensures r.input == e.input && r.cursor == e.cursor && r.redo == []
    ensures |e.undo| <= UndoLimit ==> |r.undo| <= UndoLimit
    ensures r.undo != [] && r.undo[|r.undo| - 1] == Snapshot(e.input, e.cursor)
  {
    var pushed := e.undo + [Snapshot(e.input, e.cursor)];
    EditState(e.input, e.cursor, if |pushed| > UndoLimit then pushed[1..] else pushed, [])
  }

  /** `undo`: the last saved line comes back and the current one becomes redoable;
      `None` when there is nothing to undo. */
  function Undo(e: EditState): (r: Option<EditState>)
    ensures r.None? <==> e.undo == []
    ensures r.Some? ==> |r.value.undo| + |r.value.redo| == |e.undo| + |e.redo|
  {
    if e.undo == [] then None
    else
      var s := e.undo[|e.undo| - 1];
      Some(EditState(s.text, s.cursor, e.undo[..|e.undo| - 1], e.redo + [Snapshot(e.input, e.cursor)]))
  }

  /** `redo`: the mirror image of `undo`. */
  function Redo(e: EditState): (r: Option<EditState>)
    ensures r.None? <==> e.redo == []
    ensures r.Some? ==> |r.value.undo| + |r.value.redo| == |e.undo| + |e.redo|
  {
    if e.redo == [] then None
    else
      var s := e.redo[|e.redo| - 1];
      Some(EditState(s.text, s.cursor, e.undo + [Snapshot(e.input, e.cursor)], e.redo[..|e.redo| - 1]))
  }

  /** Undo then redo gives back the line, the cursor and both stacks; so does redo then
      undo. */
  lemma UndoRedoRoundTrip(e: EditState)
    ensures Undo(e).Some? ==> Redo(Undo(e).value) == Some(e)
    ensures Redo(e).Some? ==> Undo(Redo(e).value) == Some(e)
  {
    if e.undo != [] {
      var u := Undo(e).value;
      assert u.undo + [Snapshot(u.input, u.cursor)] == e.undo;
      assert u.redo[..|u.redo| - 1] == e.redo;
    }
    if e.redo != [] {
      var r := Redo(e).value;
      assert r.redo + [Snapshot(r.input, r.cursor)] == e.redo;
      assert r.undo[..|r.undo| - 1] == e.undo;
    }
  }

  /** Every snapshot's cursor lies within its text. */
  predicate SnapshotsValid(s: seq<Snapshot>)
  {
    forall i :: 0 <= i < |s| ==> s[i].cursor <= |s[i].text|
  }

  /** The invariant the editor keeps: the cursor within the line, the saved cursors within
      their lines, and at most 100 snapshots between the two stacks. */
  predicate EditValid(e: EditState)
  {
    e.cursor <= |e.input| && SnapshotsValid(e.undo) && SnapshotsValid(e.redo)
    && |e.undo| + |e.redo| <= UndoLimit
  }

  /** Saving, undoing and redoing all keep the invariant. */
  lemma EditValidPreserved(e: EditState)
    requires EditValid(e)
    ensures EditValid(SaveUndo(e))
    ensures Undo(e).Some? ==> EditValid(Undo(e).value)
    ensures Redo(e).Some? ==> EditValid(Redo(e).value)
  {
  }

  // ---------------------------------------------------------------------------
  // Editing the input line
  // ---------------------------------------------------------------------------

  /** `insert_char`: saves the line, then inserts `c` at the cursor and moves past it. */
  function InsertChar(e: EditState, c: char): (r: EditState)
    requires e.cursor <= |e.input|
    ensures r.cursor == e.cursor + 1 && |r.input| == |e.input| + 1 && r.input[e.cursor] == c
    ensures r.input[..e.cursor] == e.input[..e.cursor] && r.input[e.cursor + 1..] == e.input[e.cursor..]
    ensures r.undo == SaveUndo(e).undo && r.redo == []
  {
    var u := SaveUndo(e);
    var s := e.input[..e.cursor] + [c] + e.input[e.cursor..];
    assert s[e.cursor + 1..] == e.input[e.cursor..];
    u.(input := s, cursor := e.cursor + 1)
  }

  /** `paste_clipboard`: saves the line once, then inserts all of `text` at the cursor. */
  function Paste(e: EditState, text: string): (r: EditState)
    requires e.cursor <= |e.input|
    ensures r.cursor == e.cursor + |text| && |r.input| == |e.input| + |text|
    ensures r.input[..e.cursor] == e.input[..e.cursor] && r.input[e.cursor..r.cursor] == text
    ensures r.input[r.cursor..] == e.input[e.cursor..]
    ensures r.undo == SaveUndo(e).undo && r.redo == []
  {
    var u := SaveUndo(e);
    var s := e.input[..e.cursor] + text + e.input[e.cursor..];
    assert s[e.cursor..e.cursor + |text|] == text;
    assert s[e.cursor + |text|..] == e.input[e.cursor..];
    u.(input := s, cursor := e.cursor + |text|)
  }

  /** `delete_char_before_cursor`: at the start of the line, nothing; otherwise saves the
      line and removes the char before the cursor. */
  function DeleteCharBefore(e: EditState): (r: EditState)
    requires e.cursor <= |e.input|
    ensures e.cursor == 0 ==> r == e
    ensures e.cursor > 0 ==>
      (r.cursor == e.cursor - 1 && |r.input| == |e.input| - 1
       && r.input[..r.cursor] == e.input[..r.cursor] && r.input[r.cursor..] == e.input[e.cursor..]
       && r.undo == SaveUndo(e).undo && r.redo == [])
  {
    if e.cursor == 0 then e
    else
      var u := SaveUndo(e);
      var s := e.input[..e.cursor - 1] + e.input[e.cursor..];
      assert s[e.cursor - 1..] == e.input[e.cursor..];
      u.(input := s, cursor := e.cursor - 1)
  }

  /** `delete_char_at_cursor`: at the end of the line, nothing; otherwise saves the line and
      removes the char under the cursor, which stays put. */
  function DeleteCharAt(e: EditState): (r: EditState)
    requires e.cursor <= |e.input|
    ensures e.cursor == |e.input| ==> r == e
    ensures e.cursor < |e.input| ==>
      (r.cursor == e.cursor && |r.input| == |e.input| - 1
       && r.input[..e.cursor] == e.input[..e.cursor] && r.input[e.cursor..] == e.input[e.cursor + 1..]
       && r.undo == SaveUndo(e).undo && r.redo == [])
  {
    if e.cursor == |e.input| then e
    else
      var u := SaveUndo(e);
      var s := e.input[..e.cursor] + e.input[e.cursor + 1..];
      assert s[e.cursor..] == e.input[e.cursor + 1..];
      u.(input := s)
  }

  /** `delete_word_before_cursor` (Ctrl-w): at the start of the line, nothing; otherwise
      saves the line and removes from the start of the word before the cursor. */
  function DeleteWordBefore(e: EditState): (r: EditState)
    requires e.cursor <= |e.input|
    ensures e.cursor == 0 ==> r == e
    ensures e.cursor > 0 ==>
      (r.cursor == WordStart(e.input[..e.cursor]) <= e.cursor
       && r.input == e.input[..r.cursor] + e.input[e.cursor..]
       && r.undo == SaveUndo(e).undo && r.redo == [])
  {
    if e.cursor == 0 then e
    else
      var u := SaveUndo(e);
      var start := WordStart(e.input[..e.cursor]);
      u.(input := e.input[..start] + e.input[e.cursor..], cursor := start)
  }

  /** `delete_to_start` (Ctrl-u): saves the line and keeps only what follows the cursor. */
  function DeleteToStart(e: EditState): (r: EditState)
    requires e.cursor <= |e.input|
    ensures r.input == e.input[e.cursor..] && r.cursor == 0
    ensures r.undo == SaveUndo(e).undo && r.redo == []
  {
    SaveUndo(e).(input := e.input[e.cursor..], cursor := 0)
  }

  /** `clear_input`: saves the line and empties it. */
  function ClearInput(e: EditState): (r: EditState)
    ensures r.input == [] && r.cursor == 0
    ensures r.undo == SaveUndo(e).undo && r.redo == []
  {
    SaveUndo(e).(input := [], cursor := 0)
  }

  /** `cursor_left` */
  function CursorLeft(e: EditState): (r: EditState)
    ensures r == e.(cursor := if e.cursor > 0 then e.cursor - 1 else 0)
  {
    if e.cursor > 0 then e.(cursor := e.cursor - 1) else e
  }

  /** `cursor_right` */
  function CursorRight(e: EditState): (r: EditState)
    ensures e.cursor < |e.input| ==> r == e.(cursor := e.cursor + 1)
    ensures e.cursor >= |e.input| ==> r == e
  {
    if e.cursor < |e.input| then e.(cursor := e.cursor + 1) else e
  }

  /** `cursor_home`: to the start of the current line. */
  function CursorHome(e: EditState): (r: EditState)
    requires e.cursor <= |e.input|
    ensures r.input == e.input && r.undo == e.undo && r.redo == e.redo
    ensures r.cursor <= e.cursor && (r.cursor == 0 || e.input[r.cursor - 1] == '\n')
    ensures '\n' !in e.input[r.cursor..e.cursor]
  {
    var k := LineStart(e.input[..e.cursor]);
    assert e.input[..e.cursor][k..] == e.input[k..e.cursor];
    e.(cursor := k)
  }

  /** `cursor_end`: to the end of the current line. */
  function CursorEnd(e: EditState): (r: EditState)
    requires e.cursor <= |e.input|
    ensures r.input == e.input && r.undo == e.undo && r.redo == e.redo
    ensures e.cursor <= r.cursor <= |e.input| && (r.cursor == |e.input| || e.input[r.cursor] == '\n')
    ensures '\n' !in e.input[e.cursor..r.cursor]
  {
    var n := LineEndOffset(e.input[e.cursor..]);
    assert e.input[e.cursor..][..n] == e.input[e.cursor..e.cursor + n];
    e.(cursor := e.cursor + n)
  }

  /** `cursor_word_forward` (w): past the rest of the word and the whitespace after it. */
  function WordForward(e: EditState): (r: EditState)
    requires e.cursor <= |e.input|
    ensures r.input == e.input && r.undo == e.undo && r.redo == e.redo
    ensures e.cursor <= r.cursor <= |e.input|
    ensures r.cursor == |e.input| || !IsWhitespace(e.input[r.cursor])
  {
    var n := WordForwardOffset(e.input[e.cursor..]);
    assert e.cursor + n < |e.input| ==> e.input[e.cursor..][n] == e.input[e.cursor + n];
    e.(cursor := e.cursor + n)
  }

  /** `cursor_word_back` (b): to the start of the word before the cursor. */
  function WordBack(e: EditState): (r: EditState)
    requires e.cursor <= |e.input|
    ensures r.input == e.input && r.undo == e.undo && r.redo == e.redo
    ensures r.cursor <= e.cursor
    ensures e.cursor > 0 ==> r.cursor == WordStart(e.input[..e.cursor])
  {
    if e.cursor == 0 then e else e.(cursor := WordStart(e.input[..e.cursor]))
  }

  /** Deleting the char just inserted gives the line and the cursor back. */
  lemma InsertThenDelete(e: EditState, c: char)
    requires e.cursor <= |e.input|
    ensures DeleteCharBefore(InsertChar(e, c)).input == e.input
    ensures DeleteCharBefore(InsertChar(e, c)).cursor == e.cursor
  {
    var r := InsertChar(e, c);
    var d := DeleteCharBefore(r);
    assert d.input == d.input[..e.cursor] + d.input[e.cursor..];
    assert e.input == e.input[..e.cursor] + e.input[e.cursor..];
  }

  /** Every edit that saves the line can be undone: undo brings back the line and the
      cursor as they were before the edit. */
  lemma UndoRestoresEdit(e: EditState, r: EditState)
    requires r.undo == SaveUndo(e).undo
    ensures Undo(r).Some? && Undo(r).value.input == e.input && Undo(r).value.cursor == e.cursor
  {
  }

  /** The editing operations keep the editor's invariant. */
  lemma EditsKeepValid(e: EditState, c: char, text: string)
    requires EditValid(e)
    ensures EditValid(InsertChar(e, c)) && EditValid(Paste(e, text))
    ensures EditValid(DeleteCharBefore(e)) && EditValid(DeleteCharAt(e))
    ensures EditValid(DeleteWordBefore(e)) && EditValid(DeleteToStart(e)) && EditValid(ClearInput(e))
    ensures EditValid(CursorLeft(e)) && EditValid(CursorRight(e)) && EditValid(CursorHome(e))
    ensures EditValid(CursorEnd(e)) && EditValid(WordForward(e)) && EditValid(WordBack(e))
  {
    EditValidPreserved(e);
  }

  // ---------------------------------------------------------------------------
  // Command completion
  // ---------------------------------------------------------------------------

  /** The slash commands offered by tab completion, in the order they are listed. */
  const Commands: seq<string> := [
    "/clear", "/new", "/model", "/models", "/provider", "/system",
    "/history", "/help", "/temp", "/save", "/nvim", "/tools", "/file",
    "/context", "/paste", "/resume", "/diff", "/export", "/theme",
    "/retry", "/edit", "/quit", "/run", "/undo", "/redo"]

  /** The file commands whose argument is completed as a path instead. */
  const PathCommands: seq<string> := ["/file ", "/f ", "/export "]

  /** The entries of `names` that start with `typed`, in order. */
  function Matching(names: seq<string>, typed: string): (r: seq<string>)
    ensures forall c :: c in r <==> c in names && typed <= c
    ensures |r| <= |names|
  {
    if names == [] then []
    else (if typed <= names[0] then [names[0]] else []) + Matching(names[1..], typed)
  }

  /** Completion never offers a command that does not start with what was typed, and a
      full command name is always among its own completions. */
  lemma MatchingCommands(typed: string)
    ensures forall c :: c in Matching(Commands, typed) ==> typed <= c
    ensures typed in Commands ==> typed in Matching(Commands, typed)
  {
  }

  // ---------------------------------------------------------------------------
  // Longest common prefix
  // ---------------------------------------------------------------------------

  predicate IsCommonPrefix(p: string, strings: seq<string>)
  {
    forall k :: 0 <= k < |strings| ==> p <= strings[k]
  }

  /** `common_prefix`: `None` for no strings, otherwise the longest prefix they share. */
  method CommonPrefix(strings: seq<string>) returns (r: Option<string>)
    ensures r.None? <==> strings == []
    ensures r.Some? ==> IsCommonPrefix(r.value, strings)
    ensures r.Some? ==> forall q :: IsCommonPrefix(q, strings) ==> |q| <= |r.value|
  {
    if strings == [] {
      return None;
    }
    var first := strings[0];
    var prefixLen: nat := |first|;
    ghost var w: nat := 0;
    var k := 1;
    while k < |strings|
      invariant 1 <= k <= |strings|
      invariant prefixLen <= |first|
      invariant forall m :: 0 <= m < k ==> first[..prefixLen] <= strings[m]
      invariant prefixLen < |first| ==> w < k && Stops(first, strings[w], prefixLen)
    {
      var s := strings[k];
      ghost var before := prefixLen;
      if |s| < prefixLen {
        prefixLen := |s|;
      }
      var i: nat := 0;
      while i < |first| && i < |s|
        invariant i <= prefixLen <= before && prefixLen <= |s|
        invariant first[..i] == s[..i]
        invariant prefixLen < before ==> Stops(first, s, prefixLen)
      {
        if i >= prefixLen || first[i] != s[i] {
          prefixLen := i;
          break;
        }
        i := i + 1;
      }
      assert first[..prefixLen] == s[..prefixLen] by {
        assert first[..prefixLen] == first[..i][..prefixLen];
        assert s[..prefixLen] == s[..i][..prefixLen];
      }
      if prefixLen < before {
        w := k;
      }
      forall m | 0 <= m < k ensures first[..prefixLen] <= strings[m] {
        assert first[..prefixLen] == first[..before][..prefixLen];
      }
      k := k + 1;
    }
    r := Some(first[..prefixLen]);
    forall q | IsCommonPrefix(q, strings) ensures |q| <= prefixLen {
      assert q <= first;
    }
  }

  /** `s` rules out extending the prefix of `first` past `n` chars. */
  predicate Stops(first: string, s: string, n: nat)
    requires n < |first|
  {
    |s| <= n || s[n] != first[n]
  }

  // ---------------------------------------------------------------------------
  // Model aliases and tool display
  // ---------------------------------------------------------------------------

  const Sonnet := "claude-sonnet-4-20250514"
  const Opus := "claude-opus-4-20250514"
  const Haiku := "claude-haiku-4-5-20251001"

  predicate IsAlias(a: string)
  {
    a in ["sonnet", "s", "opus", "o", "haiku", "h", "gpt4", "gpt4m"]
  }

  /** The full identifier an alias stands for. */
  function AliasTarget(a: string): (r: Option<string>)
    ensures r.Some? <==> IsAlias(a)
    ensures r.Some? ==> r.value in [Sonnet, Opus, Haiku, "gpt-4o", "gpt-4o-mini"]
    ensures (a == "sonnet" || a == "s") ==> r == Some(Sonnet)
    ensures (a == "opus" || a == "o") ==> r == Some(Opus)
    ensures (a == "haiku" || a == "h") ==> r == Some(Haiku)
    ensures a == "gpt4" ==> r == Some("gpt-4o")
    ensures a == "gpt4m" ==> r == Some("gpt-4o-mini")
  {
    if a == "sonnet" || a == "s" then Some(Sonnet)
    else if a == "opus" || a == "o" then Some(Opus)
    else if a == "haiku" || a == "h" then Some(Haiku)
    else if a == "gpt4" then Some("gpt-4o")
    else if a == "gpt4m" then Some("gpt-4o-mini")
    else None
  }

  /** `resolve_model_alias`: a short name (after trimming) becomes the full model
      identifier; anything else is kept, trimmed. */
  function ResolveModelAlias(alias: string): (r: string)
    ensures IsAlias(Trim(alias)) ==> r == AliasTarget(Trim(alias)).value
    ensures IsAlias(Trim(alias)) ==> r in [Sonnet, Opus, Haiku, "gpt-4o", "gpt-4o-mini"]
    ensures !IsAlias(Trim(alias)) ==> r == Trim(alias)
  {
    AliasTarget(Trim(alias)).GetOr(Trim(alias))
  }

  /** The full identifiers are their own trim and are not aliases. */
  lemma TargetFixed(t: string)
    requires t in [Sonnet, Opus, Haiku, "gpt-4o", "gpt-4o-mini"]
    ensures Trim(t) == t && !IsAlias(t)
  {
    assert !IsWhitespace(t[0]) && !IsWhitespace(t[|t| - 1]);
    TrimFixed(t);
  }

  /** Resolving twice is resolving once: full identifiers are not aliases. */
  lemma ResolveIdempotent(alias: string)
    ensures ResolveModelAlias(ResolveModelAlias(alias)) == ResolveModelAlias(alias)
  {
    if IsAlias(Trim(alias)) {
      TargetFixed(ResolveModelAlias(alias));
    } else {
      TrimFixed(Trim(alias));
    }
  }

  /** `format_tool_args`: the arguments as shown with an invocation. Sizes are UTF-8 byte
      counts, under the labels the program uses. */
  function FormatToolArgs(tool: Tools.Tool): (r: string)
    ensures tool.ReadFile? || tool.WriteFile? || tool.ListFiles? || tool.EditFile? ==> "path: " + tool.path <= r
    ensures tool.SearchFiles? ==> "pattern: " + tool.regex <= r
    ensures tool.ReadFile? ==> r == "path: " + tool.path
    ensures tool.WriteFile? ==> r == "path: " + tool.path + " (" + NatToString(Utf8Len(tool.content)) + " bytes)"
    ensures tool.ListFiles? && tool.pattern.None? ==> r == "path: " + tool.path
    ensures tool.ListFiles? && tool.pattern.Some? ==> r == "path: " + tool.path + ", pattern: " + tool.pattern.value
    ensures tool.SearchFiles? && tool.under.None? ==> r == "pattern: " + tool.regex
    ensures tool.SearchFiles? && tool.under.Some? ==> r == "pattern: " + tool.regex + ", path: " + tool.under.value
    ensures tool.Execute? ==> r == "$ " + tool.command
    ensures tool.EditFile? ==> r == "path: " + tool.path + ", replacing " + NatToString(Utf8Len(tool.oldText)) + " chars"
  {
    match tool
    case ReadFile(path) => "path: " + path
    case WriteFile(path, content) => "path: " + path + " (" + NatToString(Utf8Len(content)) + " bytes)"
    case ListFiles(path, pattern) =>
      "path: " + path + (match pattern case Some(p) => ", pattern: " + p case None => "")
    case SearchFiles(regex, under) =>
      "pattern: " + regex + (match under case Some(p) => ", path: " + p case None => "")
    case Execute(command) => "$ " + command
    case EditFile(path, oldText, _) => "path: " + path + ", replacing " + NatToString(Utf8Len(oldText)) + " chars"
  }

  // ---------------------------------------------------------------------------
  // Fenced code blocks
  // ---------------------------------------------------------------------------

  /** A fenced block found in a message: the index of the message, the language named on
      the opening fence, and the code. */
  datatype CodeBlock = CodeBlock(message: nat, lang: string, code: string)

  /** A run of three backticks starts at position `i` of `s`. */
  predicate FenceAt(s: string, i: nat)
  {
    i + 3 <= |s| && s[i] == '`' && s[i + 1] == '`' && s[i + 2] == '`'
  }

  /** `s[from..].find("```")`, as a position in `s`: the first fence at or after `from`. */
  function FindFence(s: string, from: nat): (r: Option<nat>)
    requires from <= |s|
    ensures r.Some? ==> from <= r.value && FenceAt(s, r.value)
    decreases |s| - from
  {
    if FenceAt(s, from) then Some(from)
    else if from == |s| then None
    else FindFence(s, from + 1)
  }

  /** The fence `FindFence` gives is the first one: none lies before it, and there is
      none at all when it gives `None`. */
  lemma {:induction false} FindFenceFirst(s: string, from: nat)
    requires from <= |s|
    ensures FindFence(s, from).Some? ==> forall j :: from <= j < FindFence(s, from).value ==> !FenceAt(s, j)
    ensures FindFence(s, from).None? ==> forall j :: from <= j <= |s| ==> !FenceAt(s, j)
    decreases |s| - from
  {
    if !FenceAt(s, from) && from < |s| {
      FindFenceFirst(s, from + 1);
    }
  }

  /** `s[from..].find('\n')`, as a position in `s`: the first newline at or after `from`. */
  function FindNewline(s: string, from: nat): (r: Option<nat>)
    requires from <= |s|
    ensures r.Some? ==> from <= r.value < |s| && s[r.value] == '\n'
    decreases |s| - from
  {
    if from == |s| then None
    else if s[from] == '\n' then Some(from)
    else FindNewline(s, from + 1)
  }

  /** The newline `FindNewline` gives is the first one, and there is none when it gives
      `None`. */
  lemma {:induction false} FindNewlineFirst(s: string, from: nat)
    requires from <= |s|
    ensures FindNewline(s, from).Some? ==> forall j :: from <= j < FindNewline(s, from).value ==> s[j] != '\n'
    ensures FindNewline(s, from).None? ==> forall j :: from <= j < |s| ==> s[j] != '\n'
    decreases |s| - from
  {
    if from < |s| && s[from] != '\n' {
      FindNewlineFirst(s, from + 1);
    }
  }

  /** Where the pieces of one block lie: the language from `langStart` to the end of the
      opening fence's line `lineEnd`, the code from `codeStart` to the closing fence at
      `close`. */
  datatype Fences = Fences(langStart: nat, lineEnd: nat, codeStart: nat, close: nat)

  /** One step of the scan: the block starting at the first fence at or after `from`;
      `None` when there is no fence or the block is not closed. The opening fence's line
      runs to the end of the text when it has no '\n'. */
  function FencesFrom(content: string, from: nat): (r: Option<Fences>)
    requires from <= |content|
    ensures r.Some? ==> from + 3 <= r.value.langStart <= r.value.lineEnd <= r.value.codeStart <= r.value.close
                        && r.value.close + 3 <= |content|
  {
    match FindFence(content, from)
    case None => None
    case Some(start) =>
      var lineEnd := match FindNewline(content, start + 3) case Some(i) => i case None => |content|;
      var codeStart := if lineEnd < |content| then lineEnd + 1 else lineEnd;
      match FindFence(content, codeStart)
      case None => None
      case Some(close) => Some(Fences(start + 3, lineEnd, codeStart, close))
  }

  /** The positions of a block lie within a text of length `n`. */
  predicate Within(f: Fences, n: nat)
  {
    f.langStart <= f.lineEnd <= f.codeStart <= f.close && f.close + 3 <= n
  }

  /** The `(lang, code)` of a block: the language trimmed, the code with its trailing
      newlines removed (empty for positions outside the text, which the scan never
      produces). */
  function BlockText(content: string, f: Fences): (string, string)
  {
    if Within(f, |content|) then
      (Trim(content[f.langStart..f.lineEnd]), TrimEndChar(content[f.codeStart..f.close], '\n'))
    else ([], [])
  }

  /** The scan from `from` on, after the blocks `acc` were collected: each block found is
      appended and the scan resumes after its closing fence. */
  function ScanFrom(content: string, from: nat, acc: seq<(string, string)>): (r: seq<(string, string)>)
    requires from <= |content|
    decreases |content| - from
  {
    match FencesFrom(content, from)
    case None => acc
    case Some(f) => ScanFrom(content, f.close + 3, acc + [BlockText(content, f)])
  }

  /** What the scan of one message yields. */
  function Blocks(content: string): seq<(string, string)>
  {
    ScanFrom(content, 0, [])
  }

  /** One round of the loop of `extract_code_blocks`: finds the opening fence, the end of
      its line and the closing fence. */
  method FindFences(content: string, from: nat) returns (r: Option<Fences>)
    requires from <= |content|
    ensures r == FencesFrom(content, from)
  {
    var fence := FindFence(content, from);
    if fence.None? {
      return None;
    }
    var lineEnd := |content|;
    var newline := FindNewline(content, fence.value + 3);
    if newline.Some? {
      lineEnd := newline.value;
    }
    var codeStart := if lineEnd < |content| then lineEnd + 1 else lineEnd;
    var close := FindFence(content, codeStart);
    if close.None? {
      return None;
    }
    r := Some(Fences(fence.value + 3, lineEnd, codeStart, close.value));
  }

  /** The loop of `extract_code_blocks` over one message. */
  method ScanBlocks(content: string) returns (blocks: seq<(string, string)>)
    ensures blocks == Blocks(content)
  {
    blocks := [];
    var searchFrom: nat := 0;
    ghost var all := Blocks(content);
    while true
      invariant searchFrom <= |content|
      invariant ScanFrom(content, searchFrom, blocks) == all
      decreases |content| - searchFrom
    {
      var f := FindFences(content, searchFrom);
      if f.None? {
        ScanFromStop(content, searchFrom, blocks);
        break;
      }
      var g := f.value;
      var b := BlockText(content, g);
      var next := g.close + 3;
      ScanFromNext(content, searchFrom, blocks, g, all);
      blocks := blocks + [b];
      searchFrom := next;
    }
  }

  /** The scan ends with what it collected once no further block is found. */
  lemma ScanFromStop(content: string, from: nat, acc: seq<(string, string)>)
    requires from <= |content| && FencesFrom(content, from).None?
    ensures ScanFrom(content, from, acc) == acc
  {
  }

  /** A block found from `from` is collected and the scan resumes after its closing fence,
      towards the same result. */
  lemma ScanFromNext(content: string, from: nat, acc: seq<(string, string)>, f: Fences,
                     all: seq<(string, string)>)
    requires from <= |content| && FencesFrom(content, from) == Some(f)
    requires ScanFrom(content, from, acc) == all
    ensures from < f.close + 3 <= |content|
    ensures ScanFrom(content, f.close + 3, acc + [BlockText(content, f)]) == all
  {
  }

  /** Text without a run of three backticks has no blocks. */
  lemma NoFenceNoBlocks(content: string, from: nat)
    requires from <= |content|
    requires forall i :: from <= i <= |content| ==> !FenceAt(content, i)
    ensures forall acc :: ScanFrom(content, from, acc) == acc
  {
    FindFenceFirst(content, from);
  }

  /** The fences are found where they are when nothing that could be taken for one comes
      earlier. */
  lemma FencesAt(content: string, from: nat, start: nat, lineEnd: nat, close: nat)
    requires from <= start && start + 3 <= lineEnd < close && close + 3 <= |content|
    requires FenceAt(content, start) && content[lineEnd] == '\n' && FenceAt(content, close)
    requires forall j :: from <= j < start ==> content[j] != '`'
    requires forall j :: start + 3 <= j < lineEnd ==> content[j] != '\n'
    requires forall j :: lineEnd + 1 <= j < close ==> content[j] != '`'
    ensures FencesFrom(content, from) == Some(Fences(start + 3, lineEnd, lineEnd + 1, close))
  {
    FindFenceFirst(content, from);
    FindNewlineFirst(content, start + 3);
    FindFenceFirst(content, lineEnd + 1);
    assert FindFence(content, from) == Some(start);
    assert FindNewline(content, start + 3) == Some(lineEnd);
    assert FindFence(content, lineEnd + 1) == Some(close);
  }

  /** Where the pieces of a block written out in full lie. */
  lemma Layout(pre: string, lang: string, code: string, post: string)
    requires '`' !in pre && '`' !in lang && '\n' !in lang && '`' !in code
    ensures var content := pre + "```" + lang + "\n" + code + "```" + post;
      var start, lineEnd, close := |pre|, |pre| + 3 + |lang|, |pre| + 3 + |lang| + 1 + |code|;
      close + 3 <= |content|
      && FenceAt(content, start) && content[lineEnd] == '\n' && FenceAt(content, close)
      && (forall j :: 0 <= j < start ==> content[j] != '`')
      && (forall j :: start + 3 <= j < lineEnd ==> content[j] != '\n')
      && (forall j :: lineEnd + 1 <= j < close ==> content[j] != '`')
  {
    var head := pre + "```" + lang + "\n" + code;
    var content := head + ("```" + post);
    assert content == pre + "```" + lang + "\n" + code + "```" + post;
    var start := |pre|;
    var lineEnd := start + 3 + |lang|;
    var close := lineEnd + 1 + |code|;
    assert content[close..close + 3] == "```";
    assert content[..close] == head;
    assert head[start..start + 3] == "```";
    assert head[start + 3..lineEnd] == lang;
    assert head[lineEnd + 1..] == code;
    assert forall j :: 0 <= j < start ==> content[j] == pre[j];
    assert forall j :: start + 3 <= j < lineEnd ==> content[j] == lang[j - start - 3];
    assert forall j :: lineEnd + 1 <= j < close ==> content[j] == code[j - lineEnd - 1];
  }

  /** A block whose fences lie where nothing that could be taken for a fence comes earlier
      is found there, and its text is read off the slices between them. */
  lemma BlockAt(content: string, start: nat, lineEnd: nat, close: nat)
    requires start + 3 <= lineEnd < close && close + 3 <= |content|
    requires FenceAt(content, start) && content[lineEnd] == '\n' && FenceAt(content, close)
    requires forall j :: 0 <= j < start ==> content[j] != '`'
    requires forall j :: start + 3 <= j < lineEnd ==> content[j] != '\n'
    requires forall j :: lineEnd + 1 <= j < close ==> content[j] != '`'
    ensures FencesFrom(content, 0) == Some(Fences(start + 3, lineEnd, lineEnd + 1, close))
  {
    FencesAt(content, 0, start, lineEnd, close);
  }

  /** Where the language and the code of a block written out in full lie. */
  lemma LayoutText(pre: string, lang: string, code: string, post: string)
    ensures var content := pre + "```" + lang + "\n" + code + "```" + post;
      var f := Fences(|pre| + 3, |pre| + 3 + |lang|, |pre| + 3 + |lang| + 1, |pre| + 3 + |lang| + 1 + |code|);
      Within(f, |content|) && content[f.langStart..f.lineEnd] == lang && content[f.codeStart..f.close] == code
  {
    var head := pre + "```" + lang + "\n" + code;
    var content := head + ("```" + post);
    assert content == pre + "```" + lang + "\n" + code + "```" + post;
    var lineEnd := |pre| + 3 + |lang|;
    assert content[..|head|] == head;
    assert head[|pre| + 3..lineEnd] == lang;
    assert head[lineEnd + 1..] == code;
  }

  /** A text with one closed block and no fence after it yields exactly that block. */
  lemma SingleBlock(content: string, f: Fences)
    requires FencesFrom(content, 0) == Some(f)
    requires forall i :: f.close + 3 <= i <= |content| ==> !FenceAt(content, i)
    ensures Blocks(content) == [BlockText(content, f)]
  {
    NoFenceNoBlocks(content, f.close + 3);
    assert [] + [BlockText(content, f)] == [BlockText(content, f)];
    assert Blocks(content) == ScanFrom(content, f.close + 3, [BlockText(content, f)]);
  }

  /** A block written out in full is found where it is, when its language line holds no
      newline and no backtick comes before its closing fence; the scan then resumes after
      that fence. */
  lemma OneBlockFound(pre: string, lang: string, code: string, post: string)
    requires '`' !in pre && '`' !in lang && '\n' !in lang && '`' !in code
    ensures var content := pre + "```" + lang + "\n" + code + "```" + post;
      FencesFrom(content, 0)
        == Some(Fences(|pre| + 3, |pre| + 3 + |lang|, |pre| + 3 + |lang| + 1, |pre| + 3 + |lang| + 1 + |code|))
  {
    Layout(pre, lang, code, post);
    BlockAt(pre + "```" + lang + "\n" + code + "```" + post,
            |pre|, |pre| + 3 + |lang|, |pre| + 3 + |lang| + 1 + |code|);
  }

  /** The block found there has its language trimmed and its code with the trailing
      newlines removed. */
  lemma OneBlockText(pre: string, lang: string, code: string, post: string)
    ensures var content := pre + "```" + lang + "\n" + code + "```" + post;
      BlockText(content, Fences(|pre| + 3, |pre| + 3 + |lang|, |pre| + 3 + |lang| + 1, |pre| + 3 + |lang| + 1 + |code|))
        == (Trim(lang), TrimEndChar(code, '\n'))
  {
    LayoutText(pre, lang, code, post);
  }

  // ---------------------------------------------------------------------------
  // Search matches
  // ---------------------------------------------------------------------------

  /** `n`: the next match, wrapping from the last to the first. */
  function NextMatch(i: nat, n: nat): (r: nat)
    requires n > 0
    ensures r < n
  {
    (i + 1) % n
  }

  /** `N`: the previous match, wrapping from the first to the last. */
  function PrevMatch(i: nat, n: nat): (r: nat)
    requires n > 0
    ensures i <= n ==> r < n
  {
    if i == 0 then n - 1 else i - 1
  }

  /** Moving forward and back are inverse, and `n` steps forward come back to the start. */
  lemma MatchWrapAround(i: nat, n: nat)
    requires i < n
    ensures PrevMatch(NextMatch(i, n), n) == i
    ensures NextMatch(PrevMatch(i, n), n) == i
    ensures NextMatch(n - 1, n) == 0 && PrevMatch(0, n) == n - 1
  {
    assert NextMatch(n - 1, n) == 0 by { assert (n - 1) + 1 == n; }
    if i + 1 < n {
      assert NextMatch(i, n) == i + 1;
    } else {
      assert NextMatch(i, n) == 0;
    }
    if i > 0 {
      assert PrevMatch(i, n) == i - 1;
      assert NextMatch(i - 1, n) == i;
    }
  }

  /** The positions of the contents that contain `query` once both are lowered. */
  function MatchPositions(contents: seq<string>, query: string, lower: string -> string): (r: seq<nat>)
    ensures forall k :: 0 <= k < |r| ==> r[k] < |contents| && Contains(lower(contents[r[k]]), lower(query))
    ensures forall i :: 0 <= i < |contents| && Contains(lower(contents[i]), lower(query)) ==> i in r
    ensures forall k, m :: 0 <= k < m < |r| ==> r[k] < r[m]
  {
    if contents == [] then []
    else
      var init := MatchPositions(contents[..|contents| - 1], query, lower);
      var last := |contents| - 1;
      assert forall k :: 0 <= k < |init| ==> init[k] < last;
      if Contains(lower(contents[last]), lower(query)) then init + [last] else init
  }
}
