/** The loops inside `App`'s methods (src/app.rs). The App itself is the value
    `ChatModel.AppState`; each method here runs its loop on that value and is proved to
    compute what the function of `ChatModel` with the same name says. */
module Chat {
  import opened Wrappers
  import opened Text
  import Json
  import opened Tools
  import Provider
  import Input
  import ChatModel

  /** `process_next_tool_call`: the `while` over the pending calls from the confirmation
      index. Allowed calls run, denied ones are refused, the first call that needs asking
      stops the loop with the prompt shown, and once every call is done the results go out. */
  method ProcessNextToolCall(s: ChatModel.AppState, env: ChatModel.Env) returns (t: ChatModel.AppState)
    ensures t == ChatModel.ProcessNext(s, env)
  {
    ghost var all := ChatModel.ProcessNext(s, env);
    t := s;
    while t.confirmIdx < |t.pending|
      invariant ChatModel.ProcessNext(t, env) == all
      decreases |t.pending| - t.confirmIdx
    {
      var idx := t.confirmIdx;
      match Lookup(t.permissions, t.pending[idx].tool.Name())
      case AutoAllow =>
        t := ChatModel.Advance(ChatModel.ExecuteAt(t, idx, env));
      case AskFirst =>
        return t.(overlay := ChatModel.ToolConfirm);
      case Deny =>
        t := ChatModel.Advance(ChatModel.DenyAt(t));
    }
    t := SendToolResults(t, env);
  }

  /** `send_tool_results`: the loop that builds one result block per pending call, then the
      follow-up request. */
  method SendToolResults(s: ChatModel.AppState, env: ChatModel.Env) returns (t: ChatModel.AppState)
    ensures t == ChatModel.SendToolResults(s, env)
  {
    var results: seq<Json.Value> := [];
    var i := 0;
    while i < |s.pending|
      invariant i <= |s.pending|
      invariant results == ChatModel.ResultBlocks(s.pending[..i], s.invocations)
    {
      var call := s.pending[i];
      var result := ChatModel.ResultFor(s.invocations, call.tool.Name());
      ResultBlocksSnoc(s.pending, i, s.invocations);
      results := results + [ChatModel.ResultBlock(call, result)];
      i := i + 1;
    }
    assert s.pending[..i] == s.pending;
    if results == [] {
      return s;
    }
    var wire := s.apiMessages + [Provider.Message("user", Provider.Blocks(results))];
    t := s.(apiMessages := wire, pending := [], confirmIdx := 0, streaming := true, streamBuffer := [],
            messages := s.messages + [ChatModel.Placeholder(env.now)]);
    var key := ChatModel.ApiKey(s.config.provider, env);
    if key.Some? {
      var route := if s.toolsEnabled then ChatModel.AnthropicTools else ChatModel.AnthropicStream;
      t := t.(spawned := s.spawned + [ChatModel.Spawn(route, key.value, s.config.model, s.config.systemPrompt, wire)]);
    }
  }

  /** The char-by-char insertion loop of `paste_clipboard`. */
  method InsertText(e: Input.EditState, text: string) returns (r: Input.EditState)
    requires e.cursor <= |e.input|
    ensures r == e.(input := e.input[..e.cursor] + text + e.input[e.cursor..], cursor := e.cursor + |text|)
  {
    var before, after := e.input[..e.cursor], e.input[e.cursor..];
    r := e;
    var i := 0;
    while i < |text|
      invariant i <= |text|
      invariant r == e.(input := before + text[..i] + after, cursor := e.cursor + i)
    {
      var line := r.input;
      var at := r.cursor;
      assert line[..at] == before + text[..i] && line[at..] == after;
      TakeSnoc(text, i);
      r := r.(input := line[..at] + [text[i]] + line[at..], cursor := at + 1);
      i := i + 1;
    }
    assert text[..i] == text;
  }

  /** `paste_clipboard`: one undo entry, then the clipboard text inserted at the cursor. */
  method PasteClipboard(s: ChatModel.AppState, env: ChatModel.Env) returns (t: ChatModel.AppState)
    requires ChatModel.Valid(s)
    ensures t == ChatModel.PasteClipboard(s, env)
  {
    if !env.clipboardOpen || env.clipboardText.None? {
      return s;
    }
    var saved := Input.SaveUndo(s.edit);
    var e := InsertText(saved, env.clipboardText.value);
    t := s.(edit := e);
  }

  /** `execute_search`: the loop over the messages collecting the matching positions. */
  method ExecuteSearch(s: ChatModel.AppState, env: ChatModel.Env) returns (t: ChatModel.AppState)
    ensures t == ChatModel.ExecuteSearch(s, env)
  {
    t := s.(searchMatches := [], searchMatchIdx := 0);
    if s.searchQuery == [] {
      return;
    }
    var query := env.lower(s.searchQuery);
    var matches: seq<nat> := [];
    var i := 0;
    while i < |s.messages|
      invariant i <= |s.messages|
      invariant matches == Input.MatchPositions(ChatModel.Contents(s.messages[..i]), s.searchQuery, env.lower)
    {
      MatchPositionsSnoc(s.messages, i, s.searchQuery, env.lower);
      if Contains(env.lower(s.messages[i].content), query) {
        matches := matches + [i];
      }
      i := i + 1;
    }
    assert s.messages[..i] == s.messages;
    if matches == [] {
      t := ChatModel.WithStatus(t, "Pattern not found: " + s.searchQuery);
    } else {
      t := t.(searchMatches := matches, scrollOffset := matches[0] * 4);
      t := ChatModel.WithStatus(t, ChatModel.MatchStatus(s.searchQuery, 1, |matches|));
    }
  }

  /** `extract_code_blocks`: the loop over the messages, scanning each assistant entry. */
  method ExtractCodeBlocks(s: ChatModel.AppState) returns (t: ChatModel.AppState)
    ensures t == ChatModel.ExtractCodeBlocks(s)
  {
    var blocks: seq<Input.CodeBlock> := [];
    var i := 0;
    while i < |s.messages|
      invariant i <= |s.messages|
      invariant blocks == ChatModel.CodeBlocksOf(s.messages[..i])
    {
      CodeBlocksSnoc(s.messages, i);
      var msg := s.messages[i];
      if msg.role == "assistant" {
        var found := Input.ScanBlocks(msg.content);
        blocks := blocks + ChatModel.Tagged(i, found);
      }
      i := i + 1;
    }
    assert s.messages[..i] == s.messages;
    t := s.(codeBlocks := blocks);
  }

  /** `tab_complete`: the loop that hands the file commands over to path completion, then
      the command-name completion. */
  method TabComplete(s: ChatModel.AppState) returns (t: ChatModel.AppState)
    ensures t == ChatModel.TabComplete(s)
  {
    var input := s.edit.input;
    if !("/" <= input) {
      return s;
    }
    var k := 0;
    while k < |Input.PathCommands|
      invariant k <= |Input.PathCommands|
      invariant forall j :: 0 <= j < k ==> !(Input.PathCommands[j] <= input)
    {
      if Input.PathCommands[k] <= input {
        return s;
      }
      k := k + 1;
    }
    var matches := Input.Matching(Input.Commands, input);
    if |matches| == 1 {
      var line := matches[0] + " ";
      t := s.(edit := s.edit.(input := line, cursor := |line|));
    } else if matches != [] {
      t := ChatModel.WithStatus(s, Join(matches, "  "));
    } else {
      t := s;
    }
  }

  /** One more call adds its block at the end. */
  lemma ResultBlocksSnoc(calls: seq<ToolCall>, i: nat, invs: seq<ChatModel.ToolInvocation>)
    requires i < |calls|
    ensures ChatModel.ResultBlocks(calls[..i + 1], invs)
         == ChatModel.ResultBlocks(calls[..i], invs)
            + [ChatModel.ResultBlock(calls[i], ChatModel.ResultFor(invs, calls[i].tool.Name()))]
  {
    assert calls[..i + 1][..i] == calls[..i];
  }

  /** One more message adds its position at the end when it matches. */
  lemma MatchPositionsSnoc(ms: seq<ChatModel.ChatMessage>, i: nat, query: string, lower: string -> string)
    requires i < |ms|
    ensures Input.MatchPositions(ChatModel.Contents(ms[..i + 1]), query, lower)
         == Input.MatchPositions(ChatModel.Contents(ms[..i]), query, lower)
            + (if Contains(lower(ms[i].content), lower(query)) then [i] else [])
  {
    var c := ChatModel.Contents(ms[..i + 1]);
    assert c[..i] == ChatModel.Contents(ms[..i]);
  }

  /** One more message adds its blocks at the end. */
  lemma CodeBlocksSnoc(ms: seq<ChatModel.ChatMessage>, i: nat)
    requires i < |ms|
    ensures ChatModel.CodeBlocksOf(ms[..i + 1]) == ChatModel.CodeBlocksOf(ms[..i])
      + (if ChatModel.IsAssistantChat(ms[i]) then ChatModel.Tagged(i, Input.Blocks(ms[i].content)) else [])
  {
    assert ms[..i + 1][..i] == ms[..i];
  }
}
