/** What the operations of `ChatModel` promise: the three message lists after sending,
    retrying and editing, the commit rule for streamed text, the shape of the tool-call
    walk and its results, the confirmation keys, the code blocks, and the slash and colon
    commands. */
module ChatProperties {
  import opened Wrappers
  import opened Text
  import Json
  import opened Tools
  import Provider
  import History
  import Input
  import Events
  import opened ChatModel

  // ---------------------------------------------------------------------------
  // Removing from the message lists
  // ---------------------------------------------------------------------------

  /** `rposition` followed by `remove` takes out exactly the last entry satisfying `p`, and
      nothing when there is none. */
  lemma RemoveLastWhereRemovesLast<T>(s: seq<T>, p: T -> bool, k: nat)
    requires k < |s| && p(s[k]) && forall j :: k < j < |s| ==> !p(s[j])
    ensures RemoveLastWhere(s, p) == s[..k] + s[k + 1..]
  {
    LastWhereIsLast(s, p, k);
  }

  lemma RemoveLastWhereKeeps<T>(s: seq<T>, p: T -> bool)
    requires forall j :: 0 <= j < |s| ==> !p(s[j])
    ensures RemoveLastWhere(s, p) == s
  {
  }

  /** The last position satisfying `p` is the one `rposition` reports. */
  lemma LastWhereIsLast<T>(s: seq<T>, p: T -> bool, k: nat)
    requires k < |s| && p(s[k]) && forall j :: k < j < |s| ==> !p(s[j])
    ensures LastWhere(s, p) == Some(k)
  {
  }

  /** `edit_last_message`'s removal: the last user entry goes, together with the entry after
      it when that one is an assistant entry; everything before it stays. */
  lemma DrainTurnRemovesTurn<T>(s: seq<T>, isUser: T -> bool, isAssistant: T -> bool, k: nat)
    requires k < |s| && isUser(s[k]) && forall j :: k < j < |s| ==> !isUser(s[j])
    ensures var r := DrainTurn(s, isUser, isAssistant);
      && (k + 1 < |s| && isAssistant(s[k + 1]) ==> r == s[..k] + s[k + 2..])
      && (!(k + 1 < |s| && isAssistant(s[k + 1])) ==> r == s[..k] + s[k + 1..])
      && |s| - 2 <= |r| < |s|
  {
    LastWhereIsLast(s, isUser, k);
  }

  // ---------------------------------------------------------------------------
  // send_message
  // ---------------------------------------------------------------------------

  /** A blank input is ignored. */
  lemma SendBlankIgnored(s: AppState, env: Env)
    requires Trim(s.edit.input) == []
    ensures SendMessage(s, env) == s
  {
  }

  /** Without a key for the provider nothing is sent: only the status line changes. */
  lemma SendWithoutKey(s: AppState, env: Env)
    requires var input := Trim(s.edit.input); input != [] && input[0] != '/'
    requires ApiKey(s.config.provider, env).None?
    ensures SendMessage(s, env) == s.(status := Some(NoKeyStatus(s.config.provider, env.configPath)))
  {
  }

  /** A message is added to all three lists, the displayed list also gets the empty answer
      being streamed, the line is emptied into the input history, and the call that is
      spawned carries the wire history with the new message. */
  lemma SendSubmits(s: AppState, env: Env)
    requires var input := Trim(s.edit.input); input != [] && input[0] != '/'
    requires ApiKey(s.config.provider, env).Some?
    ensures var input, r := Trim(s.edit.input), SendMessage(s, env);
      && r.messages == s.messages + [ChatMessage("user", input, env.now, []), Placeholder(env.now)]
      && r.conversation.messages == s.conversation.messages + [History.SavedMessage("user", input, env.now)]
      && r.apiMessages == s.apiMessages + [Provider.Message("user", Provider.Text(input))]
      && r.inputHistory == s.inputHistory + [input] && r.historyIdx.None?
      && r.edit.input == [] && r.edit.cursor == 0 && r.edit.undo == s.edit.undo
      && r.streaming && r.streamBuffer == []
      && r.spawned == s.spawned + [Spawn(RouteFor(s.config.provider, s.toolsEnabled),
                                         ApiKey(s.config.provider, env).value, s.config.model,
                                         s.config.systemPrompt, r.apiMessages)]
  {
  }

  // ---------------------------------------------------------------------------
  // retry_last
  // ---------------------------------------------------------------------------

  /** While streaming, with no messages, or when the last entry is not an answer, a retry
      only reports why. */
  lemma RetryRefused(s: AppState, env: Env)
    requires s.streaming || s.messages == [] || !IsAssistantChat(s.messages[|s.messages| - 1])
    ensures var r := RetryLast(s, env); r.status.Some? && r == s.(status := r.status)
  {
  }

  /** A retry drops the last displayed entry and the last assistant entry of the wire history
      and of the record; it re-sends the shortened wire history, with a new empty answer,
      exactly when that history is not empty and there is a key. */
  lemma RetryDropsAndResends(s: AppState, env: Env)
    requires !s.streaming && s.messages != [] && IsAssistantChat(s.messages[|s.messages| - 1])
    ensures var r, n := RetryLast(s, env), |s.messages|;
      var wire := RemoveLastWhere(s.apiMessages, IsAssistantWire);
      && r.apiMessages == wire
      && r.conversation.messages == RemoveLastWhere(s.conversation.messages, IsAssistantSaved)
      && (r.streaming <==> wire != [] && ApiKey(s.config.provider, env).Some?)
      && r.messages == s.messages[..n - 1] + (if r.streaming then [Placeholder(env.now)] else [])
      && (r.streaming ==> r.spawned == s.spawned + [Spawn(RouteFor(s.config.provider, s.toolsEnabled),
                                                          ApiKey(s.config.provider, env).value, s.config.model,
                                                          s.config.systemPrompt, wire)])
      && (!r.streaming ==> r.spawned == s.spawned)
  {
  }

  // ---------------------------------------------------------------------------
  // edit_last_message
  // ---------------------------------------------------------------------------

  /** While streaming, or with no user entry, editing only reports why. */
  lemma EditRefused(s: AppState)
    requires s.streaming || forall j :: 0 <= j < |s.messages| ==> !IsUserChat(s.messages[j])
    ensures var r := EditLastMessage(s); r.status.Some? && r == s.(status := r.status)
  {
  }

  /** Editing brings the last user entry back into the input line, with the cursor at its end
      and in Insert mode, and removes that entry and the answer after it. */
  lemma EditTakesLastTurn(s: AppState, k: nat)
    requires !s.streaming
    requires k < |s.messages| && IsUserChat(s.messages[k])
    requires forall j :: k < j < |s.messages| ==> !IsUserChat(s.messages[j])
    ensures var r, ms := EditLastMessage(s), s.messages;
      && r.edit.input == ms[k].content && r.edit.cursor == |ms[k].content| && r.edit.undo == s.edit.undo
      && r.inputMode == Insert
      && r.messages == ms[..k] + ms[if k + 1 < |ms| && IsAssistantChat(ms[k + 1]) then k + 2 else k + 1..]
      && r.apiMessages == DrainTurn(s.apiMessages, IsUserWire, IsAssistantWire)
      && r.conversation.messages == DrainTurn(s.conversation.messages, IsUserSaved, IsAssistantSaved)
  {
    LastWhereIsLast(s.messages, IsUserChat, k);
    DrainTurnRemovesTurn(s.messages, IsUserChat, IsAssistantChat, k);
  }

  // ---------------------------------------------------------------------------
  // The end of a stream
  // ---------------------------------------------------------------------------

  /** The record after a stream ends: the streamed text as an assistant message, when any
      text arrived. */
  function Committed(s: AppState, now: int): seq<History.SavedMessage>
  {
    s.conversation.messages + (if s.streamBuffer == [] then [] else [History.SavedMessage("assistant", s.streamBuffer, now)])
  }

  /** Cancelling stops the stream, keeps what was displayed, and commits the streamed text. */
  lemma CancelCommits(s: AppState, env: Env)
    ensures var r := CancelStream(s, env);
      && !r.streaming && r.streamBuffer == [] && r.messages == s.messages && r.apiMessages == s.apiMessages
      && r.conversation.messages == Committed(s, env.now) && r.conversation.id == s.conversation.id
  {
  }

  /** A finished stream commits the text the same way, but leaves the wire history as it is
      and remembers the conversation when something was committed. */
  lemma DoneCommits(s: AppState, env: Env)
    ensures var r := OnDone(s, env);
      && !r.streaming && r.streamBuffer == [] && r.messages == s.messages && r.apiMessages == s.apiMessages
      && r.conversation.messages == Committed(s, env.now) && r.conversation.id == s.conversation.id
      && (s.streamBuffer != [] ==> r.config.lastConversationId == Some(s.conversation.id))
      && (s.streamBuffer == [] ==> r.config == s.config)
  {
    if s.streamBuffer != [] {
      assert OnDone(s, env).conversation == History.Added(s.conversation, "assistant", s.streamBuffer, env.now);
    }
  }

  /** `App::new` opens an empty line in Insert mode with nothing streaming and an empty wire
      history. When the configuration names a conversation that can be loaded, that record is
      current and shown, with the status saying so; otherwise a new empty record, stamped
      with the start-up time, is current and nothing is shown. */
  lemma InitialSession(config: Config, env: Env)
    ensures var s := Initial(config, env);
      && s.inputMode == Insert && s.edit.input == [] && s.edit.undo == [] && !s.streaming && s.apiMessages == []
      && s.permissions == InitialPermissions && s.config == config
    ensures var s := Initial(config, env);
      var id := config.lastConversationId;
      && (id.Some? && env.load(id.value).Some? ==>
            && s.conversation == env.load(id.value).value
            && s.messages == Displayed(env.load(id.value).value.messages)
            && s.status == Some(RestoredSession))
      && (id.None? || env.load(id.value).None? ==>
            && s.conversation == History.NewRecord(env.freshId, env.now)
            && s.conversation.messages == [] && s.messages == [] && s.status == None)
  {
  }

  /** A chunk grows the stream buffer by its text, and the assistant entry at the end of the
      displayed list, when there is one, shows the whole buffer so far; the wire history, the
      record and the streaming flag stay as they were, and the view follows the end only when
      auto-scroll is on. */
  lemma ChunkAppends(s: AppState, text: string)
    ensures var r := OnChunk(s, text);
      && r.streamBuffer == s.streamBuffer + text
      && |r.messages| == |s.messages|
      && (s.messages != [] && IsAssistantChat(s.messages[|s.messages| - 1]) ==>
            r.messages == s.messages[..|s.messages| - 1] + [s.messages[|s.messages| - 1].(content := r.streamBuffer)])
      && (s.messages == [] || !IsAssistantChat(s.messages[|s.messages| - 1]) ==> r.messages == s.messages)
      && r.apiMessages == s.apiMessages && r.conversation == s.conversation && r.streaming == s.streaming
      && r.scrollOffset == (if s.autoScroll then UsizeMax else s.scrollOffset)
      && r.autoScroll == s.autoScroll
  {
  }

  /** Setting the last entry's text twice keeps only the second text. */
  lemma WithLastContentTwice(ms: seq<ChatMessage>, a: string, b: string)
    ensures WithLastContent(WithLastContent(ms, a), b) == WithLastContent(ms, b)
  {
    if ms != [] && IsAssistantChat(ms[|ms| - 1]) {
      var once := WithLastContent(ms, a);
      assert once[..|once| - 1] == ms[..|ms| - 1];
      assert once[|once| - 1] == ms[|ms| - 1].(content := a);
    }
  }

  /** Two chunks in a row leave the state one chunk with both texts would: what the screen
      shows depends only on the text streamed so far, not on how it was split. */
  lemma ChunksCompose(s: AppState, a: string, b: string)
    ensures OnChunk(OnChunk(s, a), b) == OnChunk(s, a + b)
  {
    WithLastContentTwice(s.messages, s.streamBuffer + a, s.streamBuffer + a + b);
    assert s.streamBuffer + a + b == s.streamBuffer + (a + b);
  }

  /** Cancel and done leave the same record behind. */
  lemma CancelAndDoneAgree(s: AppState, env: Env)
    ensures CancelStream(s, env).conversation == OnDone(s, env).conversation
  {
    if s.streamBuffer != [] {
      assert OnDone(s, env).conversation == History.Added(s.conversation, "assistant", s.streamBuffer, env.now);
    }
  }

  /** An error removes the answer placeholder only when nothing was streamed into it. */
  lemma ErrorDropsEmptyPlaceholder(s: AppState, err: string)
    ensures var r, ms := OnError(s, err), s.messages;
      && !r.streaming && r.streamBuffer == [] && r.conversation == s.conversation
      && (ms != [] && ms[|ms| - 1] == Placeholder(ms[|ms| - 1].timestamp) ==> r.messages == ms[..|ms| - 1])
      && (ms == [] || ms[|ms| - 1].role != "assistant" || ms[|ms| - 1].content != [] ==> r.messages == ms)
  {
  }

  // ---------------------------------------------------------------------------
  // The tool-call walk of process_next_tool_call
  // ---------------------------------------------------------------------------

  /** The permission the table gives call `i`. */
  function PermissionOf(calls: seq<ToolCall>, perms: map<string, Permission>, i: nat): Permission
    requires i < |calls|
  {
    Lookup(perms, calls[i].tool.Name())
  }

  /** The first call at or after `from` that needs asking, or the end of the calls. */
  function FirstAsk(calls: seq<ToolCall>, perms: map<string, Permission>, from: nat): (j: nat)
    requires from <= |calls|
    ensures from <= j <= |calls|
    ensures j < |calls| ==> PermissionOf(calls, perms, j) == AskFirst
    ensures forall i :: from <= i < j ==> PermissionOf(calls, perms, i) != AskFirst
    decreases |calls| - from
  {
    if from == |calls| || PermissionOf(calls, perms, from) == AskFirst then from
    else FirstAsk(calls, perms, from + 1)
  }

  /** The tools of the allowed calls in `calls[from..to]`, in order: what the executor runs. */
  function AllowedTools(calls: seq<ToolCall>, perms: map<string, Permission>, from: nat, to: nat): seq<Tool>
    requires from <= to <= |calls|
    decreases |calls| - from
  {
    if from == to then []
    else (if PermissionOf(calls, perms, from) == AutoAllow then [calls[from].tool] else [])
         + AllowedTools(calls, perms, from + 1, to)
  }

  /** What the log records for a call that needs no prompt: its result when it is allowed, a
      refusal when it is denied. */
  function Logged(call: ToolCall, p: Permission, runTool: Tool -> ToolResult): ToolInvocation
  {
    if p == AutoAllow then
      var result := runTool(call.tool);
      ToolInvocation(call.tool.Name(), Input.FormatToolArgs(call.tool), Some(result), |Lines(result.output)| > 10)
    else Refusal(call, "Tool execution denied by user")
  }

  /** The log entries of `calls[from..to]`, one per call, in order. */
  function WalkLog(calls: seq<ToolCall>, perms: map<string, Permission>, from: nat, to: nat,
                   runTool: Tool -> ToolResult): seq<ToolInvocation>
    requires from <= to <= |calls|
    decreases |calls| - from
  {
    if from == to then []
    else [Logged(calls[from], PermissionOf(calls, perms, from), runTool)] + WalkLog(calls, perms, from + 1, to, runTool)
  }

  /** The loop of `process_next_tool_call` without what follows it: calls are run or refused
      until one needs asking or none is left. */
  function Walk(s: AppState, env: Env): AppState
    decreases |s.pending| - s.confirmIdx
  {
    if s.confirmIdx >= |s.pending| || PermissionAt(s, s.confirmIdx) == AskFirst then s
    else Walk(StepCall(s, env), env)
  }

  /** `process_next_tool_call` is the walk, then either the prompt or the results. */
  lemma {:induction false} ProcessNextIsWalk(s: AppState, env: Env)
    ensures var w := Walk(s, env);
      ProcessNext(s, env) == if w.confirmIdx < |w.pending| then w.(overlay := ToolConfirm) else SendToolResults(w, env)
    decreases |s.pending| - s.confirmIdx
  {
    if s.confirmIdx < |s.pending| && PermissionAt(s, s.confirmIdx) != AskFirst {
      ProcessNextIsWalk(StepCall(s, env), env);
    }
  }

  /** One walked call: the executor gets the call's tool when the call is allowed, and the log
      gets the call's entry. */
  lemma StepCallShape(s: AppState, env: Env)
    requires s.confirmIdx < |s.pending| && PermissionAt(s, s.confirmIdx) != AskFirst
    ensures var t, i := StepCall(s, env), s.confirmIdx;
      && t.executed == s.executed + (if PermissionAt(s, i) == AutoAllow then [s.pending[i].tool] else [])
      && t.invocations == s.invocations + [Logged(s.pending[i], PermissionAt(s, i), env.runTool)]
      && t.overlay == s.overlay && t.apiMessages == s.apiMessages && t.spawned == s.spawned
      && t.streaming == s.streaming && t.panicked == s.panicked
  {
  }

  /** The walk stops at the first call that needs asking; on the way it hands exactly the
      allowed calls to the executor and logs one entry per call, and it changes neither
      the calls, nor the table, nor the wire history, nor the spawned calls. */
  lemma {:induction false} WalkShape(s: AppState, env: Env)
    requires s.confirmIdx <= |s.pending|
    ensures var w, j := Walk(s, env), FirstAsk(s.pending, s.permissions, s.confirmIdx);
      && w.pending == s.pending && w.permissions == s.permissions && w.confirmIdx == j
      && w.executed == s.executed + AllowedTools(s.pending, s.permissions, s.confirmIdx, j)
      && w.invocations == s.invocations + WalkLog(s.pending, s.permissions, s.confirmIdx, j, env.runTool)
      && w.overlay == s.overlay && w.apiMessages == s.apiMessages && w.spawned == s.spawned
      && w.streaming == s.streaming && w.panicked == s.panicked
    decreases |s.pending| - s.confirmIdx
  {
    var i, calls, perms := s.confirmIdx, s.pending, s.permissions;
    if i < |calls| && PermissionAt(s, i) != AskFirst {
      var t := StepCall(s, env);
      StepCallShape(s, env);
      WalkShape(t, env);
      var j := FirstAsk(calls, perms, i + 1);
      assert FirstAsk(calls, perms, i) == j;
      assert Walk(s, env) == Walk(t, env);
      var head := if PermissionOf(calls, perms, i) == AutoAllow then [calls[i].tool] else [];
      assert AllowedTools(calls, perms, i, j) == head + AllowedTools(calls, perms, i + 1, j);
      AppendAssoc(s.executed, head, AllowedTools(calls, perms, i + 1, j));
      var entry := [Logged(calls[i], PermissionOf(calls, perms, i), env.runTool)];
      assert WalkLog(calls, perms, i, j, env.runTool) == entry + WalkLog(calls, perms, i + 1, j, env.runTool);
      AppendAssoc(s.invocations, entry, WalkLog(calls, perms, i + 1, j, env.runTool));
    }
  }

  /** When a call needs asking, the prompt is shown for it and nothing is sent. */
  lemma ProcessNextStopsAtAsk(s: AppState, env: Env)
    requires s.confirmIdx <= |s.pending|
    requires FirstAsk(s.pending, s.permissions, s.confirmIdx) < |s.pending|
    ensures var r, j := ProcessNext(s, env), FirstAsk(s.pending, s.permissions, s.confirmIdx);
      && r.overlay == ToolConfirm && r.confirmIdx == j && r.pending == s.pending && r.permissions == s.permissions
      && r.executed == s.executed + AllowedTools(s.pending, s.permissions, s.confirmIdx, j)
      && r.invocations == s.invocations + WalkLog(s.pending, s.permissions, s.confirmIdx, j, env.runTool)
      && r.apiMessages == s.apiMessages && r.spawned == s.spawned
  {
    ProcessNextIsWalk(s, env);
    WalkShape(s, env);
  }


  /** When no call needs asking, every call is walked and the results are sent: the wire
      history gets one user message with a result block per call, the calls are cleared,
      and a new answer is streamed. */
  lemma ProcessNextFinishes(s: AppState, env: Env)
    requires s.confirmIdx < |s.pending|
    requires FirstAsk(s.pending, s.permissions, s.confirmIdx) == |s.pending|
    ensures var r, n := ProcessNext(s, env), |s.pending|;
      var log := s.invocations + WalkLog(s.pending, s.permissions, s.confirmIdx, n, env.runTool);
      && r.executed == s.executed + AllowedTools(s.pending, s.permissions, s.confirmIdx, n)
      && r.invocations == log
      && r.apiMessages == s.apiMessages + [Provider.Message("user", Provider.Blocks(ResultBlocks(s.pending, log)))]
      && r.pending == [] && r.confirmIdx == 0 && r.permissions == s.permissions
      && r.streaming && r.streamBuffer == [] && r.overlay == s.overlay
      && r.messages != [] && r.messages[|r.messages| - 1] == Placeholder(env.now)
  {
    ProcessNextIsWalk(s, env);
    WalkShape(s, env);
    var w := Walk(s, env);
    assert ProcessNext(s, env) == SendToolResults(w, env);
    SendResultsStreams(w, env);
  }

  /** The walk never runs a call the table denies or asks about: with no allowed call in the
      range, nothing is executed. */
  lemma {:induction false} NothingAllowedNothingRun(calls: seq<ToolCall>, perms: map<string, Permission>, from: nat, to: nat)
    requires from <= to <= |calls|
    requires forall i :: from <= i < to ==> PermissionOf(calls, perms, i) != AutoAllow
    ensures AllowedTools(calls, perms, from, to) == []
    decreases |calls| - from
  {
    if from < to {
      NothingAllowedNothingRun(calls, perms, from + 1, to);
    }
  }

  /** The log has one entry per walked call. */
  lemma {:induction false} WalkLogLength(calls: seq<ToolCall>, perms: map<string, Permission>, from: nat, to: nat,
                                         runTool: Tool -> ToolResult)
    requires from <= to <= |calls|
    ensures |WalkLog(calls, perms, from, to, runTool)| == to - from
    decreases |calls| - from
  {
    if from < to {
      WalkLogLength(calls, perms, from + 1, to, runTool);
    }
  }

  // ---------------------------------------------------------------------------
  // send_tool_results
  // ---------------------------------------------------------------------------

  /** A result block carries the call's id, the output, and whether the tool failed. */
  lemma ResultBlockFields(call: ToolCall, r: ToolResult)
    ensures var b := ResultBlock(call, r);
      && Json.Get(b, "type") == Some(Json.Str("tool_result"))
      && Json.Get(b, "tool_use_id") == Some(Json.Str(call.id))
      && Json.Get(b, "content") == Some(Json.Str(r.output))
      && Json.Get(b, "is_error") == Some(Json.Bool(!r.success))
  {
  }

  /** One block per call. */
  lemma {:induction false} ResultBlocksLength(calls: seq<ToolCall>, invs: seq<ToolInvocation>)
    ensures |ResultBlocks(calls, invs)| == |calls|
  {
    if calls != [] {
      ResultBlocksLength(calls[..|calls| - 1], invs);
    }
  }

  /** Block `i` answers call `i` with the result the log holds for the call's tool name. */
  lemma {:induction false} ResultBlockAt(calls: seq<ToolCall>, invs: seq<ToolInvocation>, i: nat)
    requires i < |calls|
    ensures |ResultBlocks(calls, invs)| == |calls| && ResultBlocks(calls, invs)[i] == ResultBlock(calls[i], ResultFor(invs, calls[i].tool.Name()))
  {
    ResultBlocksLength(calls, invs);
    var front := calls[..|calls| - 1];
    ResultBlocksLength(front, invs);
    if i < |front| {
      ResultBlockAt(front, invs, i);
      assert calls[i] == front[i];
    }
  }

  /** One block per call, in call order, each answering that call's id with the result the
      log holds for the call's tool name. */
  lemma ResultBlocksPerCall(calls: seq<ToolCall>, invs: seq<ToolInvocation>)
    ensures var b := ResultBlocks(calls, invs);
      && |b| == |calls|
      && forall i :: 0 <= i < |calls| ==> b[i] == ResultBlock(calls[i], ResultFor(invs, calls[i].tool.Name()))
  {
    ResultBlocksLength(calls, invs);
    forall i | 0 <= i < |calls| ensures ResultBlocks(calls, invs)[i] == ResultBlock(calls[i], ResultFor(invs, calls[i].tool.Name())) {
      ResultBlockAt(calls, invs, i);
    }
  }

  /** The result reported for a name is that of the latest invocation with that name. Two
      calls of the same tool in one response therefore both report the later one's result. */
  lemma {:induction false} ResultForLatest(invs: seq<ToolInvocation>, name: string, k: nat)
    requires k < |invs| && invs[k].toolName == name
    requires forall j :: k < j < |invs| ==> invs[j].toolName != name
    ensures ResultFor(invs, name) == invs[k].result.GetOr(ErrResult("No result"))
    decreases |invs|
  {
    if k < |invs| - 1 {
      ResultForLatest(invs[..|invs| - 1], name, k);
    }
  }

  /** With no invocation of that name, the call is reported as not executed. */
  lemma {:induction false} ResultForMissing(invs: seq<ToolInvocation>, name: string)
    requires forall j :: 0 <= j < |invs| ==> invs[j].toolName != name
    ensures ResultFor(invs, name) == ErrResult("Tool not executed")
    decreases |invs|
  {
    if invs != [] {
      ResultForMissing(invs[..|invs| - 1], name);
    }
  }

  /** With calls pending, sending the results always starts a stream and adds the placeholder,
      even when no call can be spawned for want of a key. */
  lemma SendResultsStreams(s: AppState, env: Env)
    requires s.pending != []
    ensures var r := SendToolResults(s, env);
      && r.streaming && r.streamBuffer == [] && r.pending == [] && r.confirmIdx == 0
      && r.apiMessages == s.apiMessages + [Provider.Message("user", Provider.Blocks(ResultBlocks(s.pending, s.invocations)))]
      && r.messages == s.messages + [Placeholder(env.now)]
      && r.invocations == s.invocations && r.executed == s.executed
      && r.permissions == s.permissions && r.overlay == s.overlay
      && (ApiKey(s.config.provider, env).None? ==> r.spawned == s.spawned)
      && (ApiKey(s.config.provider, env).Some? ==> |r.spawned| == |s.spawned| + 1 && r.spawned[|s.spawned|].history == r.apiMessages)
  {
    ResultBlocksLength(s.pending, s.invocations);
    match ApiKey(s.config.provider, env)
    case None =>
    case Some(_) =>
  }

  /** Whether it stops or finishes, processing runs exactly the allowed calls up to the first
      call that needs asking, logs one entry per walked call, shows the prompt if it stopped,
      and leaves the table alone. */
  lemma ProcessNextRuns(s: AppState, env: Env)
    requires s.confirmIdx <= |s.pending|
    ensures var r, j := ProcessNext(s, env), FirstAsk(s.pending, s.permissions, s.confirmIdx);
      && r.executed == s.executed + AllowedTools(s.pending, s.permissions, s.confirmIdx, j)
      && r.invocations == s.invocations + WalkLog(s.pending, s.permissions, s.confirmIdx, j, env.runTool)
      && r.permissions == s.permissions
      && r.overlay == (if j < |s.pending| then ToolConfirm else s.overlay)
      && r.panicked == s.panicked
  {
    ProcessNextIsWalk(s, env);
    WalkShape(s, env);
    var w := Walk(s, env);
    if w.confirmIdx >= |w.pending| {
      if w.pending == [] {
        assert SendToolResults(w, env) == w;
      } else {
        SendResultsStreams(w, env);
      }
    }
  }

  // ---------------------------------------------------------------------------
  // handle_tool_use_response
  // ---------------------------------------------------------------------------

  /** The response's content blocks, none when it has no `content` array. */
  function ResponseBlocks(response: Json.Value): seq<Json.Value>
  {
    ContentBlocks(response).GetOr([])
  }

  /** The state the walk starts from: the assistant's blocks on the wire, the streamed text
      on the last assistant entry, and the calls pending from the first. */
  function WalkStart(s: AppState, response: Json.Value): (w: AppState)
    ensures w.pending == DecodeBlocks(ResponseBlocks(response)) && w.confirmIdx == 0
    ensures w.apiMessages == s.apiMessages + [Provider.Message("assistant", Provider.Blocks(ResponseBlocks(response)))]
    ensures w.permissions == s.permissions && w.executed == s.executed && w.invocations == s.invocations
    ensures w.overlay == s.overlay && w.panicked == s.panicked && w.streamBuffer == []
  {
    var blocks := ResponseBlocks(response);
    var shown := if s.streamBuffer != [] then WithLastContent(s.messages, s.streamBuffer) else s.messages;
    s.(apiMessages := s.apiMessages + [Provider.Message("assistant", Provider.Blocks(blocks))],
       messages := shown, streamBuffer := [], pending := DecodeBlocks(blocks), confirmIdx := 0)
  }

  /** A response that does not parse only sets the status line. */
  lemma ToolResponseUnparsed(s: AppState, body: string, env: Env)
    requires env.parse(body).Err?
    ensures HandleToolUseResponse(s, body, env) == s.(status := Some("Failed to parse tool response: " + env.parse(body).error))
  {
  }

  /** A response without tool calls still puts the assistant's blocks on the wire, and
      changes nothing else. */
  lemma ToolResponseWithoutCalls(s: AppState, body: string, env: Env)
    requires env.parse(body).Ok? && DecodeBlocks(ResponseBlocks(env.parse(body).value)) == []
    ensures HandleToolUseResponse(s, body, env)
         == s.(apiMessages := s.apiMessages + [Provider.Message("assistant", Provider.Blocks(ResponseBlocks(env.parse(body).value)))])
  {
  }

  /** A response with tool calls walks them from the first. */
  lemma ToolResponseStartsWalk(s: AppState, body: string, env: Env)
    requires env.parse(body).Ok? && DecodeBlocks(ResponseBlocks(env.parse(body).value)) != []
    ensures HandleToolUseResponse(s, body, env) == ProcessNext(WalkStart(s, env.parse(body).value), env)
  {
  }

  /** With tool calls, the response runs exactly the allowed calls before the first one that
      needs asking, logs one entry for each of those calls, and shows the prompt if it
      stopped at one. */
  lemma ToolResponseRuns(s: AppState, body: string, env: Env)
    requires env.parse(body).Ok? && DecodeBlocks(ResponseBlocks(env.parse(body).value)) != []
    ensures var calls := DecodeBlocks(ResponseBlocks(env.parse(body).value));
      var r, j := HandleToolUseResponse(s, body, env), FirstAsk(calls, s.permissions, 0);
      && r.executed == s.executed + AllowedTools(calls, s.permissions, 0, j)
      && r.invocations == s.invocations + WalkLog(calls, s.permissions, 0, j, env.runTool)
      && r.overlay == (if j < |calls| then ToolConfirm else s.overlay)
  {
    var w := WalkStart(s, env.parse(body).value);
    ToolResponseStartsWalk(s, body, env);
    ProcessNextRuns(w, env);
  }

  // ---------------------------------------------------------------------------
  // handle_tool_confirm_key
  // ---------------------------------------------------------------------------

  /** The name of the call being asked about. */
  function AskedName(s: AppState): string
    requires s.confirmIdx < |s.pending|
  {
    s.pending[s.confirmIdx].tool.Name()
  }

  /** The state processing resumes from after the call being asked about has run. */
  lemma RunAskedShape(s: AppState, env: Env)
    requires s.confirmIdx < |s.pending|
    ensures var t := Advance(ExecuteAt(s, s.confirmIdx, env));
      && t.pending == s.pending && t.permissions == s.permissions && t.confirmIdx == s.confirmIdx + 1
      && t.executed == s.executed + [s.pending[s.confirmIdx].tool]
  {
  }

  /** Allowing runs the call being asked about, then resumes with the next call. */
  lemma AllowRuns(s: AppState, env: Env)
    requires s.confirmIdx < |s.pending|
    ensures var r, i, perms := Allow(s, env), s.confirmIdx, s.permissions;
      var j := FirstAsk(s.pending, perms, i + 1);
      && r.permissions == perms
      && r.executed == s.executed + [s.pending[i].tool] + AllowedTools(s.pending, perms, i + 1, j)
      && r.overlay == (if j < |s.pending| then ToolConfirm else s.overlay)
  {
    var t := Advance(ExecuteAt(s, s.confirmIdx, env));
    RunAskedShape(s, env);
    ProcessNextRuns(t, env);
  }

  /** 'y' or Enter closes the prompt and allows the call. */
  lemma ConfirmYes(s: AppState, env: Env)
    ensures ConfirmKey(s, Events.Char('y'), env) == Allow(s.(overlay := NoOverlay), env)
    ensures ConfirmKey(s, Events.Enter, env) == Allow(s.(overlay := NoOverlay), env)
  {
  }

  /** 'a' first makes the tool always allowed, then allows the call. */
  lemma ConfirmAlways(s: AppState, env: Env)
    requires s.confirmIdx < |s.pending|
    ensures ConfirmKey(s, Events.Char('a'), env) == Allow(Remember(s, AutoAllow).(overlay := NoOverlay), env)
  {
  }

  /** 'n' or Esc refuses the call. */
  lemma ConfirmNo(s: AppState, env: Env)
    ensures ConfirmKey(s, Events.Char('n'), env) == Refuse(s, env)
    ensures ConfirmKey(s, Events.Esc, env) == Refuse(s, env)
  {
  }

  /** 'd' first makes the tool always denied, then refuses the call. */
  lemma ConfirmNever(s: AppState, env: Env)
    requires s.confirmIdx < |s.pending|
    ensures ConfirmKey(s, Events.Char('d'), env) == Refuse(Remember(s, Deny), env)
  {
  }

  /** Refusing logs the call being asked about as refused, does not run it, and resumes with
      the next call. */
  lemma RefuseSkips(s: AppState, env: Env)
    requires s.confirmIdx < |s.pending|
    ensures var r, i, perms := Refuse(s, env), s.confirmIdx, s.permissions;
      var j := FirstAsk(s.pending, perms, i + 1);
      && r.permissions == perms
      && r.executed == s.executed + AllowedTools(s.pending, perms, i + 1, j)
      && r.invocations == s.invocations + [Refusal(s.pending[i], "Denied by user")]
                          + WalkLog(s.pending, perms, i + 1, j, env.runTool)
  {
    var t := Advance(RejectAt(s).(overlay := NoOverlay));
    RefusedShape(s);
    ProcessNextRuns(t, env);
  }

  /** The state processing resumes from after the call being asked about was refused. */
  lemma RefusedShape(s: AppState)
    requires s.confirmIdx < |s.pending|
    ensures var t := Advance(RejectAt(s).(overlay := NoOverlay));
      && t.pending == s.pending && t.permissions == s.permissions && t.confirmIdx == s.confirmIdx + 1
      && t.executed == s.executed && t.invocations == s.invocations + [Refusal(s.pending[s.confirmIdx], "Denied by user")]
  {
  }

  /** Keys other than the four answers are ignored. */
  lemma ConfirmOtherKeys(s: AppState, code: Events.KeyCode, env: Env)
    requires code != Events.Char('y') && code != Events.Enter && code != Events.Char('a')
    requires code != Events.Char('n') && code != Events.Esc && code != Events.Char('d')
    ensures ConfirmKey(s, code, env) == s
  {
  }

  /** The four answers index the pending calls at the confirmation index, which panics when
      it is past the end. */
  lemma ConfirmPastEndPanics(s: AppState, code: Events.KeyCode, env: Env)
    requires s.confirmIdx >= |s.pending|
    requires || code == Events.Char('y') || code == Events.Enter || code == Events.Char('a')
             || code == Events.Char('n') || code == Events.Esc || code == Events.Char('d')
    ensures ConfirmKey(s, code, env).panicked
  {
  }

  // ---------------------------------------------------------------------------
  // Search, input history, completion, code blocks
  // ---------------------------------------------------------------------------

  /** A search records the positions of the matching messages, from the first, and keeps
      the query. */
  lemma SearchRecordsPositions(s: AppState, env: Env)
    requires s.searchQuery != []
    ensures var r := ExecuteSearch(s, env);
      && r.searchMatches == Input.MatchPositions(Contents(s.messages), s.searchQuery, env.lower)
      && r.searchQuery == s.searchQuery && r.searchMatchIdx == 0
  {
    // A case split for the verifier: `ExecuteSearch` sets the status differently when
    // nothing matches, and the two cases are cheaper to prove apart.
    if Input.MatchPositions(Contents(s.messages), s.searchQuery, env.lower) == [] {
    } else {
    }
  }

  /** A search lists, in order, exactly the messages whose lowered text contains the lowered
      query. */
  lemma SearchFindsMatches(s: AppState, env: Env)
    requires s.searchQuery != []
    ensures var r, q := ExecuteSearch(s, env), env.lower(s.searchQuery);
      && (forall i :: 0 <= i < |s.messages| ==> (i in r.searchMatches <==> Contains(env.lower(s.messages[i].content), q)))
      && (forall k :: 0 <= k < |r.searchMatches| ==> r.searchMatches[k] < |s.messages|)
      && (forall k, m :: 0 <= k < m < |r.searchMatches| ==> r.searchMatches[k] < r.searchMatches[m])
  {
    SearchRecordsPositions(s, env);
    var c := Contents(s.messages);
    var m := Input.MatchPositions(c, s.searchQuery, env.lower);
    forall i | 0 <= i < |s.messages| ensures i in m <==> Contains(env.lower(s.messages[i].content), env.lower(s.searchQuery)) {
      assert c[i] == s.messages[i].content;
      if i in m {
        var k :| 0 <= k < |m| && m[k] == i;
      }
    }
  }

  /** Stepping through the matches goes round: forward from the last one reaches the first,
      and back then forward returns to where it was. */
  lemma SearchStepsWrap(s: AppState)
    requires s.searchMatches != [] && s.searchMatchIdx < |s.searchMatches|
    ensures NextSearchMatch(PrevSearchMatch(s)).searchMatchIdx == s.searchMatchIdx
    ensures PrevSearchMatch(NextSearchMatch(s)).searchMatchIdx == s.searchMatchIdx
    ensures s.searchMatchIdx == |s.searchMatches| - 1 ==> NextSearchMatch(s).searchMatchIdx == 0
  {
    var n := |s.searchMatches|;
    NextMatchIndex(s);
    PrevMatchIndex(s);
    NextMatchIndex(PrevSearchMatch(s));
    PrevMatchIndex(NextSearchMatch(s));
    Input.MatchWrapAround(s.searchMatchIdx, n);
  }

  /** Stepping forward keeps the matches and moves only the match index. */
  lemma NextMatchIndex(s: AppState)
    requires s.searchMatches != []
    ensures NextSearchMatch(s).searchMatches == s.searchMatches
    ensures NextSearchMatch(s).searchMatchIdx == Input.NextMatch(s.searchMatchIdx, |s.searchMatches|)
  {
    var k := Input.NextMatch(s.searchMatchIdx, |s.searchMatches|);
    var t := ScrollToMatch(s.(searchMatchIdx := k), k);
    assert t.searchMatches == s.searchMatches && t.searchMatchIdx == k;
  }

  /** Stepping back keeps the matches and moves only the match index. */
  lemma PrevMatchIndex(s: AppState)
    requires s.searchMatches != []
    ensures PrevSearchMatch(s).searchMatches == s.searchMatches
    ensures PrevSearchMatch(s).searchMatchIdx == Input.PrevMatch(s.searchMatchIdx, |s.searchMatches|)
  {
    var k := Input.PrevMatch(s.searchMatchIdx, |s.searchMatches|);
    var t := ScrollToMatch(s.(searchMatchIdx := k), k);
    assert t.searchMatches == s.searchMatches && t.searchMatchIdx == k;
  }

  /** The first step back through the input history shows the newest entry. */
  lemma HistoryStartsAtNewest(s: AppState)
    requires Valid(s) && s.historyIdx.None? && s.inputHistory != []
    ensures var r, n := HistoryPrev(s), |s.inputHistory|;
      r.historyIdx == Some(n - 1) && r.edit.input == s.inputHistory[n - 1] && r.edit.cursor == |s.inputHistory[n - 1]|
  {
  }

  /** Back then forward returns to the same entry; the oldest entry is where going back
      stops. */
  lemma HistoryBackForward(s: AppState)
    requires Valid(s) && s.historyIdx.Some?
    ensures var i := s.historyIdx.value; var b := HistoryPrev(s);
      && Valid(b)
      && (i > 0 ==> HistoryNext(b).historyIdx == Some(i) && HistoryNext(b).edit.input == s.inputHistory[i])
      && (i == 0 ==> b.historyIdx == Some(0))
  {
  }

  /** Going forward past the newest entry empties the line and leaves the history. */
  lemma HistoryEndsEmpty(s: AppState)
    requires Valid(s) && s.historyIdx == Some(|s.inputHistory| - 1)
    ensures HistoryNext(s).historyIdx.None? && HistoryNext(s).edit.input == [] && HistoryNext(s).edit.cursor == 0
  {
  }

  /** A single matching command name is completed, with a space after it; nothing but the
      line and the cursor changes. */
  lemma TabCompletesUnique(s: AppState)
    requires "/" <= s.edit.input && !PathCompletion(s.edit.input)
    requires |Input.Matching(Input.Commands, s.edit.input)| == 1
    ensures var m := Input.Matching(Input.Commands, s.edit.input)[0]; var r := TabComplete(s);
      && r.edit.input == m + " " && r.edit.cursor == |m| + 1
      && r == s.(edit := s.edit.(input := m + " ", cursor := |m| + 1))
      && m in Input.Commands && s.edit.input <= m
  {
    var ms := Input.Matching(Input.Commands, s.edit.input);
    assert ms[0] in ms;
    assert TabComplete(s) == ShowLine(s, ms[0] + " ");
  }

  /** Several matching command names are listed in the status line, two spaces apart, and
      the line is left as it was; each name listed is a command that starts with the line. */
  lemma TabListsMatches(s: AppState)
    requires "/" <= s.edit.input && !PathCompletion(s.edit.input)
    requires |Input.Matching(Input.Commands, s.edit.input)| > 1
    ensures var m := Input.Matching(Input.Commands, s.edit.input);
      && TabComplete(s) == s.(status := Some(Join(m, "  ")))
      && forall c :: c in m ==> c in Input.Commands && s.edit.input <= c
  {
  }

  /** A line that does not start with '/', or a command prefix no name starts with, is left
      alone and so is everything else. */
  lemma TabWithoutMatchKeeps(s: AppState)
    requires !("/" <= s.edit.input) || |Input.Matching(Input.Commands, s.edit.input)| == 0
    ensures TabComplete(s) == s
  {
  }

  /** Block `k` comes from an assistant entry, and carries that entry's index. */
  lemma {:induction false} BlockFromAnswer(ms: seq<ChatMessage>, k: nat)
    requires k < |CodeBlocksOf(ms)|
    ensures CodeBlocksOf(ms)[k].message < |ms| && IsAssistantChat(ms[CodeBlocksOf(ms)[k].message])
  {
    var n := |ms| - 1;
    var front := CodeBlocksOf(ms[..n]);
    var tail := if IsAssistantChat(ms[n]) then Tagged(n, Input.Blocks(ms[n].content)) else [];
    assert CodeBlocksOf(ms) == front + tail;
    if k < |front| {
      BlockFromAnswer(ms[..n], k);
      assert ms[..n][front[k].message] == ms[front[k].message];
    } else {
      assert IsAssistantChat(ms[n]) && tail[k - |front|].message == n;
    }
  }

  /** Every code block comes from an assistant entry, and carries that entry's index. */
  lemma BlocksFromAnswers(ms: seq<ChatMessage>)
    ensures forall k :: 0 <= k < |CodeBlocksOf(ms)| ==>
      CodeBlocksOf(ms)[k].message < |ms| && IsAssistantChat(ms[CodeBlocksOf(ms)[k].message])
  {
    forall k | 0 <= k < |CodeBlocksOf(ms)| {
      BlockFromAnswer(ms, k);
    }
  }

  // ---------------------------------------------------------------------------
  // Clearing and slash commands
  // ---------------------------------------------------------------------------

  /** Clearing empties the three lists and the invocation log, starts a fresh record, and
      changes nothing else but the status line. */
  lemma ClearResets(s: AppState, env: Env)
    ensures var r := ClearConversation(s, env);
      && r.messages == [] && r.apiMessages == [] && r.invocations == []
      && r.conversation.messages == [] && r.conversation.title == History.DefaultTitle
      && r.status == Some(ConversationCleared)
      && r.(messages := s.messages, apiMessages := s.apiMessages, invocations := s.invocations,
            conversation := s.conversation, status := s.status) == s
  {
  }

  /** A new conversation empties the three lists and the invocation log, starts a fresh
      record and scrolls back to the top. */
  lemma NewConversationResets(s: AppState, env: Env)
    ensures var r := NewConversation(s, env);
      && r.messages == [] && r.apiMessages == [] && r.invocations == []
      && r.conversation.messages == [] && r.conversation.title == History.DefaultTitle
      && r.scrollOffset == 0 && r.status == Some(NewConversationStatus)
  {
  }

  /** A new conversation remembers the old one as the last session exactly when it had
      messages, and changes no other setting. */
  lemma NewConversationTracks(s: AppState, env: Env)
    ensures var r := NewConversation(s, env);
      && r.config.lastConversationId == (if s.messages != [] then Some(s.conversation.id) else s.config.lastConversationId)
      && r.config.(lastConversationId := s.config.lastConversationId) == s.config
  {
  }

  /** A new conversation changes nothing beyond the lists, the record, the settings, the
      scroll position and the status line. */
  lemma NewConversationKeepsRest(s: AppState, env: Env)
    ensures NewConversation(s, env).(messages := s.messages, apiMessages := s.apiMessages,
      invocations := s.invocations, conversation := s.conversation, status := s.status,
      scrollOffset := s.scrollOffset, config := s.config) == s
  {
  }

  /** `splitn(2, ' ')`: the command word is everything before the first space, the argument
      everything after it. */
  lemma SplitCommandAtSpace(name: string, arg: string)
    requires ' ' !in name
    ensures SplitCommand(name + " " + arg) == (name, Some(arg))
  {
    var t := name + " " + arg;
    assert t[..|name|] == name && t[|name|] == ' ';
    FindCharAt(t, ' ', |name|);
    assert t[|name| + 1..] == arg;
  }


  /** A command without a space is all command word. */
  lemma SplitCommandWhole(name: string)
    requires ' ' !in name
    ensures SplitCommand(name) == (name, None)
  {
  }

  /** The commands that do not return early have their effect, then empty the line. */
  lemma SlashEffect(s: AppState, cmd: string, name: string, arg: Option<string>, env: Env)
    requires SplitCommand(cmd) == (name, arg)
    requires var c := SlashNameOf(name);
      c != RetryCmd && c != EditCmd && c != UndoCmd && c != RedoCmd && c != UnmodelledCmd
    ensures SlashCommand(s, cmd, env) == ClearLine(CommandEffect(s, SlashNameOf(name), name, arg, env))
  {
  }

  /** `/undo` empties the line before undoing. */
  lemma SlashUndoFirst(s: AppState, env: Env)
    ensures SlashCommand(s, "/undo", env) == UndoLine(ClearLine(s))
  {
    UndoName();
    SlashUndoArm(s, "/undo", "/undo", None, env);
  }

  lemma UndoName()
    ensures SplitCommand("/undo") == ("/undo", None) && SlashNameOf("/undo") == UndoCmd
  {
    SplitCommandWhole("/undo");
  }

  lemma SlashUndoArm(s: AppState, cmd: string, name: string, arg: Option<string>, env: Env)
    requires SplitCommand(cmd) == (name, arg) && SlashNameOf(name) == UndoCmd
    ensures SlashCommand(s, cmd, env) == UndoLine(ClearLine(s))
  {
  }

  /** `/clear` and `/c` are `clear_conversation`, then the line is emptied. */
  lemma SlashClearIsClear(s: AppState, name: string, env: Env)
    requires name == "/clear" || name == "/c"
    ensures SlashCommand(s, name, env) == ClearLine(ClearConversation(s, env))
  {
    SplitCommandWhole(name);
    assert SlashNameOf(name) == ClearCmd;
    SlashEffect(s, name, name, None, env);
  }

  /** `/new` and `/n` are `new_conversation`, then the line is emptied. */
  lemma SlashNewIsNew(s: AppState, name: string, env: Env)
    requires name == "/new" || name == "/n"
    ensures SlashCommand(s, name, env) == ClearLine(NewConversation(s, env))
  {
    SplitCommandWhole(name);
    assert SlashNameOf(name) == NewCmd;
    SlashEffect(s, name, name, None, env);
  }

  /** `/model m` stores the model `m` resolves to and reports it. */
  lemma SlashModelStores(s: AppState, name: string, m: string, env: Env)
    requires name == "/model" || name == "/m"
    ensures var r, model := SlashCommand(s, name + " " + m, env), Input.ResolveModelAlias(m);
      r == ClearLine(s.(config := s.config.(model := model), status := Some(ModelSet + model)))
  {
    SplitCommandAtSpace(name, m);
    assert SlashNameOf(name) == ModelCmd;
    SlashEffect(s, name + " " + m, name, Some(m), env);
    var model := Input.ResolveModelAlias(m);
    assert CommandEffect(s, ModelCmd, name, Some(m), env) ==
      s.(config := s.config.(model := model), status := Some(ModelSet + model));
  }

  /** `/provider p` stores `p` as given, untrimmed, and reports it. */
  lemma SlashProviderStores(s: AppState, name: string, p: string, env: Env)
    requires name == "/provider" || name == "/p"
    ensures SlashCommand(s, name + " " + p, env) ==
      ClearLine(s.(config := s.config.(provider := p), status := Some(ProviderSet + p)))
  {
    SplitCommandAtSpace(name, p);
    assert SlashNameOf(name) == ProviderCmd;
    SlashEffect(s, name + " " + p, name, Some(p), env);
    ProviderEffect(s, name, p, env);
  }

  lemma ProviderEffect(s: AppState, name: string, p: string, env: Env)
    ensures CommandEffect(s, ProviderCmd, name, Some(p), env) ==
      s.(config := s.config.(provider := p), status := Some(ProviderSet + p))
  {
  }

  /** `/tools on` and `/tools off` switch tool use, empty the line and change no setting. */
  lemma SlashToolsSwitch(s: AppState, a: string, env: Env)
    requires a == "on" || a == "off"
    ensures var r := SlashCommand(s, "/tools " + a, env);
      r.toolsEnabled == (a == "on") && r.edit.input == [] && r.edit.cursor == 0 && r.config == s.config
  {
    SplitCommandAtSpace("/tools", a);
    assert "/tools" + " " + a == "/tools " + a;
    assert SlashNameOf("/tools") == ToolsCmd;
    SlashEffect(s, "/tools " + a, "/tools", Some(a), env);
  }

  /** A word no arm knows is reported as an unknown command. */
  lemma SlashUnknownReports(s: AppState, name: string, env: Env)
    requires ' ' !in name && SlashNameOf(name) == UnknownCmd
    ensures SlashCommand(s, name, env) == ClearLine(WithStatus(s, UnknownCommand + name))
  {
    SplitCommandWhole(name);
    SlashEffect(s, name, name, None, env);
  }

  /** Because the line is emptied first, `/undo` brings back the last saved line and leaves
      the empty line, not the command, to redo. */
  lemma SlashUndoAfterClear(s: AppState, env: Env)
    requires s.edit.undo != []
    ensures var r, u := SlashCommand(s, "/undo", env), s.edit.undo[|s.edit.undo| - 1];
      r.edit.input == u.text && r.edit.cursor == u.cursor
      && r.edit.redo == s.edit.redo + [Input.Snapshot([], 0)]
  {
    SlashUndoFirst(s, env);
  }

  /** `/theme t` takes a known theme, trimmed, and otherwise keeps the current one; no other
      setting changes. */
  lemma ThemeKnownOnly(s: AppState, a: string)
    ensures var r := ThemeCommand(s, Some(a));
      r.config.themeName == (if Trim(a) in ThemeNames then Trim(a) else s.config.themeName)
      && r.config.(themeName := s.config.themeName) == s.config
  {
  }

  // ---------------------------------------------------------------------------
  // Colon commands
  // ---------------------------------------------------------------------------

  /** `splitn(2, '=')`: the key is everything before the first `=`, the value everything
      after it, and a text without `=` is all key. */
  lemma SplitSettingAtFirst(k: string, v: string)
    requires '=' !in k
    ensures SplitSetting(k + "=" + v) == (k, Some(v))
  {
    var t := k + "=" + v;
    assert t[..|k|] == k && t[|k|] == '=';
    FindCharAt(t, '=', |k|);
    assert t[|k| + 1..] == v;
  }

  lemma SplitSettingWithout(rest: string)
    requires '=' !in rest
    ensures SplitSetting(rest) == (rest, None)
  {
  }

  /** A word without whitespace stays at the front of the trimmed text it starts. */
  lemma TrimKeepsWord(w: string, rest: string)
    requires w != [] && forall i :: 0 <= i < |w| ==> !IsWhitespace(w[i])
    ensures w <= Trim(w + rest)
  {
    var x := w + rest;
    assert TrimStart(x) == x;
    var r := TrimEnd(x);
    assert !IsWhitespace(x[|w| - 1]);
    assert x[..|w|] == w;
  }

  /** A command starting `set ` still starts with `set` once trimmed. */
  lemma TrimmedSet(rest: string)
    ensures var r := Trim("set " + rest); |r| >= 3 && r[0] == 's' && r[1] == 'e' && r[2] == 't'
  {
    TrimKeepsWord("set", " " + rest);
    assert "set" + (" " + rest) == "set " + rest;
  }

  /** A command starting `model ` still starts with `model` once trimmed. */
  lemma TrimmedModel(rest: string)
    ensures var r := Trim("model " + rest); |r| >= 5 && r[0] == 'm'
  {
    TrimKeepsWord("model", " " + rest);
    assert "model" + (" " + rest) == "model " + rest;
  }

  /** A text after `set ` is a `set` command whatever it holds. */
  lemma SetPrefixClassified(rest: string)
    ensures ColonNameOf("set " + rest) == ColonSet
  {
    TrimmedSet(rest);
  }

  /** A text after `model ` is a `model` command whatever it holds. */
  lemma ModelPrefixClassified(rest: string)
    ensures ColonNameOf("model " + rest) == ColonModel
  {
    TrimmedModel(rest);
    assert !("set " <= "model " + rest);
  }

  /** `:set ` hands the rest of the command to the settings. */
  lemma SetDelegates(s: AppState, rest: string, env: Env)
    ensures ExecuteCommand(s, "set " + rest, env) == SetCommand(s, rest)
  {
    SetPrefixClassified(rest);
    assert ("set " + rest)[4..] == rest;
  }

  /** `model=v` stores the trimmed value and reports it, and changes no other setting. */
  lemma SetStoresModel(s: AppState, k: string, v: string)
    requires '=' !in k && Trim(k) == "model"
    ensures SetCommand(s, k + "=" + v) == s.(config := s.config.(model := Trim(v)), status := Some(ModelPrefix + Trim(v)))
  {
    SplitSettingAtFirst(k, v);
  }

  /** `provider=v` stores the trimmed value and reports it, and changes no other setting. */
  lemma SetStoresProvider(s: AppState, k: string, v: string)
    requires '=' !in k && Trim(k) == "provider"
    ensures SetCommand(s, k + "=" + v) == s.(config := s.config.(provider := Trim(v)), status := Some(ProviderPrefix + Trim(v)))
  {
    SplitSettingAtFirst(k, v);
  }

  /** Without a value, `model` and `provider` change nothing. */
  lemma SetWithoutValue(s: AppState, k: string)
    requires '=' !in k && (Trim(k) == "model" || Trim(k) == "provider")
    ensures SetCommand(s, k) == s
  {
    SplitSettingWithout(k);
  }

  /** `:model m` stores the trimmed name and reports it. */
  lemma ModelCommandStores(s: AppState, m: string, env: Env)
    ensures ExecuteCommand(s, "model " + m, env) ==
      s.(config := s.config.(model := Trim(m)), status := Some(ModelPrefix + Trim(m)))
  {
    ModelPrefixClassified(m);
    assert ("model " + m)[6..] == m;
  }

  /** `:set vim` and `:set tools` are toggles: the same command twice restores both
      switches. */
  lemma SetToggleTwice(s: AppState, rest: string)
    requires var c := SettingNameOf(Trim(SplitSetting(rest).0)); c == SetVim || c == SetTools
    ensures var r := SetCommand(SetCommand(s, rest), rest);
      r.config == s.config && r.toolsEnabled == s.toolsEnabled
  {
  }

  /** `:q`, `:quit` and `:wq` only ask `run` to return. */
  lemma QuitWords(s: AppState, cmd: string, env: Env)
    requires Trim(cmd) == "q" || Trim(cmd) == "quit" || Trim(cmd) == "wq"
    ensures ExecuteCommand(s, cmd, env) == s.(shouldQuit := true)
  {
  }

  /** The list the unknown-theme message shows is the theme names joined with ", ". */
  lemma ThemeListJoined()
    ensures ThemeList == Join(ThemeNames, ", ")
  {
  }

  // ---------------------------------------------------------------------------
  // Scrolling, the loop's other events, the clipboard, Neovim and the overlays
  // ---------------------------------------------------------------------------

  /** Scrolling saturates: down stops at the top of `usize`, up at 0; scrolling up stops
      following new output, and nothing but the offset, and for up the follow flag, changes. */
  lemma ScrollSaturates(s: AppState, n: nat)
    ensures var d := ScrollDownBy(s, n);
      && d.scrollOffset == (if s.scrollOffset + n <= UsizeMax then s.scrollOffset + n else UsizeMax)
      && d.(scrollOffset := s.scrollOffset) == s
    ensures var u := ScrollUpBy(s, n);
      && u.scrollOffset == (if n <= s.scrollOffset then s.scrollOffset - n else 0)
      && !u.autoScroll && u.(scrollOffset := s.scrollOffset, autoScroll := s.autoScroll) == s
  {
  }

  /** Away from the bounds, scrolling down and then up by the same amount, or up and then
      down, comes back to the same offset, with following switched off. */
  lemma ScrollUndoes(s: AppState, n: nat)
    ensures s.scrollOffset + n <= UsizeMax ==> ScrollUpBy(ScrollDownBy(s, n), n) == s.(autoScroll := false)
    ensures n <= s.scrollOffset <= UsizeMax ==> ScrollDownBy(ScrollUpBy(s, n), n) == s.(autoScroll := false)
  {
  }

  /** Jumping to the end follows new output from then on; jumping to the start keeps the
      follow flag. Each jump is idempotent. */
  lemma ScrollJumps(s: AppState)
    ensures var b := ScrollToBottom(s);
      && b.scrollOffset == UsizeMax && b.autoScroll && ScrollToBottom(b) == b
      && b.(scrollOffset := s.scrollOffset, autoScroll := s.autoScroll) == s
    ensures var t := ScrollToTop(s);
      && t.scrollOffset == 0 && t.autoScroll == s.autoScroll && ScrollToTop(t) == t
      && t.(scrollOffset := s.scrollOffset) == s
  {
  }

  /** A tick advances the counter by one, wrapping to 0 after 2^64 - 1, and changes nothing
      else. */
  lemma TickAdvances(s: AppState)
    requires s.tickCount < TickModulus
    ensures var r := OnTick(s);
      && r.tickCount < TickModulus
      && (s.tickCount + 1 < TickModulus ==> r.tickCount == s.tickCount + 1)
      && (s.tickCount + 1 == TickModulus ==> r.tickCount == 0)
      && r.(tickCount := s.tickCount) == s
  {
  }

  /** A resize records the new height, and the visible height is that height less the six
      rows of chrome, or 0 for a smaller terminal. */
  lemma ResizeSetsHeight(s: AppState, h: nat)
    ensures var r := OnResize(s, h);
      && r.terminalHeight == h && r.(terminalHeight := s.terminalHeight) == s
      && VisibleHeight(r) == (if h < 6 then 0 else h - 6)
  {
  }

  /** The wheel scrolls three rows, up stopping following new output; a wheel step down
      then up, away from the bounds, comes back to the same offset; other mouse events
      change nothing. */
  lemma MouseScrollsThree(s: AppState)
    ensures OnMouse(s, Events.ScrollUp) == ScrollUpBy(s, 3) && !OnMouse(s, Events.ScrollUp).autoScroll
    ensures OnMouse(s, Events.ScrollDown) == ScrollDownBy(s, 3)
    ensures OnMouse(s, Events.OtherMouse) == s
    ensures s.scrollOffset + 3 <= UsizeMax ==>
      OnMouse(OnMouse(s, Events.ScrollDown), Events.ScrollUp) == s.(autoScroll := false)
  {
    ScrollUndoes(s, 3);
  }

  /** A tool-use request ends the stream that carried it; the response is then handled as
      `handle_tool_use_response` does, and when the body does not parse nothing streams. */
  lemma ToolUseStopsStream(s: AppState, body: string, env: Env)
    ensures OnToolUse(s, body, env) == HandleToolUseResponse(s.(streaming := false), body, env)
    ensures env.parse(body).Err? ==> !OnToolUse(s, body, env).streaming
  {
  }

  /** Saving remembers the current conversation as the last session and changes nothing
      else; saving twice is saving once. */
  lemma SaveTracksCurrent(s: AppState)
    ensures var r := SaveAndTrack(s);
      && r.config.lastConversationId == Some(s.conversation.id)
      && r.config.(lastConversationId := s.config.lastConversationId) == s.config
      && r.(config := s.config) == s
      && SaveAndTrack(r) == r
  {
  }

  /** Opening a saved record makes it current and shows its messages, following the end;
      the wire history and the line are kept. */
  lemma RestoredShowsRecord(s: AppState, r: History.Record)
    ensures var t := Restored(s, r);
      && t.conversation == r && t.messages == Displayed(r.messages)
      && t.apiMessages == s.apiMessages && t.edit == s.edit
      && t.scrollOffset == UsizeMax && t.autoScroll
  {
  }

  /** Undoing reports "Undo" or that there is nothing to undo, and redoing after an undo
      gives the line back as it was; the same holds the other way round. */
  lemma UndoRedoLines(s: AppState)
    ensures s.edit.undo == [] ==> UndoLine(s) == WithStatus(s, NothingToUndo)
    ensures s.edit.redo == [] ==> RedoLine(s) == WithStatus(s, NothingToRedo)
    ensures s.edit.undo != [] ==> UndoLine(s).status == Some("Undo") && RedoLine(UndoLine(s)).edit == s.edit
    ensures s.edit.redo != [] ==> RedoLine(s).status == Some("Redo") && UndoLine(RedoLine(s)).edit == s.edit
  {
    Input.UndoRedoRoundTrip(s.edit);
  }

  /** Yanking block `idx` (counted from 0) ends visual mode and changes only the status: a
      missing block is reported by its number counted from 1, a clipboard that cannot be
      opened by the failure text, and otherwise a preview that names the block. */
  lemma YankBlockReports(s: AppState, idx: nat, env: Env)
    ensures var r := YankCodeBlock(s, idx, env);
      && !r.visualMode && r.(status := s.status, visualMode := s.visualMode) == s
      && (idx >= |s.codeBlocks| ==> r.status == Some(NoCodeBlock + NatToString(idx + 1)))
      && (idx < |s.codeBlocks| && !env.clipboardOpen ==> r.status == Some(ClipboardFailure))
      && (idx < |s.codeBlocks| && env.clipboardOpen ==> YankedBlock + NatToString(idx + 1) + " [" <= r.status.value)
  {
  }

  /** Copying the last response reports it only when there is an assistant entry and the
      clipboard opens, and otherwise changes nothing; only the status ever changes. */
  lemma YankResponseReports(s: AppState, env: Env)
    ensures var r := YankLastResponse(s, env);
      && r.(status := s.status) == s
      && (r.status == s.status || r.status == Some(ResponseCopied))
      && ((exists k :: 0 <= k < |s.messages| && IsAssistantChat(s.messages[k])) && env.clipboardOpen ==>
            r.status == Some(ResponseCopied))
      && ((forall k :: 0 <= k < |s.messages| ==> !IsAssistantChat(s.messages[k])) ==> r == s)
  {
  }

  /** Sending block `idx` to Neovim changes only the status: a missing block is reported by
      its number, no editor connection by the Neovim text, a failure by its error, and a
      success by the block's number counted from 1. */
  lemma SendToNvimReports(s: AppState, idx: nat, env: Env)
    ensures var r := SendCodeToNvim(s, idx, env);
      && r.(status := s.status) == s
      && (idx >= |s.codeBlocks| ==> r.status == Some(NoCodeBlock + NatToString(idx + 1)))
      && (idx < |s.codeBlocks| && env.nvim.None? ==> r.status == Some(NoNeovim))
      && (idx < |s.codeBlocks| && env.nvim.Some? && env.nvim.value.Err? ==>
            r.status == Some(NeovimError + env.nvim.value.error))
      && (idx < |s.codeBlocks| && env.nvim.Some? && env.nvim.value.Ok? ==>
            SentBlock + NatToString(idx + 1) + " [" <= r.status.value)
  {
  }

  /** Pasting puts the clipboard text at the cursor as one undoable edit and moves the
      cursor past it; with no clipboard text the state is kept. */
  lemma PasteInsertsAtCursor(s: AppState, env: Env)
    requires Valid(s)
    ensures var r, e := PasteClipboard(s, env), s.edit;
      && (env.clipboardOpen && env.clipboardText.Some? ==>
            var t := env.clipboardText.value;
            && r.edit.input == e.input[..e.cursor] + t + e.input[e.cursor..]
            && r.edit.cursor == e.cursor + |t| && r.edit.undo == Input.SaveUndo(e).undo
            && r.(edit := e) == s)
      && (!env.clipboardOpen || env.clipboardText.None? ==> r == s)
  {
    var e := s.edit;
    if env.clipboardOpen && env.clipboardText.Some? {
      var t := env.clipboardText.value;
      var p := Input.Paste(e, t);
      assert p.input == p.input[..e.cursor] + p.input[e.cursor..p.cursor] + p.input[p.cursor..];
    }
  }

  /** Opening the history list shows the saved records from the first, and Enter then loads
      the first of them when it can be read. */
  lemma HistoryListThenSelect(s: AppState, env: Env)
    requires env.saved != []
    ensures var l := LoadHistoryList(s.(overlay := HistoryOverlay), env);
      && l.historyList == env.saved && l.overlayScroll == 0 && l.overlay == HistoryOverlay
      && (env.load(env.saved[0].id).Some? ==>
            OverlaySelect(l, env) == Restored(l, env.load(env.saved[0].id).value).(overlay := NoOverlay, overlayScroll := 0))
  {
  }

  /** One line down and one line up in an overlay, away from the top of `usize`, comes back
      to the same entry. */
  lemma OverlayScrollBack(s: AppState)
    requires s.overlayScroll < UsizeMax
    ensures OverlayScrollUp(OverlayScrollDown(s)) == s
    ensures s.overlayScroll > 0 ==> OverlayScrollDown(OverlayScrollUp(s)) == s
  {
  }

  /** `/tools` without an argument reports the switch and the permission of every listed
      tool; "on" and "off" set the switch; any other argument is answered with the usage
      text and leaves the switch. Only the switch and the status change. */
  lemma ToolsCommandReplies(s: AppState, arg: Option<string>)
    ensures var r := ToolsCommand(s, arg);
      && r.(toolsEnabled := s.toolsEnabled, status := s.status) == s
      && (arg.None? ==>
            && r.toolsEnabled == s.toolsEnabled
            && r.status == Some(ToolsPrefix + OnOff(s.toolsEnabled) + "\n" + Join(PermissionLines(s.permissions), "\n")))
      && (arg == Some("on") ==> r.toolsEnabled && r.status == Some(ToolsEnabledStatus))
      && (arg == Some("off") ==> !r.toolsEnabled && r.status == Some(ToolsDisabledStatus))
      && (arg.Some? && arg != Some("on") && arg != Some("off") ==>
            r.toolsEnabled == s.toolsEnabled && r.status == Some(ToolsUsage))
  {
  }

  /** `/theme` without an argument reports the current theme; with a known one it reports
      the change, and with an unknown one it lists the known themes. */
  lemma ThemeCommandReplies(s: AppState, arg: Option<string>)
    ensures arg.None? ==> ThemeCommand(s, arg) == WithStatus(s, CurrentTheme + s.config.themeName)
    ensures arg.Some? && Trim(arg.value) in ThemeNames ==>
      ThemeCommand(s, arg).status == Some(ThemeSet + Trim(arg.value))
    ensures arg.Some? && Trim(arg.value) !in ThemeNames ==>
      ThemeCommand(s, arg) == WithStatus(s, UnknownTheme + Trim(arg.value) + AvailableThemes + ThemeList)
  {
  }

  /** Remembering an answer at the prompt sets the permission of the tool being asked
      about, and every other tool keeps its permission. */
  lemma RememberSetsTool(s: AppState, p: Permission, other: string)
    requires s.confirmIdx < |s.pending|
    ensures var r, name := Remember(s, p), s.pending[s.confirmIdx].tool.Name();
      && Lookup(r.permissions, name) == p
      && (other != name ==> Lookup(r.permissions, other) == Lookup(s.permissions, other))
      && r.(permissions := s.permissions) == s
  {
    LookupAfterSet(s.permissions, s.pending[s.confirmIdx].tool.Name(), p, other);
  }
}
