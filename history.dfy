/** The persisted conversation record: its messages, the automatic title, and the ordering
    of the saved conversations. Times are values of an abstract monotone clock passed in;
    reading and writing the history directory is an input. */
module History {
  import opened Wrappers
  import opened Text

  const DefaultTitle := "New conversation"
  const TitleChars: nat := 60

  /** One persisted message. */
  datatype SavedMessage = SavedMessage(role: string, content: string, timestamp: int)

  /** A saved conversation as read back from disk. */
  datatype Record = Record(id: string, title: string, createdAt: int, updatedAt: int, messages: seq<SavedMessage>)

  /** The position of the first message with role "user", if any. */
  function FirstUser(msgs: seq<SavedMessage>): (r: Option<nat>)
    ensures r.Some? ==> (r.value < |msgs| && msgs[r.value].role == "user"
                         && forall j :: 0 <= j < r.value ==> msgs[j].role != "user")
    ensures r.None? ==> forall j :: 0 <= j < |msgs| ==> msgs[j].role != "user"
  {
    if msgs == [] then None
    else if msgs[0].role == "user" then Some(0)
    else match FirstUser(msgs[1..])
      case None => None
      case Some(k) => Some(k + 1)
  }

  /** The title made from a first user message: its first 60 chars, and "..." when the
      content was longer (compared, as in the source, by UTF-8 length). */
  function AutoTitle(content: string): string
  {
    var title := TakeChars(content, TitleChars);
    if Utf8Len(title) < Utf8Len(content) then title + "..." else title
  }

  lemma {:induction false} Utf8LenAppend(a: string, b: string)
    ensures Utf8Len(a + b) == Utf8Len(a) + Utf8Len(b)
  {
    if a != [] {
      assert (a + b)[1..] == a[1..] + b;
      Utf8LenAppend(a[1..], b);
    } else {
      assert a + b == b;
    }
  }

  /** The byte-length test adds "..." exactly when characters were cut off. */
  lemma AutoTitleShape(content: string)
    ensures |content| <= TitleChars ==> AutoTitle(content) == content
    ensures |content| > TitleChars ==> AutoTitle(content) == content[..TitleChars] + "..."
  {
    if |content| > TitleChars {
      assert content == content[..TitleChars] + content[TitleChars..];
      Utf8LenAppend(content[..TitleChars], content[TitleChars..]);
    }
  }

  /** A conversation as `Conversation::new` makes it. */
  function NewRecord(newId: string, now: int): (r: Record)
    ensures r.id == newId && r.title == DefaultTitle && r.messages == []
    ensures r.createdAt == now && r.updatedAt == now
  {
    Record(newId, DefaultTitle, now, now, [])
  }

  /** The record after `add_message(role, content)` at time `now`. */
  function Added(r: Record, role: string, content: string, now: int): (a: Record)
    ensures a.messages == r.messages + [SavedMessage(role, content, now)]
    ensures a.id == r.id && a.createdAt == r.createdAt && a.updatedAt == now
    ensures r.title != DefaultTitle ==> a.title == r.title
    ensures r.title == DefaultTitle && FirstUser(a.messages).None? ==> a.title == DefaultTitle
    ensures r.title == DefaultTitle && FirstUser(a.messages).Some? ==>
      a.title == AutoTitle(a.messages[FirstUser(a.messages).value].content)
  {
    var msgs := r.messages + [SavedMessage(role, content, now)];
    var title :=
      if r.title != DefaultTitle then r.title
      else match FirstUser(msgs)
        case Some(k) => AutoTitle(msgs[k].content)
        case None => DefaultTitle;
    Record(r.id, title, r.createdAt, now, msgs)
  }

  class Conversation {
    var id: string
    var title: string
    var createdAt: int
    var updatedAt: int
    var messages: seq<SavedMessage>

    /** `Conversation::new`; the identifier (a fresh UUID) and the time are inputs. */
    constructor (newId: string, now: int)
      ensures ToRecord() == NewRecord(newId, now)
    {
      id := newId;
      title := DefaultTitle;
      createdAt := now;
      updatedAt := now;
      messages := [];
    }

    /** A conversation read back from disk (`Conversation::load`). */
    constructor Restore(r: Record)
      ensures ToRecord() == r
    {
      id := r.id;
      title := r.title;
      createdAt := r.createdAt;
      updatedAt := r.updatedAt;
      messages := r.messages;
    }

    /** The persisted form. */
    function ToRecord(): Record
      reads this
    {
      Record(id, title, createdAt, updatedAt, messages)
    }

    /** `add_message`: appends the message, stamps the time and, while the title is still
        the default one, titles the conversation after its first user message. */
    method AddMessage(role: string, content: string, now: int)
      modifies this
      ensures ToRecord() == Added(old(ToRecord()), role, content, now)
    {
      messages := messages + [SavedMessage(role, content, now)];
      updatedAt := now;
      if title == DefaultTitle {
        match FirstUser(messages) {
          case Some(k) => title := AutoTitle(messages[k].content);
          case None =>
        }
      }
    }
  }

  /** Once a user message exists, later messages do not move the first user message, so the
      title they would produce is the same one. */
  lemma {:induction false} FirstUserStable(msgs: seq<SavedMessage>, m: SavedMessage)
    requires FirstUser(msgs).Some?
    ensures FirstUser(msgs + [m]) == FirstUser(msgs)
  {
    if msgs[0].role != "user" {
      assert (msgs + [m])[1..] == msgs[1..] + [m];
      FirstUserStable(msgs[1..], m);
    }
  }

  // ---------------------------------------------------------------------------
  // Listing saved conversations
  // ---------------------------------------------------------------------------

  /** One directory entry: whether its name ends in ".json", and the conversation its
      contents decode to (`None` when it cannot be read or decoded). */
  datatype Entry = Entry(isJson: bool, decoded: Option<Record>)

  /** Newest first: every conversation is at least as recent as every later one. */
  predicate NewestFirst(s: seq<Record>)
  {
    forall i, j :: 0 <= i < j < |s| ==> s[i].updatedAt >= s[j].updatedAt
  }

  /** Inserts `x` into a newest-first list after every entry at least as recent. */
  function Insert(sorted: seq<Record>, x: Record): (r: seq<Record>)
    requires NewestFirst(sorted)
    ensures NewestFirst(r)
    ensures forall y :: y in r ==> y == x || y in sorted
    decreases |sorted|
  {
    if sorted == [] then [x]
    else
      var last := sorted[|sorted| - 1];
      var init := sorted[..|sorted| - 1];
      assert sorted == init + [last];
      if last.updatedAt >= x.updatedAt then sorted + [x]
      else
        var ins := Insert(init, x);
        assert forall y :: y in init ==> y.updatedAt >= last.updatedAt;
        assert forall y :: y in ins ==> y.updatedAt >= last.updatedAt;
        ins + [last]
  }

  /** Inserting adds `x` and loses nothing. */
  lemma {:induction false} InsertPermutes(sorted: seq<Record>, x: Record)
    requires NewestFirst(sorted)
    ensures multiset(Insert(sorted, x)) == multiset(sorted) + multiset{x}
    decreases |sorted|
  {
    if sorted != [] {
      var last := sorted[|sorted| - 1];
      var init := sorted[..|sorted| - 1];
      assert sorted == init + [last];
      if last.updatedAt < x.updatedAt {
        InsertPermutes(init, x);
      }
    }
  }

  /** `convs.sort_by(|a, b| b.updated_at.cmp(&a.updated_at))`: newest first, a stable sort. */
  function SortNewestFirst(s: seq<Record>): (r: seq<Record>)
    ensures NewestFirst(r)
    ensures multiset(r) == multiset(s)
  {
    if s == [] then []
    else
      var init := s[..|s| - 1];
      assert s == init + [s[|s| - 1]];
      InsertPermutes(SortNewestFirst(init), s[|s| - 1]);
      Insert(SortNewestFirst(init), s[|s| - 1])
  }

  /** The conversations the directory entries decode to, in directory order. */
  function Decoded(entries: seq<Entry>): seq<Record>
  {
    if entries == [] then []
    else
      var init := Decoded(entries[..|entries| - 1]);
      var e := entries[|entries| - 1];
      if e.isJson && e.decoded.Some? then init + [e.decoded.value] else init
  }

  /** `list_all`: an absent directory lists nothing; a directory or entry read error is
      returned; otherwise every ".json" entry that decodes is kept, newest first. */
  method ListAll(dirExists: bool, listing: Result<seq<Result<Entry, string>>, string>)
    returns (r: Result<seq<Record>, string>)
    ensures !dirExists ==> r == Ok([])
    ensures dirExists && listing.Err? ==> r == Err(listing.error)
    ensures dirExists && listing.Ok? && (forall i :: 0 <= i < |listing.value| ==> listing.value[i].Ok?) ==>
      r.Ok? && NewestFirst(r.value)
      && multiset(r.value) == multiset(Decoded(seq(|listing.value|, i requires 0 <= i < |listing.value| => listing.value[i].value)))
    ensures dirExists && listing.Ok? && (exists i :: 0 <= i < |listing.value| && listing.value[i].Err?) ==> r.Err?
  {
    if !dirExists {
      return Ok([]);
    }
    if listing.Err? {
      return Err(listing.error);
    }
    var items := listing.value;
    ghost var entries: seq<Entry> := [];
    var convs: seq<Record> := [];
    var i := 0;
    while i < |items|
      invariant 0 <= i <= |items|
      invariant |entries| == i && forall j :: 0 <= j < i ==> items[j] == Ok(entries[j])
      invariant convs == Decoded(entries)
    {
      match items[i] {
        case Err(e) => return Err(e);
        case Ok(entry) =>
          assert (entries + [entry])[..|entries|] == entries;
          entries := entries + [entry];
          if entry.isJson {
            match entry.decoded {
              case Some(conv) => convs := convs + [conv];
              case None =>
            }
          }
      }
      i := i + 1;
    }
    assert entries == seq(|items|, j requires 0 <= j < |items| => items[j].value);
    r := Ok(SortNewestFirst(convs));
  }

  /** `latest`: the first conversation `list_all` gives, which is a most recent one. */
  method Latest(dirExists: bool, listing: Result<seq<Result<Entry, string>>, string>)
    returns (r: Result<Option<Record>, string>)
    ensures !dirExists ==> r == Ok(None)
    ensures dirExists && listing.Err? ==> r == Err(listing.error)
    ensures dirExists && listing.Ok? && (forall i :: 0 <= i < |listing.value| ==> listing.value[i].Ok?) ==>
      r.Ok? && (r.value.None? <==> Decoded(seq(|listing.value|, i requires 0 <= i < |listing.value| => listing.value[i].value)) == [])
      && (r.value.Some? ==>
            r.value.value in Decoded(seq(|listing.value|, i requires 0 <= i < |listing.value| => listing.value[i].value))
            && forall c :: c in Decoded(seq(|listing.value|, i requires 0 <= i < |listing.value| => listing.value[i].value)) ==>
                 r.value.value.updatedAt >= c.updatedAt)
  {
    var all := ListAll(dirExists, listing);
    match all {
      case Err(e) => r := Err(e);
      case Ok(convs) =>
        if convs == [] {
          r := Ok(None);
        } else {
          r := Ok(Some(convs[0]));
          assert convs[0] in multiset(convs);
          forall c | c in multiset(convs) ensures convs[0].updatedAt >= c.updatedAt {
            var j :| 0 <= j < |convs| && convs[j] == c;
            if j > 0 { assert convs[0].updatedAt >= convs[j].updatedAt; }
          }
        }
    }
  }
}
