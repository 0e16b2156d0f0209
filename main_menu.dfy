/** The main menu popup (`mainmenupopup/mainmenupopup.js`): the goals task
    list, the view state of the popup, the export statistics, the
    plain-text and Markdown chat exporters and the "clear all data"
    defaults.  Dates and times arrive already formatted, as the strings
    `toLocaleString` and `toLocaleTimeString` would give; the temperature is
    carried as a `real`. */
module MainMenu {
  import opened Wrappers
  import opened JsString

  // ---------------------------------------------------------------------
  // Tasks

  /** One entry of the `ventora_tasks` list. */
  datatype Task = Task(text: string, completed: bool)

  /** The list after toggling the task at `index`: an index outside the list
      changes nothing. */
  function Toggled(tasks: seq<Task>, index: int): (r: seq<Task>)
    ensures |r| == |tasks|
    ensures forall k :: 0 <= k < |tasks| && k != index ==> r[k] == tasks[k]
    ensures 0 <= index < |tasks| ==>
      r[index].text == tasks[index].text && r[index].completed == !tasks[index].completed
  {
    if 0 <= index < |tasks| then tasks[index := tasks[index].(completed := !tasks[index].completed)]
    else tasks
  }

  /** The list after `splice(index, 1)` behind the range check. */
  function Deleted(tasks: seq<Task>, index: int): (r: seq<Task>)
    ensures 0 <= index < |tasks| ==> |r| == |tasks| - 1
    ensures 0 <= index < |tasks| ==> forall k :: 0 <= k < |r| ==> r[k] == tasks[if k < index then k else k + 1]
    ensures !(0 <= index < |tasks|) ==> r == tasks
  {
    if 0 <= index < |tasks| then tasks[..index] + tasks[index + 1..] else tasks
  }

  /** Toggling the same task twice gives the list back. */
  lemma ToggleTwice(tasks: seq<Task>, index: int)
    ensures Toggled(Toggled(tasks, index), index) == tasks
  {
    if 0 <= index < |tasks| {
      assert Toggled(Toggled(tasks, index), index)[index] == tasks[index];
    }
  }

  /** Deleting removes exactly one occurrence of the deleted task. */
  lemma DeletedMultiset(tasks: seq<Task>, index: int)
    requires 0 <= index < |tasks|
    ensures multiset(Deleted(tasks, index)) + multiset{tasks[index]} == multiset(tasks)
  {
    assert tasks == tasks[..index] + [tasks[index]] + tasks[index + 1..];
  }

  // ---------------------------------------------------------------------
  // Conversations and the export statistics

  /** A chat message; `time` is the message's time as the locale formats it. */
  datatype Message = Message(role: string, content: string, time: string)

  /** A conversation; `updated` is its last-update date as the locale formats it. */
  datatype Conversation = Conversation(title: string, updated: string, messages: seq<Message>)

  /** `messages.filter(m => m.role === role).length`. */
  function CountRole(msgs: seq<Message>, role: string): (n: nat)
    ensures n <= |msgs|
    ensures n == |msgs| <==> forall k :: 0 <= k < |msgs| ==> msgs[k].role == role
  {
    if msgs == [] then 0
    else CountRole(msgs[..|msgs| - 1], role) + (if msgs[|msgs| - 1].role == role then 1 else 0)
  }

  /** The user and assistant counts shown beside the total never add up to
      more than the total: no message counts twice. */
  lemma {:induction false} RoleCountsBound(msgs: seq<Message>)
    ensures CountRole(msgs, "user") + CountRole(msgs, "assistant") <= |msgs|
  {
    if msgs != [] {
      RoleCountsBound(msgs[..|msgs| - 1]);
    }
  }

  // ---------------------------------------------------------------------
  // Concatenating one block per message

  /** What a `forEach` that appends one block per element accumulates. */
  function Concat(blocks: seq<string>): string {
    if blocks == [] then [] else Concat(blocks[..|blocks| - 1]) + blocks[|blocks| - 1]
  }

  lemma {:induction false} ConcatAppend(a: seq<string>, b: seq<string>)
    ensures Concat(a + b) == Concat(a) + Concat(b)
    decreases |b|
  {
    if b == [] {
      assert a + b == a;
    } else {
      var b' := b[..|b| - 1];
      assert (a + b)[..|a + b| - 1] == a + b';
      assert (a + b)[|a + b| - 1] == b[|b| - 1];
      ConcatAppend(a, b');
      AppendAssoc(Concat(a), Concat(b'), b[|b| - 1]);
    }
  }

  /** Once every block is taken, the loop's text is the whole concatenation. */
  lemma ConcatWhole(blocks: seq<string>)
    ensures Concat(blocks[..|blocks|]) == Concat(blocks)
  {
    assert blocks[..|blocks|] == blocks;
  }

  /** One more block: what one turn of the accumulating loop adds. */
  lemma ConcatNext(blocks: seq<string>, k: nat)
    requires k < |blocks|
    ensures Concat(blocks[..k + 1]) == Concat(blocks[..k]) + blocks[k]
  {
    assert blocks[..k + 1][..k] == blocks[..k];
  }

  /** Block `k` sits in the concatenation right after the blocks before it. */
  lemma ConcatBlockAt(blocks: seq<string>, k: nat)
    requires k < |blocks|
    ensures var off := |Concat(blocks[..k])|;
      off + |blocks[k]| <= |Concat(blocks)| && Concat(blocks)[off..off + |blocks[k]|] == blocks[k]
  {
    assert blocks == blocks[..k] + [blocks[k]] + blocks[k + 1..];
    ConcatAppend(blocks[..k] + [blocks[k]], blocks[k + 1..]);
    assert [blocks[k]][..0] == [];
    ConcatAppend(blocks[..k], [blocks[k]]);
  }

  /** A non-empty concatenation ends the way its last block ends. */
  lemma ConcatEndsWithLast(blocks: seq<string>)
    requires blocks != [] && |blocks[|blocks| - 1]| >= 2
    ensures var last := blocks[|blocks| - 1]; var r := Concat(blocks);
      |r| >= 2 && r[|r| - 2] == last[|last| - 2]
  {
  }

  /** A concatenation whose first block is non-empty starts with its first
      character. */
  lemma ConcatStartsWithFirst(blocks: seq<string>)
    requires blocks != [] && blocks[0] != []
    ensures Concat(blocks) != [] && Concat(blocks)[0] == blocks[0][0]
  {
    assert blocks == [blocks[0]] + blocks[1..];
    ConcatAppend([blocks[0]], blocks[1..]);
    assert [blocks[0]][..0] == [];
  }

  /** `window.nebulaSettings?.model || 'Unknown'`: a missing or empty model
      name reads as "Unknown". */
  function ModelName(model: Option<string>): string {
    if model.Some? && model.value != "" then model.value else "Unknown"
  }

  // ---------------------------------------------------------------------
  // Plain-text export

  const TextBanner: string := "=== Ventora AI Conversation ===\n\n"
  const TextFooter: string := "\n=== End of Conversation ===\nExported from Ventora AI\n"

  /** The title, date and model lines of the metadata header. */
  function TextDetails(c: Conversation, model: Option<string>): string {
    "Title: " + c.title + "\n" + "Date: " + c.updated + "\n" + "Model: " + ModelName(model) + "\n" + "\n"
  }

  function TextHeader(c: Conversation, model: Option<string>): string {
    TextBanner + TextDetails(c, model)
  }

  /** The role as the text export names it: "You" for a user message,
      "Ventora AI" for every other. */
  function TextRole(role: string): string {
    if role == "user" then "You" else "Ventora AI"
  }

  function TextTime(m: Message, timestamps: bool): string {
    if timestamps then "[" + m.time + "] " else ""
  }

  /** `content.replace(/<[^>]*>/g, '')`: every `<` that has a `>` after it is
      removed together with everything up to the first such `>`; a `<`
      without one is kept. */
  function StripTags(s: string): (r: string)
    ensures |r| <= |s|
    ensures forall c :: c in r ==> c in s
    decreases |s|
  {
    if s == [] then []
    else if s[0] == '<' && IndexOfChar(s[1..], '>') >= 0 then StripTags(s[IndexOfChar(s[1..], '>') + 2..])
    else [s[0]] + StripTags(s[1..])
  }

  /** No `<` is followed, anywhere later, by a `>`. */
  predicate NoTag(s: string) {
    forall i, j :: 0 <= i < j < |s| && s[i] == '<' ==> s[j] != '>'
  }

  lemma {:induction false} StripTagsLeavesNoTag(s: string)
    ensures NoTag(StripTags(s))
    decreases |s|
  {
    if s != [] {
      var j := IndexOfChar(s[1..], '>');
      if s[0] == '<' && j >= 0 {
        StripTagsLeavesNoTag(s[j + 2..]);
      } else {
        var rest := StripTags(s[1..]);
        StripTagsLeavesNoTag(s[1..]);
        assert StripTags(s) == [s[0]] + rest;
        if s[0] == '<' {
          assert '>' !in s[1..];
          assert '>' !in rest;
        }
      }
    }
  }

  /** Text without a complete tag comes back unchanged. */
  lemma {:induction false} NoTagUnchanged(s: string)
    requires NoTag(s)
    ensures StripTags(s) == s
    decreases |s|
  {
    if s != [] {
      if s[0] == '<' {
        forall k | 0 <= k < |s[1..]| ensures s[1..][k] != '>' {
          assert s[1 + k] != '>';
        }
      }
      assert NoTag(s[1..]) by {
        forall i, j | 0 <= i < j < |s[1..]| && s[1..][i] == '<' ensures s[1..][j] != '>' {
          assert s[i + 1] == '<';
        }
      }
      NoTagUnchanged(s[1..]);
    }
  }

  lemma StripTagsIdempotent(s: string)
    ensures StripTags(StripTags(s)) == StripTags(s)
  {
    StripTagsLeavesNoTag(s);
    NoTagUnchanged(StripTags(s));
  }

  /** The content as the text export writes it: stripped of tags only for an
      assistant message with formatting on. */
  function TextBody(m: Message, formatting: bool): string {
    if formatting && m.role == "assistant" then StripTags(m.content) else m.content
  }

  /** The block one message contributes to the text export. */
  function TextEntry(m: Message, timestamps: bool, formatting: bool): string {
    TextTime(m, timestamps) + TextRole(m.role) + ":\n" + TextBody(m, formatting) + "\n\n"
  }

  function TextBlocks(msgs: seq<Message>, timestamps: bool, formatting: bool): (r: seq<string>)
    ensures |r| == |msgs| && forall k :: 0 <= k < |msgs| ==> r[k] == TextEntry(msgs[k], timestamps, formatting)
  {
    seq(|msgs|, k requires 0 <= k < |msgs| => TextEntry(msgs[k], timestamps, formatting))
  }

  /** The whole text export. */
  function ExportText(c: Conversation, timestamps: bool, metadata: bool, formatting: bool,
                      model: Option<string>): string {
    (if metadata then TextHeader(c, model) else "")
      + Concat(TextBlocks(c.messages, timestamps, formatting))
      + (if metadata then TextFooter else "")
  }

  /** `exportAsText`: the `forEach` over the messages. */
  method ExportAsText(c: Conversation, timestamps: bool, metadata: bool, formatting: bool,
                      model: Option<string>) returns (text: string)
    ensures text == ExportText(c, timestamps, metadata, formatting, model)
  {
    var head := if metadata then TextHeader(c, model) else "";
    text := head;
    ghost var blocks := TextBlocks(c.messages, timestamps, formatting);
    for k := 0 to |c.messages|
      invariant text == head + Concat(blocks[..k])
    {
      var e := TextEntry(c.messages[k], timestamps, formatting);
      ConcatNext(blocks, k);
      AppendAssoc(head, Concat(blocks[..k]), e);
      text := text + e;
    }
    ConcatWhole(blocks);
    if metadata {
      text := text + TextFooter;
    }
  }

  /** Every text block starts with the time tag, then "You" exactly for a
      user message; and it ends with a blank line. */
  lemma TextEntryShape(m: Message, timestamps: bool, formatting: bool)
    ensures var e := TextEntry(m, timestamps, formatting);
      var p := |TextTime(m, timestamps)|;
      (&& StartsWith(e, TextTime(m, timestamps))
       && (m.role == "user" <==> StartsWith(e[p..], "You:"))
       && EndsWith(e, "\n\n"))
  {
    var e := TextEntry(m, timestamps, formatting);
    var p := |TextTime(m, timestamps)|;
    assert e[p..] == TextRole(m.role) + ":\n" + TextBody(m, formatting) + "\n\n";
    assert e[p] == TextRole(m.role)[0];
  }

  /** A text block never starts with `=` and ends with a newline pair. */
  lemma TextEntryEnds(m: Message, timestamps: bool, formatting: bool)
    ensures var e := TextEntry(m, timestamps, formatting);
      |e| >= 2 && e[0] != '=' && e[|e| - 2] == '\n'
  {
  }

  /** Formatting changes only assistant messages, and only those that carry
      a complete tag. */
  lemma FormattingOnlyStripsAssistantTags(m: Message, timestamps: bool)
    requires m.role != "assistant" || NoTag(m.content)
    ensures TextEntry(m, timestamps, true) == TextEntry(m, timestamps, false)
  {
    if m.role == "assistant" {
      NoTagUnchanged(m.content);
    }
  }

  /** The banner and the closing lines appear exactly when metadata is
      included. */
  lemma TextExportFraming(c: Conversation, timestamps: bool, metadata: bool, formatting: bool,
                          model: Option<string>)
    ensures var r := ExportText(c, timestamps, metadata, formatting, model);
      (StartsWith(r, TextBanner) <==> metadata) && (EndsWith(r, TextFooter) <==> metadata)
  {
    if metadata {
      TextFramingWithMetadata(c, timestamps, formatting, model);
    } else {
      TextFramingWithoutMetadata(c, timestamps, formatting, model);
    }
  }

  lemma TextFramingWithMetadata(c: Conversation, timestamps: bool, formatting: bool, model: Option<string>)
    ensures var r := ExportText(c, timestamps, true, formatting, model);
      StartsWith(r, TextBanner) && EndsWith(r, TextFooter)
  {
    var d := TextDetails(c, model);
    var body := Concat(TextBlocks(c.messages, timestamps, formatting));
    AppendAssoc(TextBanner, d, body);
    AppendAssoc(TextBanner, d + body, TextFooter);
    AppendStartsWith(TextBanner, d + body + TextFooter);
    AppendEndsWith(TextBanner + d + body, TextFooter);
  }

  /** Without metadata the export is the message blocks alone: it is empty,
      or it starts with a time tag or a role and ends with a blank line. */
  lemma TextFramingWithoutMetadata(c: Conversation, timestamps: bool, formatting: bool, model: Option<string>)
    ensures var r := ExportText(c, timestamps, false, formatting, model);
      !StartsWith(r, TextBanner) && !EndsWith(r, TextFooter)
  {
    var blocks := TextBlocks(c.messages, timestamps, formatting);
    var r := ExportText(c, timestamps, false, formatting, model);
    EmptyFrame(Concat(blocks));
    assert r == Concat(blocks);
    if blocks != [] {
      TextEntryEnds(c.messages[0], timestamps, formatting);
      ConcatStartsWithFirst(blocks);
      TextEntryEnds(c.messages[|blocks| - 1], timestamps, formatting);
      ConcatEndsWithLast(blocks);
      assert TextBanner[0] == '=';
      assert TextFooter[|TextFooter| - 2] == 'I';
    }
  }

  // ---------------------------------------------------------------------
  // Markdown export

  const MdSeparator: string := "---\n\n"
  const MdClosing: string := "*Exported from Ventora AI*"

  function MdHeader(c: Conversation, model: Option<string>, exportDate: string): string {
    "# " + c.title + "\n\n" + "**Date:** " + c.updated + "\n"
      + "**Model:** " + ModelName(model) + "\n" + "**Export Date:** " + exportDate + "\n\n"
      + MdSeparator
  }

  function MdRole(role: string): string {
    if role == "user" then "**You**" else "**Ventora AI**"
  }

  function MdTime(m: Message, timestamps: bool): string {
    if timestamps then "*" + m.time + "* " else ""
  }

  /** The block one message contributes to the Markdown export. */
  function MdEntry(m: Message, timestamps: bool): string {
    MdTime(m, timestamps) + MdRole(m.role) + "\n\n" + m.content + "\n\n" + MdSeparator
  }

  function MdBlocks(msgs: seq<Message>, timestamps: bool): (r: seq<string>)
    ensures |r| == |msgs| && forall k :: 0 <= k < |msgs| ==> r[k] == MdEntry(msgs[k], timestamps)
  {
    seq(|msgs|, k requires 0 <= k < |msgs| => MdEntry(msgs[k], timestamps))
  }

  /** The whole Markdown export; `exportDate` is the moment of export as the
      locale formats it. */
  function ExportMarkdown(c: Conversation, timestamps: bool, metadata: bool,
                          model: Option<string>, exportDate: string): string {
    (if metadata then MdHeader(c, model, exportDate) else "")
      + Concat(MdBlocks(c.messages, timestamps)) + MdClosing
  }

  /** `exportAsMarkdown`: the `forEach` over the messages. */
  method ExportAsMarkdown(c: Conversation, timestamps: bool, metadata: bool,
                          model: Option<string>, exportDate: string) returns (md: string)
    ensures md == ExportMarkdown(c, timestamps, metadata, model, exportDate)
  {
    var head := if metadata then MdHeader(c, model, exportDate) else "";
    md := head;
    ghost var blocks := MdBlocks(c.messages, timestamps);
    for k := 0 to |c.messages|
      invariant md == head + Concat(blocks[..k])
    {
      var e := MdEntry(c.messages[k], timestamps);
      ConcatNext(blocks, k);
      AppendAssoc(head, Concat(blocks[..k]), e);
      md := md + e;
    }
    ConcatWhole(blocks);
    md := md + MdClosing;
  }

  /** The export always ends with the closing line, and it opens with a
      heading exactly when metadata is included. */
  lemma MarkdownFraming(c: Conversation, timestamps: bool, metadata: bool,
                        model: Option<string>, exportDate: string)
    ensures var r := ExportMarkdown(c, timestamps, metadata, model, exportDate);
      EndsWith(r, MdClosing) && (StartsWith(r, "#") <==> metadata)
  {
    var r := ExportMarkdown(c, timestamps, metadata, model, exportDate);
    var blocks := MdBlocks(c.messages, timestamps);
    var body := Concat(blocks);
    var head := if metadata then MdHeader(c, model, exportDate) else "";
    assert r == head + body + MdClosing;
    AppendEndsWith(head + body, MdClosing);
    StartsWithChar(r, '#');
    assert MdClosing[0] == '*';
    FirstOfThree(head, body, MdClosing);
    if metadata {
      assert head[0] == '#';
    } else if blocks != [] {
      MdEntryStartsWithStar(c.messages[0], timestamps);
      ConcatStartsWithFirst(blocks);
    }
  }

  /** A Markdown block opens with the `*` of the time or of the bold role. */
  lemma MdEntryStartsWithStar(m: Message, timestamps: bool)
    ensures MdEntry(m, timestamps) != [] && MdEntry(m, timestamps)[0] == '*'
  {
    var t := MdTime(m, timestamps);
    var rest := MdRole(m.role) + "\n\n" + m.content + "\n\n" + MdSeparator;
    assert MdEntry(m, timestamps) == t + rest;
    if timestamps {
      assert t[0] == '*';
    } else {
      assert t == [];
      assert rest[0] == MdRole(m.role)[0] == '*';
    }
  }

  /** Message `k`'s block, ending with the `---` separator, sits in the
      export right after the blocks of the messages before it. */
  lemma MarkdownBlockAt(msgs: seq<Message>, timestamps: bool, k: nat)
    requires k < |msgs|
    ensures var all := Concat(MdBlocks(msgs, timestamps));
      var off := |Concat(MdBlocks(msgs[..k], timestamps))|;
      var e := MdEntry(msgs[k], timestamps);
      off + |e| <= |all| && all[off..off + |e|] == e && EndsWith(e, MdSeparator)
  {
    var blocks := MdBlocks(msgs, timestamps);
    assert MdBlocks(msgs[..k], timestamps) == blocks[..k];
    ConcatBlockAt(blocks, k);
  }

  // ---------------------------------------------------------------------
  // Settings and personalization

  datatype Personalization = Personalization(userName: string, studyLevel: string, major: string,
                                             responseStyle: string, customInstructions: string)

  datatype Settings = Settings(model: string, temperature: real, maxTokens: nat)

  const DefaultPersonalization: Personalization := Personalization("", "college", "", "balanced", "")
  const DefaultSettings: Settings := Settings("groq:llama-3.1-8b-instant", 0.7, 1024)

  // ---------------------------------------------------------------------
  // The popup

  datatype View = MenuView | ContentView

  /** The sections the popup knows. */
  const SectionIds: seq<string> := ["personalization", "settings", "goals", "about", "export"]

  /** The widest window that still gets the one-pane mobile layout. */
  const MobileMaxWidth: int := 768

  /** The popup's module-level state together with the data it edits: the
      stored tasks, the new-task input (`None` when the element is missing),
      the settings, personalization, notes and stored conversations. */
  class Popup {
    var view: View
    var section: Option<string>
    var active: bool
    var tasks: seq<Task>
    var taskInput: Option<string>
    var personalization: Personalization
    var settings: Settings
    var notes: string
    var conversations: seq<Conversation>

    constructor (tasks: seq<Task>, personalization: Personalization, settings: Settings,
                 notes: string, conversations: seq<Conversation>)
      ensures view == MenuView && section == None && !active
      ensures this.tasks == tasks && taskInput == Some("")
      ensures this.personalization == personalization && this.settings == settings
      ensures this.notes == notes && this.conversations == conversations
    {
      view := MenuView;
      section := None;
      active := false;
      this.tasks := tasks;
      taskInput := Some("");
      this.personalization := personalization;
      this.settings := settings;
      this.notes := notes;
      this.conversations := conversations;
    }

    /** `openMainMenuPopup`: without the modal element nothing happens;
        otherwise the popup opens on the menu with no section. */
    method Open(modalPresent: bool)
      modifies this
      ensures modalPresent ==> active && view == MenuView && section == None
      ensures !modalPresent ==> active == old(active) && view == old(view) && section == old(section)
      ensures tasks == old(tasks) && taskInput == old(taskInput) && personalization == old(personalization)
      ensures settings == old(settings) && notes == old(notes) && conversations == old(conversations)
    {
      if !modalPresent {
        return;
      }
      view := MenuView;
      section := None;
      active := true;
    }

    /** `closeMainMenuPopup`, once its delayed reset has run. */
    method Close(modalPresent: bool)
      modifies this
      ensures modalPresent ==> !active && view == MenuView && section == None
      ensures !modalPresent ==> active == old(active) && view == old(view) && section == old(section)
      ensures tasks == old(tasks) && taskInput == old(taskInput) && personalization == old(personalization)
      ensures settings == old(settings) && notes == old(notes) && conversations == old(conversations)
    {
      if !modalPresent {
        return;
      }
      active := false;
      view := MenuView;
      section := None;
    }

    /** `openSection`: the section id is recorded before it is looked up, so
        an unknown id is kept too; only a known id on a narrow window
        switches to the content view. */
    method OpenSection(id: string, width: int)
      modifies this
      ensures section == Some(id)
      ensures id in SectionIds && width <= MobileMaxWidth ==> view == ContentView
      ensures !(id in SectionIds && width <= MobileMaxWidth) ==> view == old(view)
      ensures active == old(active)
      ensures tasks == old(tasks) && taskInput == old(taskInput) && personalization == old(personalization)
      ensures settings == old(settings) && notes == old(notes) && conversations == old(conversations)
    {
      section := Some(id);
      if id !in SectionIds {
        return;
      }
      if width <= MobileMaxWidth {
        view := ContentView;
      }
    }

    /** `goBackToMenu`: only on a narrow window, back to the menu with no
        section. */
    method GoBackToMenu(width: int)
      modifies this
      ensures width <= MobileMaxWidth ==> view == MenuView && section == None
      ensures width > MobileMaxWidth ==> view == old(view) && section == old(section)
      ensures active == old(active)
      ensures tasks == old(tasks) && taskInput == old(taskInput) && personalization == old(personalization)
      ensures settings == old(settings) && notes == old(notes) && conversations == old(conversations)
    {
      if width <= MobileMaxWidth {
        view := MenuView;
        section := None;
      }
    }

    /** `addMainMenuTask`: a missing or blank input (one that `trim()` empties,
        which `TrimIsSlice` shows is an all-space one) changes nothing;
        otherwise the untrimmed input is appended as an open task and the
        input is emptied. */
    method AddTask()
      modifies this
      ensures old(taskInput).None? || AllSpace(old(taskInput).value) ==>
        tasks == old(tasks) && taskInput == old(taskInput)
      ensures old(taskInput).Some? && !AllSpace(old(taskInput).value) ==>
        tasks == old(tasks) + [Task(old(taskInput).value, false)] && taskInput == Some("")
      ensures view == old(view) && section == old(section) && active == old(active)
      ensures personalization == old(personalization) && settings == old(settings)
      ensures notes == old(notes) && conversations == old(conversations)
    {
      if taskInput.None? || AllSpace(taskInput.value) {
        return;
      }
      tasks := tasks + [Task(taskInput.value, false)];
      taskInput := Some("");
    }

    /** `toggleMainMenuTask`. */
    method ToggleTask(index: int)
      modifies this
      ensures tasks == Toggled(old(tasks), index)
      ensures taskInput == old(taskInput)
      ensures view == old(view) && section == old(section) && active == old(active)
      ensures personalization == old(personalization) && settings == old(settings)
      ensures notes == old(notes) && conversations == old(conversations)
    {
      if 0 <= index < |tasks| {
        tasks := tasks[index := tasks[index].(completed := !tasks[index].completed)];
      }
    }

    /** `deleteMainMenuTask`. */
    method DeleteTask(index: int)
      modifies this
      ensures tasks == Deleted(old(tasks), index)
      ensures taskInput == old(taskInput)
      ensures view == old(view) && section == old(section) && active == old(active)
      ensures personalization == old(personalization) && settings == old(settings)
      ensures notes == old(notes) && conversations == old(conversations)
    {
      if 0 <= index < |tasks| {
        tasks := tasks[..index] + tasks[index + 1..];
      }
    }

    /** `clearAllData`: conversations, tasks and notes emptied, settings and
        personalization back to their defaults; the view is left alone. */
    method ClearAllData()
      modifies this
      ensures conversations == [] && tasks == [] && notes == ""
      ensures personalization == DefaultPersonalization && settings == DefaultSettings
      ensures taskInput == old(taskInput)
      ensures view == old(view) && section == old(section) && active == old(active)
    {
      conversations := [];
      tasks := [];
      notes := "";
      personalization := DefaultPersonalization;
      settings := DefaultSettings;
    }
  }
}
