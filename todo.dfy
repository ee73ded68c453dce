/**
 * The `todo` tool: a sub-command parser, the listing it prints, and the
 * persisted task list. The JSON file behind `load_todos`/`save_todos` is the
 * `tasks` field of a `Store`; loading is reading the field and saving is
 * assigning it.
 */
module Todo {
  import opened Options
  import opened Text

  /** What a `todo` line asks for. */
  datatype TodoOp = List | Add(task: string) | Clear | Usage

  const NoTasks := "No tasks yet."
  const Header := "Your TODOs:\n"
  const Cleared := "Todo list cleared."
  const UsageText := "Usage: todo add <task> | todo list | todo clear"

  /**
   * The sub-command of a `todo` line: its first word is the tool name, the
   * second (compared case-sensitively) the sub-command, and the rest of the
   * line, from its first non-whitespace character, the task. A blank line has
   * no first word; the tool is never called with one.
   */
  function ParseTodo(cmd: string): (op: TodoOp)
    requires !AllSpace(cmd)
    ensures op.Add? ==> op.task != [] && !IsSpace(op.task[0]) && EndsWith(cmd, op.task)
  {
    var parts := Split(cmd, 2);
    if |parts| == 1 || parts[1] == "list" then List
    else if parts[1] == "add" && |parts| > 2 then
      SplitLastIsSuffix(cmd, 2);
      Add(parts[2])
    else if parts[1] == "clear" then Clear
    else Usage
  }

  /** A line of one word (`todo`, `Todo`, `todos`, ...) lists the tasks. */
  lemma BareWordLists(w: string)
    requires w != [] && NoSpace(w)
    ensures !AllSpace(w) && ParseTodo(w) == List
  {
    assert !IsSpace(w[0]);
    SplitLoneWord(w, 1);
  }

  /**
   * With a second word, the sub-command is that word, matched exactly (so
   * `ADD` or `List` is a usage error); `add` takes the rest of the line from
   * its first non-whitespace character as its task, and without one is a
   * usage error too.
   */
  lemma SecondWordDecides(w1: string, gap: string, w2: string, rest: string)
    requires w1 != [] && NoSpace(w1) && gap != [] && AllSpace(gap)
    requires w2 != [] && NoSpace(w2) && (rest == [] || IsSpace(rest[0]))
    ensures var cmd := w1 + (gap + (w2 + rest));
      && !AllSpace(cmd)
      && ParseTodo(cmd) ==
           if w2 == "list" then List
           else if w2 == "add" && !AllSpace(rest) then Add(LStrip(rest))
           else if w2 == "clear" then Clear
           else Usage
  {
    var cmd := w1 + (gap + (w2 + rest));
    assert cmd[0] == w1[0];
    assert Split(cmd, 2) == [w1, w2] + Split(rest, 0) by {
      SplitTokens(w1, gap, w2, rest, 0);
    }
    LStripBlank(rest);
  }

  /** Sub-commands are matched case-sensitively: `todo ADD x` is a usage error. */
  lemma UpperCaseSubcommand()
    ensures !AllSpace("todo ADD x") && ParseTodo("todo ADD x") == Usage
  {
    assert "todo ADD x" == "todo" + (" " + ("ADD" + " x"));
    assert NoSpace("todo") && NoSpace("ADD") && AllSpace(" ") && IsSpace(" x"[0]);
    SecondWordDecides("todo", " ", "ADD", " x");
  }

  // --------------------------------------------------------------- listing

  /** One `- task` line per task, in order. */
  function Bullets(tasks: seq<string>): (lines: seq<string>)
    ensures |lines| == |tasks|
    ensures forall i :: 0 <= i < |lines| ==> StartsWith(lines[i], "- ") && lines[i][2..] == tasks[i]
  {
    seq(|tasks|, i requires 0 <= i < |tasks| => "- " + tasks[i])
  }

  /** The `todo list` output: a header and one `- task` line per task, in order. */
  function Render(tasks: seq<string>): (out: string)
    ensures tasks == [] <==> out == NoTasks
    ensures tasks != [] ==> StartsWith(out, Header)
  {
    if tasks == [] then NoTasks
    else
      var out := Header + Join("\n", Bullets(tasks));
      assert out[0] == 'Y';
      out
  }

  /** Reads a listing back into the tasks it shows. */
  function ReadBack(out: string): seq<string> {
    if StartsWith(out, Header) then
      var lines := SplitOn(out[|Header|..], '\n');
      seq(|lines|, i requires 0 <= i < |lines| =>
        if StartsWith(lines[i], "- ") then lines[i][2..] else lines[i])
    else []
  }

  /**
   * The listing shows every task, in stored order, and nothing else: tasks
   * without a line break can be read back from it exactly.
   */
  lemma RenderReadBack(tasks: seq<string>)
    requires forall i :: 0 <= i < |tasks| ==> '\n' !in tasks[i]
    ensures tasks != [] ==> SplitOn(Render(tasks)[|Header|..], '\n') == Bullets(tasks)
    ensures ReadBack(Render(tasks)) == tasks
  {
    if tasks != [] {
      var out := Render(tasks);
      var bullets := Bullets(tasks);
      assert out[|Header|..] == Join("\n", bullets);
      forall i | 0 <= i < |bullets| ensures '\n' !in bullets[i] {
        assert bullets[i] == "- " + tasks[i];
      }
      SplitOnJoin(bullets, '\n');
      var back := ReadBack(out);
      assert |back| == |tasks|;
      forall i | 0 <= i < |tasks| ensures back[i] == tasks[i] {
        assert bullets[i][..2] == "- ";
        assert bullets[i][2..] == tasks[i];
      }
    } else {
      assert !StartsWith(NoTasks, Header) by {
        assert NoTasks[0] != Header[0];
      }
    }
  }

  /** Adding a task to a non-empty list adds exactly one line, at the end of the listing. */
  lemma RenderAfterAdd(tasks: seq<string>, t: string)
    requires tasks != []
    ensures Render(tasks + [t]) == Render(tasks) + "\n- " + t
  {
    var b := Bullets(tasks);
    var b' := Bullets(tasks + [t]);
    forall i | 0 <= i < |b'| ensures b'[i] == (b + ["- " + t])[i] {
    }
    assert b' == b + ["- " + t];
    JoinAppend("\n", Bullets(tasks), "- " + t);
  }

  // ------------------------------------------------------------------ store

  /** The list after a command: `add` appends, `clear` empties, the rest keep it. */
  function TasksAfter(tasks: seq<string>, op: TodoOp): (r: seq<string>)
    ensures !op.Add? && !op.Clear? ==> r == tasks
    ensures op.Add? ==> |r| == |tasks| + 1 && r[..|tasks|] == tasks && r[|tasks|] == op.task
    ensures op.Clear? ==> r == []
  {
    match op
    case Add(t) => tasks + [t]
    case Clear => []
    case _ => tasks
  }

  /** What `tool_todo` returns for a command, given the list before it. */
  function TodoReply(tasks: seq<string>, op: TodoOp): (out: string)
    ensures op.List? ==> out == Render(tasks)
    ensures op.Add? ==> out == "Added: " + op.task
    ensures op.Clear? ==> out == Cleared
    ensures op.Usage? ==> out == UsageText
  {
    match op
    case List => Render(tasks)
    case Add(t) => "Added: " + t
    case Clear => Cleared
    case Usage => UsageText
  }

  /** The persisted task list. */
  class Store {
    var tasks: seq<string>

    /**
     * `load_todos`: a missing file, or one that does not parse, yields the
     * empty list; otherwise the stored list.
     */
    constructor Load(persisted: Option<seq<string>>)
      ensures tasks == if persisted.Some? then persisted.value else []
    {
      tasks := if persisted.Some? then persisted.value else [];
    }

    /** `tool_todo`: runs one `todo` line against the stored list. */
    method Run(cmd: string) returns (out: string)
      requires !AllSpace(cmd)
      modifies this
      ensures tasks == TasksAfter(old(tasks), ParseTodo(cmd))
      ensures out == TodoReply(old(tasks), ParseTodo(cmd))
    {
      var todos := tasks;
      var parts := Split(cmd, 2);
      if |parts| == 1 || parts[1] == "list" {
        out := Render(todos);
      } else if parts[1] == "add" && |parts| > 2 {
        todos := todos + [parts[2]];
        tasks := todos;
        out := "Added: " + parts[2];
      } else if parts[1] == "clear" {
        tasks := [];
        out := Cleared;
      } else {
        out := UsageText;
      }
    }
  }

  /** Listing twice changes nothing and prints the same thing. */
  method ListTwice(store: Store) returns (first: string, second: string)
    modifies store
    ensures first == second == Render(old(store.tasks))
    ensures store.tasks == old(store.tasks)
  {
    BareWordLists("todo");
    first := store.Run("todo");
    second := store.Run("todo");
  }

  /** `todo add <task>` parses to adding exactly that task. */
  lemma AddLine(task: string)
    requires task != [] && !IsSpace(task[0])
    ensures var cmd := "todo add " + task;
      !AllSpace(cmd) && ParseTodo(cmd) == Add(task)
  {
    var cmd := "todo add " + task;
    var rest := " " + task;
    assert cmd == "todo" + (" " + ("add" + rest));
    assert LStrip(rest) == task && !AllSpace(rest) by {
      assert rest[1..] == task;
      assert rest[1] == task[0] && !IsSpace(rest[1]);
    }
    assert NoSpace("todo") && NoSpace("add") && AllSpace(" ");
    SecondWordDecides("todo", " ", "add", rest);
  }

  /**
   * A task added in one session is listed, last, in the next; on a list that
   * already had tasks the listing gains exactly that line.
   */
  method AddSurvivesReload(store: Store, task: string) returns (listing: string)
    requires task != [] && !IsSpace(task[0])
    modifies store
    ensures listing == Render(old(store.tasks) + [task])
    ensures old(store.tasks) != [] ==> listing == Render(old(store.tasks)) + "\n- " + task
  {
    AddLine(task);
    var _ := store.Run("todo add " + task);
    var reloaded := new Store.Load(Some(store.tasks));
    BareWordLists("todo");
    listing := reloaded.Run("todo");
    if old(store.tasks) != [] {
      RenderAfterAdd(old(store.tasks), task);
    }
  }
}
