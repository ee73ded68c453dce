/**
 * The agent loop of `main`: each line read from the terminal is either
 * ignored, answered by a tool, the end of the session, or a chat turn that
 * extends the conversation history. Terminal input, the two chat backends and
 * the tools other than `todo` are parameters of a turn.
 */
module Session {
  import opened Options
  import opened Text
  import opened Dispatch
  import opened Todo
  import opened Fallback
  import opened Conversation

  datatype Phase = Running | Ended

  const EofBye := "\nBye!"
  const ExitBye := "Agent: Bye! \U{1F44B}"

  /** Python's truthiness of a backend result: `None` and `""` are both false. */
  predicate Truthy(r: Option<string>) {
    r.Some? && r.value != []
  }

  /**
   * `chat_openai(...) or chat_ollama(...) or chat_fallback(...)`: the first
   * truthy backend answer, else the offline answer.
   */
  function ChooseReply(openai: Option<string>, ollama: Option<string>, fallback: string): (r: string)
    ensures Truthy(openai) ==> r == openai.value
    ensures !Truthy(openai) && Truthy(ollama) ==> r == ollama.value
    ensures !Truthy(openai) && !Truthy(ollama) ==> r == fallback
  {
    if Truthy(openai) then openai.value
    else if Truthy(ollama) then ollama.value
    else fallback
  }

  /** A chat reply is never empty: the offline answer never is, and empty backend answers are skipped. */
  lemma ReplyNeverEmpty(openai: Option<string>, ollama: Option<string>, user: string)
    ensures ChooseReply(openai, ollama, ChatFallback(user)) != []
  {
  }

  /** A line that ends the session: `exit` or `quit`, whatever its case and padding. */
  predicate IsExitLine(line: string) {
    Lower(Strip(line)) in ExitWords
  }

  /** What one pass of the loop leaves behind. */
  datatype Outcome = Outcome(phase: Phase, history: seq<Message>, tasks: seq<string>, printed: Option<string>)

  /**
   * One pass of `main`'s loop from history `h` and stored tasks `tasks`.
   * `line` is the line read (`None` at end of input), `body` what the called
   * tool returned (for every tool but `todo`, which runs against the tasks),
   * and `openai`/`ollama` the backend answers.
   */
  function Step(h: seq<Message>, tasks: seq<string>, line: Option<string>, body: string,
                openai: Option<string>, ollama: Option<string>): (r: Outcome)
    ensures r.history == h || (|r.history| == |h| + 2 && r.history[..|h|] == h)
    ensures r.phase == Ended ==> r.history == h && (r.printed == Some(EofBye) || r.printed == Some(ExitBye))
  {
    if line.None? then Outcome(Ended, h, tasks, Some(EofBye))
    else if Strip(line.value) == [] then Outcome(Running, h, tasks, None)
    else Answer(h, tasks, Strip(line.value), body, openai, ollama)
  }

  /** A pass of the loop on a non-blank stripped line `user`: a tool, the exit, or a chat turn. */
  function Answer(h: seq<Message>, tasks: seq<string>, user: string, body: string,
                  openai: Option<string>, ollama: Option<string>): (r: Outcome)
    ensures r.printed.Some?
    ensures r.history == h || (|r.history| == |h| + 2 && r.history[..|h|] == h && r.history[|h|] == Message("user", user))
    ensures r.phase == Ended ==> r.history == h
  {
    var c := HandleTool(user);
    var tasks' := if c.Todo? then TasksAfter(tasks, ParseTodo(c.cmd)) else tasks;
    var body' := if c.Todo? then TodoReply(tasks, ParseTodo(c.cmd)) else body;
    match ToolReply(c, body')
    case Some(r) =>
      if r == ExitSentinel then Outcome(Ended, h, tasks', Some(ExitBye))
      else Outcome(Running, h, tasks', Some("Agent: " + r))
    case None =>
      var reply := ChooseReply(openai, ollama, ChatFallback(user));
      Outcome(Running, h + [Message("user", user), Message("assistant", reply)], tasks, Some("Agent: " + reply))
  }

  /** The session ends exactly at end of input and on an exit line, with the matching goodbye. */
  lemma StepEnds(h: seq<Message>, tasks: seq<string>, line: Option<string>, body: string,
                 openai: Option<string>, ollama: Option<string>)
    ensures var o := Step(h, tasks, line, body, openai, ollama);
      && (o.phase == Ended <==> line.None? || IsExitLine(line.value))
      && (line.None? ==> o.printed == Some(EofBye))
      && (line.Some? && IsExitLine(line.value) ==> o.printed == Some(ExitBye) && o.history == h && o.tasks == tasks)
  {
    if line.Some? {
      StripIdempotent(line.value);
    }
  }

  /** A blank line (after stripping) is ignored: nothing changes and nothing is printed. */
  lemma StepBlank(h: seq<Message>, tasks: seq<string>, line: string, body: string,
                  openai: Option<string>, ollama: Option<string>)
    requires AllSpace(line)
    ensures Step(h, tasks, Some(line), body, openai, ollama) == Outcome(Running, h, tasks, None)
  {
  }

  /** A tool other than `todo` answers with its tagged result and leaves history and tasks alone. */
  lemma StepTool(h: seq<Message>, tasks: seq<string>, line: string, body: string,
                 openai: Option<string>, ollama: Option<string>)
    requires !AllSpace(line)
    requires var c := HandleTool(Strip(line)); !c.Todo? && !c.Exit? && !c.NoMatch?
    ensures Step(h, tasks, Some(line), body, openai, ollama) ==
              Outcome(Running, h, tasks, Some("Agent: " + ToolReply(HandleTool(Strip(line)), body).value))
  {
  }

  /** A `todo` line runs against the stored tasks and leaves the history alone. */
  lemma StepTodo(h: seq<Message>, tasks: seq<string>, line: string, body: string,
                 openai: Option<string>, ollama: Option<string>)
    requires !AllSpace(line) && HandleTool(Strip(line)).Todo?
    ensures var op := ParseTodo(HandleTool(Strip(line)).cmd);
      Step(h, tasks, Some(line), body, openai, ollama) ==
        Outcome(Running, h, TasksAfter(tasks, op), Some("Agent: " + Tagged("todo", TodoReply(tasks, op))))
  {
    var op := ParseTodo(HandleTool(Strip(line)).cmd);
    var reply := Tagged("todo", TodoReply(tasks, op));
    assert reply[0] == '[';
    assert reply != ExitSentinel;
  }

  /**
   * A line no rule matches is a chat turn: the stripped line and the first
   * non-empty backend answer are appended to the history, in that order, and
   * the answer is printed.
   */
  lemma StepChat(h: seq<Message>, tasks: seq<string>, line: string, body: string,
                 openai: Option<string>, ollama: Option<string>)
    requires !AllSpace(line) && HandleTool(Strip(line)).NoMatch?
    ensures var user := Strip(line);
      var reply := ChooseReply(openai, ollama, ChatFallback(user));
      && reply != []
      && Step(h, tasks, Some(line), body, openai, ollama) ==
           Outcome(Running, h + [Message("user", user), Message("assistant", reply)], tasks, Some("Agent: " + reply))
  {
  }

  /** Every pass keeps the history well formed. */
  lemma StepKeepsShape(h: seq<Message>, tasks: seq<string>, line: Option<string>, body: string,
                       openai: Option<string>, ollama: Option<string>)
    requires WellFormed(h)
    ensures WellFormed(Step(h, tasks, line, body, openai, ollama).history)
  {
    if line.Some? && Strip(line.value) != [] && HandleTool(Strip(line.value)).NoMatch? {
      var user := Strip(line.value);
      ChatTurnKeepsShape(h, user, ChooseReply(openai, ollama, ChatFallback(user)));
    }
  }

  /**
   * What `main` leaves behind after reading `lines` and then end of input:
   * the final history and tasks, every line printed, and how many input
   * lines were read.
   */
  datatype Log = Log(history: seq<Message>, tasks: seq<string>, printed: seq<string>, read: nat)

  /** `earlier` printed and `k` lines read before the passes that produced `l`. */
  function Then(earlier: seq<string>, k: nat, l: Log): Log {
    Log(l.history, l.tasks, earlier + l.printed, k + l.read)
  }

  /**
   * `main`'s loop as passes of `Step` folded over the input lines: turn `i`
   * gets `bodies[i]`, `openai[i]` and `ollama[i]`; the fold stops at the pass
   * that ends the session, and at end of input after the last line.
   */
  function Run(h: seq<Message>, tasks: seq<string>, lines: seq<string>, bodies: seq<string>,
               openai: seq<Option<string>>, ollama: seq<Option<string>>): (r: Log)
    requires |bodies| == |openai| == |ollama| == |lines|
    ensures r.read <= |lines| && r.printed != []
    decreases |lines|
  {
    if lines == [] then Log(h, tasks, [EofBye], 0)
    else
      var o := Step(h, tasks, Some(lines[0]), bodies[0], openai[0], ollama[0]);
      var now := if o.printed.Some? then [o.printed.value] else [];
      if o.phase == Ended then Log(o.history, o.tasks, now, 1)
      else Then(now, 1, Run(o.history, o.tasks, lines[1..], bodies[1..], openai[1..], ollama[1..]))
  }

  /**
   * The session reads lines up to and including the first exit line and says
   * goodbye there; with no exit line it reads them all and ends at end of
   * input.
   */
  lemma {:induction false} RunEnds(h: seq<Message>, tasks: seq<string>, lines: seq<string>, bodies: seq<string>,
                                   openai: seq<Option<string>>, ollama: seq<Option<string>>)
    requires |bodies| == |openai| == |ollama| == |lines|
    ensures var r := Run(h, tasks, lines, bodies, openai, ollama);
      && (forall j :: 0 <= j < r.read - 1 ==> !IsExitLine(lines[j]))
      && (Last(r.printed) == ExitBye <==> 0 < r.read && IsExitLine(lines[r.read - 1]))
      && (Last(r.printed) != ExitBye ==> r.read == |lines| && Last(r.printed) == EofBye)
    decreases |lines|
  {
    if lines != [] {
      var o := Step(h, tasks, Some(lines[0]), bodies[0], openai[0], ollama[0]);
      var now := if o.printed.Some? then [o.printed.value] else [];
      var r := Run(h, tasks, lines, bodies, openai, ollama);
      StepEnds(h, tasks, Some(lines[0]), bodies[0], openai[0], ollama[0]);
      if o.phase == Running {
        var r' := Run(o.history, o.tasks, lines[1..], bodies[1..], openai[1..], ollama[1..]);
        RunEnds(o.history, o.tasks, lines[1..], bodies[1..], openai[1..], ollama[1..]);
        LastThen(now, 1, r');
        assert forall j :: 1 <= j < |lines| ==> lines[j] == lines[1..][j - 1];
      }
    }
  }

  /** At most one line is printed per line read, and one goodbye. */
  lemma {:induction false} RunPrintsLittle(h: seq<Message>, tasks: seq<string>, lines: seq<string>, bodies: seq<string>,
                                           openai: seq<Option<string>>, ollama: seq<Option<string>>)
    requires |bodies| == |openai| == |ollama| == |lines|
    ensures var r := Run(h, tasks, lines, bodies, openai, ollama);
      |r.printed| <= r.read + 1
    decreases |lines|
  {
    if lines != [] {
      var o := Step(h, tasks, Some(lines[0]), bodies[0], openai[0], ollama[0]);
      if o.phase == Running {
        RunPrintsLittle(o.history, o.tasks, lines[1..], bodies[1..], openai[1..], ollama[1..]);
      }
    }
  }

  function Last(printed: seq<string>): string {
    if printed == [] then [] else printed[|printed| - 1]
  }

  lemma LastThen(now: seq<string>, k: nat, l: Log)
    requires l.printed != []
    ensures Last(Then(now, k, l).printed) == Last(l.printed) && Then(now, k, l).read == k + l.read
  {
  }

  /** The fold from input line `i` on, unrolled by one pass. */
  lemma RunFrom(h: seq<Message>, tasks: seq<string>, lines: seq<string>, bodies: seq<string>,
                openai: seq<Option<string>>, ollama: seq<Option<string>>, i: nat)
    requires |bodies| == |openai| == |ollama| == |lines| && i < |lines|
    ensures var o := Step(h, tasks, Some(lines[i]), bodies[i], openai[i], ollama[i]);
      var now := if o.printed.Some? then [o.printed.value] else [];
      Run(h, tasks, lines[i..], bodies[i..], openai[i..], ollama[i..]) ==
        if o.phase == Ended then Log(o.history, o.tasks, now, 1)
        else Then(now, 1, Run(o.history, o.tasks, lines[i + 1..], bodies[i + 1..], openai[i + 1..], ollama[i + 1..]))
  {
    assert lines[i..][1..] == lines[i + 1..];
    assert bodies[i..][1..] == bodies[i + 1..];
    assert openai[i..][1..] == openai[i + 1..];
    assert ollama[i..][1..] == ollama[i + 1..];
  }

  lemma ThenThen(a: seq<string>, k: nat, b: seq<string>, j: nat, l: Log)
    ensures Then(a, k, Then(b, j, l)) == Then(a + b, k + j, l)
  {
    assert a + (b + l.printed) == a + b + l.printed;
  }

  /** The agent: the history sent to the backends, whether it is still running, and the to-do store. */
  class Agent {
    var history: seq<Message>
    var phase: Phase
    const store: Store

    predicate Valid()
      reads this
    {
      WellFormed(history)
    }

    constructor(store: Store)
      ensures Valid() && history == [SystemMessage] && phase == Running && this.store == store
    {
      history := [SystemMessage];
      phase := Running;
      this.store := store;
    }

    /** One pass of the loop; returns what the agent prints, if anything. */
    method Turn(line: Option<string>, body: string, openai: Option<string>, ollama: Option<string>)
      returns (printed: Option<string>)
      requires Valid() && phase == Running
      modifies this, store
      ensures Valid()
      ensures Outcome(phase, history, store.tasks, printed) ==
                Step(old(history), old(store.tasks), line, body, openai, ollama)
    {
      StepKeepsShape(history, store.tasks, line, body, openai, ollama);
      if line.None? {
        phase := Ended;
        printed := Some(EofBye);
        return;
      }
      var user := Strip(line.value);
      if user == [] {
        printed := None;
        return;
      }
      printed := Respond(user, body, openai, ollama);
    }

    /** A pass of the loop on a non-blank stripped line. */
    method Respond(user: string, body: string, openai: Option<string>, ollama: Option<string>)
      returns (printed: Option<string>)
      requires user != [] && phase == Running
      modifies this, store
      ensures Outcome(phase, history, store.tasks, printed) ==
                Answer(old(history), old(store.tasks), user, body, openai, ollama)
    {
      var c := HandleTool(user);
      var toolBody := body;
      if c.Todo? {
        toolBody := store.Run(c.cmd);
      }
      var toolReply := ToolReply(c, toolBody);
      if toolReply.Some? {
        if toolReply.value == ExitSentinel {
          phase := Ended;
          printed := Some(ExitBye);
          return;
        }
        printed := Some("Agent: " + toolReply.value);
        return;
      }
      printed := Chat(user, openai, ollama);
    }

    /** A chat turn: the user's line and then the first usable answer join the history. */
    method Chat(user: string, openai: Option<string>, ollama: Option<string>) returns (printed: Option<string>)
      modifies this
      ensures var reply := ChooseReply(openai, ollama, ChatFallback(user));
        && history == old(history) + [Message("user", user), Message("assistant", reply)]
        && printed == Some("Agent: " + reply)
      ensures phase == old(phase)
    {
      history := history + [Message("user", user)];
      var reply := ChooseReply(openai, ollama, ChatFallback(user));
      history := history + [Message("assistant", reply)];
      printed := Some("Agent: " + reply);
    }
  }

  /**
   * `main`'s loop over the lines the user types, with end of input after the
   * last one. Turn `i` gets `bodies[i]`, `openai[i]` and `ollama[i]` as the
   * tool and backend results. The final history and tasks, the printed lines
   * and the number of lines read are those of `Run`, and the history keeps
   * its shape throughout.
   */
  method Converse(agent: Agent, lines: seq<string>, bodies: seq<string>,
                  openai: seq<Option<string>>, ollama: seq<Option<string>>)
    returns (out: seq<string>, read: nat)
    requires agent.Valid() && agent.phase == Running
    requires |bodies| == |openai| == |ollama| == |lines|
    modifies agent, agent.store
    ensures Log(agent.history, agent.store.tasks, out, read) ==
              Run(old(agent.history), old(agent.store.tasks), lines, bodies, openai, ollama)
    ensures agent.Valid() && agent.phase == Ended
  {
    ghost var total := Run(agent.history, agent.store.tasks, lines, bodies, openai, ollama);
    out := [];
    read := 0;
    while read < |lines| && agent.phase == Running
      invariant read <= |lines|
      invariant agent.Valid()
      invariant agent.phase == Running ==>
                  total == Then(out, read, Run(agent.history, agent.store.tasks, lines[read..],
                                               bodies[read..], openai[read..], ollama[read..]))
      invariant agent.phase == Ended ==> total == Log(agent.history, agent.store.tasks, out, read)
      decreases |lines| - read
    {
      out := Advance(agent, lines, bodies, openai, ollama, out, read);
      read := read + 1;
    }
    if agent.phase == Running {
      assert lines[read..] == [];
      StepEnds(agent.history, agent.store.tasks, None, "", None, None);
      var printed := agent.Turn(None, "", None, None);
      out := out + [printed.value];
    }
  }

  /**
   * The pass of the loop on input line `read`, which was read: it ends the
   * session exactly on an exit line, and it is the next pass of `Run`, its
   * printed line, if any, appended to `out`.
   */
  method Advance(agent: Agent, lines: seq<string>, bodies: seq<string>,
                 openai: seq<Option<string>>, ollama: seq<Option<string>>, out: seq<string>, read: nat)
    returns (out': seq<string>)
    requires agent.Valid() && agent.phase == Running
    requires |bodies| == |openai| == |ollama| == |lines| && read < |lines|
    modifies agent, agent.store
    ensures agent.Valid()
    ensures agent.phase == Ended <==> IsExitLine(lines[read])
    ensures var before := Then(out, read, Run(old(agent.history), old(agent.store.tasks), lines[read..],
                                              bodies[read..], openai[read..], ollama[read..]));
      if agent.phase == Ended then before == Log(agent.history, agent.store.tasks, out', read + 1)
      else before == Then(out', read + 1, Run(agent.history, agent.store.tasks, lines[read + 1..],
                                              bodies[read + 1..], openai[read + 1..], ollama[read + 1..]))
  {
    RunFrom(agent.history, agent.store.tasks, lines, bodies, openai, ollama, read);
    StepEnds(agent.history, agent.store.tasks, Some(lines[read]), bodies[read], openai[read], ollama[read]);
    var printed := agent.Turn(Some(lines[read]), bodies[read], openai[read], ollama[read]);
    var now := if printed.Some? then [printed.value] else [];
    out' := out + now;
    if agent.phase == Running {
      ThenThen(out, read, now, 1, Run(agent.history, agent.store.tasks, lines[read + 1..],
                                      bodies[read + 1..], openai[read + 1..], ollama[read + 1..]));
    }
  }
}
