/**
 * The conversation history the agent sends to the chat backends, and
 * `to_prompt`, which turns it into the plain transcript the local model
 * receives.
 */
module Conversation {
  import opened Text

  /** One entry of the history: a role (`system`, `user`, `assistant`) and its text. */
  datatype Message = Message(role: string, content: string)

  const SystemMessage := Message("system", "You are Bhanu, a helpful, concise terminal AI agent.")

  predicate IsChat(m: Message) {
    m.role == "user" || m.role == "assistant"
  }

  /**
   * The shape the agent loop keeps: the system message, then user and
   * assistant entries in alternation, ending with an assistant entry, none of
   * them empty.
   */
  predicate WellFormed(h: seq<Message>) {
    && |h| % 2 == 1
    && h[0] == SystemMessage
    && forall i :: 1 <= i < |h| ==>
         h[i].role == (if i % 2 == 1 then "user" else "assistant") && h[i].content != []
  }

  /** A chat turn appends a user entry and then an assistant entry, keeping the shape. */
  lemma ChatTurnKeepsShape(h: seq<Message>, user: string, reply: string)
    requires WellFormed(h) && user != [] && reply != []
    ensures WellFormed(h + [Message("user", user), Message("assistant", reply)])
  {
    var h' := h + [Message("user", user), Message("assistant", reply)];
    forall i | 1 <= i < |h'|
      ensures h'[i].role == (if i % 2 == 1 then "user" else "assistant") && h'[i].content != []
    {
      if i < |h| {
        assert h'[i] == h[i];
      }
    }
  }

  // ------------------------------------------------------------ transcript

  /** The user and assistant entries, in order: what the transcript shows. */
  function ChatOnly(msgs: seq<Message>): (r: seq<Message>)
    ensures |r| <= |msgs|
    ensures forall i :: 0 <= i < |r| ==> IsChat(r[i])
  {
    if msgs == [] then []
    else (if IsChat(msgs[0]) then [msgs[0]] else []) + ChatOnly(msgs[1..])
  }

  /** The transcript line of one entry; entries of other roles have none. */
  function LineOf(m: Message): seq<string> {
    if m.role == "user" then ["User: " + m.content]
    else if m.role == "assistant" then ["Assistant: " + m.content]
    else []
  }

  function PromptLines(msgs: seq<Message>): seq<string> {
    if msgs == [] then [] else LineOf(msgs[0]) + PromptLines(msgs[1..])
  }

  /** `to_prompt`: the entry lines and a closing `Assistant:` line, joined by newlines. */
  function ToPrompt(msgs: seq<Message>): (prompt: string)
    ensures EndsWith(prompt, "Assistant:")
  {
    var lines := PromptLines(msgs);
    JoinEndsWith("\n", lines, "Assistant:");
    Join("\n", lines + ["Assistant:"])
  }

  /** The last line of the transcript is exactly `Assistant:`, whatever the entries contain. */
  lemma ToPromptLastLine(msgs: seq<Message>)
    ensures var pieces := SplitOn(ToPrompt(msgs), '\n');
      pieces[|pieces| - 1] == "Assistant:"
  {
    var lines := PromptLines(msgs);
    if lines == [] {
      assert lines + ["Assistant:"] == ["Assistant:"];
      SplitOnPiece("Assistant:", '\n', []);
    } else {
      JoinAppend("\n", lines, "Assistant:");
      SplitOnLast(Join("\n", lines), "Assistant:");
    }
  }

  /** After the last line break, `split` yields the text that follows it. */
  lemma {:induction false} SplitOnLast(x: string, b: string)
    requires '\n' !in b
    ensures var pieces := SplitOn(x + "\n" + b, '\n');
      |pieces| >= 2 && pieces[|pieces| - 1] == b
    decreases |x|
  {
    var s := x + "\n" + b;
    if x == [] {
      assert s == "\n" + b && s[1..] == b;
      SplitOnPiece(b, '\n', []);
    } else {
      assert s[1..] == x[1..] + "\n" + b;
      SplitOnLast(x[1..], b);
    }
  }

  lemma {:induction false} PromptLinesAppend(a: seq<Message>, b: seq<Message>)
    ensures PromptLines(a + b) == PromptLines(a) + PromptLines(b)
    decreases |a|
  {
    if a == [] {
      assert a + b == b;
    } else {
      assert (a + b)[1..] == a[1..] + b;
      PromptLinesAppend(a[1..], b);
    }
  }

  /** Entries of any role other than user and assistant leave the transcript unchanged. */
  lemma OtherRolesDropped(msgs: seq<Message>, m: Message)
    requires !IsChat(m)
    ensures ToPrompt(msgs + [m]) == ToPrompt(msgs)
    ensures ToPrompt([m] + msgs) == ToPrompt(msgs)
  {
    PromptLinesAppend(msgs, [m]);
    assert PromptLines([m]) == [];
    assert PromptLines(msgs) + [] == PromptLines(msgs);
    PromptLinesAppend([m], msgs);
    assert [] + PromptLines(msgs) == PromptLines(msgs);
  }

  /** Reads one transcript line back into the entry it shows. */
  function ParseLine(line: string): Message {
    if StartsWith(line, "User: ") then Message("user", line[6..])
    else if StartsWith(line, "Assistant: ") then Message("assistant", line[11..])
    else Message("", line)
  }

  /** Reads a transcript back into its entries, dropping the closing line. */
  function ReadTranscript(prompt: string): seq<Message> {
    var lines := SplitOn(prompt, '\n');
    seq(|lines| - 1, i requires 0 <= i < |lines| - 1 => ParseLine(lines[i]))
  }

  predicate NoLineBreaks(msgs: seq<Message>) {
    forall i :: 0 <= i < |msgs| ==> '\n' !in msgs[i].content
  }

  lemma ParseLineOf(m: Message)
    requires IsChat(m) && '\n' !in m.content
    ensures |LineOf(m)| == 1 && ParseLine(LineOf(m)[0]) == m && '\n' !in LineOf(m)[0]
  {
    var line := LineOf(m)[0];
    if m.role == "user" {
      assert line[..6] == "User: " && line[6..] == m.content;
    } else {
      assert line[0] == 'A';
      assert line[..11] == "Assistant: " && line[11..] == m.content;
    }
  }

  /** Each transcript line reads back as the chat entry it came from. */
  lemma {:induction false} PromptLinesRead(msgs: seq<Message>)
    requires NoLineBreaks(msgs)
    ensures var lines := PromptLines(msgs);
      && |lines| == |ChatOnly(msgs)|
      && forall i :: 0 <= i < |lines| ==> ParseLine(lines[i]) == ChatOnly(msgs)[i] && '\n' !in lines[i]
    decreases |msgs|
  {
    if msgs != [] {
      var m := msgs[0];
      assert NoLineBreaks(msgs[1..]) by {
        assert forall i :: 0 <= i < |msgs| - 1 ==> msgs[1..][i] == msgs[i + 1];
      }
      PromptLinesRead(msgs[1..]);
      if IsChat(m) {
        assert '\n' !in msgs[0].content;
        ParseLineOf(m);
      } else {
        assert LineOf(m) == [];
      }
    }
  }

  /**
   * The transcript shows exactly the user and assistant entries, each on its
   * own line, in order, and nothing else: when no entry contains a line break
   * they can be read back from it.
   */
  lemma TranscriptReadBack(msgs: seq<Message>)
    requires NoLineBreaks(msgs)
    ensures ReadTranscript(ToPrompt(msgs)) == ChatOnly(msgs)
  {
    var lines := PromptLines(msgs);
    PromptLinesRead(msgs);
    var all := lines + ["Assistant:"];
    assert forall i :: 0 <= i < |all| ==> '\n' !in all[i] by {
      assert forall i :: 0 <= i < |lines| ==> all[i] == lines[i];
      assert all[|lines|] == "Assistant:";
    }
    SplitOnJoin(all, '\n');
    var back := ReadTranscript(ToPrompt(msgs));
    assert |back| == |lines|;
    forall i | 0 <= i < |back| ensures back[i] == ChatOnly(msgs)[i] {
      assert all[i] == lines[i];
    }
  }

  /** In a well-formed history the system message is the only entry left out. */
  lemma {:induction false} WellFormedChat(h: seq<Message>)
    requires WellFormed(h)
    ensures ChatOnly(h) == h[1..]
  {
    assert !IsChat(h[0]);
    AllChat(h[1..]);
  }

  lemma {:induction false} AllChat(msgs: seq<Message>)
    requires forall i :: 0 <= i < |msgs| ==> IsChat(msgs[i])
    ensures ChatOnly(msgs) == msgs
    decreases |msgs|
  {
    if msgs != [] {
      AllChat(msgs[1..]);
    }
  }

  /** `to_prompt` as the loop that builds the line list. */
  method BuildPrompt(msgs: seq<Message>) returns (prompt: string)
    ensures prompt == ToPrompt(msgs)
  {
    var lines: seq<string> := [];
    var i := 0;
    while i < |msgs|
      invariant 0 <= i <= |msgs|
      invariant lines == PromptLines(msgs[..i])
    {
      var m := msgs[i];
      PromptLinesAppend(msgs[..i], [m]);
      assert msgs[..i + 1] == msgs[..i] + [m];
      if m.role == "user" {
        lines := lines + ["User: " + m.content];
      } else if m.role == "assistant" {
        lines := lines + ["Assistant: " + m.content];
      }
      i := i + 1;
    }
    assert msgs[..i] == msgs;
    lines := lines + ["Assistant:"];
    prompt := Join("\n", lines);
  }
}
