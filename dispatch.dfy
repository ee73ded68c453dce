/**
 * The command dispatcher `handle_tool`: one input line is routed to a help
 * text, the end-of-session sentinel, a tool call with its arguments, the
 * translate usage message, or "no match" (the line then goes to the chat
 * backends).
 */
module Dispatch {
  import opened Options
  import opened Text

  /** What a line asks for; tool arguments are already cut out of the line. */
  datatype Command =
    | Help
    | Exit
    | Calc(expr: string)
    | Weather(city: string)
    | Time(zone: Option<string>)
    | Joke
    | Quote
    | Dict(word: string)
    | Translate(lang: string, text: string)
    | TranslateUsage
    | News
    | Ip
    | Todo(cmd: string)
    | NoMatch

  const HelpWords: seq<string> := ["help", "/help", "?"]
  const ExitWords: seq<string> := ["exit", "quit"]

  /**
   * `handle_tool`: strip the line, then try the rules in a fixed order on its
   * lower-cased form; the first that matches decides. Arguments are cut from
   * the stripped line in its original case.
   */
  function HandleTool(input: string): (c: Command)
    ensures c.Help? <==> Lower(Strip(input)) in HelpWords
    ensures c.Exit? <==> Lower(Strip(input)) in ExitWords
    ensures c.Calc? ==> c.expr != [] && Trimmed(c.expr)
    ensures c.Weather? ==> c.city != [] && Trimmed(c.city)
    ensures c.Dict? ==> c.word != [] && Trimmed(c.word)
    ensures c.Time? && c.zone.Some? ==> c.zone.value != [] && Trimmed(c.zone.value)
    ensures c.Translate? ==> c.lang != [] && NoSpace(c.lang) && c.text != [] && Trimmed(c.text)
    ensures c.Todo? ==> c.cmd == Strip(input) && StartsWith(Lower(c.cmd), "todo") && !AllSpace(c.cmd)
  {
    var s := Strip(input);
    var l := Lower(s);
    if l in HelpWords then Help
    else if l in ExitWords then Exit
    else if StartsWith(l, "calc ") then
      ArgumentAfterSpace(s, 5);
      Calc(Strip(s[5..]))
    else if StartsWith(l, "weather ") then
      ArgumentAfterSpace(s, 8);
      Weather(Strip(s[8..]))
    else if StartsWith(l, "time") then
      var rest := Strip(s[4..]);
      Time(if rest == [] then None else Some(rest))
    else if l == "joke" then Joke
    else if l == "quote" then Quote
    else if StartsWith(l, "dict ") then
      ArgumentAfterSpace(s, 5);
      Dict(Strip(s[5..]))
    else if StartsWith(l, "translate ") then
      var parts := Split(s, 2);
      if |parts| >= 3 then
        SplitLastIsSuffix(s, 2);
        Translate(parts[1], parts[2])
      else TranslateUsage
    else if l == "news" then News
    else if l == "ip" then Ip
    else if StartsWith(l, "todo") then Todo(s)
    else NoMatch
  }

  /**
   * In a stripped line whose keyword ends in a space, something other than
   * whitespace follows the keyword.
   */
  lemma ArgumentAfterSpace(s: string, k: nat)
    requires Trimmed(s) && 0 < k <= |s|
    requires Lower(s)[k - 1] == ' '
    ensures Strip(s[k..]) != []
  {
    LowerAt(s, k - 1);
    assert s[k..][|s| - 1 - k] == s[|s| - 1];
  }

  // ------------------------------------------------------------ rule table

  /** A dispatch rule: an exact (lower-case) word list or a (lower-case) prefix. */
  datatype Rule = Exact(words: seq<string>) | Prefix(key: string)

  /** The rules of `handle_tool`, in the order it tries them. */
  const Rules: seq<Rule> := [
    Exact(HelpWords), Exact(ExitWords), Prefix("calc "), Prefix("weather "),
    Prefix("time"), Exact(["joke"]), Exact(["quote"]), Prefix("dict "),
    Prefix("translate "), Exact(["news"]), Exact(["ip"]), Prefix("todo")
  ]

  predicate Matches(r: Rule, l: string) {
    match r
    case Exact(words) => l in words
    case Prefix(key) => StartsWith(l, key)
  }

  /** The first rule at or after `from` that matches `l`, if any. */
  function FirstMatch(l: string, from: nat): (k: Option<nat>)
    requires from <= |Rules|
    ensures k.Some? ==> from <= k.value < |Rules| && Matches(Rules[k.value], l)
    ensures forall j :: from <= j < |Rules| && (k.None? || j < k.value) ==> !Matches(Rules[j], l)
    decreases |Rules| - from
  {
    if from == |Rules| then None
    else if Matches(Rules[from], l) then Some(from)
    else FirstMatch(l, from + 1)
  }

  /** The rule of the table a command comes from; "no match" comes from none. */
  function RuleOf(c: Command): Option<nat> {
    match c
    case Help => Some(0)
    case Exit => Some(1)
    case Calc(_) => Some(2)
    case Weather(_) => Some(3)
    case Time(_) => Some(4)
    case Joke => Some(5)
    case Quote => Some(6)
    case Dict(_) => Some(7)
    case Translate(_, _) => Some(8)
    case TranslateUsage => Some(8)
    case News => Some(9)
    case Ip => Some(10)
    case Todo(_) => Some(11)
    case NoMatch => None
  }

  /**
   * The dispatcher is the rule table read first-match-wins: the command comes
   * from the first rule that matches the lower-cased stripped line, and the
   * line falls through to chat exactly when no rule matches.
   */
  lemma FirstMatchWins(input: string)
    ensures RuleOf(HandleTool(input)) == FirstMatch(Lower(Strip(input)), 0)
    ensures HandleTool(input).NoMatch? <==>
              forall j :: 0 <= j < |Rules| ==> !Matches(Rules[j], Lower(Strip(input)))
  {
    var l := Lower(Strip(input));
    var r := RuleOf(HandleTool(input));
    forall j | 0 <= j < |Rules| && (r.None? || j < r.value)
      ensures !Matches(Rules[j], l)
    {
      EarlierRulesFail(input, j);
    }
    if r.Some? {
      ChosenRuleMatches(input);
      FirstMatchIsLeast(l, r.value);
    } else {
      FirstMatchIsLeast(l, |Rules|);
    }
  }

  lemma ChosenRuleMatches(input: string)
    requires RuleOf(HandleTool(input)).Some?
    ensures Matches(Rules[RuleOf(HandleTool(input)).value], Lower(Strip(input)))
  {
  }

  lemma EarlierRulesFail(input: string, j: nat)
    requires j < |Rules|
    requires RuleOf(HandleTool(input)).None? || j < RuleOf(HandleTool(input)).value
    ensures !Matches(Rules[j], Lower(Strip(input)))
  {
  }

  /** A rule that matches, with none matching before it, is the first match. */
  lemma FirstMatchIsLeast(l: string, i: nat)
    requires i <= |Rules|
    requires i < |Rules| ==> Matches(Rules[i], l)
    requires forall j :: 0 <= j < i ==> !Matches(Rules[j], l)
    ensures FirstMatch(l, 0) == if i < |Rules| then Some(i) else None
  {
    var k := FirstMatch(l, 0);
    if k.Some? {
      assert !(k.value < i);
    }
  }

  // --------------------------------------------------------------- replies

  const ExitSentinel := "__EXIT__"
  const TranslateUsageText := "Usage: translate <lang> <text>"
  const HelpText :=
    "\n" +
    "Tools you can use:\n" +
    "  \U{2022} calc <expr>            -> evaluate math (e.g., \"calc (12+8)*5\")\n" +
    "  \U{2022} weather <city>         -> quick weather\n" +
    "  \U{2022} time [Zone/Name]       -> current time\n" +
    "  \U{2022} joke                   -> random joke\n" +
    "  \U{2022} quote                  -> motivational quote\n" +
    "  \U{2022} dict <word>            -> dictionary meaning\n" +
    "  \U{2022} translate <lang> <txt> -> translate text\n" +
    "  \U{2022} news                   -> latest headlines\n" +
    "  \U{2022} ip                     -> your public IP\n" +
    "  \U{2022} todo [add/list/clear]  -> manage simple todo\n" +
    "  \U{2022} help                   -> show this help\n" +
    "  \U{2022} exit / quit            -> leave the chat\n"

  /** `"[name] " + body`: how a tool's result is tagged. */
  function Tagged(name: string, body: string): (r: string)
    ensures r != [] && r[0] == '['
  {
    "[" + name + "] " + body
  }

  /**
   * The string `handle_tool` returns for a command, where `body` is what the
   * tool itself returned; `None` for no match.
   */
  function ToolReply(c: Command, body: string): (reply: Option<string>)
    ensures reply.None? <==> c.NoMatch?
    ensures reply == Some(ExitSentinel) <==> c.Exit?
  {
    match c
    case Help => Some(HelpText)
    case Exit => Some(ExitSentinel)
    case Calc(_) => Some(Tagged("calc", body))
    case Weather(_) => Some(Tagged("weather", body))
    case Time(_) => Some(Tagged("time", body))
    case Joke => Some(Tagged("joke", body))
    case Quote => Some(Tagged("quote", body))
    case Dict(_) => Some(Tagged("dict", body))
    case Translate(_, _) => Some(Tagged("translate", body))
    case TranslateUsage => Some(TranslateUsageText)
    case News => Some(Tagged("news", body))
    case Ip => Some(Tagged("ip", body))
    case Todo(_) => Some(Tagged("todo", body))
    case NoMatch => None
  }

  /** The dispatcher strips the line itself: padding never changes the command. */
  lemma StripsFirst(input: string)
    ensures HandleTool(Strip(input)) == HandleTool(input)
  {
    StripIdempotent(input);
  }

  /** The session ends on exactly `exit` and `quit`, in any case, whatever a tool returns. */
  lemma ExitOnlyForExitWords(input: string, body: string)
    ensures ToolReply(HandleTool(input), body) == Some(ExitSentinel) <==>
              Lower(Strip(input)) in ExitWords
  {
  }

  // ------------------------------------------------------ argument slicing

  /**
   * A keyword followed by its argument, padded with whitespace, strips to the
   * keyword and argument, and lower-cases piecewise.
   */
  lemma Framed(p: string, k: string, a: string, q: string)
    requires AllSpace(p) && AllSpace(q)
    requires k != [] && Trimmed(k + a)
    ensures Strip(p + k + a + q) == k + a
    ensures Lower(k + a) == Lower(k) + Lower(a)
    ensures (k + a)[|k|..] == a
  {
    StripPadded(p, k + a, q);
    assert p + (k + a) + q == p + k + a + q;
    LowerConcat(k, a);
  }

  /**
   * `calc`: whatever the case of the keyword and the padding of the line, the
   * expression is the text after "calc ", trimmed, in its original case.
   */
  lemma CalcKeepsCase(p: string, k: string, a: string, q: string)
    requires AllSpace(p) && AllSpace(q) && Lower(k) == "calc "
    requires a != [] && !IsSpace(a[|a| - 1])
    ensures HandleTool(p + k + a + q) == Calc(Strip(a))
  {
    var s := k + a;
    assert Trimmed(s) by {
      LowerAt(k, 0);
    }
    Framed(p, k, a, q);
    var l := Lower(s);
    assert StartsWith(l, "calc ") && |l| > 5;
    assert l !in HelpWords && l !in ExitWords by {
      assert l[0] == 'c';
    }
    assert s[5..] == a;
  }

  /** `weather`: the city is the text after "weather ", trimmed, in its original case. */
  lemma WeatherKeepsCase(p: string, k: string, a: string, q: string)
    requires AllSpace(p) && AllSpace(q) && Lower(k) == "weather "
    requires a != [] && !IsSpace(a[|a| - 1])
    ensures HandleTool(p + k + a + q) == Weather(Strip(a))
  {
    var s := k + a;
    assert Trimmed(s) by {
      LowerAt(k, 0);
    }
    Framed(p, k, a, q);
    var l := Lower(s);
    assert StartsWith(l, "weather ") && |l| > 8;
    assert l !in HelpWords && l !in ExitWords && !StartsWith(l, "calc ") by {
      assert l[0] == 'w';
    }
    assert s[8..] == a;
  }

  /** `dict`: the word is the text after "dict ", trimmed, in its original case. */
  lemma DictKeepsCase(p: string, k: string, a: string, q: string)
    requires AllSpace(p) && AllSpace(q) && Lower(k) == "dict "
    requires a != [] && !IsSpace(a[|a| - 1])
    ensures HandleTool(p + k + a + q) == Dict(Strip(a))
  {
    var s := k + a;
    assert Trimmed(s) by {
      LowerAt(k, 0);
    }
    Framed(p, k, a, q);
    var l := Lower(s);
    assert StartsWith(l, "dict ") && |l| > 5;
    assert l !in HelpWords && l !in ExitWords by {
      assert l[0] == 'd';
    }
    assert !StartsWith(l, "calc ") && !StartsWith(l, "weather ") && !StartsWith(l, "time") by {
      assert l[0] == 'd';
    }
    assert l != "joke" && l != "quote" by {
      assert l[0] == 'd';
    }
    assert s[5..] == a;
  }

  /**
   * `time` is matched without a trailing space: anything glued to the keyword
   * is taken as the zone, and a bare keyword means local time.
   */
  lemma TimeTakesRest(p: string, k: string, a: string, q: string)
    requires AllSpace(p) && AllSpace(q) && Lower(k) == "time"
    requires a == [] || !IsSpace(a[|a| - 1])
    ensures HandleTool(p + k + a + q) == Time(if Strip(a) == [] then None else Some(Strip(a)))
  {
    var s := k + a;
    assert Trimmed(s) by {
      LowerAt(k, 0);
      LowerAt(k, 3);
    }
    Framed(p, k, a, q);
    var l := Lower(s);
    assert StartsWith(l, "time") && |l| >= 4;
    assert l !in HelpWords && l !in ExitWords by {
      assert l[0] == 't';
    }
    assert !StartsWith(l, "calc ") && !StartsWith(l, "weather ") by {
      assert l[0] == 't';
    }
    assert s[4..] == a;
  }

  /** So `timer` asks for the time in zone "r", and `time` for local time. */
  lemma TimerIsTime()
    ensures HandleTool("timer") == Time(Some("r"))
    ensures HandleTool("time") == Time(None)
  {
    LowerOfLower("time");
    TimeTakesRest([], "time", "r", []);
    assert [] + "time" + "r" + [] == "timer";
    TimeTakesRest([], "time", [], []);
    assert [] + "time" + [] + [] == "time";
  }

  /**
   * A bare `translate` lacks the `translate ` prefix: it matches no rule and
   * goes to the chat backends rather than to the usage message.
   */
  lemma BareTranslateIsChat()
    ensures HandleTool("translate") == NoMatch
  {
    var l := "translate";
    assert Strip(l) == l by {
      assert Trimmed(l);
      StripPadded([], l, []);
      assert [] + l + [] == l;
    }
    LowerOfLower(l);
    NoRuleForBareTranslate();
    FirstMatchWins(l);
  }

  lemma NoRuleForBareTranslate()
    ensures forall j :: 0 <= j < |Rules| ==> !Matches(Rules[j], "translate")
  {
    var l := "translate";
    assert l[0] == 't' && l[1] == 'r' && |l| == 9;
  }

  /**
   * `translate`: with at least three whitespace-separated tokens, the language
   * is the second token and the text is the untouched rest of the line.
   */
  lemma TranslateTokens(k: string, ws: string, lang: string, gap: string, text: string)
    requires Lower(k) == "translate " && AllSpace(ws)
    requires lang != [] && NoSpace(lang)
    requires gap != [] && AllSpace(gap)
    requires text != [] && !IsSpace(text[0]) && !IsSpace(text[|text| - 1])
    ensures HandleTool(k + ws + lang + gap + text) == Translate(lang, text)
  {
    var t := gap + text;
    var u := lang + t;
    var rest := ws + u;
    Assoc(k + ws + lang, gap, text);
    Assoc(k + ws, lang, t);
    Assoc(k, ws, u);
    assert rest[|rest| - 1] == text[|text| - 1];
    TranslateLine(k, rest);
    TranslateGuards(Lower(rest));
    TranslateWords(k, ws, lang, t);
    SplitSkip(gap, text, 0);
    SplitRest(text);
  }

  /** `translate` with a language but no text gives the untagged usage string. */
  lemma TranslateTooFewTokens(k: string, ws: string, lang: string)
    requires Lower(k) == "translate " && AllSpace(ws)
    requires lang != [] && NoSpace(lang)
    ensures HandleTool(k + ws + lang) == TranslateUsage
  {
    var rest := ws + lang;
    Assoc(k, ws, lang);
    assert lang + [] == lang;
    TranslateLine(k, rest);
    TranslateGuards(Lower(rest));
    TranslateWords(k, ws, lang, []);
  }

  /** A line starting with `translate ` is its own stripped form. */
  lemma TranslateLine(k: string, rest: string)
    requires Lower(k) == "translate "
    requires rest != [] && !IsSpace(rest[|rest| - 1])
    ensures Strip(k + rest) == k + rest
    ensures Lower(k + rest) == "translate " + Lower(rest)
  {
    LowerAt(k, 0);
    Framed([], k, rest, []);
    assert [] + k + rest + [] == k + rest;
  }

  /** No rule before `translate ` matches a lower-cased line that starts with it. */
  lemma TranslateGuards(x: string)
    ensures var l := "translate " + x;
      && StartsWith(l, "translate ")
      && l !in HelpWords && l !in ExitWords
      && !StartsWith(l, "calc ") && !StartsWith(l, "weather ") && !StartsWith(l, "time")
      && l != "joke" && l != "quote" && !StartsWith(l, "dict ")
  {
    var l := "translate " + x;
    assert l[..10] == "translate ";
    assert l[0] == 't' && l[1] == 'r';
  }

  /** The keyword and the language are the first two tokens of a translate line. */
  lemma TranslateWords(k: string, ws: string, lang: string, rest: string)
    requires Lower(k) == "translate " && AllSpace(ws)
    requires lang != [] && NoSpace(lang) && (rest == [] || IsSpace(rest[0]))
    ensures Split(k + (ws + (lang + rest)), 2) == [k[..9], lang] + Split(rest, 0)
  {
    TranslateKeyword(k);
    var kw, sp, x := k[..9], [k[9]], ws + (lang + rest);
    assert k == kw + sp;
    Assoc(kw, sp, x);
    Assoc(sp, ws, lang + rest);
    SplitTokens(kw, sp + ws, lang, rest, 0);
  }

  /** Whatever its case, the `translate ` keyword is a word and then a space. */
  lemma TranslateKeyword(k: string)
    requires Lower(k) == "translate "
    ensures NoSpace(k[..9]) && IsSpace(k[9])
  {
    LowerSpaces(k);
    assert forall i :: 0 <= i < 9 ==> !IsSpace(Lower(k)[i]);
  }
}
