/**
 * The offline chat reply `chat_fallback`: an ordered keyword classifier over
 * the lower-cased, stripped line that always answers with one of five fixed
 * sentences.
 */
module Fallback {
  import opened Text

  const Greetings: seq<string> := ["hello", "hi", "hey", "namaste"]

  const Greeting := "Hi! I\U{2019}m Bhanu \U{2014} your terminal agent. Ask me to calc, check weather, or just chat!"
  const BinarySearch := "Binary search halves the search range in a sorted array; O(log n) time."
  const LinuxTip := "Linux tip: use `ctrl+r` in the terminal to reverse-search your command history."
  const Balance := "Balance idea: 50-minute study sprints + 10-minute stretch or light drills."
  const Offline := "I\U{2019}m offline \U{1F605} \U{2014} try a tool (calc/weather/time/joke/news/etc)."

  const Replies: set<string> := {Greeting, BinarySearch, LinuxTip, Balance, Offline}

  /** Python's `any(k in text for k in keys)`. */
  predicate AnyIn(keys: seq<string>, text: string)
    decreases |keys|
  {
    keys != [] && (Contains(text, keys[0]) || AnyIn(keys[1..], text))
  }

  lemma {:induction false} AnyInMember(keys: seq<string>, text: string, i: nat)
    requires i < |keys| && Contains(text, keys[i])
    ensures AnyIn(keys, text)
    decreases i
  {
    if i > 0 {
      AnyInMember(keys[1..], text, i - 1);
    }
  }

  /** The key `any` found, when it found one. */
  lemma {:induction false} AnyInWhich(keys: seq<string>, text: string) returns (i: nat)
    requires AnyIn(keys, text)
    ensures i < |keys| && Contains(text, keys[i])
    decreases |keys|
  {
    if Contains(text, keys[0]) {
      i := 0;
    } else {
      var j := AnyInWhich(keys[1..], text);
      i := j + 1;
    }
  }

  /** The text the classifier looks at. */
  function Normal(userText: string): string {
    Strip(Lower(userText))
  }

  /**
   * The classifier of `chat_fallback` on the normalised text: greetings first,
   * then the two topics, then the pair of words for the balance tip; the
   * offline notice when nothing matched.
   */
  function Classify(text: string): (r: string)
    ensures r in Replies && r != []
    ensures r == Greeting <==> AnyIn(Greetings, text)
    ensures !AnyIn(Greetings, text) && Contains(text, "binary search") ==> r == BinarySearch
    ensures !AnyIn(Greetings, text) && !Contains(text, "binary search") && Contains(text, "linux tip") ==>
              r == LinuxTip
    ensures (&& !AnyIn(Greetings, text) && !Contains(text, "binary search") && !Contains(text, "linux tip")
             && Contains(text, "sports") && Contains(text, "study")) ==> r == Balance
    ensures r == BinarySearch ==> Contains(text, "binary search")
    ensures r == LinuxTip ==> Contains(text, "linux tip")
    ensures r == Balance ==> Contains(text, "sports") && Contains(text, "study")
    ensures r == Offline ==>
              && !AnyIn(Greetings, text)
              && !Contains(text, "binary search")
              && !Contains(text, "linux tip")
              && !(Contains(text, "sports") && Contains(text, "study"))
  {
    if AnyIn(Greetings, text) then Greeting
    else if Contains(text, "binary search") then BinarySearch
    else if Contains(text, "linux tip") then LinuxTip
    else if Contains(text, "sports") && Contains(text, "study") then Balance
    else Offline
  }

  /** `chat_fallback`: the classifier applied to the lower-cased, stripped line. */
  function ChatFallback(userText: string): (r: string)
    ensures r in Replies && r != []
  {
    Classify(Normal(userText))
  }

  /** Lower-casing or stripping the line first does not change what the classifier sees. */
  lemma NormalAbsorbs(userText: string)
    ensures Normal(Lower(userText)) == Normal(userText)
    ensures Normal(Strip(userText)) == Normal(userText)
  {
    LowerIdempotent(userText);
    LowerStrip(userText);
    StripIdempotent(Lower(userText));
  }

  /** The reply depends neither on letter case nor on surrounding whitespace. */
  lemma FallbackNormalises(userText: string)
    ensures ChatFallback(Lower(userText)) == ChatFallback(userText)
    ensures ChatFallback(Strip(userText)) == ChatFallback(userText)
  {
    NormalAbsorbs(userText);
  }

  /** A word of the line, lower-cased, is found in the lower-cased line. */
  lemma ContainsLowered(p: string, k: string, q: string)
    ensures Contains(Lower(p + k + q), Lower(k))
  {
    LowerConcat(p + k, q);
    LowerConcat(p, k);
    var s := Lower(p) + Lower(k) + Lower(q);
    assert s[|Lower(p)|..|Lower(p)| + |k|] == Lower(k);
    ContainsAt(s, Lower(k), |Lower(p)|);
  }

  /** Any greeting word, in any case, anywhere in the text wins over every topic. */
  lemma GreetingFirst(p: string, k: string, q: string)
    requires Lower(k) in Greetings
    ensures ChatFallback(p + k + q) == Greeting
  {
    var g := Lower(k);
    var i :| 0 <= i < |Greetings| && Greetings[i] == g;
    ContainsLowered(p, k, q);
    assert Trimmed(g);
    StripKeepsInfix(Lower(p + k + q), g);
    AnyInMember(Greetings, Normal(p + k + q), i);
  }

  /** Greetings are matched as substrings: "hi" inside "this" is a greeting. */
  lemma ThisIsAGreeting()
    ensures ChatFallback("this") == Greeting
  {
    assert "t" + "hi" + "s" == "this";
    LowerOfLower("hi");
    GreetingFirst("t", "hi", "s");
  }

  /** Upper case counts too: `HELLO there` is a greeting. */
  lemma ShoutedGreeting()
    ensures ChatFallback("HELLO there") == Greeting
  {
    assert "" + "HELLO" + " there" == "HELLO there";
    assert Lower("HELLO") == "hello" by {
      LowerAt("HELLO", 0);
      LowerAt("HELLO", 1);
      LowerAt("HELLO", 2);
      LowerAt("HELLO", 3);
      LowerAt("HELLO", 4);
    }
    GreetingFirst("", "HELLO", " there");
  }

  /** The default is the offline notice: a line with none of the keywords gets it. */
  lemma OfflineByDefault(userText: string)
    requires !AnyIn(Greetings, Normal(userText))
    requires !Contains(Normal(userText), "binary search") && !Contains(Normal(userText), "linux tip")
    requires !Contains(Normal(userText), "sports") || !Contains(Normal(userText), "study")
    ensures ChatFallback(userText) == Offline
  {
  }
}
