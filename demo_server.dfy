/** The demonstration server's small tools: `add`, the `greeting://{name}` resource and the `greet_user`
    prompt. */
module DemoServer {

  /** `add(a, b)` on Python's unbounded integers. */
  function Add(a: int, b: int): (r: int)
    ensures r == a + b
  {
    a + b
  }

  /** `get_greeting(name)`. */
  function GetGreeting(name: string): (g: string)
    ensures |g| == |name| + 8
    ensures g[..7] == "Hello, " && g[7..|g| - 1] == name && g[|g| - 1] == '!'
  {
    "Hello, " + name + "!"
  }

  /** Distinct names get distinct greetings. */
  lemma GreetingDeterminesName(n1: string, n2: string)
    requires GetGreeting(n1) == GetGreeting(n2)
    ensures n1 == n2
  {
    var g := GetGreeting(n1);
    assert n1 == g[7..|g| - 1];
  }

  const Friendly: string := "Please write a warm, friendly greeting"
  const Formal: string := "Please write a formal, professional greeting"
  const Casual: string := "Please write a casual, relaxed greeting"

  /** The style table of `greet_user`. */
  function Styles(): map<string, string>
  {
    map["friendly" := Friendly, "formal" := Formal, "casual" := Casual]
  }

  /** `styles.get(style, styles['friendly'])`: a known style's sentence, otherwise the friendly one. */
  function StyleSentence(style: string): (s: string)
    ensures style in Styles() ==> s == Styles()[style]
    ensures style !in Styles() ==> s == Friendly
  {
    if style in Styles() then Styles()[style] else Styles()["friendly"]
  }

  const NamedLabel: string := " for someone named "

  /** `greet_user(name, style)`; the style defaults to "friendly". */
  function GreetUser(name: string, style: string := "friendly"): (p: string)
    ensures |p| == |StyleSentence(style)| + |NamedLabel| + |name| + 1
    ensures StyleSentence(style) <= p
    ensures p[|StyleSentence(style)|..|p| - |name| - 1] == " for someone named "
    ensures p[|p| - |name| - 1..] == name + "."
  {
    var s := StyleSentence(style);
    Pieces(s, NamedLabel, name + ".");
    s + NamedLabel + (name + ".")
  }

  /** Each of three concatenated pieces can be cut back out. */
  lemma Pieces(a: string, b: string, c: string)
    ensures a <= a + b + c && (a + b + c)[|a|..|a| + |b|] == b && (a + b + c)[|a| + |b|..] == c
  {
    assert (a + b + c)[..|a|] == a;
  }

  /** An unknown style reads exactly as the default style. */
  lemma UnknownStyleIsFriendly(name: string, style: string)
    requires style !in Styles()
    ensures GreetUser(name, style) == GreetUser(name)
  {
  }

  /** The three sentences differ at index 15 ('w', 'f', 'c'), so that character fixes the sentence. */
  lemma SentenceAtFifteen(s1: string, s2: string)
    ensures |StyleSentence(s1)| > 15 && |StyleSentence(s2)| > 15
    ensures StyleSentence(s1)[15] == StyleSentence(s2)[15] ==> StyleSentence(s1) == StyleSentence(s2)
  {
  }

  /** The prompt tells apart every style sentence and every name: equal prompts mean the same sentence
      and the same name. */
  lemma {:induction false} GreetUserInjective(n1: string, s1: string, n2: string, s2: string)
    ensures GreetUser(n1, s1) == GreetUser(n2, s2) <==> n1 == n2 && StyleSentence(s1) == StyleSentence(s2)
  {
    var p1, p2 := GreetUser(n1, s1), GreetUser(n2, s2);
    if p1 == p2 {
      SentenceAtFifteen(s1, s2);
      assert StyleSentence(s1)[15] == p1[15] == p2[15] == StyleSentence(s2)[15];
      assert n1 + "." == n2 + ".";
      assert n1 == (n1 + ".")[..|n1|];
    }
  }
}
