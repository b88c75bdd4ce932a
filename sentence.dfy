/** Submitting a new sentence: every '#' is removed (the server breaks on
    it), and a request goes out only when something is left. */
module Sentence {
  import opened Common

  /** The key code of the Enter key. */
  const EnterKey: int := 13

  /** `replace(/\#/g, '')`: the input with every '#' removed. */
  function StripHash(s: string): (r: string)
    ensures '#' !in r
    ensures forall c :: c in r <==> c in s && c != '#'
    ensures |r| == |s| - multiset(s)['#']
  {
    if s == [] then []
    else if s[0] == '#' then
      assert s == [s[0]] + s[1..];
      StripHash(s[1..])
    else
      assert s == [s[0]] + s[1..];
      [s[0]] + StripHash(s[1..])
  }

  /** Stripping distributes over concatenation, so it keeps the order of
      the characters it keeps. */
  lemma {:induction false} StripHashAppend(a: string, b: string)
    ensures StripHash(a + b) == StripHash(a) + StripHash(b)
  {
    if a == [] {
      assert a + b == b;
    } else {
      assert (a + b)[0] == a[0] && (a + b)[1..] == a[1..] + b;
      StripHashAppend(a[1..], b);
    }
  }

  /** A string without '#' is left exactly as it is. */
  lemma {:induction false} StripHashNoHash(s: string)
    requires '#' !in s
    ensures StripHash(s) == s
  {
    if s != [] {
      StripHashNoHash(s[1..]);
    }
  }

  /** Sanitising twice is the same as sanitising once. */
  lemma StripHashIdempotent(s: string)
    ensures StripHash(StripHash(s)) == StripHash(s)
  {
    StripHashNoHash(StripHash(s));
  }

  /** An input made only of '#' sanitises to the empty string. */
  lemma {:induction false} AllHashIsEmpty(s: string)
    requires forall i :: 0 <= i < |s| ==> s[i] == '#'
    ensures StripHash(s) == []
  {
    if s != [] {
      AllHashIsEmpty(s[1..]);
    }
  }

  /** `submitNewSentence`'s guard: the attention request for the sanitised
      sentence at the current model and layer, sent only when the sanitised
      sentence is not empty. */
  function Submit(conf: UiConfig, input: string): (r: Option<AttentionRequest>)
    ensures r.Some? <==> StripHash(input) != []
    ensures r.Some? ==> r.value.MetaAttentions? && r.value.sentence == StripHash(input)
    ensures r.Some? ==> '#' !in r.value.sentence && 0 < |r.value.sentence| <= |input|
    ensures r.Some? ==> r.value.model == conf.model && r.value.layer == conf.layer
  {
    var sentence := StripHash(input);
    if |sentence| > 0 then Some(MetaAttentions(conf.model, sentence, conf.layer)) else None
  }

  /** The input box's keypress handler: only the Enter key submits. */
  function OnKeypress(conf: UiConfig, keyCode: int, input: string): (r: Option<AttentionRequest>)
    ensures keyCode != EnterKey ==> r.None?
    ensures keyCode == EnterKey ==> r == Submit(conf, input)
  {
    if keyCode != EnterKey then None else Submit(conf, input)
  }
}
