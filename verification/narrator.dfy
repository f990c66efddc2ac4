/** The Insight Narrator: one sentence per recurring theme, asked of the
    language model and replaced by a fixed template when the model fails. */
module Narrator {
  import opened Text

  /** The analysis windows, in the order the analysis visits them */
  datatype Period = Last7Days | Last30Days | AllTime

  /** The period's stored name */
  function PeriodName(p: Period): string {
    match p
    case Last7Days => "last_7_days"
    case Last30Days => "last_30_days"
    case AllTime => "all_time"
  }

  /** The period label put in the model's prompt */
  function PromptLabel(p: Period): string {
    match p
    case Last7Days => "the past week"
    case Last30Days => "the past month"
    case AllTime => "all time"
  }

  /** The period phrase of the fallback sentence */
  function FallbackPhrase(p: Period): string {
    match p
    case Last7Days => "in the past week"
    case Last30Days => "in the past month"
    case AllTime => "across all your notes"
  }

  /** What the model is asked: theme, number of notes, up to five sample
      titles and the period label. */
  datatype NarrationRequest = NarrationRequest(theme: string, count: nat, sampleTitles: seq<string>, periodLabel: string)

  /** What the model answers: a (trimmed) sentence, or a failure of any kind
      (provider unavailable, timeout, error) */
  datatype Narration = Generated(text: string) | NarrationFailed

  /** The model, as an oracle */
  type Model = NarrationRequest -> Narration

  const Prefix: string := "You've written "
  const Middle: string := " notes about \""

  /** `You've written {count} notes about "{theme}" {phrase}.`, the count
      written as a decimal numeral without leading zeros */
  function Fallback(count: nat, theme: string, p: Period): (r: string)
    ensures exists digits: string ::
      && |digits| >= 1 && (forall i :: 0 <= i < |digits| ==> '0' <= digits[i] <= '9')
      && (|digits| == 1 || digits[0] != '0')
      && ParseNat(digits) == count
      && r == Prefix + digits + Middle + theme + "\" " + FallbackPhrase(p) + "."
  {
    var digits := NatToString(count);
    ParseNatToString(count);
    var r := Prefix + (digits + Tail(theme, p));
    FallbackLayout(digits, theme, p);
    assert r == Prefix + digits + Middle + theme + "\" " + FallbackPhrase(p) + ".";
    r
  }

  /** The part of the fallback sentence after the count: ` notes about "{theme}" {phrase}.` */
  function Tail(theme: string, p: Period): string {
    Middle + ((theme + "\" ") + (FallbackPhrase(p) + "."))
  }

  lemma FallbackLayout(digits: string, theme: string, p: Period)
    ensures Prefix + (digits + Tail(theme, p)) == Prefix + digits + Middle + theme + "\" " + FallbackPhrase(p) + "."
  {
    Regroup(Prefix, digits, Middle, theme, "\" ", FallbackPhrase(p), ".");
  }

  lemma Regroup<T>(a: seq<T>, b: seq<T>, c: seq<T>, d: seq<T>, e: seq<T>, f: seq<T>, g: seq<T>)
    ensures a + (b + (c + ((d + e) + (f + g)))) == a + b + c + d + e + f + g
  {
  }

  /** The sentence for a theme: the model's text when it answers, the
      fallback sentence otherwise. */
  function Narrate(llm: Model, theme: string, count: nat, titles: seq<string>, p: Period): (r: string)
    ensures var answer := llm(NarrationRequest(theme, count, if |titles| <= 5 then titles else titles[..5], PromptLabel(p)));
      && (answer.Generated? ==> r == answer.text)
      && (answer.NarrationFailed? ==> r == Fallback(count, theme, p))
  {
    var sample := if |titles| <= 5 then titles else titles[..5];
    match llm(NarrationRequest(theme, count, sample, PromptLabel(p)))
    case Generated(text) => text
    case NarrationFailed => Fallback(count, theme, p)
  }

  // ---------------------------------------------------------------------
  // The fallback sentence determines the theme, the count and the period

  lemma CancelLeft(a: string, x: string, y: string)
    requires a + x == a + y
    ensures x == y
  {
    assert x == (a + x)[|a|..];
    assert y == (a + y)[|a|..];
  }

  lemma DigitsPrefix(d1: string, d2: string, rest1: string, rest2: string)
    requires forall i :: 0 <= i < |d1| ==> '0' <= d1[i] <= '9'
    requires forall i :: 0 <= i < |d2| ==> '0' <= d2[i] <= '9'
    requires |rest1| > 0 && rest1[0] == ' ' && |rest2| > 0 && rest2[0] == ' '
    requires d1 + rest1 == d2 + rest2
    ensures d1 == d2 && rest1 == rest2
  {
    var s := d1 + rest1;
    assert s == d2 + rest2;
    assert s[|d1|] == ' ' && s[|d2|] == ' ';
    assert forall i :: 0 <= i < |d1| ==> s[i] == d1[i];
    assert forall i :: 0 <= i < |d2| ==> s[i] == d2[i];
    assert |d1| == |d2|;
    assert d1 == (d1 + rest1)[..|d1|];
    assert d2 == (d2 + rest2)[..|d2|];
    assert rest1 == (d1 + rest1)[|d1|..];
    assert rest2 == (d2 + rest2)[|d2|..];
  }

  /** The period is read off the character before the final full stop */
  lemma PhraseEnds(p: Period, q: Period, t1: string, t2: string)
    requires t1 + (FallbackPhrase(p) + ".") == t2 + (FallbackPhrase(q) + ".")
    ensures p == q && t1 == t2
  {
    var s := t1 + (FallbackPhrase(p) + ".");
    var u := t2 + (FallbackPhrase(q) + ".");
    assert s[|s| - 2] == FallbackPhrase(p)[|FallbackPhrase(p)| - 1];
    assert u[|u| - 2] == FallbackPhrase(q)[|FallbackPhrase(q)| - 1];
    assert p == q;
    assert t1 == s[..|t1|];
    assert t2 == u[..|t2|];
  }

  lemma TailStartsWithSpace(theme: string, p: Period)
    ensures |Tail(theme, p)| > 0 && Tail(theme, p)[0] == ' '
  {
    assert Tail(theme, p)[0] == Middle[0];
  }

  /** Equal fallback sentences come from equal (count, theme, period)
      triples: the fallback sentence identifies all three. */
  lemma FallbackInjective(c1: nat, t1: string, p1: Period, c2: nat, t2: string, p2: Period)
    requires Fallback(c1, t1, p1) == Fallback(c2, t2, p2)
    ensures c1 == c2 && t1 == t2 && p1 == p2
  {
    SentenceInjective(c1, t1, p1, c2, t2, p2);
  }

  /** The fallback sentence, as assembled, determines its three parts */
  lemma SentenceInjective(c1: nat, t1: string, p1: Period, c2: nat, t2: string, p2: Period)
    requires Prefix + (NatToString(c1) + Tail(t1, p1)) == Prefix + (NatToString(c2) + Tail(t2, p2))
    ensures c1 == c2 && t1 == t2 && p1 == p2
  {
    TailStartsWithSpace(t1, p1);
    TailStartsWithSpace(t2, p2);
    CancelLeft(Prefix, NatToString(c1) + Tail(t1, p1), NatToString(c2) + Tail(t2, p2));
    DigitsPrefix(NatToString(c1), NatToString(c2), Tail(t1, p1), Tail(t2, p2));
    ParseNatToString(c1);
    ParseNatToString(c2);
    CancelLeft(Middle, (t1 + "\" ") + (FallbackPhrase(p1) + "."), (t2 + "\" ") + (FallbackPhrase(p2) + "."));
    PhraseEnds(p1, p2, t1 + "\" ", t2 + "\" ");
    assert t1 == (t1 + "\" ")[..|t1|];
    assert t2 == (t2 + "\" ")[..|t2|];
  }
}
