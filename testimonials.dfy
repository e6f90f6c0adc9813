/**
 * `highlightText` of the testimonials section (frontend/components/ClientTestimonials.tsx): the
 * quote is split at the highlighted phrase and the first two pieces are shown around the phrase,
 * which is rendered marked.
 */
module Testimonials {
  import opened Wrappers
  import opened Text

  /** `s.split(sep)` for a non-empty separator: the pieces between non-overlapping occurrences. */
  function Split(s: string, sep: string): (parts: seq<string>)
    requires sep != ""
    ensures |parts| >= 1
    ensures |parts| == 1 <==> !Contains(s, sep)
    decreases |s|
  {
    match IndexOf(s, sep)
    case None => [s]
    case Some(i) => [s[..i]] + Split(s[i + |sep|..], sep)
  }

  /** `parts.join(sep)`. */
  function Join(parts: seq<string>, sep: string): string
    requires |parts| >= 1
  {
    if |parts| == 1 then parts[0] else parts[0] + sep + Join(parts[1..], sep)
  }

  /** Splitting loses nothing: joining the pieces with the separator gives back the text. */
  lemma {:induction false} JoinSplit(s: string, sep: string)
    requires sep != ""
    ensures Join(Split(s, sep), sep) == s
    decreases |s|
  {
    match IndexOf(s, sep)
    case None =>
    case Some(i) =>
      var rest := s[i + |sep|..];
      JoinSplit(rest, sep);
      SplitAt(s, sep, i);
      JoinCons(s[..i], Split(rest, sep), sep);
  }

  lemma SplitAt(s: string, sep: string, i: nat)
    requires sep != "" && IndexOf(s, sep) == Some(i)
    ensures Split(s, sep) == [s[..i]] + Split(s[i + |sep|..], sep)
    ensures s == s[..i] + sep + s[i + |sep|..]
  {
    Reassemble(s, sep, i);
  }

  lemma Reassemble(s: string, sep: string, i: nat)
    requires OccursAt(s, sep, i)
    ensures s == s[..i] + sep + s[i + |sep|..]
  {
    var j := i + |sep|;
    assert s[i..j] == sep;
    assert s == s[..i] + s[i..j] + s[j..];
  }

  lemma JoinCons(p: string, parts: seq<string>, sep: string)
    requires |parts| >= 1
    ensures Join([p] + parts, sep) == p + sep + Join(parts, sep)
  {
    assert ([p] + parts)[1..] == parts;
  }

  /** What is rendered: the text alone, or the text around a marked phrase (`parts[1]` may be undefined). */
  datatype Rendered = Plain(text: string) | Marked(before: string, mark: string, after: Option<string>)

  /** The characters a reader sees; an undefined child renders nothing. */
  function Visible(r: Rendered): string {
    match r
    case Plain(t) => t
    case Marked(b, m, a) => b + m + a.GetOr("")
  }

  /** `highlightText`. */
  function HighlightText(text: string, highlight: string): (r: Rendered)
    ensures highlight == "" ==> r == Plain(text)
    ensures highlight != "" ==> r.Marked? && r.mark == highlight && r.before == Split(text, highlight)[0]
    ensures highlight != "" ==> (r.after.None? <==> !Contains(text, highlight))
  {
    if highlight == "" then Plain(text)
    else
      var parts := Split(text, highlight);
      Marked(parts[0], highlight, if |parts| > 1 then Some(parts[1]) else None)
  }

  /** A phrase that occurs exactly once is marked in place and the text reads as before. */
  lemma OnceReadsTheSame(text: string, highlight: string)
    requires highlight != "" && |Split(text, highlight)| == 2
    ensures Visible(HighlightText(text, highlight)) == text
  {
    var parts := Split(text, highlight);
    JoinSplit(text, highlight);
    assert Join(parts, highlight) == parts[0] + highlight + Join(parts[1..], highlight);
  }

  /** From the second occurrence on, the rest of the text is dropped. */
  lemma RepeatedLosesTail(text: string, highlight: string)
    requires highlight != "" && |Split(text, highlight)| >= 3
    ensures Visible(HighlightText(text, highlight)) + highlight + Join(Split(text, highlight)[2..], highlight) == text
  {
    var parts := Split(text, highlight);
    JoinSplit(text, highlight);
    JoinThree(parts, highlight);
    assert HighlightText(text, highlight) == Marked(parts[0], highlight, Some(parts[1]));
  }

  lemma JoinThree(parts: seq<string>, sep: string)
    requires |parts| >= 3
    ensures Join(parts, sep) == parts[0] + sep + parts[1] + sep + Join(parts[2..], sep)
  {
    assert parts[1..][1..] == parts[2..];
    var rest := Join(parts[2..], sep);
    calc {
      Join(parts, sep);
      parts[0] + sep + (parts[1] + sep + rest);
      { ConcatAssoc(parts[0] + sep, parts[1] + sep, rest); }
      parts[0] + sep + parts[1] + sep + rest;
    }
  }

  lemma ConcatAssoc(a: string, b: string, c: string)
    ensures a + (b + c) == a + b + c
  {
  }

  /** A phrase missing from the text is shown after it anyway. */
  lemma AbsentIsAppended(text: string, highlight: string)
    requires highlight != "" && !Contains(text, highlight)
    ensures Visible(HighlightText(text, highlight)) == text + highlight
  {
  }
}
