/** The mock side of the Gemini client (`src/lib/gemini.ts`). With mock
    data switched on, questions, summaries and tutorials are built from the
    document text alone, and evaluations are a fixed record. The regular
    expressions that cut a document into sentences (`extractSentences`) and
    sections (`splitIntoSections`) stay outside the model: a document's
    sentences come from the function `sentencesOf` and its sections arrive
    as a sequence. */
module Gemini {
  import opened Wrappers
  import opened Strings
  import ScriptGenerator

  const Ellipsis := "..."
  const UntitledDocument := "Document Summary"

  // ---------------------------------------------------------------- getSnippet

  /** `text.replace(/\s+/g, ' ').trim()` */
  function Clean(text: string): (r: string)
    ensures r == [] || (!IsWhitespace(r[0]) && !IsWhitespace(r[|r| - 1]))
    ensures forall i :: 0 <= i < |r| ==> (IsWhitespace(r[i]) ==> r[i] == ' ')
    ensures forall i :: 0 <= i < |r| - 1 ==> !(IsWhitespace(r[i]) && IsWhitespace(r[i + 1]))
    ensures Visible(r) == Visible(text)
  {
    var c := CollapseWhitespace(text);
    TrimKeepsSpacing(c);
    CollapseKeepsVisible(text);
    TrimKeepsVisible(c);
    Trim(c)
  }

  /** Removes the trailing characters up to (not including) the last whitespace. */
  function DropTrailingWord(s: string): (r: string)
    ensures StartsWith(s, r)
    ensures r == [] || IsWhitespace(r[|r| - 1])
    ensures forall i :: |r| <= i < |s| ==> !IsWhitespace(s[i])
  {
    if s == [] || IsWhitespace(s[|s| - 1]) then s else DropTrailingWord(s[..|s| - 1])
  }

  /** `s.replace(/\s+\S*$/, '')`: the last whitespace run and the partial
      word after it are dropped; a string without whitespace is unchanged. */
  function DropPartialWord(s: string): (r: string)
    ensures StartsWith(s, r)
    ensures r != s ==> |r| < |s| && IsWhitespace(s[|r|]) && (r == [] || !IsWhitespace(r[|r| - 1]))
    ensures r != s ==> forall i, j :: |r| <= i < j < |s| && !IsWhitespace(s[i]) ==> !IsWhitespace(s[j])
  {
    var t := DropTrailingWord(s);
    if t == [] then s
    else
      TrimEndIsPrefix(t);
      TrimEndDropsWhitespace(t);
      assert forall i :: |TrimEnd(t)| <= i < |t| ==> s[i] == t[i];
      TrimEnd(t)
  }

  /** Only a string without whitespace is left unchanged. */
  lemma DropPartialWordKeepsIff(s: string)
    ensures DropPartialWord(s) == s <==> forall i :: 0 <= i < |s| ==> !IsWhitespace(s[i])
  {
    var t := DropTrailingWord(s);
    if t != [] {
      TrimEndIsPrefix(t);
      assert IsWhitespace(s[|t| - 1]);
    }
  }

  /** `getSnippet(text, length)` */
  function GetSnippet(text: string, length: nat): (r: string)
    ensures |Clean(text)| <= length ==> r == Clean(text)
    ensures |Clean(text)| > length ==>
      |r| <= length + |Ellipsis| && EndsWith(r, Ellipsis) && StartsWith(Clean(text), r[..|r| - |Ellipsis|])
    ensures |Clean(text)| > length ==> r == DropPartialWord(Clean(text)[..length]) + Ellipsis
  {
    var clean := Clean(text);
    if |clean| <= length then clean
    else DropPartialWord(clean[..length]) + Ellipsis
  }

  /** A snippet never exceeds the length by more than the ellipsis, and,
      without its ellipsis, is the start of the cleaned text. */
  lemma SnippetIsPrefix(text: string, length: nat)
    ensures var r := GetSnippet(text, length);
      |r| <= length + |Ellipsis|
      && (StartsWith(Clean(text), r) || (EndsWith(r, Ellipsis) && StartsWith(Clean(text), r[..|r| - |Ellipsis|])))
  {
  }

  // ---------------------------------------------------------------- extractTitle

  /** The first line whose trim is not empty. */
  function FirstNonBlank(lines: seq<string>): (r: Option<string>)
    ensures r.None? <==> forall i :: 0 <= i < |lines| ==> Trim(lines[i]) == []
    ensures r.Some? ==> Trim(r.value) != []
    ensures r.Some? ==>
      exists k :: 0 <= k < |lines| && lines[k] == r.value && forall i :: 0 <= i < k ==> Trim(lines[i]) == []
  {
    if lines == [] then None
    else if Trim(lines[0]) != [] then Some(lines[0])
    else FirstNonBlank(lines[1..])
  }

  /** Removes the leading run of `#`. */
  function DropHashes(s: string): (r: string)
    ensures EndsWith(s, r) && (r == [] || r[0] != '#')
    ensures forall i :: 0 <= i < |s| - |r| ==> s[i] == '#'
  {
    if s != [] && s[0] == '#' then
      var r := DropHashes(s[1..]);
      HashStep(s, r);
      r
    else s
  }

  /** One more leading `#` extends the run `DropHashes` removes. */
  lemma HashStep(s: string, r: string)
    requires s != [] && s[0] == '#' && EndsWith(s[1..], r)
    requires forall i :: 0 <= i < |s| - 1 - |r| ==> s[1..][i] == '#'
    ensures EndsWith(s, r) && forall i :: 0 <= i < |s| - |r| ==> s[i] == '#'
  {
    assert s[|s| - |r|..] == s[1..][|s| - 1 - |r|..];
    assert forall i :: 1 <= i < |s| ==> s[i] == s[1..][i - 1];
  }

  /** Removes a heading's leading hashes and the whitespace after them
      (the `^#+\s*` replacement). */
  function StripHeading(line: string): (r: string)
    ensures EndsWith(line, r)
    ensures (line == [] || line[0] != '#') ==> r == line
    ensures line != [] && line[0] == '#' ==> HeadingMarker(line, |line| - |r|)
  {
    if line != [] && line[0] == '#' then
      var t := DropHashes(line);
      TrimStartIsSuffix(t);
      HeadingMarkerFound(line);
      TrimStart(t)
    else line
  }

  lemma HeadingMarkerFound(line: string)
    requires line != [] && line[0] == '#'
    ensures HeadingMarker(line, |line| - |TrimStart(DropHashes(line))|)
  {
    var t := DropHashes(line);
    TrimStartIsSuffix(t);
    TrimStartDropsWhitespace(t);
    MarkerOfRuns(line, t, TrimStart(t));
  }

  /** Removing a leading run of `#` (leaving `t`) and then leading
      whitespace (leaving `r`) removes a heading marker. */
  lemma MarkerOfRuns(line: string, t: string, r: string)
    requires |t| < |line| && EndsWith(line, t) && (t == [] || t[0] != '#')
    requires forall i :: 0 <= i < |line| - |t| ==> line[i] == '#'
    requires EndsWith(t, r) && (r == [] || !IsWhitespace(r[0]))
    requires forall i :: 0 <= i < |t| - |r| ==> IsWhitespace(t[i])
    ensures HeadingMarker(line, |line| - |r|)
  {
    var h, n := |line| - |t|, |line| - |r|;
    assert forall i :: h <= i < |line| ==> line[i] == t[i - h];
    assert forall i :: n <= i < |line| ==> line[i] == r[i - n];
  }

  /** `line[..n]` is the whole match of `^#+\s*`: a non-empty run of `#`
      followed by whitespace, with neither run extendable into the rest. */
  predicate HeadingMarker(line: string, n: int)
  {
    && 0 < n <= |line|
    && (forall i :: 0 <= i < n ==> line[i] == '#' || IsWhitespace(line[i]))
    && (forall i, j :: 0 <= i < j < n && IsWhitespace(line[i]) ==> IsWhitespace(line[j]))
    && (n == |line| || (!IsWhitespace(line[n]) && (line[n] == '#' ==> IsWhitespace(line[n - 1]))))
  }

  predicate EndsInPunctuation(s: string)
  {
    s != [] && (s[|s| - 1] == '.' || s[|s| - 1] == '!' || s[|s| - 1] == '?')
  }

  /** `sentence.split(' ').slice(0, 6).join(' ')` */
  function FirstWords(sentence: string): string
  {
    var words := Split(sentence, ' ');
    Join(words[..if |words| < 6 then |words| else 6], " ")
  }

  /** `extractTitle(text)`, where `sentences` is `extractSentences(text)`. */
  function ExtractTitle(text: string, sentences: seq<string>): (t: string)
    ensures (forall i :: 0 <= i < |Split(text, '\n')| ==> Trim(Split(text, '\n')[i]) == []) ==> t == UntitledDocument
    ensures t == UntitledDocument || |t| < 100 || (EndsWith(t, Ellipsis) && |t| > 10 + |Ellipsis|)
  {
    match FirstNonBlank(Split(text, '\n'))
    case None => UntitledDocument
    case Some(line) =>
      var first := Trim(line);
      if |first| < 100 && !EndsInPunctuation(first) then StripHeading(first)
      else if sentences != [] && sentences[0] != [] then
        var words := FirstWords(sentences[0]);
        if |words| > 10 then words + Ellipsis else UntitledDocument
      else UntitledDocument
  }

  /** A first non-blank line that is short and not a sentence is the title,
      with its heading marker removed. */
  lemma ExtractTitleFromLine(text: string, sentences: seq<string>, line: string)
    requires FirstNonBlank(Split(text, '\n')) == Some(line)
    requires |Trim(line)| < 100 && !EndsInPunctuation(Trim(line))
    ensures ExtractTitle(text, sentences) == StripHeading(Trim(line))
    ensures Trim(line)[0] != '#' ==> ExtractTitle(text, sentences) == Trim(line)
  {
  }

  /** A long or punctuated first non-blank line gives way to the first six
      words of the first sentence, marked with an ellipsis when they are
      longer than ten characters; otherwise the title is the fixed one. */
  lemma ExtractTitleFromSentence(text: string, sentences: seq<string>, line: string)
    requires FirstNonBlank(Split(text, '\n')) == Some(line)
    requires |Trim(line)| >= 100 || EndsInPunctuation(Trim(line))
    ensures sentences != [] && sentences[0] != [] && |FirstWords(sentences[0])| > 10 ==>
      ExtractTitle(text, sentences) == FirstWords(sentences[0]) + Ellipsis
    ensures !(sentences != [] && sentences[0] != [] && |FirstWords(sentences[0])| > 10) ==>
      ExtractTitle(text, sentences) == UntitledDocument
  {
  }

  // ---------------------------------------------------------------- generateSmartMockQuestions

  datatype Question = Question(id: nat, question: string)

  const QuestionLead := "Based on the document content, what is the main concept being discussed and how does it relate to: \""
  const QuestionClose := "\"?"
  const FixedQuestions := [
    "Analyze the key arguments presented in this document. What are the strengths and potential weaknesses of the author's position?",
    "How could you apply the principles discussed in this document to solve a practical problem in your field?",
    "Compare and contrast the different perspectives or approaches mentioned in the document. Which do you find most compelling and why?",
    "Based on the information provided, what conclusions can you draw? What implications might these have for future developments?"
  ]

  /** The first `n` elements (`slice(0, n)`). */
  function Prefix<T>(s: seq<T>, n: nat): (r: seq<T>)
    ensures |r| == if |s| < n then |s| else n
    ensures r == s[..|r|]
  {
    if |s| < n then s else s[..n]
  }

  /** The last two elements (`slice(-2)`). */
  function LastTwo<T>(s: seq<T>): (r: seq<T>)
    ensures |r| == if |s| < 2 then |s| else 2
    ensures r == s[|s| - |r|..]
  {
    if |s| < 2 then s else s[|s| - 2..]
  }

  /** `generateSmartMockQuestions`: five questions numbered 1 to 5; only the
      first quotes the document. */
  function MockQuestions(sentences: seq<string>): (qs: seq<Question>)
    ensures |qs| == 5
    ensures forall i :: 0 <= i < |qs| ==> qs[i].id == i + 1
    ensures StartsWith(qs[0].question, QuestionLead) && EndsWith(qs[0].question, QuestionClose)
    ensures forall i :: 1 <= i < |qs| ==> qs[i].question == FixedQuestions[i - 1]
  {
    var snippet := GetSnippet(Join(Prefix(sentences, 5), " "), 80);
    Framed(QuestionLead, snippet, QuestionClose);
    [Question(1, QuestionLead + snippet + QuestionClose),
     Question(2, FixedQuestions[0]), Question(3, FixedQuestions[1]),
     Question(4, FixedQuestions[2]), Question(5, FixedQuestions[3])]
  }

  /** `a` starts and `c` ends `a + b + c`. */
  lemma Framed(a: string, b: string, c: string)
    ensures StartsWith(a + b + c, a) && EndsWith(a + b + c, c)
  {
    assert (a + b + c)[..|a|] == a;
    assert (a + b + c)[|a| + |b|..] == c;
  }

  /** The quoted snippet is at most 83 characters of the first five
      sentences. */
  lemma MockQuestionQuotesSnippet(sentences: seq<string>)
    ensures var q := MockQuestions(sentences)[0].question;
      |q| <= |QuestionLead| + 80 + |Ellipsis| + |QuestionClose|
  {
    SnippetIsPrefix(Join(Prefix(sentences, 5), " "), 80);
  }

  // ---------------------------------------------------------------- shared builders

  /** `s.length > max ? s.substring(0, max - 3) + '...' : s` */
  function Clip(s: string, max: nat): (r: string)
    requires max >= |Ellipsis|
    ensures |r| <= max
    ensures |s| <= max ==> r == s
    ensures |s| > max ==> |r| == max && EndsWith(r, Ellipsis) && StartsWith(s, r[..max - |Ellipsis|])
  {
    if |s| > max then s[..max - |Ellipsis|] + Ellipsis else s
  }

  /** `a || b` on strings: the empty string is falsy. */
  function OrElse(a: string, b: string): (r: string)
    ensures r == a || r == b
    ensures r == [] <==> a == [] && b == []
  {
    if a != [] then a else b
  }

  /** Each element clipped to `max` characters. */
  function ClipAll(s: seq<string>, max: nat): (r: seq<string>)
    requires max >= |Ellipsis|
    ensures |r| == |s|
    ensures forall i :: 0 <= i < |r| ==> r[i] == Clip(s[i], max)
  {
    if s == [] then [] else [Clip(s[0], max)] + ClipAll(s[1..], max)
  }

  /** The padding loops: `extra(k)` is pushed while there are `k < least`
      elements. */
  function Pad<T>(xs: seq<T>, least: nat, extra: nat -> T): (r: seq<T>)
    ensures |r| == if |xs| < least then least else |xs|
    ensures r[..|xs|] == xs
    decreases least - |xs|
  {
    if |xs| >= least then xs else Pad(xs + [extra(|xs|)], least, extra)
  }

  lemma {:induction false} PadAt<T>(xs: seq<T>, least: nat, extra: nat -> T, i: nat)
    requires |xs| <= i < |Pad(xs, least, extra)|
    ensures Pad(xs, least, extra)[i] == extra(i)
    decreases least - |xs|
  {
    var next := xs + [extra(|xs|)];
    assert Pad(xs, least, extra) == Pad(next, least, extra);
    if i > |xs| {
      PadAt(next, least, extra, i);
    } else {
      assert Pad(next, least, extra)[..|next|] == next;
    }
  }

  /** Element `i` of a numbered, padded list is the one made from item `i`. */
  lemma PaddedNumberedAt<T>(q: seq<string>, make: (nat, string) -> T, least: nat, extra: nat -> T, i: nat)
    requires i < |q|
    ensures i < |Pad(ScriptGenerator.Numbered(q, 0, make), least, extra)|
    ensures Pad(ScriptGenerator.Numbered(q, 0, make), least, extra)[i] == make(i, q[i])
  {
    var mapped := ScriptGenerator.Numbered(q, 0, make);
    ScriptGenerator.NumberedAt(q, 0, make, i);
    assert Pad(mapped, least, extra)[..|mapped|] == mapped;
  }

  /** `while (xs.length < least) xs.push(extra(xs.length))` */
  method PadLoop<T>(xs: seq<T>, least: nat, extra: nat -> T) returns (padded: seq<T>)
    ensures padded == Pad(xs, least, extra)
  {
    padded := xs;
    while |padded| < least
      invariant Pad(padded, least, extra) == Pad(xs, least, extra)
      decreases least - |padded|
    {
      padded := padded + [extra(|padded|)];
    }
  }

  // ---------------------------------------------------------------- generateSmartMockSummary

  datatype DocSection = DocSection(heading: string, content: string)

  datatype Summary = Summary(title: string, mainIdea: string, keyPoints: seq<string>,
                             sections: seq<DocSection>, conclusion: string, wordCount: nat)

  const MainIdeaFallback := "This document presents key information on the topic at hand."
  const ConclusionFallback := "The document provides valuable insights on the discussed topics."
  const KeyPointLimit := 150

  /** `Math.max(1, Math.floor(n / 5))` */
  function SampleStep(n: nat): (step: nat)
    ensures step >= 1
  {
    if n / 5 > 1 then n / 5 else 1
  }

  /** The key points taken in the first `k` rounds of the sampling loop:
      round `i` looks at sentence `i * step` and keeps it, clipped to 150
      characters, when it exists and is not empty. */
  function Sampled(sentences: seq<string>, k: nat): (r: seq<string>)
    ensures |r| <= k
  {
    if k == 0 then []
    else
      var i := k - 1;
      var j := i * SampleStep(|sentences|);
      var prev := Sampled(sentences, i);
      if j < |sentences| && sentences[j] != [] then prev + [Clip(sentences[j], KeyPointLimit)] else prev
  }

  /** The filler pushed when there are `k` key points so far. */
  function KeyPointFiller(k: nat): string
  {
    "Key point " + NatToString(k + 1) + " from the document content."
  }

  /** The key points of the mock summary. */
  function KeyPoints(sentences: seq<string>): seq<string>
  {
    Pad(Sampled(sentences, 5), 3, KeyPointFiller)
  }

  /** The sampling loop stops once a round falls past the last sentence. */
  lemma {:induction false} SampledStops(sentences: seq<string>, k: nat)
    requires k <= 5 && (k == 5 || k * SampleStep(|sentences|) >= |sentences|)
    ensures Sampled(sentences, k) == Sampled(sentences, 5)
    decreases 5 - k
  {
    if k < 5 {
      assert (k + 1) * SampleStep(|sentences|) >= |sentences|;
      SampledStops(sentences, k + 1);
    }
  }

  lemma {:induction false} SampledShort(sentences: seq<string>, k: nat)
    ensures forall i :: 0 <= i < |Sampled(sentences, k)| ==> |Sampled(sentences, k)[i]| <= KeyPointLimit
  {
    if k > 0 {
      SampledShort(sentences, k - 1);
    }
  }

  /** When no sentence is empty, point `i` is sentence `i * step`, clipped,
      for every round that stays inside the sentences. */
  lemma {:induction false} SampledAt(sentences: seq<string>, k: nat)
    requires forall j :: 0 <= j < |sentences| ==> sentences[j] != []
    ensures forall i :: 0 <= i < k && i * SampleStep(|sentences|) < |sentences| ==>
      i < |Sampled(sentences, k)| && Sampled(sentences, k)[i] == Clip(sentences[i * SampleStep(|sentences|)], KeyPointLimit)
  {
    if k > 0 {
      SampledAt(sentences, k - 1);
      var step := SampleStep(|sentences|);
      var prev := Sampled(sentences, k - 1);
      if (k - 1) * step < |sentences| {
        SampledLength(sentences, k - 1);
      }
    }
  }

  /** With every sentence non-empty, `k` rounds inside the sentences give `k` points. */
  lemma {:induction false} SampledLength(sentences: seq<string>, k: nat)
    requires forall j :: 0 <= j < |sentences| ==> sentences[j] != []
    requires k == 0 || (k - 1) * SampleStep(|sentences|) < |sentences|
    ensures |Sampled(sentences, k)| == k
  {
    if k > 0 {
      var step := SampleStep(|sentences|);
      if k > 1 {
        assert (k - 2) * step <= (k - 1) * step;
        SampledLength(sentences, k - 1);
      }
    }
  }

  /** Between three and five key points, each at most 150 characters. */
  lemma KeyPointsBounds(sentences: seq<string>)
    ensures 3 <= |KeyPoints(sentences)| <= 5
    ensures forall i :: 0 <= i < |KeyPoints(sentences)| ==> |KeyPoints(sentences)[i]| <= KeyPointLimit
  {
    SampledShort(sentences, 5);
    var p := Sampled(sentences, 5);
    var r := Pad(p, 3, KeyPointFiller);
    forall i | 0 <= i < |r|
      ensures |r[i]| <= KeyPointLimit
    {
      if i < |p| {
        assert r[i] == r[..|p|][i];
      } else {
        PadAt(p, 3, KeyPointFiller, i);
        assert |NatToString(i + 1)| == 1;
      }
    }
  }

  /** Five or more non-empty sentences give five key points, the sentences
      at `0, step, .., 4 * step` in that order. */
  lemma FiveKeyPoints(sentences: seq<string>)
    requires |sentences| >= 5 && forall j :: 0 <= j < |sentences| ==> sentences[j] != []
    ensures var step := SampleStep(|sentences|);
      |KeyPoints(sentences)| == 5
      && forall i :: 0 <= i < 5 ==> KeyPoints(sentences)[i] == Clip(sentences[i * step], KeyPointLimit)
  {
    var step := SampleStep(|sentences|);
    assert 4 * step < |sentences|;
    SampledLength(sentences, 5);
    SampledAt(sentences, 5);
    assert forall i :: 0 <= i < 5 ==> i * step <= 4 * step;
  }

  /** `Section ${index + 1}: ${extractTitle(section).substring(0, 50)}` with the section's snippet. */
  function SummarySection(index: nat, section: string, sentencesOf: string -> seq<string>): DocSection
  {
    DocSection("Section " + NatToString(index + 1) + ": " + Take(ExtractTitle(section, sentencesOf(section)), 50),
               GetSnippet(section, 200))
  }

  /** The filler section pushed when there are `k` sections so far. */
  function ExtraSection(k: nat, content: string): DocSection
  {
    DocSection("Additional Content " + NatToString(k + 1), GetSnippet(Drop(content, k * 500), 200))
  }

  function SummarySectionAt(sentencesOf: string -> seq<string>): (nat, string) -> DocSection
  {
    (k: nat, s: string) => SummarySection(k, s, sentencesOf)
  }

  function ExtraSectionFor(content: string): nat -> DocSection
  {
    (k: nat) => ExtraSection(k, content)
  }

  /** The sections of the mock summary: the first three document sections,
      padded with fillers to at least two. */
  function SummarySections(content: string, sections: seq<string>, sentencesOf: string -> seq<string>): seq<DocSection>
  {
    Pad(ScriptGenerator.Numbered(Prefix(sections, 3), 0, SummarySectionAt(sentencesOf)), 2,
        ExtraSectionFor(content))
  }

  /** The value `generateSmartMockSummary` returns. */
  function MockSummary(content: string, sections: seq<string>, sentencesOf: string -> seq<string>): Summary
  {
    var sentences := sentencesOf(content);
    Summary(ExtractTitle(content, sentences),
            Opening(sentences, MainIdeaFallback),
            KeyPoints(sentences),
            SummarySections(content, sections, sentencesOf),
            Closing(sentences, ConclusionFallback),
            WhitespaceRuns(content) + 1)
  }

  /** Two or three sections: section `k` of the first three document
      sections is headed "Section k+1: " and at most 50 characters of its
      title; any further one up to two is an "Additional Content" filler. */
  lemma SummarySectionsShape(content: string, sections: seq<string>, sentencesOf: string -> seq<string>)
    ensures var docs := SummarySections(content, sections, sentencesOf);
      && 2 <= |docs| <= 3
      && (forall i :: 0 <= i < |docs| && i < |sections| ==>
            var lead := "Section " + NatToString(i + 1) + ": ";
            StartsWith(docs[i].heading, lead) && |docs[i].heading| <= |lead| + 50)
      && (forall i :: |sections| <= i < |docs| ==> docs[i].heading == "Additional Content " + NatToString(i + 1))
  {
    var make := SummarySectionAt(sentencesOf);
    var first := Prefix(sections, 3);
    var mapped := ScriptGenerator.Numbered(first, 0, make);
    var extra := ExtraSectionFor(content);
    var docs := Pad(mapped, 2, extra);
    forall i | 0 <= i < |docs| && i < |sections|
      ensures var lead := "Section " + NatToString(i + 1) + ": ";
        StartsWith(docs[i].heading, lead) && |docs[i].heading| <= |lead| + 50
    {
      assert i < |mapped|;
      ScriptGenerator.NumberedAt(first, 0, make, i);
      assert docs[i] == mapped[i];
    }
    forall i | |sections| <= i < |docs|
      ensures docs[i].heading == "Additional Content " + NatToString(i + 1)
    {
      PadAt(mapped, 2, extra, i);
    }
  }

  /** `sentences.slice(0, 2).join(' ') || fallback`: the opening text of a
      summary or tutorial. */
  function Opening(sentences: seq<string>, fallback: string): string
  {
    OrElse(Join(Prefix(sentences, 2), " "), fallback)
  }

  /** `sentences.slice(-2).join(' ') || fallback`: the closing text. */
  function Closing(sentences: seq<string>, fallback: string): string
  {
    OrElse(Join(LastTwo(sentences), " "), fallback)
  }

  lemma JoinStartsWithFirst(parts: seq<string>, sep: string)
    requires parts != []
    ensures StartsWith(Join(parts, sep), parts[0])
  {
  }

  lemma {:induction false} JoinEndsWithLast(parts: seq<string>, sep: string)
    requires parts != []
    ensures EndsWith(Join(parts, sep), parts[|parts| - 1])
    decreases |parts|
  {
    if |parts| > 1 {
      JoinEndsWithLast(parts[1..], sep);
    }
  }

  /** Without sentences the opening and the closing are the fixed texts;
      otherwise the opening starts with the first sentence and the closing
      ends with the last one. */
  lemma OpeningAndClosing(sentences: seq<string>, fallback: string)
    ensures sentences == [] ==> Opening(sentences, fallback) == fallback && Closing(sentences, fallback) == fallback
    ensures sentences != [] && sentences[0] != [] ==> StartsWith(Opening(sentences, fallback), sentences[0])
    ensures sentences != [] && sentences[|sentences| - 1] != [] ==>
      EndsWith(Closing(sentences, fallback), sentences[|sentences| - 1])
  {
    if sentences != [] {
      JoinStartsWithFirst(Prefix(sentences, 2), " ");
      var last := LastTwo(sentences);
      JoinEndsWithLast(last, " ");
      assert last[|last| - 1] == sentences[|sentences| - 1];
    }
  }

  /** The loops of `generateSmartMockSummary` building the key points. */
  method SampleKeyPoints(sentences: seq<string>) returns (keyPoints: seq<string>)
    ensures keyPoints == KeyPoints(sentences)
  {
    keyPoints := [];
    var step := SampleStep(|sentences|);
    var i := 0;
    while i < 5 && i * step < |sentences|
      invariant 0 <= i <= 5
      invariant keyPoints == Sampled(sentences, i)
    {
      var sentence := sentences[i * step];
      if sentence != [] {
        keyPoints := keyPoints + [Clip(sentence, KeyPointLimit)];
      }
      i := i + 1;
    }
    SampledStops(sentences, i);
    keyPoints := PadLoop(keyPoints, 3, KeyPointFiller);
  }

  /** `generateSmartMockSummary` */
  method GenerateSmartMockSummary(content: string, sections: seq<string>, sentencesOf: string -> seq<string>)
    returns (summary: Summary)
    ensures summary == MockSummary(content, sections, sentencesOf)
  {
    var sentences := sentencesOf(content);
    var mainIdea := Opening(sentences, MainIdeaFallback);
    var keyPoints := SampleKeyPoints(sentences);
    var docSections := ScriptGenerator.Numbered(Prefix(sections, 3), 0, SummarySectionAt(sentencesOf));
    docSections := PadLoop(docSections, 2, ExtraSectionFor(content));
    var conclusion := Closing(sentences, ConclusionFallback);
    summary := Summary(ExtractTitle(content, sentences), mainIdea, keyPoints, docSections, conclusion, WhitespaceRuns(content) + 1);
  }

  // ---------------------------------------------------------------- generateSmartMockTutorial

  datatype Concept = Concept(title: string, content: string, keyPoints: seq<string>)

  datatype Lesson = Lesson(title: string, content: string)

  datatype Exercise = Exercise(question: string, hint: string)

  datatype Tutorial = Tutorial(title: string, overview: string, concepts: seq<Concept>,
                               learningPath: seq<Lesson>, exercises: seq<Exercise>, summary: string)

  const TutorialLead := "Tutorial: "
  const OverviewFallback := "This tutorial covers the key concepts from your uploaded document."
  const TutorialSummaryFallback := "This tutorial has covered the essential concepts from your document."
  const ConceptPointLimit := 100

  const LearningPath := [
    Lesson("Step 1: Foundation", "Begin by understanding the core concepts introduced at the start of the document."),
    Lesson("Step 2: Deep Dive", "Explore the detailed explanations and examples provided throughout the material."),
    Lesson("Step 3: Application", "Apply what you've learned to the practical scenarios mentioned in the document."),
    Lesson("Step 4: Review", "Test your understanding with the quiz questions and review any unclear sections.")
  ]

  const Exercises := [
    Exercise("Explain the main concept in your own words.", "Focus on the key ideas from the first section."),
    Exercise("How would you apply this knowledge in practice?", "Think about real-world applications discussed in the document.")
  ]

  /** `slice(1, 4)` */
  function SecondToFourth<T>(s: seq<T>): (r: seq<T>)
    ensures |r| <= 3
    ensures forall i :: 0 <= i < |r| ==> i + 1 < |s| && r[i] == s[i + 1]
  {
    if s == [] then [] else Prefix(s[1..], 3)
  }

  /** The concept made from document section `index`. */
  function ConceptOf(index: nat, section: string, sentencesOf: string -> seq<string>): Concept
  {
    var sentences := sentencesOf(section);
    Concept("Concept " + NatToString(index + 1) + ": " + Take(ExtractTitle(section, sentences), 40),
            OrElse(if sentences != [] then sentences[0] else [], GetSnippet(section, 150)),
            ClipAll(SecondToFourth(sentences), ConceptPointLimit))
  }

  /** The filler concept pushed when there are `k` concepts so far. */
  function ExtraConcept(k: nat, content: string): Concept
  {
    Concept("Core Concept " + NatToString(k + 1), GetSnippet(Drop(content, k * 300), 150),
            ["Key understanding from the material"])
  }

  function ConceptAt(sentencesOf: string -> seq<string>): (nat, string) -> Concept
  {
    (k: nat, s: string) => ConceptOf(k, s, sentencesOf)
  }

  function ExtraConceptFor(content: string): nat -> Concept
  {
    (k: nat) => ExtraConcept(k, content)
  }

  function Concepts(content: string, sections: seq<string>, sentencesOf: string -> seq<string>): seq<Concept>
  {
    Pad(ScriptGenerator.Numbered(Prefix(sections, 3), 0, ConceptAt(sentencesOf)), 2,
        ExtraConceptFor(content))
  }

  /** The value `generateSmartMockTutorial` returns. */
  function MockTutorial(content: string, sections: seq<string>, sentencesOf: string -> seq<string>): Tutorial
  {
    var sentences := sentencesOf(content);
    Tutorial(TutorialLead + ExtractTitle(content, sentences),
             Opening(sentences, OverviewFallback),
             Concepts(content, sections, sentencesOf),
             LearningPath, Exercises,
             Closing(sentences, TutorialSummaryFallback))
  }

  /** A concept made from a section is titled "Concept k+1: " and at most 40
      characters, and holds at most three key points of at most 100
      characters. */
  lemma ConceptOfShape(k: nat, section: string, sentencesOf: string -> seq<string>)
    ensures var c := ConceptOf(k, section, sentencesOf); var lead := "Concept " + NatToString(k + 1) + ": ";
      && StartsWith(c.title, lead) && |c.title| <= |lead| + 40
      && |c.keyPoints| <= 3 && forall j :: 0 <= j < |c.keyPoints| ==> |c.keyPoints[j]| <= ConceptPointLimit
  {
    var c := ConceptOf(k, section, sentencesOf);
    var lead := "Concept " + NatToString(k + 1) + ": ";
    assert c.title == lead + Take(ExtractTitle(section, sentencesOf(section)), 40);
  }

  /** Concept `i` made from a document section. */
  lemma ConceptFromSection(content: string, sections: seq<string>, sentencesOf: string -> seq<string>, i: nat)
    requires i < |sections| && i < 3
    ensures i < |Concepts(content, sections, sentencesOf)|
    ensures Concepts(content, sections, sentencesOf)[i] == ConceptOf(i, sections[i], sentencesOf)
  {
    PaddedNumberedAt(Prefix(sections, 3), ConceptAt(sentencesOf), 2, ExtraConceptFor(content), i);
  }

  /** A concept past the document's sections is a filler. */
  lemma ConceptFiller(content: string, sections: seq<string>, sentencesOf: string -> seq<string>, i: nat)
    requires |sections| <= i < |Concepts(content, sections, sentencesOf)|
    ensures Concepts(content, sections, sentencesOf)[i] == ExtraConcept(i, content)
  {
    var mapped := ScriptGenerator.Numbered(Prefix(sections, 3), 0, ConceptAt(sentencesOf));
    PadAt(mapped, 2, ExtraConceptFor(content), i);
  }

  /** Two or three concepts: concept `k` of the first three sections is
      titled "Concept k+1: " and at most 40 characters of its title, and
      holds at most three key points of at most 100 characters; any further
      one up to two is a "Core Concept" filler. */
  lemma ConceptsShape(content: string, sections: seq<string>, sentencesOf: string -> seq<string>)
    ensures var cs := Concepts(content, sections, sentencesOf);
      && 2 <= |cs| <= 3
      && (forall i :: 0 <= i < |cs| && i < |sections| ==>
            var lead := "Concept " + NatToString(i + 1) + ": ";
            StartsWith(cs[i].title, lead) && |cs[i].title| <= |lead| + 40)
      && (forall i :: |sections| <= i < |cs| ==> cs[i].title == "Core Concept " + NatToString(i + 1))
      && (forall i :: 0 <= i < |cs| ==>
            |cs[i].keyPoints| <= 3 && forall j :: 0 <= j < |cs[i].keyPoints| ==> |cs[i].keyPoints[j]| <= ConceptPointLimit)
  {
    var cs := Concepts(content, sections, sentencesOf);
    forall i | 0 <= i < |cs| && i < |sections|
      ensures var lead := "Concept " + NatToString(i + 1) + ": ";
        StartsWith(cs[i].title, lead) && |cs[i].title| <= |lead| + 40
      ensures |cs[i].keyPoints| <= 3 && forall j :: 0 <= j < |cs[i].keyPoints| ==> |cs[i].keyPoints[j]| <= ConceptPointLimit
    {
      ConceptFromSection(content, sections, sentencesOf, i);
      ConceptOfShape(i, sections[i], sentencesOf);
    }
    forall i | |sections| <= i < |cs|
      ensures cs[i] == ExtraConcept(i, content)
    {
      ConceptFiller(content, sections, sentencesOf, i);
    }
  }

  /** The tutorial's title is the document's title after "Tutorial: ", and it
      always has four learning steps and two exercises. */
  lemma TutorialShape(content: string, sections: seq<string>, sentencesOf: string -> seq<string>)
    ensures var t := MockTutorial(content, sections, sentencesOf);
      && StartsWith(t.title, TutorialLead)
      && t.title[|TutorialLead|..] == ExtractTitle(content, sentencesOf(content))
      && |t.learningPath| == 4 && |t.exercises| == 2
      && 2 <= |t.concepts| <= 3
  {
    ConceptsShape(content, sections, sentencesOf);
  }

  /** `generateSmartMockTutorial` */
  method GenerateSmartMockTutorial(content: string, sections: seq<string>, sentencesOf: string -> seq<string>)
    returns (tutorial: Tutorial)
    ensures tutorial == MockTutorial(content, sections, sentencesOf)
  {
    var sentences := sentencesOf(content);
    var title := ExtractTitle(content, sentences);
    var concepts := ScriptGenerator.Numbered(Prefix(sections, 3), 0, ConceptAt(sentencesOf));
    concepts := PadLoop(concepts, 2, ExtraConceptFor(content));
    tutorial := Tutorial(TutorialLead + title, Opening(sentences, OverviewFallback), concepts,
                         LearningPath, Exercises, Closing(sentences, TutorialSummaryFallback));
  }

  // ---------------------------------------------------------------- the other mock answers and the reply parser

  datatype Evaluation = Evaluation(score: string, strengths: string, gaps: string,
                                   personalizedFeedback: string, improvementTip: string)

  /** What `evaluateAnswer` returns for every question and answer. */
  const MockEvaluation := Evaluation(
    "7/10",
    "Good understanding of core concepts. Clear articulation of ideas.",
    "Could provide more specific examples. Missing some key details from the source material.",
    "You've demonstrated a solid grasp of the material. To improve, try incorporating more specific examples from the document to support your points.",
    "When answering questions, always tie your response back to specific evidence from the source material.")

  const MockDocumentSummaryLead := "This is a mock document summary for demonstration purposes. "

  /** `generateDocumentSummary`: a fixed lead, the first 500 characters of
      the document and an ellipsis. */
  function GenerateDocumentSummary(content: string): (r: string)
    ensures StartsWith(r, MockDocumentSummaryLead) && EndsWith(r, Ellipsis)
    ensures |r| == |MockDocumentSummaryLead| + (if |content| < 500 then |content| else 500) + |Ellipsis|
    ensures StartsWith(content, r[|MockDocumentSummaryLead|..|r| - |Ellipsis|])
  {
    MockDocumentSummaryLead + Take(content, 500) + Ellipsis
  }

  /** The text `parseJsonResponse` hands to `JSON.parse`: the reply with its
      fences stripped, trimmed once more. */
  function CleanReply(text: string): (r: string)
    ensures r == [] || (!IsWhitespace(r[0]) && !IsWhitespace(r[|r| - 1]))
  {
    Trim(ScriptGenerator.StripFences(text))
  }

  /** A fenced JSON block comes back as its trimmed body. */
  lemma CleanReplyRoundTrip(body: string)
    ensures CleanReply(ScriptGenerator.JsonFence + body + ScriptGenerator.Fence) == Trim(body)
  {
    ScriptGenerator.StripFencesRoundTrip(body);
  }

  /** A reply without fences is only trimmed, and cleaning twice is cleaning once. */
  lemma CleanReplyUnfenced(text: string)
    requires !StartsWith(Trim(text), ScriptGenerator.Fence) && !EndsWith(Trim(text), ScriptGenerator.Fence)
    ensures CleanReply(text) == Trim(text)
  {
    ScriptGenerator.StripFencesUnfenced(text);
    TrimNoWhitespaceAtEnds(Trim(text));
  }

  /** `parseJsonResponse`, with `JSON.parse` given as `parse`. */
  function ParseJsonResponse<T>(text: string, parse: string -> Result<T, Exception>): Result<T, Exception>
  {
    parse(CleanReply(text))
  }

  // ---------------------------------------------------------------- mock-mode dispatch

  /** `generateQuestions` with mock data switched on: five questions with
      ids 1 to 5, the first quoting the document's opening sentences. */
  function GenerateQuestions(content: string, sentencesOf: string -> seq<string>): (qs: seq<Question>)
    ensures |qs| == 5
    ensures forall i :: 0 <= i < |qs| ==> qs[i].id == i + 1
    ensures StartsWith(qs[0].question, QuestionLead)
  {
    MockQuestions(sentencesOf(content))
  }

  /** `generateSummary` with mock data switched on: three to five key points
      of at most 150 characters and two or three sections. */
  function GenerateSummary(content: string, sections: seq<string>, sentencesOf: string -> seq<string>): (s: Summary)
    ensures 3 <= |s.keyPoints| <= 5
    ensures forall i :: 0 <= i < |s.keyPoints| ==> |s.keyPoints[i]| <= KeyPointLimit
    ensures 2 <= |s.sections| <= 3
  {
    KeyPointsBounds(sentencesOf(content));
    SummarySectionsShape(content, sections, sentencesOf);
    MockSummary(content, sections, sentencesOf)
  }

  /** `generateTutorial` with mock data switched on: a "Tutorial: " title,
      two or three concepts, four learning steps and two exercises. */
  function GenerateTutorial(content: string, sections: seq<string>, sentencesOf: string -> seq<string>): (t: Tutorial)
    ensures StartsWith(t.title, TutorialLead)
    ensures 2 <= |t.concepts| <= 3 && |t.learningPath| == 4 && |t.exercises| == 2
  {
    TutorialShape(content, sections, sentencesOf);
    MockTutorial(content, sections, sentencesOf)
  }
}
