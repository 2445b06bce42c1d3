/** The script synthesizer of the video pipeline: a generative call whose
    failure falls back to a deterministic script built from the document. */
module ScriptGenerator {
  import opened Wrappers
  import opened Strings

  /** One unit of the video: what is shown, the caption, what is said and a
      nominal duration in seconds. */
  datatype Scene = Scene(id: int, visual: string, textOverlay: string, narration: string, duration: int)

  datatype VideoScript = VideoScript(scenes: seq<Scene>)

  /** Sections whose trimmed text is shorter than this make no scene. */
  const MinSectionLength := 50
  /** Characters of a section body kept as narration. */
  const NarrationBudget := 150
  /** Content scenes get ids from 2 and the loop stops once the next id would exceed 5. */
  const LastContentId := 5
  /** A first line at least this long is not used as the title. */
  const TitleLimit := 50
  /** A section's first line at least this long is not used as its header. */
  const HeaderLimit := 100
  const DefaultTitle := "Document Summary"
  const TitleVisual := "A clean, modern title card with the document title."
  const TitleOverlaySuffix := "\nTutorial Overview"
  const WelcomePrefix := "Welcome to this tutorial on "
  const WelcomeSuffix := ". We'll cover the main concepts and key takeaways."
  const ContentVisual := "A visual representation of the concept with text on the left/right."
  const ContentOverlaySuffix := "\nKey Detail"
  const DefaultHeader := "Key Concept"
  const ClosingNarration := "That concludes our summary. Thank you for watching."
  const Fence := "```"
  const JsonFence := "```json"

  // ---------------------------------------------------------------- title

  /** The trimmed first line of the content if it is shorter than 50
      characters, otherwise a fixed title. */
  function FindTitle(content: string): (t: string)
    ensures '\n' !in t
    ensures |t| < TitleLimit || t == DefaultTitle
    ensures t != DefaultTitle ==> t == Trim(Split(content, '\n')[0])
    ensures |Trim(Split(content, '\n')[0])| < TitleLimit ==> t == Trim(Split(content, '\n')[0])
    ensures |Trim(Split(content, '\n')[0])| >= TitleLimit ==> t == DefaultTitle
  {
    var line := FirstPiece(content, '\n');
    var firstLine := Trim(line);
    TrimIsInfix(line);
    assert forall c :: c in firstLine ==> c in line;
    if |firstLine| < TitleLimit then firstLine else DefaultTitle
  }

  // ---------------------------------------------------------------- scenes

  function TitleScene(title: string): (s: Scene)
    ensures s.id == 1 && |s.narration| > |title| && s.duration == 5
  {
    Scene(1, TitleVisual, title + TitleOverlaySuffix, WelcomePrefix + title + WelcomeSuffix, 5)
  }

  function ClosingScene(id: int): (s: Scene)
    ensures s.id == id && |s.narration| > 0 && s.duration == 4
  {
    Scene(id, "Closing Slide", "Thanks for watching", ClosingNarration, 4)
  }

  /** The fixed two-scene script used when no scene could be derived. */
  const FallbackPair: seq<Scene> := [
    Scene(1, "Title Card", "Topic Overview", "Welcome to the summary.", 5),
    Scene(2, "Key Points", "Main Idea", "Here are the main points discussed in the document.", 5)
  ]

  /** The narration of a content scene: the body if it fits the budget,
      otherwise its first 150 characters followed by a period. */
  function Narration(body: string): (n: string)
    ensures |n| <= NarrationBudget + 1
    ensures |body| <= NarrationBudget ==> n == body
    ensures |body| > NarrationBudget ==> n == body[..NarrationBudget] + "."
  {
    Take(body, NarrationBudget) + (if |body| > NarrationBudget then "." else "")
  }

  /** `Math.min(10, Math.max(5, Math.ceil(length / 20)))` for a length. */
  function SceneDuration(length: nat): (d: int)
    ensures 5 <= d <= 10
    ensures d == 10 || length <= d * 20
    ensures d == 5 || (d - 1) * 20 < length
  {
    if length <= 100 then 5
    else if length <= 120 then 6
    else if length <= 140 then 7
    else if length <= 160 then 8
    else if length <= 180 then 9
    else 10
  }

  /** The duration is the length in twenty-character units rounded up
      (`(length + 19) / 20`), clamped to the range 5..10. */
  lemma SceneDurationIsClampedCeiling(length: nat)
    ensures var seconds := (length + 19) / 20;
      SceneDuration(length) == if seconds < 5 then 5 else if seconds > 10 then 10 else seconds
  {
  }

  /** The header of a section: its first line if shorter than 100 characters. */
  function SectionHeader(trimmed: string): string
  {
    var first := FirstPiece(trimmed, '\n');
    if |first| < HeaderLimit then first else DefaultHeader
  }

  /** The body of a section: the lines after the first joined by spaces, or
      the single line itself. */
  function SectionBody(trimmed: string): string
  {
    var lines := Split(trimmed, '\n');
    if |lines| > 1 then Join(lines[1..], " ") else lines[0]
  }

  function ContentScene(id: nat, trimmed: string): (s: Scene)
    ensures s.id == id
    ensures |s.narration| <= NarrationBudget + 1 && 5 <= s.duration <= 10
  {
    var narration := Narration(SectionBody(trimmed));
    Scene(id, ContentVisual, SectionHeader(trimmed) + ContentOverlaySuffix, narration, SceneDuration(|narration|))
  }

  /** The trimmed sections long enough to make a scene, in order. */
  function Qualifying(sections: seq<string>): (q: seq<string>)
    ensures |q| <= |sections|
  {
    if sections == [] then []
    else
      var last := Trim(sections[|sections| - 1]);
      Qualifying(sections[..|sections| - 1]) + (if |last| >= MinSectionLength then [last] else [])
  }

  /** `make` applied to each section in turn with consecutive ids from `first`. */
  function Numbered<T>(q: seq<string>, first: nat, make: (nat, string) -> T): (r: seq<T>)
    ensures |r| == |q|
  {
    if q == [] then []
    else Numbered(q[..|q| - 1], first, make) + [make(first + |q| - 1, q[|q| - 1])]
  }

  lemma {:induction false} NumberedAt<T>(q: seq<string>, first: nat, make: (nat, string) -> T, k: nat)
    requires k < |q|
    ensures Numbered(q, first, make)[k] == make(first + k, q[k])
  {
    if k < |q| - 1 {
      NumberedAt(q[..|q| - 1], first, make, k);
    }
  }

  lemma NumberedSnoc<T>(q: seq<string>, t: string, first: nat, make: (nat, string) -> T)
    ensures Numbered(q + [t], first, make) == Numbered(q, first, make) + [make(first + |q|, t)]
  {
    assert (q + [t])[..|q|] == q;
  }

  /** At most the first four qualifying sections are used. */
  function UsedSections(sections: seq<string>): (q: seq<string>)
    ensures |q| <= LastContentId - 1
  {
    var all := Qualifying(sections);
    if |all| <= LastContentId - 1 then all else all[..LastContentId - 1]
  }

  /** The fallback script for `content`, where `sections` are the pieces of
      `content` between blank lines. */
  function FallbackScenes(content: string, sections: seq<string>): seq<Scene>
  {
    var used := UsedSections(sections);
    if content == [] || used == [] then FallbackPair
    else [TitleScene(FindTitle(content))] + Numbered(used, 2, ContentScene) + [ClosingScene(|used| + 2)]
  }

  // ---------------------------------------------------------------- facts about the fallback script

  lemma {:induction false} QualifyingAppend(a: seq<string>, b: seq<string>)
    ensures Qualifying(a + b) == Qualifying(a) + Qualifying(b)
    decreases |b|
  {
    if b != [] {
      var b' := b[..|b| - 1];
      assert (a + b)[..|a + b| - 1] == a + b';
      assert (a + b)[|a + b| - 1] == b[|b| - 1];
      QualifyingAppend(a, b');
    } else {
      assert a + b == a;
    }
  }

  /** The fallback script has between two and six scenes and their ids run
      1, 2, ..., n. */
  lemma FallbackShape(content: string, sections: seq<string>)
    ensures var r := FallbackScenes(content, sections);
      2 <= |r| <= 6 && forall k :: 0 <= k < |r| ==> r[k].id == k + 1
  {
    var r := FallbackScenes(content, sections);
    var used := UsedSections(sections);
    if content != [] && used != [] {
      forall k | 1 <= k < |r| - 1
        ensures r[k].id == k + 1
      {
        NumberedAt(used, 2, ContentScene, k - 1);
      }
    }
  }

  /** Without content, or without a section of 50 trimmed characters, the
      fallback script is exactly the fixed two-scene script; otherwise it is
      a title scene, one scene per used section and a closing scene. */
  lemma FallbackPairExactly(content: string, sections: seq<string>)
    ensures FallbackScenes(content, sections) == FallbackPair
      <==> content == [] || Qualifying(sections) == []
  {
    var used := UsedSections(sections);
    if content != [] && used != [] {
      var r := FallbackScenes(content, sections);
      assert r[0] == TitleScene(FindTitle(content));
      assert r[0] != FallbackPair[0];
    }
  }

  /** Every qualifying section has at least 50 characters and ends in a
      non-blank character. */
  lemma {:induction false} QualifyingLongAndTrimmed(sections: seq<string>)
    ensures var q := Qualifying(sections);
      forall k :: 0 <= k < |q| ==> |q[k]| >= MinSectionLength && !IsWhitespace(q[k][|q[k]| - 1])
  {
    if sections != [] {
      var init := sections[..|sections| - 1];
      QualifyingLongAndTrimmed(init);
      var last := Trim(sections[|sections| - 1]);
      if |last| >= MinSectionLength {
        var q := Qualifying(sections);
        assert q == Qualifying(init) + [last];
        assert q[|q| - 1] == last;
      }
    }
  }

  /** The scene of a qualifying section keeps the content bounds. */
  lemma ContentSceneBounds(id: nat, trimmed: string)
    requires |trimmed| >= MinSectionLength && !IsWhitespace(trimmed[|trimmed| - 1])
    ensures ContentBounds(ContentScene(id, trimmed))
  {
    NarrationNonEmpty(trimmed);
  }

  lemma NumberedBounds(q: seq<string>, first: nat, make: (nat, string) -> Scene)
    requires forall k :: 0 <= k < |q| ==> ContentBounds(make(first + k, q[k]))
    ensures forall k :: 0 <= k < |q| ==> ContentBounds(Numbered(q, first, make)[k])
  {
    forall k | 0 <= k < |q|
      ensures ContentBounds(Numbered(q, first, make)[k])
    {
      NumberedAt(q, first, make, k);
    }
  }

  /** A content scene narrates between 1 and 151 characters for 5 to 10 seconds. */
  predicate ContentBounds(s: Scene)
  {
    0 < |s.narration| <= NarrationBudget + 1 && 5 <= s.duration <= 10
  }

  /** The bounds of a script framed by a title and a closing scene. */
  lemma FramedBounds(title: Scene, c: seq<Scene>, closing: Scene)
    requires |title.narration| > 0 && 4 <= title.duration <= 10
    requires |closing.narration| > 0 && 4 <= closing.duration <= 10
    requires forall k :: 0 <= k < |c| ==> ContentBounds(c[k])
    ensures var r := [title] + c + [closing];
      && (forall k :: 0 <= k < |r| ==> |r[k].narration| > 0 && 4 <= r[k].duration <= 10)
      && (forall k :: 1 <= k < |r| - 1 ==> |r[k].narration| <= NarrationBudget + 1 && r[k].duration >= 5)
  {
    var r := [title] + c + [closing];
    assert forall k :: 1 <= k < |r| - 1 ==> r[k] == c[k - 1];
  }

  /** Every scene narrates something for 4 to 10 seconds, and every content
      scene narrates at most 151 characters for at least 5 seconds. */
  lemma FallbackBounds(content: string, sections: seq<string>)
    ensures var r := FallbackScenes(content, sections);
      && (forall k :: 0 <= k < |r| ==> |r[k].narration| > 0 && 4 <= r[k].duration <= 10)
      && (forall k :: 1 <= k < |r| - 1 ==> |r[k].narration| <= NarrationBudget + 1 && r[k].duration >= 5)
  {
    var used := UsedSections(sections);
    if content != [] && used != [] {
      QualifyingLongAndTrimmed(sections);
      assert forall k :: 0 <= k < |used| ==> used[k] == Qualifying(sections)[k];
      forall k | 0 <= k < |used|
        ensures ContentBounds(ContentScene(2 + k, used[k]))
      {
        ContentSceneBounds(2 + k, used[k]);
      }
      NumberedBounds(used, 2, ContentScene);
      FramedBounds(TitleScene(FindTitle(content)), Numbered(used, 2, ContentScene), ClosingScene(|used| + 2));
    } else {
      assert FallbackScenes(content, sections) == FallbackPair;
    }
  }

  /** A qualifying section ends in a non-blank character, so its narration is
      never empty. */
  lemma NarrationNonEmpty(trimmed: string)
    requires |trimmed| >= MinSectionLength && !IsWhitespace(trimmed[|trimmed| - 1])
    ensures |Narration(SectionBody(trimmed))| > 0
  {
    var lines := Split(trimmed, '\n');
    if |lines| > 1 {
      LastPieceIsSuffix(trimmed, '\n');
      assert lines[1..][|lines[1..]| - 1] == lines[|lines| - 1];
      JoinLastNonEmpty(lines[1..], " ");
    }
  }

  lemma QualifyingSnoc(sections: seq<string>, i: nat)
    requires i < |sections|
    ensures var last := Trim(sections[i]);
      Qualifying(sections[..i + 1]) == Qualifying(sections[..i]) + (if |last| >= MinSectionLength then [last] else [])
  {
    assert sections[..i + 1][..i] == sections[..i];
  }

  /** Once four sections qualify, the rest of the input no longer matters. */
  lemma UsedSectionsStopsAt(sections: seq<string>, j: nat)
    requires j <= |sections| && |Qualifying(sections[..j])| == LastContentId - 1
    ensures UsedSections(sections) == Qualifying(sections[..j])
  {
    var a := sections[..j];
    assert sections == a + sections[j..];
    QualifyingAppend(a, sections[j..]);
    assert (Qualifying(a) + Qualifying(sections[j..]))[..|Qualifying(a)|] == Qualifying(a);
  }

  /** Pushing the scene of one more qualifying section after the title scene. */
  lemma PushStep<T>(head: T, q: seq<string>, t: string, make: (nat, string) -> T)
    ensures [head] + Numbered(q, 2, make) + [make(2 + |q|, t)] == [head] + Numbered(q + [t], 2, make)
  {
    NumberedSnoc(q, t, 2, make);
  }

  /** Closing the scenes collected from the used sections gives the fallback script. */
  lemma MockFinish(content: string, sections: seq<string>, scenes: seq<Scene>)
    requires content != []
    requires scenes == [TitleScene(FindTitle(content))] + Numbered(UsedSections(sections), 2, ContentScene)
    ensures (if |scenes| < 2 then FallbackPair else scenes + [ClosingScene(|scenes| + 1)])
         == FallbackScenes(content, sections)
  {
  }

  // ---------------------------------------------------------------- the generator

  /** The state of the `generateMockScript` loop after `i` sections: the
      scenes of the qualifying ones follow the title scene `head`. */
  ghost predicate Collected<T>(sections: seq<string>, i: nat, used: seq<string>, scenes: seq<T>, head: T, make: (nat, string) -> T)
  {
    i <= |sections| && used == Qualifying(sections[..i]) && scenes == [head] + Numbered(used, 2, make)
  }

  /** One section more: its scene is pushed exactly when it qualifies. */
  lemma CollectStep<T>(sections: seq<string>, i: nat, used: seq<string>, scenes: seq<T>, head: T, make: (nat, string) -> T)
    requires i < |sections| && Collected(sections, i, used, scenes, head, make)
    ensures var t := Trim(sections[i]);
      if |t| >= MinSectionLength then Collected(sections, i + 1, used + [t], scenes + [make(2 + |used|, t)], head, make)
      else Collected(sections, i + 1, used, scenes, head, make)
  {
    QualifyingSnoc(sections, i);
    PushStep(head, used, Trim(sections[i]), make);
  }

  /** The loop of `generateMockScript`: after the title scene `head`, pushes
      `make(id, trimmed)` for each section whose trimmed text has at least 50
      characters, numbering them from 2 and stopping once the next id would
      exceed 5. The generator passes `ContentScene` as `make`. */
  method PushContentScenes(head: Scene, sections: seq<string>, make: (nat, string) -> Scene)
    returns (scenes: seq<Scene>)
    ensures scenes == [head] + Numbered(UsedSections(sections), 2, make)
  {
    scenes := [head];
    var sceneId: nat := 2;
    var i := 0;
    ghost var used: seq<string> := [];
    while i < |sections|
      invariant Collected(sections, i, used, scenes, head, make)
      invariant sceneId == 2 + |used| <= LastContentId
    {
      var trimmed := Trim(sections[i]);
      CollectStep(sections, i, used, scenes, head, make);
      if |trimmed| >= MinSectionLength {
        scenes := scenes + [make(sceneId, trimmed)];
        used := used + [trimmed];
        sceneId := sceneId + 1;
        if sceneId > LastContentId {
          UsedSectionsStopsAt(sections, i + 1);
          break;
        }
      }
      i := i + 1;
    }
    if i == |sections| {
      assert sections[..i] == sections;
    }
  }

  /** `generateMockScript`: a title scene, the content scenes and a closing
      scene, or the fixed two-scene script when fewer than two scenes were
      collected. */
  method GenerateMockScript(content: string, sections: seq<string>) returns (script: VideoScript)
    ensures script.scenes == FallbackScenes(content, sections)
  {
    var scenes: seq<Scene> := [];
    if content != [] {
      var title := FindTitle(content);
      scenes := PushContentScenes(TitleScene(title), sections, ContentScene);
      MockFinish(content, sections, scenes);
    }
    if |scenes| < 2 {
      return VideoScript(FallbackPair);
    }
    scenes := scenes + [ClosingScene(|scenes| + 1)];
    return VideoScript(scenes);
  }

  // ---------------------------------------------------------------- code fences

  /** `parseJsonResponse` before `JSON.parse`: trims the reply, removes an
      opening "```json" or "```" fence and then a closing "```" fence. */
  function StripFences(text: string): (r: string)
  {
    DropClosingFence(DropOpeningFence(Trim(text)))
  }

  /** The fence that opens a trimmed reply, if any ("```json" preferred). */
  function OpeningFence(t: string): (f: string)
    ensures StartsWith(t, f)
  {
    if StartsWith(t, JsonFence) then JsonFence else if StartsWith(t, Fence) then Fence else ""
  }

  function DropOpeningFence(t: string): (c: string)
    ensures t == OpeningFence(t) + c
  {
    if StartsWith(t, JsonFence) then t[|JsonFence|..]
    else if StartsWith(t, Fence) then t[|Fence|..]
    else t
  }

  function DropClosingFence(c: string): (r: string)
    ensures c == r || c == r + Fence
  {
    if EndsWith(c, Fence) then c[..|c| - |Fence|] else c
  }

  /** The stripped text is what lies between the opening fence and an
      optional closing fence of the trimmed reply. */
  lemma StripFencesSlice(text: string)
    ensures var t := Trim(text); var r := StripFences(text);
      t == OpeningFence(t) + r || t == OpeningFence(t) + r + Fence
  {
    var t := Trim(text);
    var f := OpeningFence(t);
    var c := DropOpeningFence(t);
    var r := DropClosingFence(c);
    if c != r {
      assert f + (r + Fence) == f + r + Fence;
    }
  }

  /** Fencing a body with "```json" ... "```" and stripping gives the body back. */
  lemma StripFencesRoundTrip(body: string)
    ensures StripFences(JsonFence + body + Fence) == body
  {
    var s := JsonFence + body + Fence;
    TrimNoWhitespaceAtEnds(s);
    assert s[..|JsonFence|] == JsonFence;
    assert s[|JsonFence|..] == body + Fence;
  }

  /** A reply with no fence at either end is only trimmed. */
  lemma StripFencesUnfenced(text: string)
    requires !StartsWith(Trim(text), Fence) && !EndsWith(Trim(text), Fence)
    ensures StripFences(text) == Trim(text)
  {
  }

  // ---------------------------------------------------------------- generateVideoScript

  /** `generateVideoScript`. `reply` is what the generative model returned
      (or threw) for the prompt and `parse` is `JSON.parse`; both are outside
      this model. Any failure falls back to the mock script. */
  method GenerateVideoScript(content: string, sections: seq<string>,
                             reply: Result<string, Exception>,
                             parse: string -> Result<VideoScript, Exception>)
    returns (script: VideoScript)
    ensures reply.Ok? && parse(StripFences(reply.value)).Ok? ==>
      script == parse(StripFences(reply.value)).value
    ensures reply.Err? || parse(StripFences(reply.value)).Err? ==>
      script.scenes == FallbackScenes(content, sections)
  {
    if reply.Ok? {
      var parsed := parse(StripFences(reply.value));
      if parsed.Ok? {
        return parsed.value;
      }
    }
    script := GenerateMockScript(content, sections);
  }
}
