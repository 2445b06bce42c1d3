# VisioniX learning app — a Dafny model of its core

VisioniX turns an uploaded document into study material. This project models
the rules of its web app and its mobile app in Dafny and proves properties of
them. Where the web app relies on a module that is not part of this model (its
learning context), the mobile app's counterpart stands in for it:

- **Video pipeline** (`ScriptGenerator`, `VideoRoute`). The script generator
  asks a generative model for a scene list. When that fails, it falls back to a
  deterministic script: a title scene, at most four content scenes cut from the
  document's paragraphs, and a closing scene. The `POST /api/video/generate`
  handler works in order: a platform gate, a content check, the script, one
  slide/audio/duration asset per scene, one render, and an error-to-message
  mapping.
- **Mock generators** (`Gemini`). With mock data switched on, questions,
  summaries and tutorials are built from the document text alone:
  - five fixed questions;
  - a summary with three to five key points and two or three sections;
  - a tutorial with two or three concepts, four steps and two exercises;
  - the title heuristic and the word-boundary snippet.
  
  Evaluations are a fixed record scoring "7/10".
- **Question cache** (`Cache`). A map from document hash to generated
  questions. Entries expire one hour after they are stored. It supports
  lookup with eviction, store/overwrite, a sweep and statistics.
- **Learning session** (`Learning`). The mobile app's session record:
  - the document, questions, summary and tutorial, each with its loading flag
    and error;
  - an answers map whose entries move from evaluating to evaluated or failed;
  - clamped question navigation, reset and completion.
- **Accounts** (`Auth`, `LoginPage`). A registry of accounts with distinct
  emails, with sign-in, sign-up and sign-out. The login form validates input
  before calling the registry.
- **Scores** (`Quiz`, `Results`). The quiz page reads a score string as a
  percentage: a fraction `n/d`, a bare number out of ten, or 0. It averages
  the percentages and colours them in bands. The results screen sums the first
  number of each score, derives an average, a maximum and a percentage, and
  gives a performance label and a per-question check mark.

`Wrappers` holds `Option`, `Result` and the JavaScript exception value.
`Strings` holds the string helpers: whitespace trimming and collapsing,
splitting, joining, digits and the decimal printing of naturals.

Two kinds of code are modelled in two ways:

- State that the source updates in place is a `class`: the cache, the
  session, the account store, the login form and the quiz page. Its methods
  state their whole new state.
- Loops in the source are methods with invariants, each proved equal to a
  specification function. Those loops are the scene loop, the asset loop, the
  key-point sampling and padding, the sweep, and the score sums.

## Model

| member | source | states |
|---|---|---|
| Wrappers.MessageOr | mobile/context/LearningContext.tsx:111 | an `Error` yields its own message, any other thrown value the fallback text |
| ScriptGenerator.FindTitle | src/lib/video/script-generator.ts:108-112 | the title is one line; it is the trimmed first line of the content exactly when that line is shorter than 50 characters, and "Document Summary" otherwise |
| ScriptGenerator.TitleScene | src/lib/video/script-generator.ts:44-51 | the title scene has id 1, lasts 5 seconds and its narration is longer than the title it names |
| ScriptGenerator.SectionHeader | src/lib/video/script-generator.ts:58-59 | a section's first line when under 100 characters, "Key Concept" otherwise |
| ScriptGenerator.SectionBody | src/lib/video/script-generator.ts:58-60 | the lines after the first joined by spaces, or the first line alone |
| ScriptGenerator.FallbackScenes | src/lib/video/script-generator.ts:38-106 | the fallback script: the fixed pair for empty content or no section of 50 characters, otherwise the title scene, the content scenes numbered from 2 and a closing scene; its shape is stated by the lemmas on it and `GenerateMockScript` computes it |
| ScriptGenerator.StripFences | src/lib/video/script-generator.ts:116-125 | the reply is trimmed, then loses one opening fence ("```json" preferred to "```") and one closing fence; `StripFencesSlice`, `StripFencesRoundTrip` and `StripFencesUnfenced` state its properties |
| ScriptGenerator.ClosingScene | src/lib/video/script-generator.ts:97-103 | the closing scene carries the given id, a non-empty narration and lasts 4 seconds |
| ScriptGenerator.Narration | src/lib/video/script-generator.ts:62 | a body of at most 150 characters is narrated unchanged; a longer one is cut to its first 150 characters plus "."; never more than 151 characters |
| ScriptGenerator.SceneDuration | src/lib/video/script-generator.ts:69 | the duration is in 5..10, covers the narration at 20 characters per second unless capped at 10, and is the smallest such value unless raised to 5 |
| ScriptGenerator.SceneDurationIsClampedCeiling | src/lib/video/script-generator.ts:69 | the duration equals min(10, max(5, ceil(length / 20))) |
| ScriptGenerator.ContentScene | src/lib/video/script-generator.ts:58-70 | a content scene keeps its id, narrates at most 151 characters and lasts 5 to 10 seconds |
| ScriptGenerator.Qualifying | src/lib/video/script-generator.ts:54-56 | the sections that make a scene are at most as many as the paragraphs |
| ScriptGenerator.QualifyingAppend | src/lib/video/script-generator.ts:54-56 | filtering paragraphs distributes over concatenation, so the loop's filter is a per-paragraph decision |
| ScriptGenerator.QualifyingLongAndTrimmed | src/lib/video/script-generator.ts:55-56 | every section that makes a scene has at least 50 characters and ends in a non-blank character |
| ScriptGenerator.NarrationNonEmpty | src/lib/video/script-generator.ts:58-62 | a qualifying section never yields an empty narration |
| ScriptGenerator.UsedSections | src/lib/video/script-generator.ts:53-73 | the loop uses at most four sections, so at most four content scenes |
| ScriptGenerator.UsedSectionsStopsAt | src/lib/video/script-generator.ts:72 | once four sections have qualified, the loop stops and later paragraphs are ignored |
| ScriptGenerator.Numbered | src/lib/video/script-generator.ts:53-65 | numbering gives one scene per used section |
| ScriptGenerator.NumberedAt | src/lib/video/script-generator.ts:65 | the k-th content scene gets id `first + k`, so ids are consecutive |
| ScriptGenerator.NumberedSnoc | src/lib/video/script-generator.ts:64-65 | pushing one more section appends exactly one scene with the next id |
| ScriptGenerator.PushStep | src/lib/video/script-generator.ts:64-70 | one loop step keeps the scene list equal to the title plus the numbered sections so far |
| ScriptGenerator.CollectStep | src/lib/video/script-generator.ts:53-73 | one more paragraph keeps the loop state: its trimmed text is used, and its scene pushed with the next id, exactly when it has at least 50 characters |
| ScriptGenerator.PushContentScenes | src/lib/video/script-generator.ts:53-73 | the imperative loop builds exactly the title scene followed by the numbered used sections |
| ScriptGenerator.MockFinish | src/lib/video/script-generator.ts:76-105 | the function's result matches the method's: the fixed pair when fewer than two scenes were built, otherwise those scenes plus a closing scene |
| ScriptGenerator.GenerateMockScript | src/lib/video/script-generator.ts:38-106 | the method returns exactly the fallback scene list specified by `FallbackScenes` |
| ScriptGenerator.FallbackShape | src/lib/video/script-generator.ts:44-105 | the fallback script has 2 to 6 scenes, with ids 1, 2, ..., n |
| ScriptGenerator.FallbackPairExactly | src/lib/video/script-generator.ts:41-95 | the fixed two-scene script is returned if and only if the content is empty or no paragraph has 50 trimmed characters |
| ScriptGenerator.FallbackBounds | src/lib/video/script-generator.ts:44-105 | every scene narrates something for 4 to 10 seconds; every content scene narrates at most 151 characters for at least 5 seconds |
| ScriptGenerator.ContentSceneBounds | src/lib/video/script-generator.ts:58-70 | the scene of a qualifying section has a narration of 1 to 151 characters and lasts 5 to 10 seconds |
| ScriptGenerator.NumberedBounds | src/lib/video/script-generator.ts:53-73 | bounds that hold for each section's scene hold for the whole numbered list |
| ScriptGenerator.FramedBounds | src/lib/video/script-generator.ts:97-105 | framing content scenes with a title and a closing scene keeps every scene's bounds |
| ScriptGenerator.OpeningFence | src/lib/video/script-generator.ts:118-122 | the fence removed is a prefix of the trimmed reply, with "```json" preferred over "```" |
| ScriptGenerator.DropOpeningFence | src/lib/video/script-generator.ts:117-122 | the trimmed reply is its opening fence followed by what is kept |
| ScriptGenerator.DropClosingFence | src/lib/video/script-generator.ts:123-125 | the text is what is kept, followed by a closing fence or by nothing |
| ScriptGenerator.StripFencesSlice | src/lib/video/script-generator.ts:116-125 | the trimmed reply is the opening fence, then the stripped text, then an optional closing fence |
| ScriptGenerator.StripFencesRoundTrip | src/lib/video/script-generator.ts:116-125 | fencing a body in "```json" … "```" and stripping it gives the body back |
| ScriptGenerator.StripFencesUnfenced | src/lib/video/script-generator.ts:116-125 | a reply with no fence at either end is only trimmed |
| ScriptGenerator.GenerateVideoScript | src/lib/video/script-generator.ts:18-36 | a reply that parses after fence stripping is returned as parsed; a failed model call or a failed parse falls back to the mock script, never to an error |
| VideoRoute.ErrorMessage | src/app/api/video/generate/route.ts:80-89 | the four exclusive messages: "ENOENT" or "spawn" first, then "timeout", then the raw message; a non-`Error` value gives "Failed to generate video" |
| VideoRoute.Denied | src/app/api/video/generate/route.ts:10-14 | the serverless gate: `VERCEL` is "1" or `AWS_LAMBDA_FUNCTION_NAME` is a non-empty string; `VideoRoute.GateIff` states that it alone decides the 501 |
| VideoRoute.Failed | src/app/api/video/generate/route.ts:80-94 | a thrown value becomes a 500 carrying `ErrorMessage`'s text; `VideoRoute.StatusesExclusive` relies on it |
| VideoRoute.ScriptOf | src/lib/video/script-generator.ts:24-35 | the script the handler receives: the parsed model reply when both the model call and the parse succeed, and the fallback script for the content otherwise, the same choice `ScriptGenerator.GenerateVideoScript` is proved to make |
| VideoRoute.ContentOf | src/app/api/video/generate/route.ts:29 | the `content` field of a body that was read, and "" otherwise |
| VideoRoute.Delivered | src/app/api/video/generate/route.ts:39-70 | after the script: a slide failure ends in a 500 with no calls; an asset failure ends in a 500 after the calls made; otherwise one render whose failure is a 500 and whose success is a 200 with the video URL; `VideoRoute.Deliver` is proved to compute it |
| VideoRoute.Outcome | src/app/api/video/generate/route.ts:7-96 | the specification of one request: the gate, the body read, the content check and then `Delivered`, with the call trace; `VideoRoute.GateIff`, `ContentRequiredIff`, `StatusesExclusive` and `RenderOnceLast` state its properties and `VideoRoute.Post` computes it |
| VideoRoute.ToolsMissingFirst | src/app/api/video/generate/route.ts:84-88 | a message mentioning both "spawn" and "timeout" gets the tools message, not the timeout message |
| VideoRoute.ImageAt | src/app/api/video/generate/route.ts:47 | `imagePaths[i]` is defined exactly for indices inside the list and is that path |
| VideoRoute.RunAssets | src/app/api/video/generate/route.ts:43-64 | a completed loop yields exactly one asset per scene |
| VideoRoute.AllAssetCalls | src/app/api/video/generate/route.ts:45-53 | a completed loop makes two tool calls per scene |
| VideoRoute.RunAssetsComplete | src/app/api/video/generate/route.ts:45-64 | asset i pairs `imagePaths[i]` with the audio of scene i's narration and the duration measured on that audio; the calls go audio then duration, scene by scene |
| VideoRoute.RunAssetsOkIff | src/app/api/video/generate/route.ts:45-64 | the loop completes if and only if every scene's audio and duration calls succeed |
| VideoRoute.RunAssetsStuck | src/app/api/video/generate/route.ts:45-64 | the first failing scene ends the loop: later scenes add no calls and change nothing |
| VideoRoute.RunAssetsIgnoresSceneDuration | src/app/api/video/generate/route.ts:50-63 | a scene's nominal duration is never read: scenes with the same narrations give the same assets and calls |
| VideoRoute.RunAssetsNeverRenders | src/app/api/video/generate/route.ts:45-64 | the asset loop never calls the renderer |
| VideoRoute.BuildAssets | src/app/api/video/generate/route.ts:43-64 | the imperative loop returns exactly the assets and calls specified by `RunAssets` |
| VideoRoute.Deliver | src/app/api/video/generate/route.ts:39-70 | the slides, the asset loop and the render give exactly the response and calls of `Delivered`: a slide failure calls nothing more, an asset failure stops after that scene's calls, the render is the last call |
| VideoRoute.GateIff | src/app/api/video/generate/route.ts:10-22 | the answer is 501 if and only if `VERCEL` is "1" or `AWS_LAMBDA_FUNCTION_NAME` is non-empty (`RENDER` plays no part), and then no call is made, not even reading the body |
| VideoRoute.ContentRequiredIff | src/app/api/video/generate/route.ts:29-33 | past the gate, the answer is 400 "Content is required" if and only if the body holds no content, and then only the body was read |
| VideoRoute.StatusesExclusive | src/app/api/video/generate/route.ts:14-94 | the status is one of 200, 400, 500 or 501, and it is 200 exactly when a video URL is returned |
| VideoRoute.RenderOnceLast | src/app/api/video/generate/route.ts:66-70 | the renderer is called at most once, as the last call, only after every asset was built; a 200 answer made exactly body, script, slides, two calls per scene, render |
| VideoRoute.Generate | src/app/api/video/generate/route.ts:35-70 | once content is known, the handler generates the script that `generateVideoScript` specifies, then answers as `Delivered` does for that script, after the script and slide calls |
| VideoRoute.Post | src/app/api/video/generate/route.ts:7-96 | the handler's response and its call trace are exactly those specified by `Outcome` |
| Gemini.Clean | src/lib/gemini.ts:40 | the cleaned text has no whitespace at either end, its only whitespace is single spaces that never touch, and it keeps every non-whitespace character of the text, in order |
| Gemini.DropTrailingWord | src/lib/gemini.ts:41 | the result is a prefix ending in whitespace, and everything after it is non-whitespace |
| Gemini.DropPartialWord | src/lib/gemini.ts:41 | the result is a prefix; when shorter, it has no trailing whitespace and what it cut off is one whitespace run followed only by non-whitespace (the last run and the partial word after it) |
| Gemini.DropPartialWordKeepsIff | src/lib/gemini.ts:41 | the text is left unchanged if and only if it contains no whitespace |
| Gemini.GetSnippet | src/lib/gemini.ts:39-43 | text that fits after cleaning is returned cleaned; otherwise the result is the first `length` cleaned characters with the partial word dropped, followed by "...", so at most `length` + 3 characters starting the cleaned text |
| Gemini.SnippetIsPrefix | src/lib/gemini.ts:39-43 | a snippet is never more than the ellipsis longer than `length` and always starts the cleaned text |
| Gemini.FirstNonBlank | src/lib/gemini.ts:56-57 | there is no line found if and only if every line is blank; a line found is not blank, and every line before it is blank |
| Gemini.FirstWords | src/lib/gemini.ts:66 | at most the first six space-separated words of a sentence, joined by single spaces |
| Gemini.DropHashes | src/lib/gemini.ts:61 | the result is the suffix left after the whole leading run of '#': everything removed is '#' and the result no longer starts with '#' |
| Gemini.StripHeading | src/lib/gemini.ts:61 | a line not starting with '#' is unchanged; otherwise the line is a heading marker (a run of '#' then whitespace, neither extendable) followed by the result |
| Gemini.HeadingMarkerFound | src/lib/gemini.ts:61 | the part of a '#' line that `^#+\s*` removes is a heading marker |
| Strings.CollapseKeepsVisible | src/lib/gemini.ts:40 | replacing whitespace runs by one space keeps the non-whitespace characters in order |
| Strings.TrimKeepsVisible | src/lib/gemini.ts:40 | `trim()` keeps the non-whitespace characters in order |
| Gemini.ExtractTitle | src/lib/gemini.ts:55-71 | a text without a non-blank line is titled "Document Summary"; any other title is under 100 characters or an ellipsis-marked string of more than 10 characters |
| Gemini.ExtractTitleFromLine | src/lib/gemini.ts:56-62 | when the first non-blank line, trimmed, is under 100 characters and does not end in ".", "!" or "?", it is the title with its heading marker stripped (unchanged when it does not start with '#') |
| Gemini.ExtractTitleFromSentence | src/lib/gemini.ts:56-70 | otherwise the title is the first six words of the first sentence followed by "..." when those are longer than 10 characters, and "Document Summary" when they are not or there is no first sentence |
| Gemini.Prefix | src/lib/gemini.ts:75 | `slice(0, n)` keeps the first min(n, length) elements |
| Gemini.LastTwo | src/lib/gemini.ts:121 | `slice(-2)` keeps the last min(2, length) elements |
| Gemini.MockQuestions | src/lib/gemini.ts:73-86 | exactly five questions with ids 1 to 5; the first quotes the document between fixed text, the other four are the fixed questions |
| Gemini.MockQuestionQuotesSnippet | src/lib/gemini.ts:75-79 | the quoted snippet of the first question is at most 83 characters |
| Gemini.Clip | src/lib/gemini.ts:100 | a string that fits is unchanged; a longer one becomes exactly `max` characters ending in "...", and without it is a prefix of the original |
| Gemini.OrElse | src/lib/gemini.ts:93-94 | `a \|\| b` picks one of the two, and is empty only when both are |
| Gemini.Opening | src/lib/gemini.ts:93-94 | the first two sentences joined by a space, or the fallback text when that is empty; `Gemini.OpeningAndClosing` states its properties |
| Gemini.Closing | src/lib/gemini.ts:121-122 | the last two sentences joined by a space, or the fallback text when that is empty |
| Gemini.ClipAll | src/lib/gemini.ts:143-144 | every element is clipped, one for one |
| Gemini.Pad | src/lib/gemini.ts:148-154 | padding keeps the original elements as a prefix and grows the list to at least `least` elements |
| Gemini.PadAt | src/lib/gemini.ts:104-107 | the padded element at position i is the filler made for i |
| Gemini.PadLoop | src/lib/gemini.ts:104-107 | the `while … push` loop builds exactly `Pad` |
| Gemini.SampleStep | src/lib/gemini.ts:97 | the sampling step is at least 1 |
| Gemini.Sampled | src/lib/gemini.ts:98-103 | k rounds give at most k key points |
| Gemini.SampledStops | src/lib/gemini.ts:98-103 | rounds past the last sentence add nothing |
| Gemini.SampledShort | src/lib/gemini.ts:100 | every sampled key point is at most 150 characters |
| Gemini.SampledAt | src/lib/gemini.ts:98-103 | with non-empty sentences, point i is sentence `i * step` clipped to 150 characters, in ascending order |
| Gemini.SampledLength | src/lib/gemini.ts:98-103 | with non-empty sentences, every round inside the sentences yields a point |
| Gemini.KeyPoints | src/lib/gemini.ts:96-107 | the sampled sentences padded with numbered fillers to three; `KeyPointsBounds` and `FiveKeyPoints` state its properties |
| Gemini.SummarySections | src/lib/gemini.ts:109-119 | up to three numbered sections from the document, padded with "Additional Content" sections to two; `SummarySectionsShape` states its shape |
| Gemini.MockSummary | src/lib/gemini.ts:88-132 | the title, main idea, key points, sections, conclusion and word count of the mock summary; `GenerateSmartMockSummary` is proved to compute it |
| Gemini.KeyPointsBounds | src/lib/gemini.ts:96-107 | the summary has three to five key points, each at most 150 characters |
| Gemini.FiveKeyPoints | src/lib/gemini.ts:96-103 | five or more non-empty sentences give exactly the sentences at 0, step, …, 4·step, clipped |
| Gemini.SampleKeyPoints | src/lib/gemini.ts:96-107 | the sampling and padding loops build exactly `KeyPoints` |
| Gemini.SummarySectionsShape | src/lib/gemini.ts:109-119 | two or three sections; each from the document is headed "Section k: " plus at most 50 title characters, and each filler is "Additional Content k" |
| Gemini.JoinStartsWithFirst | src/lib/gemini.ts:93 | a join starts with its first part |
| Gemini.JoinEndsWithLast | src/lib/gemini.ts:121 | a join ends with its last part |
| Gemini.OpeningAndClosing | src/lib/gemini.ts:93-122 | without sentences the main idea, conclusion, overview and tutorial summary are the fixed texts; otherwise they start with the first sentence and end with the last |
| Gemini.GenerateSmartMockSummary | src/lib/gemini.ts:88-132 | the imperative builder returns exactly `MockSummary` |
| Gemini.SecondToFourth | src/lib/gemini.ts:143 | `slice(1, 4)` keeps at most three elements, the ones after the first |
| Gemini.ConceptOf | src/lib/gemini.ts:139-146 | the concept made from section k: title, first sentence or snippet, and up to three clipped key points; `ConceptOfShape` states its shape |
| Gemini.Concepts | src/lib/gemini.ts:139-154 | up to three concepts from the sections, padded with "Core Concept" fillers to two; `ConceptFromSection`, `ConceptFiller` and `ConceptsShape` state its properties |
| Gemini.MockTutorial | src/lib/gemini.ts:134-174 | the mock tutorial: "Tutorial: " and the title, the overview, the concepts, four fixed steps, two fixed exercises and the closing summary; `TutorialShape` states its shape |
| Gemini.ConceptFromSection | src/lib/gemini.ts:139-146 | concept i of the tutorial is the one made from section i, for each of the first three sections |
| Gemini.ConceptFiller | src/lib/gemini.ts:148-154 | concepts past the document's sections are "Core Concept" fillers |
| Gemini.ConceptOfShape | src/lib/gemini.ts:139-146 | a concept made from a section is titled "Concept k: " plus at most 40 characters of the section's title, with at most three key points of at most 100 characters |
| Gemini.ConceptsShape | src/lib/gemini.ts:139-154 | two or three concepts, each from a section or a filler, all with at most three short key points |
| Gemini.TutorialShape | src/lib/gemini.ts:156-173 | the title is "Tutorial: " followed by the document's title; always four learning steps, two exercises and two or three concepts |
| Gemini.GenerateSmartMockTutorial | src/lib/gemini.ts:134-174 | the imperative builder returns exactly `MockTutorial` |
| Gemini.GenerateDocumentSummary | src/lib/gemini.ts:241-247 | in mock mode the summary is the fixed lead, then the first 500 characters of the document (or all of a shorter one), then "..." |
| Gemini.CleanReply | src/lib/gemini.ts:188-203 | the text handed to `JSON.parse` has no whitespace at either end |
| Gemini.CleanReplyRoundTrip | src/lib/gemini.ts:188-203 | a fenced JSON block comes back as its trimmed body |
| Gemini.CleanReplyUnfenced | src/lib/gemini.ts:188-203 | a reply without fences is only trimmed |
| Gemini.ParseJsonResponse | src/lib/gemini.ts:188-203 | the reply is cleaned by `CleanReply` and handed to the parser |
| Gemini.GenerateQuestions | src/lib/gemini.ts:206-212 | in mock mode: five questions with ids 1 to 5, the first quoting the document |
| Gemini.GenerateSummary | src/lib/gemini.ts:344-350 | in mock mode: three to five key points of at most 150 characters and two or three sections |
| Gemini.GenerateTutorial | src/lib/gemini.ts:301-307 | in mock mode: a "Tutorial: " title, two or three concepts, four steps and two exercises |
| Cache.Without | src/lib/cache.ts:32 | deleting a key removes exactly that key from the key order |
| Cache.Expired | src/lib/cache.ts:31 | an entry is expired when more than one hour (3 600 000 ms) has passed since it was stored; `ExpiryBoundary` pins the boundary |
| Cache.Unexpired | src/lib/cache.ts:51-59 | the sweep keeps exactly the keys whose entries are not expired |
| Cache.ExpiryBoundary | src/lib/cache.ts:11-31 | an entry exactly one hour old is still fresh; one millisecond later it is expired |
| Cache.WithoutDistinct | src/lib/cache.ts:32 | deleting keeps the keys distinct |
| Cache.WithoutOnce | src/lib/cache.ts:32 | deleting a key that occurs once leaves the other keys in order |
| Cache.WithoutAbsent | src/lib/cache.ts:32 | deleting an absent key changes nothing |
| Cache.DeleteKeepsStep | src/lib/cache.ts:32 | after a delete, the keys still list exactly the map's entries |
| Cache.UnexpiredDistinct | src/lib/cache.ts:51-59 | the sweep keeps the keys distinct |
| Cache.UnexpiredIdempotent | src/lib/cache.ts:51-59 | sweeping twice at the same time is sweeping once |
| Cache.SweepStep | src/lib/cache.ts:54-57 | one iteration of the sweep deletes the key exactly when its entry expired |
| Cache.SweepPreserves | src/lib/cache.ts:54-57 | one iteration keeps the sweep invariant: the keys walked so far keep only the fresh ones, the rest are untouched, and the map lists exactly the remaining keys |
| Cache.SweepDone | src/lib/cache.ts:51-59 | a finished sweep leaves exactly the fresh keys, distinct and in order, each with its original entry |
| Cache.Sweep | src/lib/cache.ts:51-59 | the loop leaves exactly the keys whose entries are fresh, in order and distinct, with their entries unchanged and no other entry |
| Cache.ShortKey | src/lib/cache.ts:64 | a listed key is exactly the hash's first 8 characters (all of a shorter hash) followed by "...", so at most 11 characters |
| Cache.ShortKeys | src/lib/cache.ts:64 | one listed key per stored key, in order |
| Cache.KeysCountEntries | src/lib/cache.ts:63 | distinct keys listing the entries are as many as the entries |
| Cache.QuestionCache.Get | src/lib/cache.ts:24-37 | an absent hash gives nothing and changes nothing; an expired entry is deleted and gives nothing; a fresh entry is returned and nothing changes |
| Cache.QuestionCache.Set | src/lib/cache.ts:39-49 | the entry for the hash is stored or overwritten with the current time; other entries are untouched; a new hash goes last in the order |
| Cache.QuestionCache.ClearExpired | src/lib/cache.ts:51-59 | exactly the expired entries are removed, the others are kept unchanged and in order |
| Cache.QuestionCache.Stats | src/lib/cache.ts:61-66 | the size is the number of entries, with one shortened key per entry in insertion order |
| Learning.NextIndex | mobile/context/LearningContext.tsx:160-165 | the next index is i+1 or the last index, whichever is smaller; from an index in range it stays in range |
| Learning.PreviousIndex | mobile/context/LearningContext.tsx:167-172 | the previous index is i−1 or 0, whichever is larger; it is never negative |
| Learning.NextIndexWithoutQuestions | mobile/context/LearningContext.tsx:163 | with no questions, moving forward gives index −1 |
| Learning.FindQuestion | mobile/context/LearningContext.tsx:119 | nothing is found if and only if no question has the id; a question found has it |
| Learning.FindQuestionFirst | mobile/context/LearningContext.tsx:119 | the question found is the first one with the id |
| Learning.LearningSession.constructor | mobile/context/LearningContext.tsx:54-72 | a session starts in the initial state |
| Learning.LearningSession.SetDocument | mobile/context/LearningContext.tsx:74-85 | the new content is stored; the summary, questions, question error, answers, index and completion are reset; tutorial and summary fields are untouched |
| Learning.LearningSession.ClearDocument | mobile/context/LearningContext.tsx:87-89 | the state is back to the initial state |
| Learning.LearningSession.ResetSession | mobile/context/LearningContext.tsx:174-176 | the state is back to the initial state |
| Learning.LearningSession.CompleteSession | mobile/context/LearningContext.tsx:178-180 | only the completion flag changes, to true |
| Learning.LearningSession.GoToNextQuestion | mobile/context/LearningContext.tsx:160-165 | only the index changes, to `NextIndex` |
| Learning.LearningSession.GoToPreviousQuestion | mobile/context/LearningContext.tsx:167-172 | only the index changes, to `PreviousIndex` |
| Learning.LearningSession.BeginGenerateQuestions | mobile/context/LearningContext.tsx:91-97 | without a document only the error becomes "No document uploaded" and nothing is requested; otherwise loading starts, the error clears and the document is requested |
| Learning.LearningSession.EndGenerateQuestions | mobile/context/LearningContext.tsx:99-113 | success stores the questions and the document summary; failure stores the error's message or the fallback; either way loading stops and nothing else changes |
| Learning.LearningSession.BeginGenerateTutorial | mobile/context/LearningContext.tsx:182-188 | the same guard and start as for questions, on the tutorial's fields |
| Learning.LearningSession.EndGenerateTutorial | mobile/context/LearningContext.tsx:190-203 | success stores the tutorial; failure stores the message; loading stops |
| Learning.LearningSession.BeginGenerateSummary | mobile/context/LearningContext.tsx:206-212 | the same guard and start as for questions, on the summary's fields |
| Learning.LearningSession.EndGenerateSummary | mobile/context/LearningContext.tsx:214-227 | success stores the summary; failure stores the message; loading stops |
| Learning.LearningSession.BeginAnswer | mobile/context/LearningContext.tsx:116-131 | without a document summary or for an unknown question nothing changes; otherwise only this answer is recorded as being evaluated, with no feedback |
| Learning.LearningSession.EndAnswer | mobile/context/LearningContext.tsx:133-155 | the answer gets the evaluation as feedback, or none on failure; it is no longer evaluating, and no other answer changes |
| Auth.FindAccount | src/context/AuthContext.tsx:41-43 | nothing is found if and only if no account matches both email and password; an account found is stored and matches both |
| Auth.EmailTaken | src/context/AuthContext.tsx:69 | some stored account has the email; `Auth.AuthStore.Register` fails exactly when it holds |
| Auth.SignInFindsTheAccount | src/context/AuthContext.tsx:40-51 | with distinct emails, signing in with an account's email succeeds exactly with its password, and finds that account |
| Auth.AppendKeepsEmailsDistinct | src/context/AuthContext.tsx:69-77 | appending an account whose email is not taken keeps emails distinct |
| Auth.AuthStore.constructor | src/context/AuthContext.tsx:22-23 | the store starts signed out and loading, over the stored accounts and session |
| Auth.AuthStore.Restore | src/context/AuthContext.tsx:26-32 | a persisted session becomes the user; loading ends; storage is untouched |
| Auth.AuthStore.Login | src/context/AuthContext.tsx:34-59 | success if and only if some account matches both; then the user and the persisted session become that account's email and name; failure changes neither; accounts unchanged; not loading afterwards |
| Auth.AuthStore.Register | src/context/AuthContext.tsx:61-85 | success if and only if the email is not taken; then the account is appended, else nothing is stored; emails stay distinct; nobody is signed in; not loading afterwards |
| Auth.AuthStore.Logout | src/context/AuthContext.tsx:87-90 | the user and the persisted session are cleared, so the store is no longer authenticated |
| Auth.AuthStore.IsAuthenticated | src/context/AuthContext.tsx:99 | signed in exactly when there is a user; `Login`, `Register` and `Logout` state the user it reads |
| LoginPage.SignUpProblem | src/app/login/page.tsx:40-47 | "fill in all fields" if and only if a field is empty; "too short" if and only if all are filled and the password has fewer than 6 characters; no problem otherwise |
| LoginPage.LoginForm.constructor | src/app/login/page.tsx:15-25 | the form starts in sign-in mode with empty fields and messages |
| LoginPage.LoginForm.ToggleMode | src/app/login/page.tsx:186-189 | the mode flips and the error clears; nothing else changes |
| LoginPage.LoginForm.Submit | src/app/login/page.tsx:27-58 | both messages are cleared first; sign-in goes home exactly when an account matches, else shows the fixed error; sign-up checks the fields, then registers; on success it shows the success message, switches to sign-in and clears only the name, on a taken email it shows that error; emails stay distinct |
| Quiz.RoundDiv | src/app/quiz/page.tsx:88 | `Math.round(a / b)`: the integer nearest to the quotient, halves rounded up |
| Quiz.RoundedPercent | src/app/quiz/page.tsx:17 | `round(n / d · 100)`: NaN for 0/0, Infinity for n/0 with n > 0, otherwise the nearest integer to 100·n/d |
| Quiz.ProperFractionIsPercentage | src/app/quiz/page.tsx:17 | a fraction n/d with n ≤ d reads as 0 to 100 |
| Quiz.FractionHere | src/app/quiz/page.tsx:14 | a match found at the start of the string is two non-empty digit runs around a '/' |
| Quiz.FractionFrom | src/app/quiz/page.tsx:14 | a match position lies inside the string, at or after the search start |
| Quiz.FractionFromIsLeftmost | src/app/quiz/page.tsx:14 | the match found is the leftmost: a fraction starts there and none starts before it |
| Quiz.NoFractionFrom | src/app/quiz/page.tsx:14 | when no position starts a fraction, there is no match |
| Quiz.FirstFraction | src/app/quiz/page.tsx:14-16 | the numerator and denominator matched are non-empty digit runs |
| Quiz.FirstFractionOfDigits | src/app/quiz/page.tsx:14-16 | "n/m" with digit runs n and m matches as exactly (n, m) |
| Quiz.NoFractionInDigits | src/app/quiz/page.tsx:14 | a string of digits holds no fraction |
| Quiz.ParseInt | src/app/quiz/page.tsx:20 | `parseInt` is NaN exactly when no digit follows the leading whitespace and optional sign; it is non-negative without a '-' |
| Quiz.ParseIntOfNumber | src/app/quiz/page.tsx:20 | printing a natural and reading it back with `parseInt` gives it back |
| Quiz.ParseScore | src/app/quiz/page.tsx:12-22 | the empty string scores 0; a score can only be NaN or Infinity when its first fraction has a zero denominator |
| Quiz.FractionScore | src/app/quiz/page.tsx:14-18 | "k/d" scores the rounded percentage of k over d |
| Quiz.ScoreOutOfTen | src/app/quiz/page.tsx:14-18 | "k/10" with k ≤ 10 scores exactly 10·k |
| Quiz.BareScore | src/app/quiz/page.tsx:20-21 | a bare number k scores 10·k |
| Quiz.MockEvaluationScore | src/lib/gemini.ts:15-21 | the evaluation the application returns in mock mode scores 70 |
| Quiz.Add | src/app/quiz/page.tsx:85 | JavaScript `+`: finite exactly when both are; NaN exactly when either is; otherwise the sum |
| Quiz.FeedbackScores | src/app/quiz/page.tsx:83-86 | at most one score per answer |
| Quiz.Mean | src/app/quiz/page.tsx:88 | the rounded mean is finite exactly when the total is, and is then the integer nearest to total / count |
| Quiz.TotalScore | src/app/quiz/page.tsx:79-89 | 0 without evaluated answers, otherwise the rounded mean of their scores; `TotalScoreIsPercentage`, `NoFeedbackScoresZero` and `SingleAnswerScore` state its properties and `CalculateTotalScore` computes it |
| Quiz.RoundDivBounds | src/app/quiz/page.tsx:88 | rounding a quotient keeps it between bounds that the exact quotient respects |
| Quiz.TotalOfPercentages | src/app/quiz/page.tsx:82-86 | a sum of n scores each in 0..100 is finite and in 0..100·n |
| Quiz.TotalScoreIsPercentage | src/app/quiz/page.tsx:79-89 | when every score read is a percentage, so is the total score |
| Quiz.NoFeedbackNoScores | src/app/quiz/page.tsx:84 | answers without feedback contribute no scores |
| Quiz.NoFeedbackScoresZero | src/app/quiz/page.tsx:88 | with no evaluated answer the total score is 0 |
| Quiz.SingleAnswerScore | src/app/quiz/page.tsx:79-89 | one answer scored "k/10" gives a total score of 10·k |
| Quiz.SumFeedback | src/app/quiz/page.tsx:80-87 | the `forEach` loop computes the sum and the count of the feedback scores |
| Quiz.CalculateTotalScore | src/app/quiz/page.tsx:79-89 | the method returns exactly `TotalScore` over `parseScore` |
| Quiz.ScoreBand | src/app/quiz/page.tsx:91-103 | green if and only if at least 70 (or Infinity); yellow if and only if 40 to 69; red if and only if below 40 or NaN |
| Quiz.ScoreColor | src/app/quiz/page.tsx:91-96 | the text colour class of the score's band |
| Quiz.ScoreBorderColor | src/app/quiz/page.tsx:98-103 | the border colour class of the score's band; `ColorsAgree` ties it to `ScoreColor` |
| Quiz.ColorsAgree | src/app/quiz/page.tsx:91-103 | the text colour and the border colour of two scores agree together: same thresholds |
| Quiz.BandMonotone | src/app/quiz/page.tsx:91-103 | a higher score never lands in a worse band |
| Quiz.CurrentQuestion | src/app/quiz/page.tsx:59 | there is a current question exactly when the index is in range, and it is one of the questions |
| Quiz.QuizPage.constructor | src/app/quiz/page.tsx:42-43 | the page starts with an empty answer and not submitting |
| Quiz.QuizPage.NextQuestion | src/app/quiz/page.tsx:70-77 | the typed answer is cleared; at the last index the session completes, otherwise it advances |
| Quiz.QuizPage.SubmitAnswer | src/app/quiz/page.tsx:62-68 | without a current question or with a blank answer nothing happens; otherwise the answer is submitted, its evaluation recorded, and submitting ends |
| Results.FirstNumber | mobile/screens/ResultsScreen.tsx:36-37 | no number is found if and only if the score holds no digit |
| Results.FirstNumberSkips | mobile/screens/ResultsScreen.tsx:36 | text without digits before the number is skipped |
| Results.FirstNumberOf | mobile/screens/ResultsScreen.tsx:36-37 | a printed number followed by a non-digit reads back as that number |
| Results.Counted | mobile/screens/ResultsScreen.tsx:32-40 | at most one counted score per answer |
| Results.Points | mobile/screens/ResultsScreen.tsx:33-37 | the first number in an evaluated answer's score; nothing for an unevaluated answer or a score without digits |
| Results.MakeStats | mobile/screens/ResultsScreen.tsx:42-51 | the maximum is 10 per counted answer; with nothing counted the average and percentage are 0; otherwise average·count = total and percentage·maximum = 100·total |
| Results.StatsOf | mobile/screens/ResultsScreen.tsx:28-52 | the total is the sum of the counted scores and the count their number |
| Results.PercentageIsTenfoldAverage | mobile/screens/ResultsScreen.tsx:42-50 | the percentage is always ten times the average |
| Results.SumOutOfTen | mobile/screens/ResultsScreen.tsx:43 | scores of at most ten sum to at most ten per score |
| Results.PercentageAtMostHundred | mobile/screens/ResultsScreen.tsx:43-50 | when every counted score is at most ten, the percentage is between 0 and 100 |
| Results.PercentageBounds | mobile/screens/ResultsScreen.tsx:50 | a total within the maximum gives a percentage between 0 and 100 |
| Results.ComputeStats | mobile/screens/ResultsScreen.tsx:28-52 | the `forEach` loop computes exactly `StatsOf` |
| Results.PerformanceLevel | mobile/screens/ResultsScreen.tsx:54-59 | "Excellent!" if and only if at least 80, "Good Job!" if and only if 60 to 80, "Keep Practicing" if and only if 40 to 60, "Needs Improvement" if and only if below 40 |
| Results.ReviewScore | mobile/screens/ResultsScreen.tsx:121-123 | a missing answer or feedback scores 0; an evaluated answer scores its first number |
| Results.IsGood | mobile/screens/ResultsScreen.tsx:121-124 | the check mark: a review score of at least 7; `UnevaluatedIsNotGood` and `MockEvaluationIsGood` state its two sides |
| Results.UnevaluatedIsNotGood | mobile/screens/ResultsScreen.tsx:121-124 | an unanswered or unevaluated question never gets the check mark |
| Results.MockEvaluationIsGood | mobile/screens/ResultsScreen.tsx:121-124 | the mock-mode evaluation "7/10" gets the check mark |
| Results.Show | mobile/screens/ResultsScreen.tsx:22-124 | given the answers map's values, each once, nothing is shown (the screen goes Home) exactly when the session is incomplete or there are no questions; otherwise the stats of those answers (counting at most one per answer), their performance band and one check mark per question, set exactly when that question's answer is good |

## Left out

- The generative model, `JSON.parse`, the slide generator, the audio generator, `getDuration` and `renderVideo` live outside the shown code. They are parameters: `reply` and `parse` in `ScriptGenerator.GenerateVideoScript`, and the functions of `VideoRoute.Tools`. Rendering, speech and muxing are not modelled.
- The regular expressions `extractSentences`, `splitIntoSections` and `content.split(/\n\s*\n/)` are not modelled. Their results arrive as a sentence function or a section sequence.
- Whitespace is ASCII whitespace only. JavaScript's `\s` and `trim` also cover Unicode spaces.
- String lengths count characters, not UTF-16 code units.
- The non-mock branches of `src/lib/gemini.ts` are not modelled: the Gemini SDK calls, prompt building and response validation. `USE_MOCK_DATA` is `true` there (src/lib/gemini.ts:13), so those branches never run. `evaluateAnswer` in mock mode is the constant `Gemini.MockEvaluation`.
- `Gemini.ParseJsonResponse` hands the cleaned text to `JSON.parse`, which is a parameter. Its contract is on `Gemini.CleanReply`.
- `hashDocument` (SHA-256 through `crypto.subtle`) is not modelled. The cache takes the hash as given.
- `Date.now()` is the parameter `now`.
- Console logging is not modelled.
- Asynchronous interleaving is not modelled. Each `LearningContext` action is split at its `await` into `Begin…` and `End…` methods that run in sequence. Callbacks reading a stale `state` and updates interleaving between the two halves are not captured.
- `localStorage` is the two fields `users` and `session` of `Auth.AuthStore`. A `JSON.parse` failure of storage, which the `catch` clauses turn into `false`, is not modelled.
- Auth.AuthStore.constructor: requires the stored accounts to have distinct emails. `register` is the only writer of that list and keeps it so; the source itself checks nothing on load.
- Numbers are exact. `Math.round` is applied to the exact quotient, whereas JavaScript rounds a floating-point quotient first. The two can differ when the exact value is a half that floating point misrepresents. The results screen's average and percentage are exact reals.
- Quiz.ParseInt: does not read the hexadecimal `0x` prefix that `parseInt` without a radix accepts.
- The web quiz page takes its session from `@/context/LearningContext` (src/app/quiz/page.tsx:8), which is not part of this model. The model assumes it behaves like mobile/context/LearningContext.tsx, which `Learning` models.
- A parsed model reply is assumed to be a well-formed script. The source's `JSON.parse(...) as T` (src/lib/video/script-generator.ts:126) checks nothing, so a reply such as `{}` or `null` would make `script.scenes` throw a `TypeError` at src/app/api/video/generate/route.ts:37 or 45, which ends in a 500. `parse` returns a `VideoScript` or an error instead.
- The request body's `content` is assumed to be a string or missing (src/app/api/video/generate/route.ts:29-31). A non-string truthy value such as a number is not modelled.
- Results.Show: takes the answers map's values as a sequence and requires that sequence to list each value of `state.answers` once, under its own question id; a JavaScript `Map` iterates exactly its values, so this is the link between the two and not a restriction on the source.
- A JavaScript `Map` keeps insertion order. The score functions take the answers map's values as a sequence in that order.
- `VideoRoute.Outcome` takes the script as an argument. `VideoRoute.Post` passes it the script produced by `ScriptOf`. The handler's single `try` body is split into `Post` (gate and content check), `Generate` (script) and `Deliver` (slides, assets, render); the calls and the response are unchanged.
- Learning.NextIndex: with no questions, moving forward gives −1, which `NextIndexWithoutQuestions` states. The source does not guard against this, and the model keeps it.
- The quiz page's effects are not modelled: the automatic question generation and the redirects for signed-out users and missing documents. Its rendering is not modelled either.
- The results screen's restart button is not modelled separately: it is `resetSession` followed by navigation.
- The network client `mobile/lib/api.ts` and the video fetch of the summary page are not part of this model. The learning session receives their replies as `Result` values.
- The pure UI components and configuration files are not part of this model.
