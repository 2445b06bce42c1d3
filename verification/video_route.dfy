/** The `POST /api/video/generate` handler: a platform gate, a content
    check, script generation, one asset per scene and the final render, with
    every thrown error mapped to a user message. The slide, audio, duration
    and render tools, the generative model and `JSON.parse` are outside the
    model and arrive as functions in `Tools`. */
module VideoRoute {
  import opened Wrappers
  import opened Strings
  import opened ScriptGenerator

  /** The environment variables the gate reads (`None` when unset). */
  datatype Env = Env(vercel: Option<string>, render: Option<string>, lambdaFunctionName: Option<string>)

  /** What the renderer receives for one scene; `imagePath` is `None` when the
      slide generator returned fewer paths than there are scenes. */
  datatype SceneAsset = SceneAsset(imagePath: Option<string>, audioPath: string, duration: real)

  /** The outside calls the handler makes, in the order it makes them. */
  datatype Call = ReadBody | GenerateScript | GenerateSlides | GenerateAudio(scene: nat) | GetDuration(scene: nat) | RenderVideo

  datatype Tools = Tools(
    model: string -> Result<string, Exception>,
    parse: string -> Result<VideoScript, Exception>,
    paragraphs: string -> seq<string>,
    slides: VideoScript -> Result<seq<string>, Exception>,
    audio: string -> Result<string, Exception>,
    duration: string -> Result<real, Exception>,
    render: seq<SceneAsset> -> Result<string, Exception>)

  datatype ResponseBody = Unavailable(error: string, hint: string) | Failure(error: string) | Video(videoUrl: string)

  datatype Response = Response(status: int, body: ResponseBody)

  const UnavailableError := "Video generation is not available on serverless platforms (Vercel/Lambda). This feature requires FFmpeg and Chrome."
  const UnavailableHint := "Use local development server or deploy with Docker on Render/Railway for video generation."
  const ContentRequired := "Content is required"
  const DefaultFailure := "Failed to generate video"
  const ToolsMissing := "Video generation requires FFmpeg and Chrome. Please ensure they are installed in the deployment environment."
  const TimedOut := "Video generation timed out. The server may be under heavy load."

  // ---------------------------------------------------------------- gate and error messages

  /** Serverless platforms are refused: `VERCEL` is exactly "1" or
      `AWS_LAMBDA_FUNCTION_NAME` is set to a non-empty string. `RENDER` only
      produces a log line. */
  predicate Denied(env: Env)
  {
    env.vercel == Some("1") || (env.lambdaFunctionName.Some? && env.lambdaFunctionName.value != "")
  }

  /** The message of the catch clause. */
  function ErrorMessage(e: Exception): (m: string)
    ensures e.NonError? ==> m == DefaultFailure
    ensures e.Error? && (Contains(e.message, "ENOENT") || Contains(e.message, "spawn")) ==> m == ToolsMissing
    ensures (e.Error? && !Contains(e.message, "ENOENT") && !Contains(e.message, "spawn")
      && Contains(e.message, "timeout")) ==> m == TimedOut
    ensures (e.Error? && !Contains(e.message, "ENOENT") && !Contains(e.message, "spawn")
      && !Contains(e.message, "timeout")) ==> m == e.message
  {
    match e
    case NonError => DefaultFailure
    case Error(msg) =>
      if Contains(msg, "ENOENT") || Contains(msg, "spawn") then ToolsMissing
      else if Contains(msg, "timeout") then TimedOut
      else msg
  }

  /** The missing-tools diagnosis wins over the timeout one. */
  lemma ToolsMissingFirst(msg: string)
    requires Contains(msg, "timeout") && Contains(msg, "spawn")
    ensures ErrorMessage(Error(msg)) == ToolsMissing != TimedOut
  {
  }

  function Failed(e: Exception): Response
  {
    Response(500, Failure(ErrorMessage(e)))
  }

  // ---------------------------------------------------------------- the script and the assets

  /** The script `generateVideoScript` returns for `content`. */
  function ScriptOf(content: string, tools: Tools): VideoScript
  {
    var reply := tools.model(content);
    if reply.Ok? && tools.parse(StripFences(reply.value)).Ok? then tools.parse(StripFences(reply.value)).value
    else VideoScript(FallbackScenes(content, tools.paragraphs(content)))
  }

  /** `imagePaths[i]`, which is `undefined` past the end. */
  function ImageAt(paths: seq<string>, i: nat): (p: Option<string>)
    ensures p.Some? <==> i < |paths|
    ensures p.Some? ==> p.value == paths[i]
  {
    if i < |paths| then Some(paths[i]) else None
  }

  /** The asset of scene `i`, or the error of the audio or duration call. */
  function AssetOf(scene: Scene, i: nat, paths: seq<string>, tools: Tools): Result<SceneAsset, Exception>
  {
    var audio := tools.audio(scene.narration);
    if audio.Err? then Err(audio.error)
    else
      var d := tools.duration(audio.value);
      if d.Err? then Err(d.error) else Ok(SceneAsset(ImageAt(paths, i), audio.value, d.value))
  }

  /** The calls made for scene `i`: the audio call, and the duration call
      unless the audio call failed. */
  function CallsOf(scene: Scene, i: nat, tools: Tools): seq<Call>
  {
    if tools.audio(scene.narration).Err? then [GenerateAudio(i)] else [GenerateAudio(i), GetDuration(i)]
  }

  datatype AssetRun = AssetRun(result: Result<seq<SceneAsset>, Exception>, calls: seq<Call>)

  /** The asset loop over `scenes`: scene by scene, stopping at the first
      failing call. */
  function RunAssets(scenes: seq<Scene>, paths: seq<string>, tools: Tools): (run: AssetRun)
    ensures run.result.Ok? ==> |run.result.value| == |scenes|
  {
    if scenes == [] then AssetRun(Ok([]), [])
    else
      var i := |scenes| - 1;
      var prev := RunAssets(scenes[..i], paths, tools);
      if prev.result.Err? then prev
      else
        var calls := prev.calls + CallsOf(scenes[i], i, tools);
        match AssetOf(scenes[i], i, paths, tools)
        case Err(e) => AssetRun(Err(e), calls)
        case Ok(asset) => AssetRun(Ok(prev.result.value + [asset]), calls)
  }

  /** Audio and duration calls for scenes 0 .. n-1, two per scene. */
  function AllAssetCalls(n: nat): (c: seq<Call>)
    ensures |c| == 2 * n
  {
    if n == 0 then [] else AllAssetCalls(n - 1) + [GenerateAudio(n - 1), GetDuration(n - 1)]
  }

  /** The content of a request body, `""` when there is none. */
  function ContentOf(body: Result<Option<string>, Exception>): string
  {
    if body.Ok? && body.value.Some? then body.value.value else ""
  }

  /** The response and the calls of one request, given the script that
      `generateVideoScript` produces for its content (unused when the
      handler stops before generating one). */
  function Outcome(env: Env, body: Result<Option<string>, Exception>, tools: Tools, script: VideoScript): (Response, seq<Call>)
  {
    if Denied(env) then (Response(501, Unavailable(UnavailableError, UnavailableHint)), [])
    else if body.Err? then (Failed(body.error), [ReadBody])
    else if body.value.None? || body.value.value == "" then (Response(400, Failure(ContentRequired)), [ReadBody])
    else
      var later := Delivered(script, tools);
      (later.0, [ReadBody, GenerateScript, GenerateSlides] + later.1)
  }

  /** The handler once the script exists: the slides, the asset loop and the
      render, with the calls they make. */
  function Delivered(script: VideoScript, tools: Tools): (Response, seq<Call>)
  {
    var paths := tools.slides(script);
    if paths.Err? then (Failed(paths.error), [])
    else
      var run := RunAssets(script.scenes, paths.value, tools);
      if run.result.Err? then (Failed(run.result.error), run.calls)
      else
        var url := tools.render(run.result.value);
        var calls := run.calls + [RenderVideo];
        if url.Err? then (Failed(url.error), calls) else (Response(200, Video(url.value)), calls)
  }

  // ---------------------------------------------------------------- facts about the asset loop

  /** Once a prefix of the scenes has failed, the longer prefixes fail the
      same way with the same calls. */
  lemma {:induction false} RunAssetsStuck(scenes: seq<Scene>, j: nat, paths: seq<string>, tools: Tools)
    requires j <= |scenes| && RunAssets(scenes[..j], paths, tools).result.Err?
    ensures RunAssets(scenes, paths, tools) == RunAssets(scenes[..j], paths, tools)
    decreases |scenes|
  {
    if j < |scenes| {
      var i := |scenes| - 1;
      assert scenes[..i][..j] == scenes[..j];
      RunAssetsStuck(scenes[..i], j, paths, tools);
    } else {
      assert scenes[..j] == scenes;
    }
  }

  /** A completed loop built one asset per scene, in scene order: asset `i`
      pairs `imagePaths[i]` with the audio of scene `i`'s narration and the
      duration measured on that audio; every call was made once, in order. */
  lemma {:induction false} RunAssetsComplete(scenes: seq<Scene>, paths: seq<string>, tools: Tools)
    requires RunAssets(scenes, paths, tools).result.Ok?
    ensures var run := RunAssets(scenes, paths, tools); var assets := run.result.value;
      && run.calls == AllAssetCalls(|scenes|)
      && forall i :: 0 <= i < |scenes| ==>
           && tools.audio(scenes[i].narration).Ok?
           && assets[i].imagePath == ImageAt(paths, i)
           && assets[i].audioPath == tools.audio(scenes[i].narration).value
           && tools.duration(assets[i].audioPath) == Ok(assets[i].duration)
    decreases |scenes|
  {
    if scenes != [] {
      var i := |scenes| - 1;
      var prev := RunAssets(scenes[..i], paths, tools);
      assert prev.result.Ok?;
      RunAssetsComplete(scenes[..i], paths, tools);
      var asset := AssetOf(scenes[i], i, paths, tools);
      assert asset.Ok?;
      var assets := prev.result.value + [asset.value];
      assert RunAssets(scenes, paths, tools) == AssetRun(Ok(assets), prev.calls + CallsOf(scenes[i], i, tools));
      forall k | 0 <= k < i
        ensures scenes[k] == scenes[..i][k] && assets[k] == prev.result.value[k]
      {
      }
    }
  }

  /** The loop completes exactly when every audio call and every duration
      call succeeds. */
  lemma {:induction false} RunAssetsOkIff(scenes: seq<Scene>, paths: seq<string>, tools: Tools)
    ensures RunAssets(scenes, paths, tools).result.Ok? <==>
      forall i :: 0 <= i < |scenes| ==> AssetOf(scenes[i], i, paths, tools).Ok?
    decreases |scenes|
  {
    if scenes != [] {
      var i := |scenes| - 1;
      RunAssetsOkIff(scenes[..i], paths, tools);
      assert forall k :: 0 <= k < i ==> scenes[..i][k] == scenes[k];
    }
  }

  /** The nominal `duration` of a scene is never read: scenes that narrate
      the same text give the same assets and calls. */
  lemma {:induction false} RunAssetsIgnoresSceneDuration(a: seq<Scene>, b: seq<Scene>, paths: seq<string>, tools: Tools)
    requires |a| == |b| && forall i :: 0 <= i < |a| ==> a[i].narration == b[i].narration
    ensures RunAssets(a, paths, tools) == RunAssets(b, paths, tools)
    decreases |a|
  {
    if a != [] {
      var i := |a| - 1;
      assert forall k :: 0 <= k < i ==> a[..i][k] == a[k] && b[..i][k] == b[k];
      RunAssetsIgnoresSceneDuration(a[..i], b[..i], paths, tools);
      assert AssetOf(a[i], i, paths, tools) == AssetOf(b[i], i, paths, tools);
      assert CallsOf(a[i], i, tools) == CallsOf(b[i], i, tools);
    }
  }

  // ---------------------------------------------------------------- facts about the handler

  /** The handler answers 501 exactly on a denied platform, and then makes
      no call at all, not even reading the body. */
  lemma GateIff(env: Env, body: Result<Option<string>, Exception>, tools: Tools, script: VideoScript)
    ensures Outcome(env, body, tools, script).0.status == 501 <==> Denied(env)
    ensures Denied(env) ==> Outcome(env, body, tools, script).1 == []
  {
  }

  /** Past the gate, the answer is 400 exactly when the body holds no
      content, and then nothing but the body read happens. */
  lemma ContentRequiredIff(env: Env, body: Result<Option<string>, Exception>, tools: Tools, script: VideoScript)
    requires !Denied(env)
    ensures Outcome(env, body, tools, script).0.status == 400 <==> body.Ok? && ContentOf(body) == ""
    ensures body.Ok? && ContentOf(body) == "" ==>
      Outcome(env, body, tools, script) == (Response(400, Failure(ContentRequired)), [ReadBody])
  {
  }

  /** The handler answers one of four statuses, and 200 exactly with a video URL. */
  lemma StatusesExclusive(env: Env, body: Result<Option<string>, Exception>, tools: Tools, script: VideoScript)
    ensures var r := Outcome(env, body, tools, script).0;
      (r.status == 200 || r.status == 400 || r.status == 500 || r.status == 501)
      && (r.status == 200 <==> r.body.Video?)
  {
  }

  lemma {:induction false} RunAssetsNeverRenders(scenes: seq<Scene>, paths: seq<string>, tools: Tools)
    ensures RenderVideo !in RunAssets(scenes, paths, tools).calls
    decreases |scenes|
  {
    if scenes != [] {
      RunAssetsNeverRenders(scenes[..|scenes| - 1], paths, tools);
    }
  }

  /** `renderVideo` is called at most once, as the last call, and only after
      every scene's audio and duration calls succeeded; a 200 answer made
      exactly the full sequence of calls. */
  lemma RenderOnceLast(env: Env, body: Result<Option<string>, Exception>, tools: Tools, script: VideoScript)
    ensures var (r, calls) := Outcome(env, body, tools, script);
      && (forall k :: 0 <= k < |calls| - 1 ==> calls[k] != RenderVideo)
      && (RenderVideo in calls ==>
            (calls[|calls| - 1] == RenderVideo && RunAssets(script.scenes, tools.slides(script).value, tools).result.Ok?))
      && (r.status == 200 ==>
            calls == [ReadBody, GenerateScript, GenerateSlides] + AllAssetCalls(|script.scenes|) + [RenderVideo])
  {
    var paths := tools.slides(script);
    if paths.Ok? {
      RunAssetsNeverRenders(script.scenes, paths.value, tools);
      if RunAssets(script.scenes, paths.value, tools).result.Ok? {
        RunAssetsComplete(script.scenes, paths.value, tools);
      }
    }
  }

  // ---------------------------------------------------------------- the handler

  /** The asset loop of the handler: one audio and one duration call per
      scene, stopping at the first failure. */
  method BuildAssets(scenes: seq<Scene>, paths: seq<string>, tools: Tools) returns (run: AssetRun)
    ensures run == RunAssets(scenes, paths, tools)
  {
    var sceneAssets: seq<SceneAsset> := [];
    var calls: seq<Call> := [];
    var i := 0;
    while i < |scenes|
      invariant 0 <= i <= |scenes|
      invariant RunAssets(scenes[..i], paths, tools) == AssetRun(Ok(sceneAssets), calls)
    {
      var scene := scenes[i];
      assert scenes[..i + 1][..i] == scenes[..i];
      calls := calls + [GenerateAudio(i)];
      var audioPath := tools.audio(scene.narration);
      if audioPath.Err? {
        RunAssetsStuck(scenes, i + 1, paths, tools);
        return AssetRun(Err(audioPath.error), calls);
      }
      calls := calls + [GetDuration(i)];
      var duration := tools.duration(audioPath.value);
      if duration.Err? {
        RunAssetsStuck(scenes, i + 1, paths, tools);
        return AssetRun(Err(duration.error), calls);
      }
      sceneAssets := sceneAssets + [SceneAsset(ImageAt(paths, i), audioPath.value, duration.value)];
      i := i + 1;
    }
    assert scenes[..i] == scenes;
    return AssetRun(Ok(sceneAssets), calls);
  }

  /** `POST`: returns the response and the outside calls made, in order. */
  method Post(env: Env, body: Result<Option<string>, Exception>, tools: Tools) returns (r: Response, calls: seq<Call>)
    ensures (r, calls) == Outcome(env, body, tools, ScriptOf(ContentOf(body), tools))
  {
    if Denied(env) {
      return Response(501, Unavailable(UnavailableError, UnavailableHint)), [];
    }
    calls := [ReadBody];
    if body.Err? {
      return Failed(body.error), calls;
    }
    var content := body.value;
    if content.None? || content.value == "" {
      return Response(400, Failure(ContentRequired)), calls;
    }
    var later;
    r, later := Generate(content.value, tools);
    ghost var rest := Delivered(ScriptOf(content.value, tools), tools).1;
    assert calls + later == [ReadBody, GenerateScript, GenerateSlides] + rest;
    calls := calls + later;
  }

  /** `POST` once the content is known: the script, then the slides, the
      assets and the render. */
  method Generate(content: string, tools: Tools) returns (r: Response, calls: seq<Call>)
    ensures r == Delivered(ScriptOf(content, tools), tools).0
    ensures calls == [GenerateScript, GenerateSlides] + Delivered(ScriptOf(content, tools), tools).1
  {
    var script := GenerateVideoScript(content, tools.paragraphs(content), tools.model(content), tools.parse);
    assert script == ScriptOf(content, tools);
    var later;
    r, later := Deliver(script, tools);
    calls := [GenerateScript, GenerateSlides] + later;
  }

  /** The slides, asset and render part of `POST`. */
  method Deliver(script: VideoScript, tools: Tools) returns (r: Response, calls: seq<Call>)
    ensures (r, calls) == Delivered(script, tools)
  {
    var imagePaths := tools.slides(script);
    if imagePaths.Err? {
      return Failed(imagePaths.error), [];
    }
    var run := BuildAssets(script.scenes, imagePaths.value, tools);
    calls := run.calls;
    if run.result.Err? {
      return Failed(run.result.error), calls;
    }
    calls := calls + [RenderVideo];
    var videoUrl := tools.render(run.result.value);
    if videoUrl.Err? {
      return Failed(videoUrl.error), calls;
    }
    return Response(200, Video(videoUrl.value)), calls;
  }
}
