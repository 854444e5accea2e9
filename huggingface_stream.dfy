/**
 * The streaming Hugging Face route: its request guards, the system
 * instruction it builds from the prompt mode and the posted options, and
 * the single prompt text it sends to the hosted model.
 */
module HuggingFaceStream {
  import opened Wrappers
  import opened Options
  import opened ParamLines
  import opened Http
  import opened Modes

  const Mission: string :=
    "You are a world-class prompt engineer. "
    + "Your mission is to expand a user's "
    + "simple idea into a rich, detailed, and "
    + "highly effective prompt for a "
    + "generative AI model."

  const ImageTask: string :=
    "Create a detailed prompt for an AI "
    + "image generator. Focus on visual "
    + "elements, style, and composition."
  const VideoTask: string :=
    "Create a prompt for AI video "
    + "generation, focusing on motion and "
    + "visual storytelling."
  const TextTask: string :=
    "Refine the user's request into a clear "
    + "and effective text generation prompt."
  const AudioTask: string :=
    "Create a detailed prompt for AI "
    + "audio/music generation."
  const CodeTask: string :=
    "Create a precise prompt for code "
    + "generation, including context and "
    + "requirements."
  const GenericTask: string := "Generate a general-purpose, high-quality prompt."

  /** Separates the instruction from the user's own text in the model input. */
  const RequestHeading: string := "\n\nUser Request: "

  /** The task sentence of each `case` of the `switch (mode)`, and of its `default`. */
  function TaskText(mode: Option<PromptMode>): string {
    match mode
    case Some(Image) => ImageTask
    case Some(Video) => VideoTask
    case Some(Text) => TextTask
    case Some(Audio) => AudioTask
    case Some(Code) => CodeTask
    case None => GenericTask
  }

  /** The `addParam` calls of each case, in order; the default case makes none. */
  function ModeFields(mode: Option<PromptMode>): seq<Field> {
    match mode
    case Some(Image) => [Field("Style", "imageStyle"), Field("Mood/Tone", "contentTone"), Field("Lighting", "lighting")]
    case Some(Video) => [Field("Tone", "contentTone"), Field("Point of View", "pov")]
    case Some(Text) => [Field("Tone of Voice", "contentTone"), Field("Output Format", "outputFormat")]
    case Some(Audio) => [Field("Audio Type", "audioType"), Field("Vibe/Mood", "audioVibe")]
    case Some(Code) => [Field("Language", "codeLanguage"), Field("Task", "codeTask")]
    case None => []
  }

  /** Everything up to and including the task sentence. */
  function Head(mode: Option<PromptMode>): string {
    Mission + (TaskHeading + TaskText(mode))
  }

  /** The instruction `buildSystemInstruction(mode, options)` returns. */
  function SystemInstruction(mode: string, o: OptionMap): string {
    Head(Parse(mode)) + Section(Lines(o, ModeFields(Parse(mode))))
  }

  /** `buildSystemInstruction`, accumulating into local strings as the route does. */
  method BuildSystemInstruction(mode: string, options: OptionMap) returns (instruction: string)
    ensures instruction == SystemInstruction(mode, options)
  {
    instruction := Mission;
    var modeInstruction, paramsToIncorporate := ModeParameters(Parse(mode), options);
    instruction := instruction + (TaskHeading + modeInstruction);
    assert instruction == Head(Parse(mode));
    if paramsToIncorporate != "" {
      instruction := instruction + (ParamsHeading + paramsToIncorporate);
    }
  }

  /** The `switch (mode)` of `buildSystemInstruction`: the task sentence and the `addParam` calls of each case. */
  method ModeParameters(mode: Option<PromptMode>, options: OptionMap) returns (modeInstruction: string, paramsToIncorporate: string)
    ensures modeInstruction == TaskText(mode)
    ensures paramsToIncorporate == Lines(options, ModeFields(mode))
  {
    modeInstruction := "";
    paramsToIncorporate := "";
    match mode {
      case Some(Image) =>
        modeInstruction := ImageTask;
        paramsToIncorporate := AddParam(paramsToIncorporate, "Style", Get(options, "imageStyle"));
        paramsToIncorporate := AddParam(paramsToIncorporate, "Mood/Tone", Get(options, "contentTone"));
        paramsToIncorporate := AddParam(paramsToIncorporate, "Lighting", Get(options, "lighting"));
        ImageLines(options);
      case Some(Video) =>
        modeInstruction := VideoTask;
        paramsToIncorporate := AddParam(paramsToIncorporate, "Tone", Get(options, "contentTone"));
        paramsToIncorporate := AddParam(paramsToIncorporate, "Point of View", Get(options, "pov"));
        VideoLines(options);
      case Some(Text) =>
        modeInstruction := TextTask;
        paramsToIncorporate := AddParam(paramsToIncorporate, "Tone of Voice", Get(options, "contentTone"));
        paramsToIncorporate := AddParam(paramsToIncorporate, "Output Format", Get(options, "outputFormat"));
        TextLines(options);
      case Some(Audio) =>
        modeInstruction := AudioTask;
        paramsToIncorporate := AddParam(paramsToIncorporate, "Audio Type", Get(options, "audioType"));
        paramsToIncorporate := AddParam(paramsToIncorporate, "Vibe/Mood", Get(options, "audioVibe"));
        AudioLines(options);
      case Some(Code) =>
        modeInstruction := CodeTask;
        paramsToIncorporate := AddParam(paramsToIncorporate, "Language", Get(options, "codeLanguage"));
        paramsToIncorporate := AddParam(paramsToIncorporate, "Task", Get(options, "codeTask"));
        CodeLines(options);
      case None =>
        modeInstruction := GenericTask;
    }
  }

  /** The `addParam` calls of the Image case produce the fold over its fields. */
  lemma ImageLines(o: OptionMap)
    ensures Lines(o, ModeFields(Some(Image))) == AddParam(AddParam(AddParam("", "Style", Get(o, "imageStyle")), "Mood/Tone", Get(o, "contentTone")), "Lighting", Get(o, "lighting"))
  {
    var fs := ModeFields(Some(Image));
    LinesPrefix(o, fs, 0);
    LinesPrefix(o, fs, 1);
    LinesPrefix(o, fs, 2);
    assert fs[..3] == fs;
  }

  /** The `addParam` calls of the Video case produce the fold over its fields. */
  lemma VideoLines(o: OptionMap)
    ensures Lines(o, ModeFields(Some(Video))) == AddParam(AddParam("", "Tone", Get(o, "contentTone")), "Point of View", Get(o, "pov"))
  {
    var fs := ModeFields(Some(Video));
    LinesPrefix(o, fs, 0);
    LinesPrefix(o, fs, 1);
    assert fs[..2] == fs;
  }

  /** The `addParam` calls of the Text case produce the fold over its fields. */
  lemma TextLines(o: OptionMap)
    ensures Lines(o, ModeFields(Some(Text))) == AddParam(AddParam("", "Tone of Voice", Get(o, "contentTone")), "Output Format", Get(o, "outputFormat"))
  {
    var fs := ModeFields(Some(Text));
    LinesPrefix(o, fs, 0);
    LinesPrefix(o, fs, 1);
    assert fs[..2] == fs;
  }

  /** The `addParam` calls of the Audio case produce the fold over its fields. */
  lemma AudioLines(o: OptionMap)
    ensures Lines(o, ModeFields(Some(Audio))) == AddParam(AddParam("", "Audio Type", Get(o, "audioType")), "Vibe/Mood", Get(o, "audioVibe"))
  {
    var fs := ModeFields(Some(Audio));
    LinesPrefix(o, fs, 0);
    LinesPrefix(o, fs, 1);
    assert fs[..2] == fs;
  }

  /** The `addParam` calls of the Code case produce the fold over its fields. */
  lemma CodeLines(o: OptionMap)
    ensures Lines(o, ModeFields(Some(Code))) == AddParam(AddParam("", "Language", Get(o, "codeLanguage")), "Task", Get(o, "codeTask"))
  {
    var fs := ModeFields(Some(Code));
    LinesPrefix(o, fs, 0);
    LinesPrefix(o, fs, 1);
    assert fs[..2] == fs;
  }

  // ---------------------------------------------------------------------
  // What the instruction says
  // ---------------------------------------------------------------------

  /** No case reads two options under the same label. */
  lemma DistinctFieldLabels(mode: Option<PromptMode>)
    ensures DistinctLabels(ModeFields(mode))
  {
  }

  /**
   * The instruction is the mission statement, the task heading and the
   * mode's task sentence, then — only when some option of the mode is
   * truthy — the parameter heading and one `- Label: value` line per truthy
   * option, in the case's order.
   */
  lemma InstructionContents(mode: string, o: OptionMap)
    ensures var ps := Incorporated(o, ModeFields(Parse(mode)));
      SystemInstruction(mode, o) ==
        Mission + (TaskHeading + TaskText(Parse(mode))) + (if ps == [] then "" else ParamsHeading + Render(ps))
  {
    LinesRender(o, ModeFields(Parse(mode)));
    LinesEmptyIff(o, ModeFields(Parse(mode)));
  }

  /**
   * The label of field k is incorporated with value v exactly when the
   * option it reads holds v and v is not empty.
   */
  lemma IncorporatesExactlyTruthy(mode: string, o: OptionMap, k: nat, v: string)
    requires k < |ModeFields(Parse(mode))|
    ensures var f := ModeFields(Parse(mode))[k];
      (f.caption, v) in Incorporated(o, ModeFields(Parse(mode))) <==> Get(o, f.key) == Some(v) && v != ""
  {
    DistinctFieldLabels(Parse(mode));
    IncorporatedIff(o, ModeFields(Parse(mode)), k, v);
  }

  /** The parameter section is there exactly when some field of the mode has a truthy option. */
  lemma SectionIff(mode: string, o: OptionMap)
    ensures var fs := ModeFields(Parse(mode));
      Section(Lines(o, fs)) != "" <==> exists i :: 0 <= i < |fs| && Truthy(Get(o, fs[i].key))
  {
    LinesEmptyIff(o, ModeFields(Parse(mode)));
  }

  /** An unknown mode gets the generic task and no parameter section, whatever the options. */
  lemma UnknownMode(mode: string, o: OptionMap)
    requires Parse(mode).None?
    ensures SystemInstruction(mode, o) == Mission + (TaskHeading + GenericTask)
  {
    assert Section(Lines(o, [])) == "";
  }

  /** Only the mode's own keys affect the instruction. */
  lemma OnlyModeKeysRead(mode: string, o1: OptionMap, o2: OptionMap)
    requires AgreeOn(o1, o2, ModeFields(Parse(mode)))
    ensures SystemInstruction(mode, o1) == SystemInstruction(mode, o2)
  {
    LinesOnlyRead(o1, o2, ModeFields(Parse(mode)));
  }

  /** A key that no field of the mode reads can take any value without changing the instruction. */
  lemma IgnoresKey(mode: string, o: OptionMap, key: string, v: string)
    requires forall i :: 0 <= i < |ModeFields(Parse(mode))| ==> ModeFields(Parse(mode))[i].key != key
    ensures SystemInstruction(mode, o[key := v]) == SystemInstruction(mode, o)
  {
    OnlyModeKeysRead(mode, o[key := v], o);
  }

  /** Unlike the Gemini route, the requested output structure never changes the instruction. */
  lemma IgnoresOutputStructure(mode: string, o: OptionMap, v: string)
    ensures SystemInstruction(mode, o["outputStructure" := v]) == SystemInstruction(mode, o)
  {
    IgnoresKey(mode, o, "outputStructure", v);
  }

  /**
   * The Image case reads only style, tone and lighting: the framing, camera
   * angle, resolution, aspect ratio and details the Gemini route asks for
   * leave this instruction unchanged.
   */
  lemma ImageIgnoresGeminiOnlyKeys(o: OptionMap, key: string, v: string)
    requires key in {"framing", "cameraAngle", "resolution", "aspectRatio", "additionalDetails"}
    ensures SystemInstruction("Image", o[key := v]) == SystemInstruction("Image", o)
  {
    assert Parse("Image") == Some(Image);
    IgnoresKey("Image", o, key, v);
  }

  // ---------------------------------------------------------------------
  // The model input and the request guards of the handler
  // ---------------------------------------------------------------------

  /** `${systemInstruction}\n\nUser Request: ${userPrompt}`. */
  function FullPrompt(instruction: string, userPrompt: string): (r: string)
    ensures |r| == |instruction| + |RequestHeading| + |userPrompt|
    ensures r[..|instruction|] == instruction
    ensures r[|instruction|..|instruction| + |RequestHeading|] == RequestHeading
    ensures r[|instruction| + |RequestHeading|..] == userPrompt
  {
    var r := instruction + RequestHeading + userPrompt;
    assert r[..|instruction|] == instruction;
    assert r[|instruction| + |RequestHeading|..] == userPrompt;
    r
  }

  /**
   * The early replies of the handler, checked in order; None means the
   * request goes on to the hosted model.
   */
  function Guard(httpMethod: string, userPrompt: Option<string>, env: OptionMap): (r: Option<Response>)
    ensures httpMethod == "OPTIONS" ==> r == Some(Response(200, NoBody))
    ensures httpMethod != "OPTIONS" && httpMethod != "POST" ==> r == Some(Response(405, ErrorBody("Method not allowed")))
    ensures httpMethod == "POST" && !Truthy(userPrompt) ==> r == Some(Response(400, ErrorBody("Missing userPrompt")))
    ensures httpMethod == "POST" && Truthy(userPrompt) && !Truthy(Get(env, "HUGGINGFACE_API_KEY")) ==>
      r == Some(Response(500, ErrorBody("Hugging Face API key not configured")))
    ensures r.None? <==> httpMethod == "POST" && Truthy(userPrompt) && Truthy(Get(env, "HUGGINGFACE_API_KEY"))
  {
    if httpMethod == "OPTIONS" then Some(Response(200, NoBody))
    else if httpMethod != "POST" then Some(Response(405, ErrorBody("Method not allowed")))
    else if !Truthy(userPrompt) then Some(Response(400, ErrorBody("Missing userPrompt")))
    else if !Truthy(Get(env, "HUGGINGFACE_API_KEY")) then Some(Response(500, ErrorBody("Hugging Face API key not configured")))
    else None
  }
}
