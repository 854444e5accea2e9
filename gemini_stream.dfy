/**
 * The streaming Gemini route: its request guards and the system instruction
 * it builds from the prompt mode and the posted options.
 */
module GeminiStream {
  import opened Wrappers
  import opened Options
  import opened ParamLines
  import opened Http
  import opened Modes

  const Mission: string :=
    "You are a world-class prompt engineer. "
    + "Your mission is to expand a user's "
    + "simple idea into a rich, detailed, and "
    + "highly effective prompt for a "
    + "generative AI model. The generated "
    + "prompt should be a masterpiece of "
    + "clarity and descriptive power."

  /** Appended when the requested output structure is a descriptive paragraph. */
  const OutputOnly: string :=
    " Do not add any conversational text, "
    + "prefixes, or explanations. Only output "
    + "the final prompt."

  const ImageTask: string :=
    "The target model is a state-of-the-art "
    + "AI image generator. Weave the following "
    + "parameters into a fluid, descriptive "
    + "paragraph. Do not just list them. The "
    + "prompt should paint a vivid picture for "
    + "the AI."
  const VideoTask: string :=
    "The target model is a state-of-the-art "
    + "AI video generator. Describe a "
    + "continuous scene, focusing on motion, "
    + "atmosphere, and visual storytelling."
  const TextTask: string :=
    "The target is a large language model. "
    + "Your goal is to refine the user's "
    + "request into a crystal-clear and "
    + "effective prompt for generating text."
  const AudioTask: string :=
    "The target model is an AI audio/music "
    + "generator. Describe the sound in "
    + "detail, including instrumentation, "
    + "tempo, and emotional feeling."
  const CodeTask: string :=
    "The target model is a code generation "
    + "AI. Create a precise and unambiguous "
    + "prompt to accomplish the user's "
    + "technical task. The prompt must provide "
    + "sufficient context for the AI to "
    + "generate, debug, or explain code "
    + "correctly."
  const GenericTask: string := "Generate a general-purpose, high-quality prompt."

  /** The task sentence of each `case` of the `switch (mode)`, and of its `default`. */
  function TaskText(mode: Option<PromptMode>): string {
    match mode
    case Some(Image) => ImageTask
    case Some(Video) => VideoTask
    case Some(Text) => TextTask
    case Some(Audio) => AudioTask
    case Some(Code) => CodeTask
    case None => GenericTask
  }

  /** The `addParam` calls of each case, in order; the default case makes none. */
  function ModeFields(mode: Option<PromptMode>): seq<Field> {
    match mode
    case Some(Image) =>
      [Field("Style", "imageStyle"), Field("Mood/Tone", "contentTone"), Field("Lighting", "lighting"),
       Field("Framing", "framing"), Field("Camera Angle", "cameraAngle"), Field("Detail Level", "resolution"),
       Field("Aspect Ratio", "aspectRatio"), Field("Additional Specifics", "additionalDetails")]
    case Some(Video) =>
      [Field("Tone", "contentTone"), Field("Point of View", "pov"), Field("Detail Level", "resolution")]
    case Some(Text) =>
      [Field("Tone of Voice", "contentTone"), Field("Desired Output Format", "outputFormat")]
    case Some(Audio) =>
      [Field("Audio Type", "audioType"), Field("Vibe/Mood", "audioVibe"), Field("Overall Tone", "contentTone")]
    case Some(Code) =>
      [Field("Language", "codeLanguage"), Field("Task", "codeTask")]
    case None => []
  }

  /** The mission statement, with the output-only directive for a descriptive paragraph. */
  function Preamble(o: OptionMap): string {
    Mission + (if StrictEquals(o, "outputStructure", "Descriptive Paragraph") then OutputOnly else "")
  }

  /** Everything up to and including the task sentence. */
  function Head(mode: Option<PromptMode>, o: OptionMap): string {
    Preamble(o) + (TaskHeading + TaskText(mode))
  }

  /** The instruction `buildSystemInstruction(mode, options)` returns. */
  function SystemInstruction(mode: string, o: OptionMap): string {
    Head(Parse(mode), o) + Section(Lines(o, ModeFields(Parse(mode))))
  }

  /** `buildSystemInstruction`, accumulating into local strings as the route does. */
  method BuildSystemInstruction(mode: string, options: OptionMap) returns (instruction: string)
    ensures instruction == SystemInstruction(mode, options)
  {
    instruction := Mission;
    if StrictEquals(options, "outputStructure", "Descriptive Paragraph") {
      instruction := instruction + OutputOnly;
    }
    assert instruction == Preamble(options);
    var modeInstruction, paramsToIncorporate := ModeParameters(Parse(mode), options);
    instruction := instruction + (TaskHeading + modeInstruction);
    assert instruction == Head(Parse(mode), options);
    if paramsToIncorporate != "" {
      instruction := instruction + (ParamsHeading + paramsToIncorporate);
    }
  }

  /** The `switch (mode)` of `buildSystemInstruction`: the task sentence and the `addParam` calls of each case. */
  method ModeParameters(mode: Option<PromptMode>, options: OptionMap) returns (modeInstruction: string, paramsToIncorporate: string)
    ensures modeInstruction == TaskText(mode)
    ensures paramsToIncorporate == Lines(options, ModeFields(mode))
  {
    modeInstruction := "";
    paramsToIncorporate := "";
    match mode {
      case Some(Image) =>
        modeInstruction := ImageTask;
        paramsToIncorporate := AddParam(paramsToIncorporate, "Style", Get(options, "imageStyle"));
        paramsToIncorporate := AddParam(paramsToIncorporate, "Mood/Tone", Get(options, "contentTone"));
        paramsToIncorporate := AddParam(paramsToIncorporate, "Lighting", Get(options, "lighting"));
        paramsToIncorporate := AddParam(paramsToIncorporate, "Framing", Get(options, "framing"));
        paramsToIncorporate := AddParam(paramsToIncorporate, "Camera Angle", Get(options, "cameraAngle"));
        paramsToIncorporate := AddParam(paramsToIncorporate, "Detail Level", Get(options, "resolution"));
        paramsToIncorporate := AddParam(paramsToIncorporate, "Aspect Ratio", Get(options, "aspectRatio"));
        paramsToIncorporate := AddParam(paramsToIncorporate, "Additional Specifics", Get(options, "additionalDetails"));
        ImageLines(options);
      case Some(Video) =>
        modeInstruction := VideoTask;
        paramsToIncorporate := AddParam(paramsToIncorporate, "Tone", Get(options, "contentTone"));
        paramsToIncorporate := AddParam(paramsToIncorporate, "Point of View", Get(options, "pov"));
        paramsToIncorporate := AddParam(paramsToIncorporate, "Detail Level", Get(options, "resolution"));
        VideoLines(options);
      case Some(Text) =>
        modeInstruction := TextTask;
        paramsToIncorporate := AddParam(paramsToIncorporate, "Tone of Voice", Get(options, "contentTone"));
        paramsToIncorporate := AddParam(paramsToIncorporate, "Desired Output Format", Get(options, "outputFormat"));
        TextLines(options);
      case Some(Audio) =>
        modeInstruction := AudioTask;
        paramsToIncorporate := AddParam(paramsToIncorporate, "Audio Type", Get(options, "audioType"));
        paramsToIncorporate := AddParam(paramsToIncorporate, "Vibe/Mood", Get(options, "audioVibe"));
        paramsToIncorporate := AddParam(paramsToIncorporate, "Overall Tone", Get(options, "contentTone"));
        AudioLines(options);
      case Some(Code) =>
        modeInstruction := CodeTask;
        paramsToIncorporate := AddParam(paramsToIncorporate, "Language", Get(options, "codeLanguage"));
        paramsToIncorporate := AddParam(paramsToIncorporate, "Task", Get(options, "codeTask"));
        CodeLines(options);
      case None =>
        modeInstruction := GenericTask;
    }
  }

  /** The `addParam` calls of the Image case produce the fold over its fields. */
  lemma ImageLines(o: OptionMap)
    ensures Lines(o, ModeFields(Some(Image))) == AddParam(AddParam(AddParam(AddParam(AddParam(AddParam(AddParam(AddParam("", "Style", Get(o, "imageStyle")), "Mood/Tone", Get(o, "contentTone")), "Lighting", Get(o, "lighting")), "Framing", Get(o, "framing")), "Camera Angle", Get(o, "cameraAngle")), "Detail Level", Get(o, "resolution")), "Aspect Ratio", Get(o, "aspectRatio")), "Additional Specifics", Get(o, "additionalDetails"))
  {
    var fs := ModeFields(Some(Image));
    LinesPrefix(o, fs, 0);
    LinesPrefix(o, fs, 1);
    LinesPrefix(o, fs, 2);
    LinesPrefix(o, fs, 3);
    LinesPrefix(o, fs, 4);
    LinesPrefix(o, fs, 5);
    LinesPrefix(o, fs, 6);
    LinesPrefix(o, fs, 7);
    assert fs[..8] == fs;
  }

  /** The `addParam` calls of the Video case produce the fold over its fields. */
  lemma VideoLines(o: OptionMap)
    ensures Lines(o, ModeFields(Some(Video))) == AddParam(AddParam(AddParam("", "Tone", Get(o, "contentTone")), "Point of View", Get(o, "pov")), "Detail Level", Get(o, "resolution"))
  {
    var fs := ModeFields(Some(Video));
    LinesPrefix(o, fs, 0);
    LinesPrefix(o, fs, 1);
    LinesPrefix(o, fs, 2);
    assert fs[..3] == fs;
  }

  /** The `addParam` calls of the Text case produce the fold over its fields. */
  lemma TextLines(o: OptionMap)
    ensures Lines(o, ModeFields(Some(Text))) == AddParam(AddParam("", "Tone of Voice", Get(o, "contentTone")), "Desired Output Format", Get(o, "outputFormat"))
  {
    var fs := ModeFields(Some(Text));
    LinesPrefix(o, fs, 0);
    LinesPrefix(o, fs, 1);
    assert fs[..2] == fs;
  }

  /** The `addParam` calls of the Audio case produce the fold over its fields. */
  lemma AudioLines(o: OptionMap)
    ensures Lines(o, ModeFields(Some(Audio))) == AddParam(AddParam(AddParam("", "Audio Type", Get(o, "audioType")), "Vibe/Mood", Get(o, "audioVibe")), "Overall Tone", Get(o, "contentTone"))
  {
    var fs := ModeFields(Some(Audio));
    LinesPrefix(o, fs, 0);
    LinesPrefix(o, fs, 1);
    LinesPrefix(o, fs, 2);
    assert fs[..3] == fs;
  }

  /** The `addParam` calls of the Code case produce the fold over its fields. */
  lemma CodeLines(o: OptionMap)
    ensures Lines(o, ModeFields(Some(Code))) == AddParam(AddParam("", "Language", Get(o, "codeLanguage")), "Task", Get(o, "codeTask"))
  {
    var fs := ModeFields(Some(Code));
    LinesPrefix(o, fs, 0);
    LinesPrefix(o, fs, 1);
    assert fs[..2] == fs;
  }

  // ---------------------------------------------------------------------
  // What the instruction says
  // ---------------------------------------------------------------------

  /** No case reads two options under the same label. */
  lemma DistinctFieldLabels(mode: Option<PromptMode>)
    ensures DistinctLabels(ModeFields(mode))
  {
  }

  /**
   * The instruction is the preamble, the task heading and the mode's task
   * sentence, then — only when some option of the mode is truthy — the
   * parameter heading and one `- Label: value` line per truthy option, in
   * the case's order.
   */
  lemma InstructionContents(mode: string, o: OptionMap)
    ensures var ps := Incorporated(o, ModeFields(Parse(mode)));
      SystemInstruction(mode, o) ==
        Preamble(o) + (TaskHeading + TaskText(Parse(mode))) + (if ps == [] then "" else ParamsHeading + Render(ps))
  {
    LinesRender(o, ModeFields(Parse(mode)));
    LinesEmptyIff(o, ModeFields(Parse(mode)));
  }

  /** The instruction always opens with the mission statement. */
  lemma StartsWithMission(mode: string, o: OptionMap)
    ensures Mission <= SystemInstruction(mode, o)
  {
    var extra := if StrictEquals(o, "outputStructure", "Descriptive Paragraph") then OutputOnly else "";
    var task := TaskHeading + TaskText(Parse(mode));
    var section := Section(Lines(o, ModeFields(Parse(mode))));
    Prefix3(Mission, extra, task, section);
  }

  /** The output-only directive follows the mission exactly when a descriptive paragraph is requested. */
  lemma OutputOnlyIff(mode: string, o: OptionMap)
    ensures Mission + OutputOnly <= SystemInstruction(mode, o) <==> StrictEquals(o, "outputStructure", "Descriptive Paragraph")
  {
    var task := TaskHeading + TaskText(Parse(mode));
    var section := Section(Lines(o, ModeFields(Parse(mode))));
    if StrictEquals(o, "outputStructure", "Descriptive Paragraph") {
      Prefix3(Mission, OutputOnly, task, section);
    } else {
      assert OutputOnly[0] == ' ' && task[0] == '\n';
      EmptyMiddle(Mission, task, section);
      PrefixMismatch(Mission, OutputOnly, task + section);
    }
  }

  lemma EmptyMiddle(a: string, c: string, d: string)
    ensures (a + "") + c + d == a + (c + d)
  {
  }

  lemma Prefix3(a: string, b: string, c: string, d: string)
    ensures a + b <= (a + b) + c + d
  {
    assert ((a + b) + c + d)[..|a + b|] == a + b;
  }

  lemma PrefixMismatch(a: string, b: string, c: string)
    requires b != [] && |c| > 0 && b[0] != c[0]
    ensures !(a + b <= a + c)
  {
    assert (a + b)[|a|] != (a + c)[|a|];
  }

  /**
   * The label of field k is incorporated with value v exactly when the
   * option it reads holds v and v is not empty.
   */
  lemma IncorporatesExactlyTruthy(mode: string, o: OptionMap, k: nat, v: string)
    requires k < |ModeFields(Parse(mode))|
    ensures var f := ModeFields(Parse(mode))[k];
      (f.caption, v) in Incorporated(o, ModeFields(Parse(mode))) <==> Get(o, f.key) == Some(v) && v != ""
  {
    DistinctFieldLabels(Parse(mode));
    IncorporatedIff(o, ModeFields(Parse(mode)), k, v);
  }

  /** The parameter section is there exactly when some field of the mode has a truthy option. */
  lemma SectionIff(mode: string, o: OptionMap)
    ensures var fs := ModeFields(Parse(mode));
      Section(Lines(o, fs)) != "" <==> exists i :: 0 <= i < |fs| && Truthy(Get(o, fs[i].key))
  {
    LinesEmptyIff(o, ModeFields(Parse(mode)));
  }

  /** An unknown mode gets the generic task and no parameter section, whatever the options. */
  lemma UnknownMode(mode: string, o: OptionMap)
    requires Parse(mode).None?
    ensures SystemInstruction(mode, o) == Preamble(o) + (TaskHeading + GenericTask)
  {
    assert Section(Lines(o, [])) == "";
  }

  /** Only the mode's own keys and `outputStructure` affect the instruction. */
  lemma OnlyModeKeysRead(mode: string, o1: OptionMap, o2: OptionMap)
    requires AgreeOn(o1, o2, ModeFields(Parse(mode)))
    requires Get(o1, "outputStructure") == Get(o2, "outputStructure")
    ensures SystemInstruction(mode, o1) == SystemInstruction(mode, o2)
  {
    LinesOnlyRead(o1, o2, ModeFields(Parse(mode)));
  }

  // ---------------------------------------------------------------------
  // The request guards of the handler
  // ---------------------------------------------------------------------

  /** `process.env.GEMINI_API_KEY || process.env.VITE_GEMINI_API_KEY`. */
  function ApiKey(env: OptionMap): (r: Option<string>)
    ensures Truthy(r) <==> Truthy(Get(env, "GEMINI_API_KEY")) || Truthy(Get(env, "VITE_GEMINI_API_KEY"))
    ensures Truthy(Get(env, "GEMINI_API_KEY")) ==> r == Get(env, "GEMINI_API_KEY")
  {
    if Truthy(Get(env, "GEMINI_API_KEY")) then Get(env, "GEMINI_API_KEY") else Get(env, "VITE_GEMINI_API_KEY")
  }

  /**
   * The early replies of the handler, checked in order; None means the
   * request goes on to the provider with a 200 stream.
   */
  function Guard(httpMethod: string, userPrompt: Option<string>, env: OptionMap): (r: Option<Response>)
    ensures httpMethod == "OPTIONS" ==> r == Some(Response(200, NoBody))
    ensures httpMethod != "OPTIONS" && httpMethod != "POST" ==> r == Some(Response(405, ErrorBody("Method not allowed")))
    ensures httpMethod == "POST" && !Truthy(userPrompt) ==> r == Some(Response(400, ErrorBody("Missing userPrompt")))
    ensures httpMethod == "POST" && Truthy(userPrompt) && !Truthy(ApiKey(env)) ==>
      r == Some(Response(500, ErrorBody("API key not configured")))
    ensures r.None? <==> httpMethod == "POST" && Truthy(userPrompt) && Truthy(ApiKey(env))
  {
    if httpMethod == "OPTIONS" then Some(Response(200, NoBody))
    else if httpMethod != "POST" then Some(Response(405, ErrorBody("Method not allowed")))
    else if !Truthy(userPrompt) then Some(Response(400, ErrorBody("Missing userPrompt")))
    else if !Truthy(ApiKey(env)) then Some(Response(500, ErrorBody("API key not configured")))
    else None
  }
}
