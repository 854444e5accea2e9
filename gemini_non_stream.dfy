/**
 * The non-streaming Gemini route: its request guards, the system prompt it
 * builds for each prompt mode, the classification of the model's reply
 * and the shape of the JSON reply it sends back.
 */
module GeminiNonStream {
  import opened Wrappers
  import opened JsStrings
  import opened Options
  import opened Http
  import opened Modes

  /** A line break followed by the twelve spaces that indent the template lines. */
  const Indent: string := "\n            "

  /** The opening sentence of every mode's prompt. */
  const BasePrompt: string :=
      "You are a world-class prompt engineer, "
      + "a specialist in crafting detailed, "
      + "effective prompts for AI models. Your "
      + "task is to take a user's basic idea and "
      + "transform it into a \"master prompt\" "
      + "optimized for a specific modality."

  /** The Video template up to its directives: modality, task and the directives heading. */
  const VideoHeader: string :=
      Indent + "**Modality: Video Generation (e.g., "
      + "Sora, Veo, Runway)**"
      + Indent + "**Task:** Write a \"master prompt\" as a "
      + "single, dense paragraph (150-250 words) "
      + "that functions as a detailed screenplay "
      + "shot description for an 8-second video. "
      + "It must be evocative, precise, and "
      + "describe a complete micro-narrative."
      + Indent + "**Directives:**"

  /** The Video template after its directives. */
  const VideoFooter: string :=
      Indent + "- **Key Requirements:** Establish a "
      + "narrative arc (beginning, middle, end). "
      + "Be visually explicit about subjects, "
      + "actions, environment, and "
      + "cinematography. Define the atmosphere "
      + "with powerful adjectives."
      + Indent + "**Output Format:** A single paragraph "
      + "starting directly with the description. "
      + "No introductory text or markdown."

  /** The Image template up to its directives: modality, task and the directives heading. */
  const ImageHeader: string :=
      Indent + "**Modality: Image Generation (e.g., "
      + "Imagen, Midjourney, DALL-E)**"
      + Indent + "**Task:** Transform the user's concept "
      + "into an extremely dense, "
      + "comma-separated list of keywords and "
      + "phrases. The prompt should be rich in "
      + "technical and artistic terms."
      + Indent + "**Directives:**"

  /** The Image template after its directives. */
  const ImageFooter: string :=
      Indent + "**Key Requirements:** Use descriptive "
      + "keywords, not full sentences. "
      + "Incorporate professional terminology "
      + "from photography and art."
      + Indent + "**Output Format:** A single, "
      + "comma-separated string of keywords. No "
      + "preamble, explanation, or markdown."

  /** The Text template up to its directives: modality, task and the directives heading. */
  const TextHeader: string :=
      Indent + "**Modality: Text Generation (Large "
      + "Language Models, e.g., Gemini, GPT-4)**"
      + Indent + "**Task:** Refine the user's prompt to "
      + "be more specific, structured, and "
      + "effective for an LLM. Clarify intent, "
      + "add constraints, and define the desired "
      + "output format."
      + Indent + "**Directives:**"

  /** The Text template after its directives. */
  const TextFooter: string :=
      Indent + "**Key Requirements:** Enhance the "
      + "original prompt by adding context, "
      + "specifying a persona for the AI, "
      + "providing examples (if applicable), and "
      + "setting clear boundaries to prevent "
      + "vague responses."
      + Indent + "**Output Format:** The complete, "
      + "enhanced text prompt, ready to be used."

  /** The Audio template up to its directives: modality, task and the directives heading. */
  const AudioHeader: string :=
      Indent + "**Modality: Audio Generation (e.g., "
      + "Suno, ElevenLabs)**"
      + Indent + "**Task:** Create a rich, descriptive "
      + "prompt for generating audio. This could "
      + "be for music, speech, or sound effects."
      + Indent + "**Directives:**"

  /** The Audio template after its directives. */
  const AudioFooter: string :=
      Indent + "**Key Requirements:** If music, "
      + "describe genre, tempo, instrumentation, "
      + "and vocals. If speech, describe the "
      + "speaker's voice, emotion, and pacing. "
      + "If SFX, describe the sound's "
      + "characteristics and environment."
      + Indent + "**Output Format:** A descriptive "
      + "paragraph tailored for an audio "
      + "generation model."

  /** The Code template up to its directives: modality, task and the directives heading. */
  const CodeHeader: string :=
      Indent + "**Modality: Code Generation (e.g., "
      + "Copilot, CodeWhisperer)**"
      + Indent + "**Task:** Convert a natural language "
      + "request into a precise and clear "
      + "instruction for a code generation model."
      + Indent + "**Directives:**"

  /** The Code template after its directives. */
  const CodeFooter: string :=
      Indent + "**Key Requirements:** Be unambiguous. "
      + "Specify function names, parameters, "
      + "expected return values, and logic. If "
      + "debugging, provide the broken code and "
      + "describe the error. If refactoring, "
      + "state the goals (e.g., improve "
      + "performance, readability)."
      + Indent + "**Output Format:** A well-commented, "
      + "clear, and actionable prompt for a code "
      + "generation AI."

  /** What an unknown mode gets instead of a template. */
  const Fallback: string := "You are a helpful assistant."

  /** One `- Label: ${options.key}` line of a template; a quoted value is wrapped in double quotes. */
  datatype Directive = Directive(caption: string, key: string, quoted: bool)

  /** The text a directive interpolates: the option, or `undefined` when it is absent. */
  function DirectiveValue(o: OptionMap, d: Directive): string {
    if d.quoted then "\"" + Interpolate(Get(o, d.key)) + "\"" else Interpolate(Get(o, d.key))
  }

  function DirectiveLine(o: OptionMap, d: Directive): string {
    Indent + "- " + d.caption + ": " + DirectiveValue(o, d)
  }

  /** The directive lines, in order, one per directive whatever its value. */
  function Directives(o: OptionMap, ds: seq<Directive>): string
    decreases |ds|
  {
    if |ds| == 0 then "" else DirectiveLine(o, ds[0]) + Directives(o, ds[1..])
  }

  /** The directives of each mode's template, in order. */
  function ModeDirectives(m: PromptMode): seq<Directive> {
    match m
    case Video => [Directive("Content Tone", "contentTone", false), Directive("Point of View", "pov", false), Directive("Quality", "resolution", false)]
    case Image => [Directive("Style", "imageStyle", false), Directive("Tone & Mood", "contentTone", false), Directive("Lighting", "lighting", false), Directive("Framing", "framing", false), Directive("Camera Angle", "cameraAngle", false), Directive("Quality", "resolution", false), Directive("Aspect Ratio", "aspectRatio", false), Directive("Additional Details", "additionalDetails", true)]
    case Text => [Directive("Tone", "contentTone", false), Directive("Desired Output Format", "outputFormat", false)]
    case Audio => [Directive("Audio Type", "audioType", false), Directive("Vibe / Mood", "audioVibe", false), Directive("Tone", "contentTone", false)]
    case Code => [Directive("Programming Language", "codeLanguage", false), Directive("Task", "codeTask", false)]
  }

  function Header(m: PromptMode): string {
    match m
    case Video => VideoHeader
    case Image => ImageHeader
    case Text => TextHeader
    case Audio => AudioHeader
    case Code => CodeHeader
  }

  function Footer(m: PromptMode): string {
    match m
    case Video => VideoFooter
    case Image => ImageFooter
    case Text => TextFooter
    case Audio => AudioFooter
    case Code => CodeFooter
  }

  /** `buildSystemPrompt(mode, options)`: one template per mode, the fallback sentence otherwise. */
  function BuildSystemPrompt(mode: string, o: OptionMap): string {
    match Parse(mode)
    case Some(m) => BasePrompt + (Header(m) + (Directives(o, ModeDirectives(m)) + Footer(m)))
    case None => Fallback
  }

  // ---------------------------------------------------------------------
  // What the system prompt says
  // ---------------------------------------------------------------------

  /** The prompt begins with the base sentence exactly when the mode is one of the five. */
  lemma StartsWithBaseIff(mode: string, o: OptionMap)
    ensures BasePrompt <= BuildSystemPrompt(mode, o) <==> Parse(mode).Some?
  {
    match Parse(mode)
    case Some(m) =>
      var rest := Header(m) + (Directives(o, ModeDirectives(m)) + Footer(m));
      assert BuildSystemPrompt(mode, o) == BasePrompt + rest;
      assert BuildSystemPrompt(mode, o)[..|BasePrompt|] == BasePrompt;
    case None =>
      assert |Fallback| < |BasePrompt|;
  }

  /** An unknown mode returns only the fallback sentence, whatever the options. */
  lemma UnknownModeFallback(mode: string, o: OptionMap)
    requires Parse(mode).None?
    ensures BuildSystemPrompt(mode, o) == Fallback
    ensures !(BasePrompt <= BuildSystemPrompt(mode, o))
  {
    StartsWithBaseIff(mode, o);
  }

  /** Every directive line is part of the directive block. */
  lemma {:induction false} DirectivesContain(o: OptionMap, ds: seq<Directive>, k: nat)
    requires k < |ds|
    ensures Contains(Directives(o, ds), DirectiveLine(o, ds[k]))
    decreases |ds|
  {
    var line := DirectiveLine(o, ds[0]);
    var rest := Directives(o, ds[1..]);
    assert Directives(o, ds) == line + rest + "";
    if k == 0 {
      assert OccursAt(line, line, 0);
      ContainsInFrame("", line, rest, line);
      assert "" + line + rest == line + rest + "";
    } else {
      DirectivesContain(o, ds[1..], k - 1);
      assert ds[1..][k - 1] == ds[k];
      ContainsInFrame(line, rest, "", DirectiveLine(o, ds[k]));
    }
  }

  /**
   * Every directive of the mode is rendered, with no test of its value: an
   * empty option gives `- Label: ` and an absent one `- Label: undefined`.
   */
  lemma EveryDirectiveRendered(mode: string, o: OptionMap, k: nat)
    requires Parse(mode).Some? && k < |ModeDirectives(Parse(mode).value)|
    ensures Contains(BuildSystemPrompt(mode, o), DirectiveLine(o, ModeDirectives(Parse(mode).value)[k]))
  {
    var m := Parse(mode).value;
    var ds := ModeDirectives(m);
    DirectivesContain(o, ds, k);
    ContainsInTemplate(BasePrompt, Header(m), Directives(o, ds), Footer(m), DirectiveLine(o, ds[k]));
  }

  /** A substring of the middle part of a template is a substring of the template. */
  lemma ContainsInTemplate(a: string, h: string, b: string, f: string, x: string)
    requires Contains(b, x)
    ensures Contains(a + (h + (b + f)), x)
  {
    ContainsInFrame(a + h, b, f, x);
    assert a + h + b + f == a + (h + (b + f));
  }

  /** The Image template quotes the additional details, so an empty value renders as `""`. */
  lemma ImageQuotesDetails(o: OptionMap)
    ensures Contains(BuildSystemPrompt("Image", o),
      Indent + "- " + "Additional Details" + ": " + ("\"" + Interpolate(Get(o, "additionalDetails")) + "\""))
  {
    assert Parse("Image") == Some(Image);
    EveryDirectiveRendered("Image", o, 7);
  }

  lemma {:induction false} DirectivesOnlyRead(o1: OptionMap, o2: OptionMap, ds: seq<Directive>)
    requires forall i :: 0 <= i < |ds| ==> Get(o1, ds[i].key) == Get(o2, ds[i].key)
    ensures Directives(o1, ds) == Directives(o2, ds)
    decreases |ds|
  {
    if |ds| > 0 {
      DirectivesOnlyRead(o1, o2, ds[1..]);
    }
  }

  /** Only the keys of the mode's directives affect the prompt. */
  lemma OnlyDirectiveKeysRead(mode: string, o1: OptionMap, o2: OptionMap)
    requires Parse(mode).Some?
    requires var ds := ModeDirectives(Parse(mode).value);
      forall i :: 0 <= i < |ds| ==> Get(o1, ds[i].key) == Get(o2, ds[i].key)
    ensures BuildSystemPrompt(mode, o1) == BuildSystemPrompt(mode, o2)
  {
    DirectivesOnlyRead(o1, o2, ModeDirectives(Parse(mode).value));
  }

  // ---------------------------------------------------------------------
  // The handler
  // ---------------------------------------------------------------------

  /** The user turn sent to the model: a fixed request, then the idea in double quotes. */
  const CoreIdeaLead: string :=
      "Here is my core idea. Please generate "
      + "the master prompt based on the "
      + "instructions you have been given."
      + "\n\n**Core Idea:** \""

  function FinalUserPrompt(userPrompt: string): (r: string)
    ensures |r| == |CoreIdeaLead| + |userPrompt| + 1
    ensures r[..|CoreIdeaLead|] == CoreIdeaLead && r[|r| - 1] == '"'
    ensures r[|CoreIdeaLead|..|r| - 1] == userPrompt
  {
    var r := CoreIdeaLead + userPrompt + "\"";
    assert r[..|CoreIdeaLead|] == CoreIdeaLead;
    assert r[|CoreIdeaLead|..|r| - 1] == userPrompt;
    r
  }

  /**
   * The early replies of the handler, checked in order; None means the
   * request goes on to the model. The authorization header must equal the
   * configured client key, both possibly absent.
   */
  function Guard(httpMethod: string, authorization: Option<string>, userPrompt: Option<string>, env: OptionMap): (r: Option<Response>)
    ensures httpMethod == "OPTIONS" ==> r == Some(Response(200, NoBody))
    ensures httpMethod != "OPTIONS" && httpMethod != "POST" ==> r == Some(Response(405, ErrorBody("Method not allowed")))
    ensures httpMethod == "POST" && authorization != Get(env, "CLIENT_API_KEY") ==>
      r == Some(Response(401, ErrorBody("Unauthorized")))
    ensures httpMethod == "POST" && authorization == Get(env, "CLIENT_API_KEY") && !Truthy(userPrompt) ==>
      r == Some(Response(400, ErrorBody("Missing userPrompt")))
    ensures (httpMethod == "POST" && authorization == Get(env, "CLIENT_API_KEY") && Truthy(userPrompt)
             && !Truthy(Get(env, "GEMINI_API_KEY"))) ==> r == Some(Response(500, ErrorBody("API key not configured")))
    ensures r.None? <==> (httpMethod == "POST" && authorization == Get(env, "CLIENT_API_KEY")
                          && Truthy(userPrompt) && Truthy(Get(env, "GEMINI_API_KEY")))
  {
    if httpMethod == "OPTIONS" then Some(Response(200, NoBody))
    else if httpMethod != "POST" then Some(Response(405, ErrorBody("Method not allowed")))
    else if authorization != Get(env, "CLIENT_API_KEY") then Some(Response(401, ErrorBody("Unauthorized")))
    else if !Truthy(userPrompt) then Some(Response(400, ErrorBody("Missing userPrompt")))
    else if !Truthy(Get(env, "GEMINI_API_KEY")) then Some(Response(500, ErrorBody("API key not configured")))
    else None
  }

  /** With no client key configured, a request without an authorization header is let through. */
  lemma OpenWhenNoClientKey(userPrompt: Option<string>, env: OptionMap)
    requires "CLIENT_API_KEY" !in env && Truthy(userPrompt) && Truthy(Get(env, "GEMINI_API_KEY"))
    ensures Guard("POST", None, userPrompt, env).None?
    ensures forall key :: Guard("POST", Some(key), userPrompt, env) == Some(Response(401, ErrorBody("Unauthorized")))
  {
  }

  /** The first candidate of a reply; only the text of its first part is modelled. */
  datatype Candidate = Candidate(text: Option<string>)

  /** `result.response`: its candidates and the block reason of its prompt feedback. */
  datatype ApiResponse = ApiResponse(candidates: Option<seq<Candidate>>, blockReason: Option<string>)

  /** How the call to the model ended: with a result, or with an error and its optional cause. */
  datatype Outcome = Resolved(response: Option<ApiResponse>) | Rejected(message: string, cause: Option<string>)

  /** The reply has at least one candidate. */
  predicate HasCandidates(response: Option<ApiResponse>) {
    response.Some? && response.value.candidates.Some? && |response.value.candidates.value| > 0
  }

  /** The raw text of the reply, or the message of the error thrown for it. */
  function ClassifyReply(response: Option<ApiResponse>): (r: Result<string, string>)
    ensures r.Success? <==> HasCandidates(response) && Truthy(response.value.candidates.value[0].text)
    ensures r.Success? ==> r.value == response.value.candidates.value[0].text.value && r.value != ""
    ensures !HasCandidates(response) && response.Some? && Truthy(response.value.blockReason) ==>
      r == Failure("Request was blocked by the API. Reason: " + response.value.blockReason.value)
    ensures !HasCandidates(response) && !(response.Some? && Truthy(response.value.blockReason)) ==>
      r == Failure("Invalid or empty response from Gemini API")
    ensures HasCandidates(response) && !Truthy(response.value.candidates.value[0].text) ==>
      r == Failure("Empty response from Gemini API")
  {
    if !HasCandidates(response) then
      if response.Some? && Truthy(response.value.blockReason) then
        Failure("Request was blocked by the API. Reason: " + response.value.blockReason.value)
      else Failure("Invalid or empty response from Gemini API")
    else
      var text := response.value.candidates.value[0].text;
      if !Truthy(text) then Failure("Empty response from Gemini API") else Success(text.value)
  }

  /** `{mode}` as a JSON object: an absent mode is `undefined`, which serialises to no key. */
  function ModeEntry(mode: Option<string>): map<string, string> {
    match mode
    case Some(m) => map["mode" := m]
    case None => map[]
  }

  /**
   * `{mode, ...options}` as serialised, with an empty `additionalDetails`
   * removed: the options win over the mode, and every other key is kept as
   * it is.
   */
  function SpreadOptions(mode: Option<string>, o: OptionMap): (r: map<string, string>)
    ensures forall k :: k in r <==> ((k == "mode" && mode.Some?) || k in o) && !(k == "additionalDetails" && Get(o, k) == Some(""))
    ensures forall k :: k in o && k in r ==> r[k] == o[k]
    ensures mode.Some? && "mode" !in o ==> r["mode"] == mode.value
  {
    var p := ModeEntry(mode) + o;
    if "additionalDetails" in p && p["additionalDetails"] == "" then p - {"additionalDetails"} else p
  }

  /** The JSON body: built with every option, then `additionalDetails` deleted when it is empty. */
  method JsonOutput(prompt: string, mode: Option<string>, options: OptionMap) returns (body: Body)
    ensures body == PromptWithParameters(prompt, SpreadOptions(mode, options))
  {
    var parameters := ModeEntry(mode) + options;
    if "additionalDetails" in parameters && parameters["additionalDetails"] == "" {
      parameters := parameters - {"additionalDetails"};
    }
    body := PromptWithParameters(prompt, parameters);
  }

  /** The body of the 500 reply for an error with the given message and cause. */
  function FailureReply(details: string, cause: Option<string>): Response {
    Response(500, FailureBody(GenerationFailed, details, if Truthy(cause) then cause else None))
  }

  /**
   * The handler: the guards, then the outcome of the model call. A reply
   * with text becomes a 200 whose prompt is that text trimmed, with the
   * parameters only when `outputStructure` is exactly `JSON`; every error
   * becomes a 500 naming it.
   */
  method Handle(httpMethod: string, authorization: Option<string>, userPrompt: Option<string>, mode: Option<string>,
                options: OptionMap, env: OptionMap, outcome: Outcome) returns (resp: Response)
    ensures Guard(httpMethod, authorization, userPrompt, env).Some? ==>
      resp == Guard(httpMethod, authorization, userPrompt, env).value
    ensures Guard(httpMethod, authorization, userPrompt, env).None? && outcome.Rejected? ==>
      resp == FailureReply(outcome.message, outcome.cause)
    ensures (Guard(httpMethod, authorization, userPrompt, env).None? && outcome.Resolved?
             && ClassifyReply(outcome.response).Failure?) ==>
      resp == FailureReply(ClassifyReply(outcome.response).error, None)
    ensures (Guard(httpMethod, authorization, userPrompt, env).None? && outcome.Resolved?
             && ClassifyReply(outcome.response).Success?) ==>
      var prompt := Trim(ClassifyReply(outcome.response).value);
      && resp.status == 200
      && (StrictEquals(options, "outputStructure", "JSON") ==> resp.body == PromptWithParameters(prompt, SpreadOptions(mode, options)))
      && (!StrictEquals(options, "outputStructure", "JSON") ==> resp.body == PromptBody(prompt))
    ensures resp.status == 200 && (resp.body.PromptBody? || resp.body.PromptWithParameters?) && resp.body.prompt != "" ==>
      !IsJsWhitespace(resp.body.prompt[0]) && !IsJsWhitespace(resp.body.prompt[|resp.body.prompt| - 1])
  {
    var guard := Guard(httpMethod, authorization, userPrompt, env);
    if guard.Some? {
      return guard.value;
    }
    match outcome
    case Rejected(message, cause) =>
      resp := FailureReply(message, cause);
    case Resolved(response) =>
      var reply := ClassifyReply(response);
      if reply.Failure? {
        return FailureReply(reply.error, None);
      }
      var enhancedPrompt := Trim(reply.value);
      TrimEnds(reply.value);
      if StrictEquals(options, "outputStructure", "JSON") {
        var body := JsonOutput(enhancedPrompt, mode, options);
        resp := Response(200, body);
      } else {
        resp := Response(200, PromptBody(enhancedPrompt));
      }
  }

  /** A reply made only of whitespace is answered with an empty prompt, not an error. */
  lemma WhitespaceReplyEmptyPrompt(text: string)
    requires text != "" && AllWhitespace(text)
    ensures var reply := ClassifyReply(Some(ApiResponse(Some([Candidate(Some(text))]), None)));
      reply.Success? && Trim(reply.value) == ""
  {
    TrimAllWhitespace(text);
  }

  /** None of the output structures the front end offers selects the JSON body. */
  lemma JsonNeverSelectedByFrontEnd(o: OptionMap, v: string)
    requires v in {"Descriptive Paragraph", "Simple JSON", "Detailed JSON"}
    ensures !StrictEquals(o["outputStructure" := v], "outputStructure", "JSON")
  {
  }
}
