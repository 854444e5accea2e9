/**
 * The model-specific prompt transformer of the front end: it truncates a
 * prompt to a model's word budget, applies the model's booster or format
 * rule and boilerplate, injects generation parameters, and validates a
 * prompt against the model's specification.
 *
 * The table of model specifications is a parameter (`Catalog`), never
 * concrete data.
 */
module PromptTransformer {
  import opened Wrappers
  import opened JsStrings
  import opened Options
  import opened Modes

  /** One entry of the model specification table; absent JSON fields are None. */
  datatype ModelSpec = ModelSpec(
    name: Option<string>,
    tokenLimit: Option<nat>,
    recommendedBoosters: Option<seq<string>>,
    promptFormat: Option<string>,
    requiredParameters: Option<seq<string>>,
    requiredBoilerplate: Option<string>,
    defaultResolution: Option<string>,
    maxDuration: Option<nat>,
    defaultAspectRatio: Option<string>,
    negativePromptRequired: bool)

  /** Category name to model key to specification. */
  type Catalog = map<string, map<string, ModelSpec>>

  /** A value of the `params` record: a string, a number, or `undefined`. */
  datatype Value = Str(s: string) | Num(n: nat) | Undefined

  datatype TransformedPrompt = TransformedPrompt(prompt: string, params: map<string, Value>)

  /** The two modes the transformer accepts. */
  predicate MediaMode(mode: PromptMode) {
    mode == Image || mode == Video
  }

  /** The catalog category of a mode. */
  function Category(mode: PromptMode): (r: string)
    ensures r == "text-to-image" <==> mode == Image
    ensures r == "text-to-image" || r == "text-to-video"
  {
    if mode == Image then "text-to-image" else "text-to-video"
  }

  /** The specification of `modelKey` in the mode's category, if any. */
  function Lookup(catalog: Catalog, mode: PromptMode, modelKey: string): Option<ModelSpec>
    requires Category(mode) in catalog
  {
    if modelKey in catalog[Category(mode)] then Some(catalog[Category(mode)][modelKey]) else None
  }

  // ---------------------------------------------------------------------
  // Token optimisation
  // ---------------------------------------------------------------------

  /** `tokenTruncator`: keep the first `limit` space-separated pieces and mark the cut. */
  function TokenTruncator(prompt: string, limit: nat): string {
    var words := Split(prompt, ' ');
    if |words| > limit then Join(words[..limit], " ") + "..." else prompt
  }

  /** `modelSpec.token_limit || 400`. */
  function EffectiveLimit(spec: ModelSpec): (r: nat)
    ensures r >= 1
    ensures spec.tokenLimit.Some? && spec.tokenLimit.value != 0 ==> r == spec.tokenLimit.value
    ensures spec.tokenLimit.None? || spec.tokenLimit == Some(0) ==> r == 400
  {
    match spec.tokenLimit
    case Some(n) => if n != 0 then n else 400
    case None => 400
  }

  /**
   * A prompt within the limit is returned unchanged; a longer one becomes
   * a prefix of itself, made of exactly its first `limit` pieces, followed
   * by `...`.
   */
  lemma TruncatorShape(prompt: string, limit: nat)
    ensures var r := TokenTruncator(prompt, limit);
      |Split(prompt, ' ')| <= limit ==> r == prompt
    ensures var r := TokenTruncator(prompt, limit);
      |Split(prompt, ' ')| > limit ==>
        |r| >= 3 && r[|r| - 3..] == "..." && r[..|r| - 3] <= prompt
    ensures var r := TokenTruncator(prompt, limit);
      |Split(prompt, ' ')| > limit && limit >= 1 ==>
        Split(r[..|r| - 3], ' ') == Split(prompt, ' ')[..limit]
  {
    var ps := Split(prompt, ' ');
    if |ps| > limit {
      var r := TokenTruncator(prompt, limit);
      var kept := Join(ps[..limit], " ");
      assert r == kept + "...";
      assert r[..|r| - 3] == kept;
      JoinPrefix(ps, limit, " ");
      JoinSplit(prompt, ' ');
      if limit >= 1 {
        assert forall i :: 0 <= i < limit ==> ps[..limit][i] == ps[i];
        SplitJoin(ps[..limit], ' ');
      }
    }
  }

  /** A truncated prompt has at most `limit` pieces (one, `...`, when the limit is 0). */
  lemma TruncatorPieceCount(prompt: string, limit: nat)
    ensures |Split(TokenTruncator(prompt, limit), ' ')| <= if limit == 0 then 1 else limit
  {
    var ps := Split(prompt, ' ');
    if |ps| > limit {
      var kept := Join(ps[..limit], " ");
      if limit == 0 {
        assert kept == "";
        assert ' ' !in "...";
      } else {
        assert forall i :: 0 <= i < limit ==> ps[..limit][i] == ps[i];
        SplitJoin(ps[..limit], ' ');
        assert ' ' !in "...";
        SplitAppend(kept, ' ', "...");
      }
    }
  }

  /** Truncating twice to the same limit is truncating once. */
  lemma TruncatorIdempotent(prompt: string, limit: nat)
    ensures TokenTruncator(TokenTruncator(prompt, limit), limit) == TokenTruncator(prompt, limit)
  {
    var r := TokenTruncator(prompt, limit);
    TruncatorPieceCount(prompt, limit);
    if limit == 0 {
      assert r == "...";
      assert Split(r, ' ')[..0] == [];
    }
  }

  // ---------------------------------------------------------------------
  // Structure enforcement and model-specific enhancement
  // ---------------------------------------------------------------------

  const Placeholder: string := "[scene description]"

  /** The booster rule applies: `modelKey === 'sd_xl_turbo' && modelSpec.recommended_boosters`. */
  predicate BoosterRule(modelKey: string, spec: ModelSpec) {
    modelKey == "sd_xl_turbo" && spec.recommendedBoosters.Some?
  }

  /** The format rule applies: Midjourney with a non-empty format and required parameters. */
  predicate FormatRule(modelKey: string, spec: ModelSpec) {
    modelKey == "midjourney_v7" && Truthy(spec.promptFormat) && spec.requiredParameters.Some?
  }

  /** The prompt after the booster or format rule, whichever applies. */
  function Enhance(modelKey: string, spec: ModelSpec, prompt: string): string {
    if BoosterRule(modelKey, spec) then
      Join(spec.recommendedBoosters.value, ", ") + ", " + prompt
    else if FormatRule(modelKey, spec) then
      ReplaceFirst(spec.promptFormat.value, Placeholder, prompt) + " " + Join(spec.requiredParameters.value, " ")
    else prompt
  }

  /** The prompt after the boilerplate step: `, <boilerplate>` appended when there is one. */
  function WithBoilerplate(spec: ModelSpec, prompt: string): string {
    if Truthy(spec.requiredBoilerplate) then prompt + ", " + spec.requiredBoilerplate.value else prompt
  }

  /** The structured prompt built from an already truncated prompt. */
  function Structured(modelKey: string, spec: ModelSpec, prompt: string): string {
    WithBoilerplate(spec, Enhance(modelKey, spec, prompt))
  }

  /**
   * The structured prompt contains the truncated prompt, except when the
   * format rule applies to a format without the `[scene description]`
   * placeholder.
   */
  lemma StructuredKeepsPrompt(modelKey: string, spec: ModelSpec, prompt: string)
    requires !(FormatRule(modelKey, spec) && !BoosterRule(modelKey, spec) && !Contains(spec.promptFormat.value, Placeholder))
    ensures Contains(Structured(modelKey, spec, prompt), prompt)
  {
    var e := Enhance(modelKey, spec, prompt);
    if BoosterRule(modelKey, spec) {
      ContainsMiddle(Join(spec.recommendedBoosters.value, ", ") + ", ", prompt, "");
      assert Join(spec.recommendedBoosters.value, ", ") + ", " + prompt + "" == e;
    } else if FormatRule(modelKey, spec) {
      var f := ReplaceFirst(spec.promptFormat.value, Placeholder, prompt);
      ReplaceFirstInserts(spec.promptFormat.value, Placeholder, prompt);
      ContainsMiddle("", f, " " + Join(spec.requiredParameters.value, " "));
      assert "" + f + (" " + Join(spec.requiredParameters.value, " ")) == e;
      ContainsTransitive(e, f, prompt);
    } else {
      ContainsMiddle("", prompt, "");
      assert "" + prompt + "" == e;
    }
    var s := Structured(modelKey, spec, prompt);
    if Truthy(spec.requiredBoilerplate) {
      ContainsMiddle("", e, ", " + spec.requiredBoilerplate.value);
      assert "" + e + (", " + spec.requiredBoilerplate.value) == s;
      ContainsTransitive(s, e, prompt);
    }
  }

  /** A format without the placeholder drops the user's prompt entirely. */
  lemma FormatWithoutPlaceholderIgnoresPrompt(modelKey: string, spec: ModelSpec, p1: string, p2: string)
    requires FormatRule(modelKey, spec) && !Contains(spec.promptFormat.value, Placeholder)
    ensures Structured(modelKey, spec, p1) == Structured(modelKey, spec, p2)
  {
    ReplaceFirstShape(spec.promptFormat.value, Placeholder, p1);
    ReplaceFirstShape(spec.promptFormat.value, Placeholder, p2);
  }

  /** Under the booster rule the boosters, joined by `, `, come first, then the prompt. */
  lemma BoostersFirst(modelKey: string, spec: ModelSpec, prompt: string)
    requires BoosterRule(modelKey, spec)
    ensures Join(spec.recommendedBoosters.value, ", ") + ", " + prompt <= Structured(modelKey, spec, prompt)
  {
  }

  /** For models with neither rule the structured prompt starts with the truncated prompt. */
  lemma PlainModelsKeepPrefix(modelKey: string, spec: ModelSpec, prompt: string)
    requires modelKey != "sd_xl_turbo" && modelKey != "midjourney_v7"
    ensures prompt <= Structured(modelKey, spec, prompt)
    ensures !Truthy(spec.requiredBoilerplate) ==> Structured(modelKey, spec, prompt) == prompt
  {
  }

  /** A non-empty boilerplate always ends the structured prompt, after `, `. */
  lemma BoilerplateLast(modelKey: string, spec: ModelSpec, prompt: string)
    requires Truthy(spec.requiredBoilerplate)
    ensures var s := Structured(modelKey, spec, prompt);
      var tail := ", " + spec.requiredBoilerplate.value;
      |s| >= |tail| && s[|s| - |tail|..] == tail
  {
    var e := Enhance(modelKey, spec, prompt);
    var tail := ", " + spec.requiredBoilerplate.value;
    assert Structured(modelKey, spec, prompt) == e + tail;
  }

  /**
   * The rules are exclusive: apart from Midjourney, no model reads the
   * format fields, and apart from SDXL Turbo no model reads the boosters.
   */
  lemma RulesExclusive(modelKey: string, spec: ModelSpec, prompt: string,
                       format: Option<string>, params: Option<seq<string>>, boosters: Option<seq<string>>)
    ensures modelKey != "midjourney_v7" ==>
      Structured(modelKey, spec.(promptFormat := format, requiredParameters := params), prompt) == Structured(modelKey, spec, prompt)
    ensures modelKey != "sd_xl_turbo" ==>
      Structured(modelKey, spec.(recommendedBoosters := boosters), prompt) == Structured(modelKey, spec, prompt)
  {
  }

  // ---------------------------------------------------------------------
  // transformPrompt
  // ---------------------------------------------------------------------

  const NegativePrompt: string := "blurry, low quality, deformed, artifacts, poorly drawn"

  /** `a || b` where `a` is an option value. */
  function OptionOr(v: Option<string>, fallback: Value): Value {
    if Truthy(v) then Str(v.value) else fallback
  }

  /** A spec field read as a `params` value. */
  function StrField(v: Option<string>): Value {
    match v
    case Some(s) => Str(s)
    case None => Undefined
  }

  function NatField(v: Option<nat>): Value {
    match v
    case Some(n) => Num(n)
    case None => Undefined
  }

  /** The keys `params` ends up with. */
  function ParamKeys(mode: PromptMode, spec: ModelSpec): set<string> {
    {"engine", "media_type", "resolution"}
      + (if mode == Video then {"duration_sec"} else {})
      + (if mode == Image then {"aspect_ratio"} else {})
      + (if spec.negativePromptRequired then {"negative_prompt"} else {})
  }

  /**
   * The parameter record: always the engine, the media type and the
   * resolution; a duration only for video, an aspect ratio only for image,
   * and the fixed negative prompt exactly when the model requires one. Each
   * user option wins over the model default when it is non-empty.
   */
  predicate Injected(params: map<string, Value>, mode: PromptMode, modelKey: string, spec: ModelSpec, options: OptionMap) {
    && params.Keys == ParamKeys(mode, spec)
    && params["engine"] == Str(modelKey)
    && params["media_type"] == Str(Name(mode))
    && params["resolution"] == OptionOr(Get(options, "resolution"), StrField(spec.defaultResolution))
    && (mode == Video ==> params["duration_sec"] == OptionOr(Get(options, "duration"), NatField(spec.maxDuration)))
    && (mode == Image ==> params["aspect_ratio"] == OptionOr(Get(options, "aspectRatio"), StrField(spec.defaultAspectRatio)))
    && (spec.negativePromptRequired ==> params["negative_prompt"] == Str(NegativePrompt))
  }

  /** Step 5 of `transformPrompt`: the `params` record, extended field by field. */
  method InjectParams(mode: PromptMode, modelKey: string, spec: ModelSpec, options: OptionMap) returns (params: map<string, Value>)
    ensures Injected(params, mode, modelKey, spec, options)
  {
    params := map[
      "engine" := Str(modelKey),
      "media_type" := Str(Name(mode)),
      "resolution" := OptionOr(Get(options, "resolution"), StrField(spec.defaultResolution))];
    if mode == Video {
      params := params["duration_sec" := OptionOr(Get(options, "duration"), NatField(spec.maxDuration))];
    }
    if mode == Image {
      params := params["aspect_ratio" := OptionOr(Get(options, "aspectRatio"), StrField(spec.defaultAspectRatio))];
    }
    if spec.negativePromptRequired {
      params := params["negative_prompt" := Str(NegativePrompt)];
    }
  }

  /**
   * `transformPrompt`: fails with the missing-spec message, or returns the
   * truncated, structured prompt and the injected parameters.
   */
  method TransformPrompt(catalog: Catalog, userPrompt: string, mode: PromptMode, modelKey: string, options: OptionMap)
    returns (r: Result<TransformedPrompt, string>)
    requires MediaMode(mode) && Category(mode) in catalog
    ensures Lookup(catalog, mode, modelKey).None? <==> r.Failure?
    ensures r.Failure? ==> r.error == "Model specification not found for key: " + modelKey
    ensures r.Success? ==>
      var spec := Lookup(catalog, mode, modelKey).value;
      var params := r.value.params;
      && r.value.prompt == Structured(modelKey, spec, TokenTruncator(userPrompt, EffectiveLimit(spec)))
      && Injected(r.value.params, mode, modelKey, spec, options)
  {
    var found := Lookup(catalog, mode, modelKey);
    if found.None? {
      return Failure("Model specification not found for key: " + modelKey);
    }
    var spec := found.value;

    var optimizedPrompt := TokenTruncator(userPrompt, EffectiveLimit(spec));
    var structuredPrompt := optimizedPrompt;
    if modelKey == "sd_xl_turbo" && spec.recommendedBoosters.Some? {
      structuredPrompt := Join(spec.recommendedBoosters.value, ", ") + ", " + structuredPrompt;
    } else if modelKey == "midjourney_v7" && Truthy(spec.promptFormat) && spec.requiredParameters.Some? {
      structuredPrompt := ReplaceFirst(spec.promptFormat.value, Placeholder, structuredPrompt) + " " + Join(spec.requiredParameters.value, " ");
    }
    if Truthy(spec.requiredBoilerplate) {
      structuredPrompt := structuredPrompt + ", " + spec.requiredBoilerplate.value;
    }

    assert structuredPrompt == Structured(modelKey, spec, optimizedPrompt);
    var params := InjectParams(mode, modelKey, spec, options);
    r := Success(TransformedPrompt(structuredPrompt, params));
  }

  // ---------------------------------------------------------------------
  // validatePrompt
  // ---------------------------------------------------------------------

  const SpecNotFound: string := "Model specification not found."

  /** `prompt.split(' ').filter(Boolean).length`. */
  function WordCount(prompt: string): nat {
    NonEmptyCount(Split(prompt, ' '))
  }

  function WordLimitWarning(count: nat, limit: nat, name: Option<string>): string {
    "Prompt is ~" + NatToString(count) + " words, which may exceed the ~" + NatToString(limit)
      + " word limit for " + Interpolate(name) + ". Consider shortening it."
  }

  function NegativePromptWarning(name: Option<string>): string {
    Interpolate(name) + " works best with negative prompts to avoid common issues."
  }

  function DurationTip(name: Option<string>, seconds: nat): string {
    "Tip: " + Interpolate(name) + " can generate videos up to " + NatToString(seconds) + " seconds long."
  }

  /** The video-duration tip applies: a video model with a non-zero maximum duration. */
  predicate TipApplies(mode: PromptMode, spec: ModelSpec) {
    mode == Video && spec.maxDuration.Some? && spec.maxDuration.value != 0
  }

  /**
   * `validatePrompt`: one warning when the specification is missing;
   * otherwise the word-limit warning, the negative-prompt advice and the
   * duration tip, each only when it applies and always in that order. The
   * prompt is valid exactly when there is no warning.
   */
  method ValidatePrompt(catalog: Catalog, prompt: string, modelKey: string, mode: PromptMode)
    returns (valid: bool, warnings: seq<string>)
    requires MediaMode(mode) && Category(mode) in catalog
    ensures Lookup(catalog, mode, modelKey).None? ==> !valid && warnings == [SpecNotFound]
    ensures Lookup(catalog, mode, modelKey).Some? ==>
      var spec := Lookup(catalog, mode, modelKey).value;
      warnings ==
        (if WordCount(prompt) > EffectiveLimit(spec)
         then [WordLimitWarning(WordCount(prompt), EffectiveLimit(spec), spec.name)] else [])
        + (if spec.negativePromptRequired then [NegativePromptWarning(spec.name)] else [])
        + (if TipApplies(mode, spec) then [DurationTip(spec.name, spec.maxDuration.value)] else [])
    ensures valid <==> warnings == []
    ensures valid <==>
      var spec := Lookup(catalog, mode, modelKey);
      spec.Some? && WordCount(prompt) <= EffectiveLimit(spec.value)
        && !spec.value.negativePromptRequired && !TipApplies(mode, spec.value)
    ensures |warnings| <= 3
  {
    var issues: seq<string> := [];
    var found := Lookup(catalog, mode, modelKey);
    if found.None? {
      return false, [SpecNotFound];
    }
    var spec := found.value;

    var wordCount := WordCount(prompt);
    var tokenLimit := EffectiveLimit(spec);
    if wordCount > tokenLimit {
      issues := issues + [WordLimitWarning(wordCount, tokenLimit, spec.name)];
    }
    if spec.negativePromptRequired {
      issues := issues + [NegativePromptWarning(spec.name)];
    }
    if mode == Video && spec.maxDuration.Some? && spec.maxDuration.value != 0 {
      issues := issues + [DurationTip(spec.name, spec.maxDuration.value)];
    }
    valid := |issues| == 0;
    warnings := issues;
  }

  /** The word count ignores empty pieces, so it never exceeds the number of pieces. */
  lemma WordCountBound(prompt: string)
    ensures WordCount(prompt) <= |Split(prompt, ' ')|
  {
    NonEmptyCountBound(Split(prompt, ' '));
  }

  /**
   * A prompt truncated to a model's limit never draws that model's
   * word-limit warning.
   */
  lemma TruncatedWithinWordLimit(prompt: string, spec: ModelSpec)
    ensures WordCount(TokenTruncator(prompt, EffectiveLimit(spec))) <= EffectiveLimit(spec)
  {
    TruncatorPieceCount(prompt, EffectiveLimit(spec));
    WordCountBound(TokenTruncator(prompt, EffectiveLimit(spec)));
  }
}
