# Prompt enhancer core in Dafny

This project models the string-building core of a browser-based prompt enhancer. A user writes a short idea, picks a prompt mode (Image, Video, Text, Audio or Code) and sets a few modifiers. The backend turns all of this into an instruction for a hosted language model, and the front end adapts a prompt to a specific image or video model.

The model covers four pieces:

- **Model-spec prompt transformer** (`prompt_transformer.dfy`, module `PromptTransformer`):
  - `tokenTruncator` cuts a prompt to a word budget;
  - `transformPrompt` applies the SDXL Turbo booster rule or the Midjourney format rule, appends boilerplate and injects a `params` record;
  - `validatePrompt` produces the ordered warnings and the validity flag.

  The model-specification table is a parameter (`Catalog`), not data.
- **Streaming Gemini route** (`gemini_stream.dfy`, module `GeminiStream`):
  - its request guards;
  - `buildSystemInstruction`, written as a method that accumulates local strings the way the route does with `+=`;
  - a specification function built on a fold over each mode's `(label, key)` table, with the method proved equal to that function.
- **Streaming Hugging Face route** (`huggingface_stream.dfy`, module `HuggingFaceStream`): the same shape with the route's own texts and tables, the text sent to the model, and the guards.
- **Non-streaming Gemini route** (`gemini_non_stream.dfy`, module `GeminiNonStream`):
  - the pure per-mode templates of `buildSystemPrompt`;
  - the guards, including the client-key check;
  - the classification of the model's reply;
  - the 200 and 500 bodies, with `{mode, ...options}` and the in-place deletion of an empty `additionalDetails`.

Shared modules:

- `wrappers.dfy` holds `Option` and `Result`.
- `js_strings.dfy` writes out the JavaScript string operations the code relies on:
  - `indexOf`;
  - `split` on one character, and `join`;
  - `replace` of the first occurrence;
  - ECMAScript `trim`;
  - number-to-decimal interpolation.
- `options.dfy` gives the option map JavaScript semantics:
  - a missing key reads as `undefined`;
  - truthiness means present and non-empty;
  - `${v}` of an absent value renders as `undefined`.
- `param_lines.dfy`:
  - the `addParam` fold shared by both streaming routes;
  - a reference rendering of the incorporated pairs;
  - a parser that reads the parameter section back.
- `http.dfy` holds the response datatype. `modes.dfy` holds the prompt modes and their wire names.

The builders take `mode` as a string. `Modes.Parse` maps it to a mode, or to `None` for the `default` branch of each `switch`, so the unknown-mode paths stay reachable.

Two behaviours of the non-streaming route are worth knowing:

- It interpolates every directive unconditionally: an absent option renders as `undefined` (`GeminiNonStream.EveryDirectiveRendered`).
- It selects the JSON body only for `outputStructure === 'JSON'`. None of the front end's values equal that string: `Descriptive Paragraph`, `Simple JSON` and `Detailed JSON` (src/types.ts:10-12, `GeminiNonStream.JsonNeverSelectedByFrontEnd`).

## Model

| member | source | states |
|---|---|---|
| JsStrings.Split | src/services/promptTransformer.ts:24 | `split(c)`: at least one piece and no piece contains `c`; characterised with `Join` by JoinSplit and SplitJoin |
| JsStrings.Join | src/services/promptTransformer.ts:26 | `join(sep)`; characterised by JoinSplit, SplitJoin and JoinPrefix |
| JsStrings.ReplaceFirst | src/services/promptTransformer.ts:51 | `replace` of the first occurrence of a literal pattern; characterised by ReplaceFirstShape and ReplaceFirstInserts |
| JsStrings.Trim | api/gemini-non-stream.js:77 | `trim()`; characterised by TrimKeepsMiddle, TrimEnds, TrimIdempotent and TrimAllWhitespace |
| JsStrings.JoinSplit | src/services/promptTransformer.ts:24 | joining the pieces of `split(c)` with `c` gives back the original string |
| JsStrings.SplitJoin | src/services/promptTransformer.ts:26 | splitting a join of separator-free pieces gives back exactly those pieces |
| JsStrings.JoinPrefix | src/services/promptTransformer.ts:26 | a join of the first k pieces is a prefix of the join of all pieces |
| JsStrings.SplitAppend | src/services/promptTransformer.ts:26 | appending separator-free text to a string only extends its last piece |
| JsStrings.NonEmptyCountBound | src/services/promptTransformer.ts:97 | `filter(Boolean)` never yields more pieces than the split had |
| JsStrings.ReplaceFirstShape | src/services/promptTransformer.ts:51 | `replace` leaves a string without the pattern unchanged, and otherwise substitutes the first occurrence while keeping the text around it |
| JsStrings.ReplaceFirstInserts | src/services/promptTransformer.ts:51 | when the pattern occurs, the replacement text is in the result |
| JsStrings.TrimKeepsMiddle | api/gemini-non-stream.js:77 | `trim` returns a contiguous part of the input with only whitespace around it |
| JsStrings.TrimEnds | api/gemini-non-stream.js:77 | a non-empty trimmed string neither starts nor ends with whitespace |
| JsStrings.TrimIdempotent | api/gemini-non-stream.js:77 | trimming twice is trimming once |
| JsStrings.TrimAllWhitespace | api/gemini-non-stream.js:77 | an all-whitespace string trims to the empty string |
| JsStrings.NatToString | src/services/promptTransformer.ts:101 | a number renders as non-empty decimal digits without a leading zero |
| JsStrings.NatToStringRoundTrip | src/services/promptTransformer.ts:101 | the rendered digits read back as the same number |
| Modes.Parse | api/gemini-stream.js:101-137 | a recognised mode string is exactly the name of the mode returned; None means no case label matches |
| Modes.ParseName | api/gemini-stream.js:101-134 | every mode is recognised under its own name |
| ParamLines.AddParam | api/gemini-stream.js:95-99 | the `addParam` closure (the same at api/huggingface-stream.js:126-130): one `- label: value` line only for a truthy value; characterised by IncorporatedIff and LinesEmptyIff |
| ParamLines.Lines | api/gemini-stream.js:101-134 | the `addParam` calls of one case, in order, as a fold over its `(label, key)` table; characterised by LinesRender, LinesEmptyIff, LinesOnlyRead and LinesRoundTrip |
| ParamLines.LinesEmptyIff | api/gemini-stream.js:95-99 | the accumulated lines are empty exactly when no incorporated pair exists, exactly when no field's option is truthy |
| ParamLines.IncorporatedIff | api/gemini-stream.js:95-99 | with distinct labels, a label is incorporated with value v exactly when its option is v and v is non-empty |
| ParamLines.LabelsOfIncorporated | api/gemini-stream.js:95-99 | every incorporated label is the label of one of the fields |
| ParamLines.LinesOnlyRead | api/gemini-stream.js:95-99 | the lines depend only on the options the fields name |
| ParamLines.LinesRender | api/gemini-stream.js:95-99 | the `+=` fold equals the reference rendering of the incorporated pairs, one `- Label: value` line each, in order |
| ParamLines.LinesRoundTrip | api/gemini-stream.js:97 | for colon-free labels and single-line values, parsing the lines gives back exactly the incorporated pairs |
| ParamLines.SectionRoundTrip | api/gemini-stream.js:140-143 | the parameter section parses back to the incorporated pairs, and is absent exactly when there are none |
| GeminiStream.BuildSystemInstruction | api/gemini-stream.js:85-146 | the `+=` accumulation returns exactly the specified instruction |
| GeminiStream.ModeParameters | api/gemini-stream.js:101-138 | the switch yields the mode's task sentence and the fold of its `addParam` calls |
| GeminiStream.ImageLines | api/gemini-stream.js:102-112 | the eight Image `addParam` calls equal the fold over the Image table, Style first and Additional Specifics last |
| GeminiStream.VideoLines | api/gemini-stream.js:113-118 | the Video calls equal the fold over the Video table |
| GeminiStream.TextLines | api/gemini-stream.js:119-123 | the Text calls equal the fold over the Text table |
| GeminiStream.AudioLines | api/gemini-stream.js:124-129 | the Audio calls equal the fold over the Audio table |
| GeminiStream.CodeLines | api/gemini-stream.js:130-134 | the Code calls equal the fold over the Code table; `contentTone` is not among them |
| GeminiStream.DistinctFieldLabels | api/gemini-stream.js:101-134 | no mode reads two options under the same label |
| GeminiStream.InstructionContents | api/gemini-stream.js:85-146 | the instruction is preamble, task heading and task sentence, then the parameter section with one line per truthy option in table order, present only when there is such an option |
| GeminiStream.StartsWithMission | api/gemini-stream.js:86 | every instruction starts with the mission statement |
| GeminiStream.OutputOnlyIff | api/gemini-stream.js:88-90 | the output-only sentence follows the mission exactly when `outputStructure` is `Descriptive Paragraph` |
| GeminiStream.IncorporatesExactlyTruthy | api/gemini-stream.js:95-99 | a mode's label appears with value v exactly when its option is v and v is non-empty |
| GeminiStream.SectionIff | api/gemini-stream.js:141-143 | the parameter section is present exactly when some option of the mode is truthy |
| GeminiStream.UnknownMode | api/gemini-stream.js:135-137 | an unknown mode gets the generic task and no parameter section |
| GeminiStream.OnlyModeKeysRead | api/gemini-stream.js:101-134 | only the mode's own keys and `outputStructure` affect the instruction |
| GeminiStream.ApiKey | api/gemini-stream.js:28 | a key is available exactly when either variable is set, and `GEMINI_API_KEY` wins |
| GeminiStream.Guard | api/gemini-stream.js:10-32 | OPTIONS gives 200, other non-POST methods 405, a missing prompt 400, a missing key 500, checked in that order; the request proceeds exactly when all pass |
| HuggingFaceStream.BuildSystemInstruction | api/huggingface-stream.js:120-170 | the `+=` accumulation returns exactly the specified instruction |
| HuggingFaceStream.ModeParameters | api/huggingface-stream.js:132-162 | the switch yields the mode's task sentence and the fold of its `addParam` calls |
| HuggingFaceStream.ImageLines | api/huggingface-stream.js:133-138 | the Image calls equal the fold over Style, Mood/Tone and Lighting |
| HuggingFaceStream.VideoLines | api/huggingface-stream.js:139-143 | the Video calls equal the fold over the Video table |
| HuggingFaceStream.TextLines | api/huggingface-stream.js:144-148 | the Text calls equal the fold over the Text table |
| HuggingFaceStream.AudioLines | api/huggingface-stream.js:149-153 | the Audio calls equal the fold over the Audio table |
| HuggingFaceStream.CodeLines | api/huggingface-stream.js:154-158 | the Code calls equal the fold over the Code table |
| HuggingFaceStream.DistinctFieldLabels | api/huggingface-stream.js:132-162 | no mode reads two options under the same label |
| HuggingFaceStream.InstructionContents | api/huggingface-stream.js:120-170 | the instruction is mission, task heading and task sentence, then one line per truthy option in table order under the parameter heading, only when there is such an option |
| HuggingFaceStream.IncorporatesExactlyTruthy | api/huggingface-stream.js:126-130 | a label appears with value v exactly when its option is v and v is non-empty |
| HuggingFaceStream.SectionIff | api/huggingface-stream.js:164-167 | the parameter section is present exactly when some option of the mode is truthy |
| HuggingFaceStream.UnknownMode | api/huggingface-stream.js:159-161 | an unknown mode gets the generic task and no parameter section |
| HuggingFaceStream.OnlyModeKeysRead | api/huggingface-stream.js:132-162 | only the mode's own keys affect the instruction |
| HuggingFaceStream.IgnoresKey | api/huggingface-stream.js:132-162 | a key no field of the mode reads can change without changing the instruction |
| HuggingFaceStream.IgnoresOutputStructure | api/huggingface-stream.js:120-170 | `outputStructure` never changes the instruction |
| HuggingFaceStream.ImageIgnoresGeminiOnlyKeys | api/huggingface-stream.js:133-138 | framing, camera angle, resolution, aspect ratio and details leave the Image instruction unchanged |
| HuggingFaceStream.FullPrompt | api/huggingface-stream.js:35 | the model input is the instruction, then `\n\nUser Request: `, then exactly the user's prompt |
| HuggingFaceStream.Guard | api/huggingface-stream.js:8-31 | OPTIONS 200, non-POST 405, missing prompt 400, missing Hugging Face key 500, in that order; proceeds exactly when all pass |
| PromptTransformer.Category | src/services/promptTransformer.ts:35 | the category is `text-to-image` exactly for Image, and `text-to-video` otherwise |
| PromptTransformer.EffectiveLimit | src/services/promptTransformer.ts:42 | the limit is the spec's non-zero token limit, and 400 when it is absent or zero |
| PromptTransformer.TokenTruncator | src/services/promptTransformer.ts:23-29 | `tokenTruncator`; characterised by TruncatorShape, TruncatorPieceCount and TruncatorIdempotent |
| PromptTransformer.TruncatorShape | src/services/promptTransformer.ts:23-29 | a prompt within the limit is unchanged; a longer one becomes a prefix of itself made of exactly its first `limit` pieces, followed by `...` |
| PromptTransformer.TruncatorPieceCount | src/services/promptTransformer.ts:24-27 | the result has at most `limit` pieces (one when the limit is 0) |
| PromptTransformer.TruncatorIdempotent | src/services/promptTransformer.ts:23-29 | truncating twice to the same limit equals truncating once |
| PromptTransformer.Enhance | src/services/promptTransformer.ts:45-52 | the booster or format rule, whichever applies; characterised by BoostersFirst, RulesExclusive and FormatWithoutPlaceholderIgnoresPrompt |
| PromptTransformer.WithBoilerplate | src/services/promptTransformer.ts:56-58 | the boilerplate step; characterised by BoilerplateLast |
| PromptTransformer.Structured | src/services/promptTransformer.ts:45-58 | steps 2 and 3 of `transformPrompt`; characterised by StructuredKeepsPrompt, PlainModelsKeepPrefix and the lemmas on its two parts |
| PromptTransformer.StructuredKeepsPrompt | src/services/promptTransformer.ts:48-58 | the structured prompt contains the truncated prompt unless the Midjourney format lacks `[scene description]` |
| PromptTransformer.FormatWithoutPlaceholderIgnoresPrompt | src/services/promptTransformer.ts:50-51 | a Midjourney format without the placeholder yields the same prompt for every user prompt |
| PromptTransformer.BoostersFirst | src/services/promptTransformer.ts:48-49 | under the SDXL Turbo rule the boosters joined by `, ` come first, then `, ` and the prompt |
| PromptTransformer.PlainModelsKeepPrefix | src/services/promptTransformer.ts:48-58 | other models start with the truncated prompt, and get exactly it when there is no boilerplate |
| PromptTransformer.BoilerplateLast | src/services/promptTransformer.ts:56-58 | a non-empty boilerplate always ends the prompt, after `, ` |
| PromptTransformer.RulesExclusive | src/services/promptTransformer.ts:48-52 | only Midjourney reads the format fields and only SDXL Turbo reads the boosters |
| PromptTransformer.InjectParams | src/services/promptTransformer.ts:61-78 | `params` has engine, media type and resolution; a duration only for Video, an aspect ratio only for Image, the negative prompt exactly when required; each option wins over the spec default when non-empty |
| PromptTransformer.TransformPrompt | src/services/promptTransformer.ts:34-84 | fails with `Model specification not found for key: <key>` exactly when the spec is missing; otherwise returns the structured, truncated prompt and the injected parameters |
| PromptTransformer.ValidatePrompt | src/services/promptTransformer.ts:89-117 | a missing spec gives invalid with one warning; otherwise the word-limit warning, the negative-prompt advice and the duration tip, each only when it applies and in that order; valid exactly when there is no warning |
| PromptTransformer.WordCountBound | src/services/promptTransformer.ts:97 | the word count never exceeds the number of space-separated pieces |
| PromptTransformer.TruncatedWithinWordLimit | src/services/promptTransformer.ts:42 | a prompt truncated to a model's limit never draws that model's word-limit warning |
| GeminiNonStream.BuildSystemPrompt | api/gemini-non-stream.js:113-178 | `buildSystemPrompt`; characterised by StartsWithBaseIff, UnknownModeFallback, EveryDirectiveRendered, ImageQuotesDetails and OnlyDirectiveKeysRead |
| GeminiNonStream.StartsWithBaseIff | api/gemini-non-stream.js:113-178 | the system prompt begins with the base sentence exactly when the mode is one of the five |
| GeminiNonStream.UnknownModeFallback | api/gemini-non-stream.js:175-176 | an unknown mode returns exactly `You are a helpful assistant.`, without the base sentence |
| GeminiNonStream.DirectivesContain | api/gemini-non-stream.js:122-124 | every directive line is part of the rendered directive block |
| GeminiNonStream.EveryDirectiveRendered | api/gemini-non-stream.js:118-173 | every directive of the mode is in the prompt whatever its value, an absent one as `undefined` |
| GeminiNonStream.ImageQuotesDetails | api/gemini-non-stream.js:140 | the Image prompt holds the additional details between double quotes |
| GeminiNonStream.OnlyDirectiveKeysRead | api/gemini-non-stream.js:116-173 | only the keys of the mode's directives affect the prompt |
| GeminiNonStream.FinalUserPrompt | api/gemini-non-stream.js:46 | the user turn is the fixed request, then the user's prompt exactly, then a closing double quote |
| GeminiNonStream.Guard | api/gemini-non-stream.js:10-39 | OPTIONS 200, non-POST 405, authorization differing from the client key 401, missing prompt 400, missing key 500, in that order; proceeds exactly when all pass |
| GeminiNonStream.OpenWhenNoClientKey | api/gemini-non-stream.js:20-24 | with no client key configured, a request without an authorization header passes and one with any header is refused |
| GeminiNonStream.ClassifyReply | api/gemini-non-stream.js:63-75 | no candidates with a block reason gives the blocked error naming it; without one, the invalid-response error; an empty first text, the empty-response error; otherwise the non-empty text |
| GeminiNonStream.SpreadOptions | api/gemini-non-stream.js:79-89 | the serialised parameters hold `mode` when it is present and every option, options winning over `mode`, with `additionalDetails` dropped exactly when it is empty |
| GeminiNonStream.JsonOutput | api/gemini-non-stream.js:80-89 | building the JSON body and then deleting an empty `additionalDetails` gives the prompt with the spread parameters |
| GeminiNonStream.Handle | api/gemini-non-stream.js:10-109 | a guard reply is returned as is; a rejected call becomes a 500 with its message and its cause only when there is one; a bad reply becomes a 500 naming it; otherwise a 200 with the trimmed text, and the parameters only when `outputStructure` is `JSON` |
| GeminiNonStream.WhitespaceReplyEmptyPrompt | api/gemini-non-stream.js:72-77 | a reply made only of whitespace passes the empty check and yields an empty prompt |
| GeminiNonStream.JsonNeverSelectedByFrontEnd | api/gemini-non-stream.js:79 | none of the front end's output-structure values selects the JSON body |

## Left out

- Streaming loops and response writing are not modelled: api/gemini-stream.js:34-82 and api/huggingface-stream.js:37-117. This includes the chunk loop, `res.write`, and the error text written after the headers. They are I/O over a provider stream.
- Server-sent-event parsing (api/huggingface-stream.js:76-97) is not modelled. It interleaves chunked reads with `JSON.parse`.
- The Hugging Face upstream-error path and the `fetch` call are left out as network I/O.
- Provider SDK calls and the network are outside the model. Their result is a parameter of `GeminiNonStream.Handle` (`Outcome`), and only the first candidate's first text is modelled.
- CORS headers and console logging are not modelled: they have no effect on the bodies.
- The model-specification table `model-specs.json` is not part of this model. It is the `Catalog` parameter. `Lookup` requires the mode's category to be present, because for a missing category the source fails with a TypeError.
- Non-string values, which the source reads from `options` and `req.body`, are not modelled: options are strings. The TypeErrors the source raises when `options` is missing, or when a candidate has no parts, are not modelled either.
- The builders take `mode` as a string. A missing `mode` falls to the `default` branch of each `switch`, exactly like an unrecognised string, so nothing is lost there. The JSON reply takes `mode` as an optional string: an absent mode gives no `mode` key, because `JSON.stringify` drops `undefined`.
- Dafny strings are sequences of Unicode scalar values, while JavaScript strings are UTF-16 code units. No modelled operation depends on string length or on code-unit boundaries, so this changes no behaviour here.
- PromptTransformer.EffectiveLimit: token limits and maximum durations are non-negative integers. Negative or fractional values from the specification table are not modelled.
- JsStrings.ReplaceFirst: `$` patterns in the replacement text are not interpreted. The prompt is assumed free of them.
- ParamLines.SectionRoundTrip: proved for any table with colon-free labels and single-line values. It is not instantiated for each route's literal table.
- Object keys are plain strings. Prototype properties such as `constructor`, which a JavaScript object lookup would also find, are not modelled.
- React components, the client-side services and the data-only files are not part of this model. None of those client services interprets the reply as JSON. The `src/types.ts` enums are used only as the `PromptMode` datatype and the output-structure strings.
