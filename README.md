# ms-swift conversation encoding, media tags, ORPO rows and run-time parsing in Dafny

This project models four pieces of ms-swift.

- **Conversation encoding.** `swift/llm/utils/template.py` turns a query, an optional
  response, a history of earlier rounds and a system text into `input_ids` and `labels`. The
  example copy in `examples/pytorch/llm/src/utils/preprocess.py` does the same with its own
  template table and `convert_chatml`. A template is a prefix, a prompt, an optional chat
  separator and a suffix. Each is a "context list" whose items are text or lists of token ids
  and special-token names. The placeholders `{{SYSTEM}}`, `{{QUERY}}` and `{{ROUND}}` are
  substituted, neighbouring texts are merged, and everything is encoded with a tokenizer.
  Label positions of the prompt are masked with -100.
- **Media tags.** `MediaTagReplacer` in `swift/llm/utils/media.py` checks the media tag of a
  sample against the number of media. It then rewrites the tag to the standard tag of the media
  type and stores the media under the type's key. `MediaCache.get_url` builds download URLs.
- **ORPO rows.** `swift/trainers/orpo_trainers.py` tokenizes a prompt with a chosen and a
  rejected answer. It truncates the three, masks the prompt in the labels and pads with the
  label pad id. `concat_template` decides which system text and which prefix a row uses.
- **Run-time UI.** `swift/ui/llm_train/runtime.py` parses a running `swift sft` command line
  into its arguments and formats a duration.

Layout:

- `wrappers.dfy` holds `Option`, `Result` and `Outcome`.
- `pystr.dfy` holds the Python string builtins the source relies on. These are `replace`,
  `count`, `split`, `join`, `strip`, `find` of one character, slicing with negative bounds, and
  `str(n)`. Each is defined the way Python's is: left to right and non-overlapping.
- `context.dfy` holds the context-list helpers shared by both encoders.
- `encoding.dfy` holds `_encode`.
- `templates.dfy` holds the `Template` class and the registry.
- `preprocess.dfy` holds the example preprocessing.
- `media.dfy`, `orpo.dfy` and `runtime.dfy` hold the other three pieces.

The tokenizer is a parameter. It is a function from text to ids, plus a partial map from
attribute names such as `eos_token_id` to ids.

Behaviour of the code that a reader might not expect:

- Placeholders are substituted one after another with `str.replace`. A query that itself
  contains `{{ROUND}}` therefore has that text replaced too (`Context.QueryValueIsRescannedForRound`).
- History responses are passed through the same substitution as the prompt.
- Merging neighbouring texts keeps the encoded ids only for a tokenizer that encodes a
  concatenation as the concatenation of the encodings (`Context.SimplifyKeepsIdsOfAdditiveTokenizer`).
  It is not a free normalisation.
- `chatglm2` is registered twice in `template.py`. The second, one-round template wins.
- The `chatglm2-generation` template of `preprocess.py` writes `{{query}}` in lower case. That
  placeholder is never replaced.
- `media_tag in all_queries` guards the count check. A tag split across two queries is counted
  in their concatenation but rewritten in neither (`Media.StraddlingTagCountedNotRewritten`).

## Model

| member | source | states |
|---|---|---|
| Context.Simplified | swift/llm/utils/template.py:112-125 | after simplification no two neighbouring items are both text |
| Context.SimplifiedFixesMerged | swift/llm/utils/template.py:112-125 | a list without neighbouring texts is left as it is |
| Context.SimplifyIdempotent | swift/llm/utils/template.py:112-125 | simplifying twice is simplifying once |
| Context.SimplifyKeepsContent | swift/llm/utils/template.py:112-125 | the flattened characters and ids are unchanged by simplification |
| Context.SimplifyKeepsIdLists | swift/llm/utils/template.py:112-125 | the id lists, in order, are unchanged by simplification |
| Context.SimplifyContextList | swift/llm/utils/template.py:112-125 | the loop with its pending texts computes the reference simplification |
| Context.CollectPending | swift/llm/utils/template.py:114-122 | after the loop, the collected items followed by the merged pending texts are the reference simplification, and the collected items end with an id list or are empty |
| Context.Substituted | swift/llm/utils/template.py:128-143 | substitution maps each item to one item |
| Context.ReplaceIfGivenReplaces | swift/llm/utils/template.py:138-142 | a given value replaces every occurrence of its placeholder |
| Context.LowercaseQueryIsNeverReplaced | examples/pytorch/llm/src/utils/preprocess.py:41-45 | `{{query}}` survives every substitution |
| Context.QueryValueIsRescannedForRound | swift/llm/utils/template.py:136-142 | a query holding `{{ROUND}}` has it replaced by the round number |
| Context.Substitute | swift/llm/utils/template.py:137-142 | a text that holds no placeholder is left unchanged |
| Context.SubstitutePlaceholders | swift/llm/utils/template.py:137-142 | system, query and round are replaced in that order, each only when given |
| Context.ConcatContextList | swift/llm/utils/template.py:128-143 | earlier items are kept, id lists are copied unchanged, each text is substituted |
| Context.ResolveTokens | swift/llm/utils/template.py:150-157 | resolving succeeds iff every special-token name is a tokenizer attribute, and then maps each id and name to its id |
| Context.EncodeUnits | swift/llm/utils/template.py:146-162 | a list of texts alone always encodes |
| Context.EncodeSucceedsIffResolvable | swift/llm/utils/template.py:146-162 | encoding fails iff some id list names a missing attribute |
| Context.EncodeSnoc | swift/llm/utils/template.py:146-162 | encoding appends each item's ids after the ids of the items before it |
| Context.EncodeErrorPropagates | swift/llm/utils/template.py:146-162 | the first failing item decides the error of the whole list |
| Context.ResolveErrorPropagates | swift/llm/utils/template.py:150-157 | the first missing name decides the error of an id list |
| Context.MergeKeepsIds | swift/llm/utils/template.py:112-125 | merging two texts keeps the ids when the tokenizer encodes their concatenation additively |
| Context.SimplifyKeepsIdsOfAdditiveTokenizer | swift/llm/utils/template.py:112-125 | for an additive tokenizer simplification does not change the encoding |
| Context.PushKeepsIds | swift/llm/utils/template.py:116-122 | one step of the simplifier keeps the ids of an additive tokenizer |
| Context.MissingNameFails | swift/llm/utils/template.py:150-157 | the first name without an attribute is reported as the error |
| Context.ResolveIds | swift/llm/utils/template.py:150-157 | the inner loop computes the reference ids of an id list, failing at the first missing name |
| Context.EncodeContextList | swift/llm/utils/template.py:146-162 | the loop computes the reference encoding, error cases included |
| Encoding.RoundUnits | swift/llm/utils/template.py:177-182 | a history round is the prompt with that round's query and number substituted, then the response, then the separator |
| Encoding.PromptUnits | swift/llm/utils/template.py:165-187 | building the prompt fails iff there is history and the template has no separator |
| Encoding.Truncate | swift/llm/utils/template.py:199-202 | labels stay present or absent; a positive limit keeps at most that many ids, and they are the last ids |
| Encoding.Mask | swift/llm/utils/template.py:191-197 | n masked label positions |
| Encoding.EncodeSpec | swift/llm/utils/template.py:165-204 | history without a separator fails; labels exist iff a response is given |
| Encoding.ConcatConversation | swift/llm/utils/template.py:175-187 | the history loop and the final prompt give the reference context list |
| Encoding.ConcatHistory | swift/llm/utils/template.py:177-182 | history without a separator fails; otherwise every round's items follow the items before |
| Encoding.EncodeConversation | swift/llm/utils/template.py:165-204 | the method computes the reference encoding |
| Encoding.HistoryLength | swift/llm/utils/template.py:177-182 | each history round contributes the same number of items |
| Encoding.HistoryPrefix | swift/llm/utils/template.py:177-182 | the items of the first k rounds are a prefix of the items of all rounds |
| Encoding.HistoryRound | swift/llm/utils/template.py:177-182 | round i's items follow the items of the rounds before it |
| Encoding.TrainingLabels | swift/llm/utils/template.py:191-197 | in training mode the ids are prompt then answer, and the labels mask the prompt and copy the answer |
| Encoding.KeepLastKeepsMatch | swift/llm/utils/template.py:199-202 | cutting ids and labels to their last m keeps every label masked or equal to its id |
| Encoding.TrainingLabelsAligned | swift/llm/utils/template.py:191-202 | after truncation every label is masked or equals the id at its position |
| Encoding.NoResponseEncodesPrompt | swift/llm/utils/template.py:188-192 | without a response the ids are the prompt's and there are no labels |
| Encoding.GenerationLabels | examples/pytorch/llm/src/utils/preprocess.py:163-173 | in generation mode the ids are the prompt alone and the labels the answer alone |
| Encoding.TruncationKeepsSuffix | swift/llm/utils/template.py:199-202 | a length limit keeps the last ids and labels of the full encoding |
| Encoding.EncodeSpecTruncates | swift/llm/utils/template.py:188-202 | the encoding with a limit is the encoding without one, truncated |
| Templates.Template.constructor | swift/llm/utils/template.py:29-39 | a new template is not initialised, and it has a system iff a text item of its prefix contains `{{SYSTEM}}` |
| Templates.Template.InitTemplate | swift/llm/utils/template.py:41-48 | binds tokenizer, default system and length limit, and marks the template initialised |
| Templates.Template.Encode | swift/llm/utils/template.py:50-60 | fails before initialisation or without a query; otherwise training-mode encoding with the example's system overriding the template's |
| Templates.Registry.Register | swift/llm/utils/template.py:66-69 | stores a fresh uninitialised template under the key, replacing an earlier one and keeping the others |
| Templates.Registry.constructor | swift/llm/utils/template.py:72-107 | the registry holds the built-in templates, the second chatglm2 replacing the first, none initialised |
| Templates.Registry.GetTemplate | swift/llm/utils/template.py:207-215 | an unknown key fails; otherwise the shared registered instance is initialised and returned, the others untouched |
| Templates.BuiltinNames | swift/llm/utils/template.py:72-107 | the registry's names are the ten registered ones, and `chatglm2` holds the second, separator-less registration |
| Templates.LlamaHasSystem | swift/llm/utils/template.py:93-97 | llama's prefix has a system placeholder after its id list |
| Templates.NoSystemInIdOnlyPrefixes | swift/llm/utils/template.py:83-90 | chatglm2, baichuan and internlm prefixes have no system placeholder |
| Templates.Chatglm2RejectsHistory | swift/llm/utils/template.py:85-90 | the registered chatglm2 fails any history |
| Templates.BaichuanAcceptsHistory | swift/llm/utils/template.py:83-84 | an empty separator still accepts history |
| Preprocess.MappingAgreesWithRegistry | examples/pytorch/llm/src/utils/preprocess.py:9-71 | the table holds ten names; it agrees with the registry on every shared name but `chatglm2`, where it keeps a separator; `openbuddy-llama` is the registry's `openbuddy` |
| Preprocess.SharedEntriesAgree | examples/pytorch/llm/src/utils/preprocess.py:9-71 | every name shared with the registry, `chatglm2` aside, maps to the same template |
| Preprocess.PreprocessSpec | examples/pytorch/llm/src/utils/preprocess.py:142-144 | an unknown template type fails (the `TEMPLATE_MAPPING` lookup raises) |
| Preprocess.Preprocess | examples/pytorch/llm/src/utils/preprocess.py:128-180 | the method computes the reference encoding |
| Preprocess.MissingSystemIsDefault | examples/pytorch/llm/src/utils/preprocess.py:143-144 | a missing system is the default system |
| Preprocess.DefaultGenerationRejectsHistory | examples/pytorch/llm/src/utils/preprocess.py:149 | the separator-less generation template fails any history |
| Preprocess.Chatglm2GenerationIgnoresQuery | examples/pytorch/llm/src/utils/preprocess.py:41-45 | chatglm2-generation's prompt does not depend on the query |
| Preprocess.GenerationLengthsMayDiffer | examples/pytorch/llm/src/utils/preprocess.py:163-173 | in generation mode ids and labels can have different lengths |
| Preprocess.FirstBadRole | examples/pytorch/llm/src/utils/preprocess.py:211-222 | the first message whose role is not the expected alternating one, and all before it are expected |
| Preprocess.Pairs | examples/pytorch/llm/src/utils/preprocess.py:213-222 | k user/assistant pairs make k history rounds |
| Preprocess.Converted | examples/pytorch/llm/src/utils/preprocess.py:183-231 | conversion reports no messages iff the list is empty |
| Preprocess.ConvertedRest | examples/pytorch/llm/src/utils/preprocess.py:206-231 | a converted chat keeps the given system |
| Preprocess.FirstBadRoleIs | examples/pytorch/llm/src/utils/preprocess.py:211-222 | the first wrong role found is the first one in the list |
| Preprocess.NoBadRole | examples/pytorch/llm/src/utils/preprocess.py:211-222 | all roles as expected means none is reported |
| Preprocess.PopLast | examples/pytorch/llm/src/utils/preprocess.py:224-231 | popping the last round gives query and response, and the rest is the history |
| Preprocess.AlternatingRoles | examples/pytorch/llm/src/utils/preprocess.py:213-222 | collected rounds imply alternating user and assistant roles |
| Preprocess.CollectRounds | examples/pytorch/llm/src/utils/preprocess.py:211-222 | the loop fails at the first wrong role, otherwise collects every pair |
| Preprocess.ConvertChatml | examples/pytorch/llm/src/utils/preprocess.py:183-231 | the method computes the reference conversion |
| Preprocess.ConvertRest | examples/pytorch/llm/src/utils/preprocess.py:210-231 | after the system message, the method computes the reference conversion |
| Preprocess.ToMessages | examples/pytorch/llm/src/utils/preprocess.py:183-231 | the message list a conversation comes from has two messages per round, plus system and query, plus one for a response |
| Preprocess.ConvertToMessages | examples/pytorch/llm/src/utils/preprocess.py:183-231 | converting the messages of a conversation gives that conversation back |
| Preprocess.ConvertRestOfMessages | examples/pytorch/llm/src/utils/preprocess.py:206-231 | the messages after the system message convert back to the conversation |
| Preprocess.ConvertedRestOfAlternating | examples/pytorch/llm/src/utils/preprocess.py:210-231 | alternating roles convert to their pairs, the last user message and the reply after it |
| Preprocess.MessagesFromConverted | examples/pytorch/llm/src/utils/preprocess.py:183-231 | a converted list that starts with a system message is exactly the messages of its conversion |
| Preprocess.RebuiltMessage | examples/pytorch/llm/src/utils/preprocess.py:210-231 | every message after the system message comes back at its place |
| Preprocess.RebuiltClosing | examples/pytorch/llm/src/utils/preprocess.py:224-231 | the query and the response come back at the last places |
| Preprocess.Preprocessor.ApplySpec | examples/pytorch/llm/src/utils/preprocess.py:234-252 | an unknown template type fails; an example with neither messages nor a query fails for the missing query |
| Preprocess.Preprocessor.Apply | examples/pytorch/llm/src/utils/preprocess.py:234-252 | the closure converts messages or reads the query, then encodes |
| Preprocess.GetPreprocess | examples/pytorch/llm/src/utils/preprocess.py:234-252 | the closure binds template type, tokenizer, system and limit |
| Preprocess.MessagesIgnoreBoundSystem | examples/pytorch/llm/src/utils/preprocess.py:243-248 | a messages example ignores the bound system |
| Preprocess.ExampleSystemOverrides | examples/pytorch/llm/src/utils/preprocess.py:245-250 | an example's own system overrides the bound one |
| Media.MediaCount | swift/llm/utils/media.py:89 | the count is zero iff there are no media: none, an empty single item, or an empty list |
| Media.DefaultTag | swift/llm/utils/media.py:75 | the tag is the given one, or `<unused_tag>` when it is missing or empty, and is never empty |
| Media.MediaTagReplacer.constructor | swift/llm/utils/media.py:68-75 | stores media type and task type and the defaulted tag |
| Media.MediaTagReplacer.Call | swift/llm/utils/media.py:77-118 | on success the sample holds the reference rewrite; an error leaves it unchanged |
| Media.RetagHistory | swift/llm/utils/media.py:108-109 | each history query has every tag replaced, answers kept |
| Media.FalsyMediaTypeLeavesSample | swift/llm/utils/media.py:86-87 | no media type means nothing changes |
| Media.UnsupportedTasksFail | swift/llm/utils/media.py:96-100 | grounding tasks and ocr always fail |
| Media.TagCountChecked | swift/llm/utils/media.py:105-107 | the rewrite fails iff the tag occurs and its count differs from the media count |
| Media.QueryTagShowsInAll | swift/llm/utils/media.py:105 | a tag in any query is in the concatenated queries |
| Media.AbsentTagNothingToRewrite | swift/llm/utils/media.py:106-111 | an absent tag makes the skipped rewrite a no-op |
| Media.Rewritten | swift/llm/utils/media.py:77-118 | a successful rewrite keeps every key and, with a media type, adds exactly `query` and the type's media key |
| Media.RewriteResult | swift/llm/utils/media.py:105-118 | on success: media stored under its key, query rewritten, history written back iff it was present, other keys unchanged |
| Media.RetaggedKeepsAnswers | swift/llm/utils/media.py:108-109 | retagging keeps the number of rounds and every answer |
| Media.StraddlingTagCountedNotRewritten | swift/llm/utils/media.py:105-111 | a tag split across two queries passes the count check and is left unrewritten |
| Media.GetUrl | swift/llm/utils/media.py:142-146 | the URL is the prefix, the type and `.tar` for ocr_vqa or `.zip` otherwise |
| Media.GetUrlInjective | swift/llm/utils/media.py:142-146 | different media types give different URLs |
| Orpo.Repeat | swift/trainers/orpo_trainers.py:129-142 | n copies of the pad value |
| Orpo.BuildTokenizedAnswer | swift/trainers/orpo_trainers.py:77-83 | the answer ids followed by the suffix ids, all unmasked |
| Orpo.PromptTokens | swift/trainers/orpo_trainers.py:90-95 | the prompt ids, all unmasked |
| Orpo.FillBatch | swift/trainers/orpo_trainers.py:144-152 | the nested loop computes the reference batch and skips token_type_ids |
| Orpo.TruncatedPrompt | swift/trainers/orpo_trainers.py:111-120 | fails iff the prompt is too long and the mode is unknown; keep_start keeps a prefix of ids and mask, keep_end a suffix of the ids |
| Orpo.TruncatedAnswer | swift/trainers/orpo_trainers.py:122-126 | ids and mask are prefixes of the answer's; when cut, at most max_length - max_prompt_length ids remain |
| Orpo.TruncatePrompts | swift/trainers/orpo_trainers.py:111-120 | the three prompt copies are cut alike, or the mode is rejected |
| Orpo.TokenizeRowSpec | swift/trainers/orpo_trainers.py:85-158 | a row fails only for a non-text answer or an unknown truncation mode |
| Orpo.TokenizeRow | swift/trainers/orpo_trainers.py:85-158 | the method computes the reference row |
| Orpo.LabelsMaskPrompt | swift/trainers/orpo_trainers.py:129-142 | labels are the ids with the prompt positions set to the pad id |
| Orpo.FilledSnoc | swift/trainers/orpo_trainers.py:144-152 | filling one more group adds its keys to the batch |
| Orpo.BatchKeys | swift/trainers/orpo_trainers.py:144-152 | the batch holds exactly the eight prefixed keys with their values |
| Orpo.TruncatedPromptBound | swift/trainers/orpo_trainers.py:111-120 | a cut prompt has at most max_prompt_length ids, except keep_end with 0, which keeps all |
| Orpo.SequencesFitMaxLength | swift/trainers/orpo_trainers.py:111-126 | chosen and rejected sequences are at most max_length long |
| Orpo.BatchLabelsAligned | swift/trainers/orpo_trainers.py:129-152 | ids, mask and labels have equal lengths; prompt positions hold the pad id and the rest the ids |
| Orpo.TruncationKeepsMaskLengths | swift/trainers/orpo_trainers.py:111-126 | truncation leaves as many mask entries as ids in prompt and answer |
| Orpo.EntriesAligned | swift/trainers/orpo_trainers.py:129-142 | one sequence's ids, mask and labels have equal lengths, start with the prompt, and pad the prompt's labels |
| Orpo.TokenizeRowErrors | swift/trainers/orpo_trainers.py:97-120 | non-text chosen or rejected answers fail, in that order, then an unknown mode fails |
| Orpo.FittingAnswerStillCut | swift/trainers/orpo_trainers.py:108-126 | an answer that fits alone is still cut because the longer answer decides |
| Orpo.ChooseSystemPrefix | swift/trainers/orpo_trainers.py:42-57 | system is given or defaulted; a given system needs a system prefix; no system with equal prefixes fails |
| Runtime.AfterSlash | swift/ui/llm_train/runtime.py:393-395 | the text after the first slash, or the whole text without one |
| Runtime.StrippedPieces | swift/ui/llm_train/runtime.py:397 | no piece is empty |
| Runtime.ParseInfoFromCmdline | swift/ui/llm_train/runtime.py:392-403 | the loops compute the reference argument map or the missing `swift sft` error |
| Runtime.ParsedArgs | swift/ui/llm_train/runtime.py:392-403 | parsing fails iff `swift sft` is missing after the third slash |
| Runtime.FillArgs | swift/ui/llm_train/runtime.py:398-402 | the loop computes the reference argument map |
| Runtime.ArgsTextBetweenOccurrences | swift/ui/llm_train/runtime.py:396 | the argument text is what lies between the first and second `swift sft` |
| Runtime.StripEnds | swift/ui/llm_train/runtime.py:397 | a stripped text starts and ends with no whitespace |
| Runtime.PiecesStripped | swift/ui/llm_train/runtime.py:397 | each piece is non-empty and stripped |
| Runtime.KeyValue | swift/ui/llm_train/runtime.py:400-401 | a key never holds a space |
| Runtime.KeyValueSplit | swift/ui/llm_train/runtime.py:400-401 | the key is the text before the first space and the value the rest; an argument without a space maps all but its last character to the whole argument |
| Runtime.ArgsMapKeys | swift/ui/llm_train/runtime.py:398-402 | the map's keys are exactly the keys of the pieces |
| Runtime.ArgsMap | swift/ui/llm_train/runtime.py:398-402 | the last piece's key maps to its value |
| Runtime.ArgsMapLastWins | swift/ui/llm_train/runtime.py:398-402 | a repeated key keeps the value of its last piece |
| Runtime.FormatTime | swift/ui/llm_train/runtime.py:371-386 | the text ends in `s`; it shows days iff there are days, hours iff some unit from hours up is non-zero, and minutes likewise |
| Runtime.Components | swift/ui/llm_train/runtime.py:371-386 | days, hours, minutes and seconds are in range and add back up to the input |
| Runtime.Shown | swift/ui/llm_train/runtime.py:371-386 | one to four units are shown |
| Runtime.FormatTimeRenders | swift/ui/llm_train/runtime.py:371-386 | the text is the rendering of the shown units |
| Runtime.SpellInjective | swift/ui/llm_train/runtime.py:377-384 | digit texts with letter markers, joined by spaces, can be read back into the same words |
| Runtime.RenderInjective | swift/ui/llm_train/runtime.py:371-386 | different unit lists render differently |
| Runtime.FormatTimeInjective | swift/ui/llm_train/runtime.py:371-386 | different non-negative durations format differently |
| Runtime.NegativeTimeWraps | swift/ui/llm_train/runtime.py:371-386 | -1 second formats like 86399 seconds, because floor division gives -1 days, which is not shown |

## Left out

- The tokenizer is a parameter. Its vocabulary, its encoding and how it treats special tokens are not modelled.
- `preprocess.py`'s `simplify_context_list`, `concat_context_list` and `_encode` (examples/pytorch/llm/src/utils/preprocess.py:75, 91 and 109) are the same code as `template.py`'s `_simplify_context_list`, `_concat_context_list` and `_encode_context_list` apart from their names. They are modelled once, in `context.dfy`.
- Media.MediaTagReplacer.Call: the random prompt choice for `ref_grounding` and `grounding_caption` is not modelled. numpy's `choice` is given a list of pairs, which is not one-dimensional, so that call raises. The model raises there too.
- Media.MediaTagReplacer.Call: `h[0] = ...` updates the history's own lists in place, and anything else holding them sees the change. The model writes a new history value and does not model that sharing.
- Media.MediaTagReplacer.Call: the method requires the history, when present, to be a list of query/answer pairs of text. Other shapes would make `h[0]` fail in the source, and that failure is not modelled.
- The `objects` argument of `__call__` and the `task_prompts` texts are not used by the modelled paths.
- `MediaCache.download`, `_safe_download`, the media-type URL table and the file system and network they touch are I/O and are not modelled.
- ORPO: the prompt ids and the answer encoding come from `Template` methods whose code is not part of this model. They are parameters (`promptIds`, `AnswerEncoder`).
- ORPO: the rest of `concat_template` builds context lists through those methods. Only its system and prefix choice is modelled.
- ORPO: the trainer's constructor, its loss, `stat_dataset` and the encoder-decoder branch of `tokenize_row` are training machinery outside this model.
- Templates.Registry.GetTemplate: default arguments are explicit parameters. A caller that omits `system` corresponds to passing `Some(DefaultSystem)`.
- Runtime.FormatTime: the source takes a float number of seconds. The model takes the floored integer, which gives the same days, hours, minutes and whole seconds.
- The rest of `runtime.py` (process listing, log reading, plotting, the Gradio UI) is I/O and UI code and is not modelled.
