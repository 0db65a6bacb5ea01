/**
 * swift/trainers/orpo_trainers.py: the decoder-only branch of `ORPOTrainer.tokenize_row`, its
 * helper `build_tokenized_answer`, and the choice of system text and prefix in
 * `concat_template`. The trainer calls template methods that are not part of this model
 * (`_encode_context_list` with loss scales, `_concat_context_list` with loss indices), so the
 * prompt ids and the encoding of an answer text arrive as parameters.
 */
module Orpo {
  import opened Wrappers
  import opened PyStr
  import opened Context

  /** The trainer settings `tokenize_row` reads. */
  datatype OrpoConfig = OrpoConfig(maxLength: int, maxPromptLength: int, truncationMode: string, labelPadTokenId: int)

  /** How the template encodes one answer text, and the ids of its suffix. */
  datatype AnswerEncoder = AnswerEncoder(encode: string -> seq<int>, suffixIds: seq<int>)

  /** A pair of parallel lists: `input_ids` and `attention_mask`. */
  datatype Tokens = Tokens(inputIds: seq<int>, attentionMask: seq<int>)

  datatype OrpoError =
    | ChosenNotText
    | RejectedNotText
    | UnknownTruncationMode(mode: string)
    | SystemUnsupported     // a system text for a template without `prefix_has_system`
    | PrefixesNotDistinct   // no system, yet `prefix == prefix_has_system`

  function Max(a: int, b: int): int { if a >= b then a else b }

  /** `[value] * n`. */
  function Repeat(value: int, n: nat): (xs: seq<int>)
    ensures |xs| == n && forall k :: 0 <= k < n ==> xs[k] == value
  {
    seq(n, _ => value)
  }

  /** Python's slice assignment `xs[:n] = ys` for `n >= 0`. */
  function AssignPrefix(xs: seq<int>, n: nat, ys: seq<int>): seq<int>
  {
    ys + xs[Min(n, |xs|)..]
  }

  /** Lists of equal length whose mask is all ones. */
  predicate Unmasked(t: Tokens)
  {
    |t.attentionMask| == |t.inputIds| && forall k :: 0 <= k < |t.attentionMask| ==> t.attentionMask[k] == 1
  }

  /** `build_tokenized_answer`: the answer's ids then the suffix ids, every position attended. */
  function BuildTokenizedAnswer(enc: AnswerEncoder, answer: string): (t: Tokens)
    ensures t.inputIds == enc.encode(answer) + enc.suffixIds
    ensures Unmasked(t)
  {
    var ids := enc.encode(answer) + enc.suffixIds;
    Tokens(ids, Repeat(1, |ids|))
  }

  /** The prompt's `prompt_input_ids` and `prompt_attention_mask`. */
  function PromptTokens(promptIds: seq<int>): (t: Tokens)
    ensures t.inputIds == promptIds && Unmasked(t)
  {
    Tokens(promptIds, Repeat(1, |promptIds|))
  }

  /** The prompt after the first truncation loop, or the error for an unknown mode. */
  function TruncatedPrompt(cfg: OrpoConfig, prompt: Tokens, longer: int): (r: Result<Tokens, OrpoError>)
    ensures r.Err? <==> |prompt.inputIds| + longer > cfg.maxLength
                        && cfg.truncationMode != "keep_start" && cfg.truncationMode != "keep_end"
    ensures r.Ok? && cfg.truncationMode == "keep_start" ==>
      r.value.inputIds <= prompt.inputIds && r.value.attentionMask <= prompt.attentionMask
    ensures r.Ok? && cfg.truncationMode == "keep_end" && cfg.maxPromptLength >= 0 ==>
      var ids := r.value.inputIds;
      |ids| <= |prompt.inputIds| && ids == prompt.inputIds[|prompt.inputIds| - |ids|..]
  {
    if |prompt.inputIds| + longer <= cfg.maxLength then Ok(prompt)
    else if cfg.truncationMode == "keep_start" then
      Ok(Tokens(KeepFirst(prompt.inputIds, cfg.maxPromptLength), KeepFirst(prompt.attentionMask, cfg.maxPromptLength)))
    else if cfg.truncationMode == "keep_end" then
      Ok(Tokens(KeepLast(prompt.inputIds, cfg.maxPromptLength), KeepLast(prompt.attentionMask, cfg.maxPromptLength)))
    else Err(UnknownTruncationMode(cfg.truncationMode))
  }

  /** The answer after the second truncation loop; `longer` is measured before any truncation. */
  function TruncatedAnswer(cfg: OrpoConfig, prompt: Tokens, answer: Tokens, longer: int): (t: Tokens)
    ensures t.inputIds <= answer.inputIds && t.attentionMask <= answer.attentionMask
    ensures |prompt.inputIds| + longer > cfg.maxLength && cfg.maxLength >= cfg.maxPromptLength ==>
      |t.inputIds| <= cfg.maxLength - cfg.maxPromptLength
  {
    if |prompt.inputIds| + longer > cfg.maxLength then
      Tokens(KeepFirst(answer.inputIds, cfg.maxLength - cfg.maxPromptLength),
             KeepFirst(answer.attentionMask, cfg.maxLength - cfg.maxPromptLength))
    else answer
  }

  /** The `(type_key, tokens)` items of one of the dictionaries `tokenize_row` copies into the batch. */
  type Entries = seq<(string, seq<int>)>

  /** The items of `chosen_sequence_tokens` or `rejected_sequence_tokens`, in insertion order. */
  function SequenceEntries(cfg: OrpoConfig, prompt: Tokens, answer: Tokens): Entries
  {
    var ids := prompt.inputIds + answer.inputIds;
    [("input_ids", ids),
     ("attention_mask", prompt.attentionMask + answer.attentionMask),
     ("labels", AssignPrefix(ids, |prompt.inputIds|, Repeat(cfg.labelPadTokenId, |prompt.inputIds|)))]
  }

  /** The items of `prompt_tokens`. */
  function PromptEntries(prompt: Tokens): Entries
  {
    [("prompt_input_ids", prompt.inputIds), ("prompt_attention_mask", prompt.attentionMask)]
  }

  /** One dictionary's items copied into the batch under the prefix, `token_type_ids` skipped. */
  function FillGroup(batch: map<string, seq<int>>, prefix: string, entries: Entries): map<string, seq<int>>
    decreases |entries|
  {
    if |entries| == 0 then batch
    else
      var last := entries[|entries| - 1];
      var before := FillGroup(batch, prefix, entries[..|entries| - 1]);
      if last.0 == "token_type_ids" then before else before[prefix + last.0 := last.1]
  }

  /** The batch after copying every group in order. */
  function Filled(groups: seq<(string, Entries)>): map<string, seq<int>>
    decreases |groups|
  {
    if |groups| == 0 then map[]
    else FillGroup(Filled(groups[..|groups| - 1]), groups[|groups| - 1].0, groups[|groups| - 1].1)
  }

  /**
   * Reference definition of the decoder-only `tokenize_row`: the answers must be strings,
   * the prompt is truncated when prompt plus the longer answer exceeds `max_length`, then each
   * answer when its sequence is still too long, and the prompt positions of the labels are
   * padded.
   */
  function TokenizeRowSpec(cfg: OrpoConfig, enc: AnswerEncoder, promptIds: seq<int>,
                           chosen: Option<string>, rejected: Option<string>): (r: Result<map<string, seq<int>>, OrpoError>)
    ensures r.Err? ==> chosen.None? || rejected.None?
                       || (cfg.truncationMode != "keep_start" && cfg.truncationMode != "keep_end")
  {
    if chosen.None? then Err(ChosenNotText)
    else if rejected.None? then Err(RejectedNotText)
    else
      var c, r := BuildTokenizedAnswer(enc, chosen.value), BuildTokenizedAnswer(enc, rejected.value);
      var longer := Max(|c.inputIds|, |r.inputIds|);
      var p :- TruncatedPrompt(cfg, PromptTokens(promptIds), longer);
      Ok(Filled([("chosen_", SequenceEntries(cfg, p, TruncatedAnswer(cfg, p, c, longer))),
                 ("rejected_", SequenceEntries(cfg, p, TruncatedAnswer(cfg, p, r, longer))),
                 ("", PromptEntries(p))]))
  }

  /** The loop that copies the three dictionaries into `batch`. */
  method FillBatch(groups: seq<(string, Entries)>) returns (batch: map<string, seq<int>>)
    ensures batch == Filled(groups)
  {
    batch := map[];
    for i := 0 to |groups|
      invariant batch == Filled(groups[..i])
    {
      assert groups[..i + 1][..i] == groups[..i];
      var (prefix, entries) := groups[i];
      ghost var start := batch;
      for j := 0 to |entries|
        invariant batch == FillGroup(start, prefix, entries[..j])
      {
        assert entries[..j + 1][..j] == entries[..j];
        var (typeKey, tokens) := entries[j];
        if typeKey == "token_type_ids" {
          continue;
        }
        batch := batch[prefix + typeKey := tokens];
      }
      assert entries[..|entries|] == entries;
    }
    assert groups[..|groups|] == groups;
  }

  /** The first loop of `tokenize_row`: the same test and truncation for each of the three dictionaries. */
  method TruncatePrompts(cfg: OrpoConfig, prompt: Tokens, longer: int) returns (r: Result<seq<Tokens>, OrpoError>)
    ensures TruncatedPrompt(cfg, prompt, longer).Err? ==> r == Err(TruncatedPrompt(cfg, prompt, longer).error)
    ensures TruncatedPrompt(cfg, prompt, longer).Ok? ==>
      r == Ok([TruncatedPrompt(cfg, prompt, longer).value, TruncatedPrompt(cfg, prompt, longer).value,
               TruncatedPrompt(cfg, prompt, longer).value])
  {
    var dicts := [prompt, prompt, prompt];
    for i := 0 to 3
      invariant |dicts| == 3 && forall k :: i <= k < 3 ==> dicts[k] == prompt
      invariant i > 0 ==> TruncatedPrompt(cfg, prompt, longer).Ok?
      invariant forall k :: 0 <= k < i ==> dicts[k] == TruncatedPrompt(cfg, prompt, longer).value
    {
      if |dicts[i].inputIds| + longer > cfg.maxLength {
        if cfg.truncationMode == "keep_start" {
          dicts := dicts[i := Tokens(KeepFirst(dicts[i].inputIds, cfg.maxPromptLength),
                                     KeepFirst(dicts[i].attentionMask, cfg.maxPromptLength))];
        } else if cfg.truncationMode == "keep_end" {
          dicts := dicts[i := Tokens(KeepLast(dicts[i].inputIds, cfg.maxPromptLength),
                                     KeepLast(dicts[i].attentionMask, cfg.maxPromptLength))];
        } else {
          return Err(UnknownTruncationMode(cfg.truncationMode));
        }
      }
    }
    assert dicts == [dicts[0], dicts[1], dicts[2]];
    return Ok(dicts);
  }

  /** `tokenize_row`, decoder-only branch: the batch of the reference definition. */
  method TokenizeRow(cfg: OrpoConfig, enc: AnswerEncoder, promptIds: seq<int>,
                     chosen: Option<string>, rejected: Option<string>) returns (r: Result<map<string, seq<int>>, OrpoError>)
    ensures r == TokenizeRowSpec(cfg, enc, promptIds, chosen, rejected)
  {
    var promptTokens := PromptTokens(promptIds);
    if chosen.None? {
      return Err(ChosenNotText);
    }
    var chosenTokens := BuildTokenizedAnswer(enc, chosen.value);
    if rejected.None? {
      return Err(RejectedNotText);
    }
    var rejectedTokens := BuildTokenizedAnswer(enc, rejected.value);
    var longer := Max(|chosenTokens.inputIds|, |rejectedTokens.inputIds|);
    var truncated := TruncatePrompts(cfg, promptTokens, longer);
    if truncated.Err? {
      return Err(truncated.error);
    }
    var prompts := truncated.value;
    var answers := [chosenTokens, rejectedTokens];
    for i := 0 to 2
      invariant |answers| == 2
      invariant forall k :: 0 <= k < i ==> answers[k] == TruncatedAnswer(cfg, prompts[k], [chosenTokens, rejectedTokens][k], longer)
      invariant forall k :: i <= k < 2 ==> answers[k] == [chosenTokens, rejectedTokens][k]
    {
      if |prompts[i].inputIds| + longer > cfg.maxLength {
        answers := answers[i := Tokens(KeepFirst(answers[i].inputIds, cfg.maxLength - cfg.maxPromptLength),
                                       KeepFirst(answers[i].attentionMask, cfg.maxLength - cfg.maxPromptLength))];
      }
    }
    var groups := [("chosen_", SequenceEntries(cfg, prompts[0], answers[0])),
                   ("rejected_", SequenceEntries(cfg, prompts[1], answers[1])),
                   ("", PromptEntries(prompts[2]))];
    var batch := FillBatch(groups);
    return Ok(batch);
  }

  // ---------------------------------------------------------------------------------------
  // Properties of the batch

  /** The labels of a sequence: pad ids over the prompt, then exactly the answer's ids. */
  lemma LabelsMaskPrompt(cfg: OrpoConfig, prompt: Tokens, answer: Tokens)
    ensures var e := SequenceEntries(cfg, prompt, answer);
      && |e[2].1| == |e[0].1|
      && e[2].1 == Repeat(cfg.labelPadTokenId, |prompt.inputIds|) + answer.inputIds
  {
    var ids := prompt.inputIds + answer.inputIds;
    assert ids[|prompt.inputIds|..] == answer.inputIds;
  }

  /** Copying one more item: it lands under the prefixed key unless it is `token_type_ids`. */
  lemma FillGroupSnoc(batch: map<string, seq<int>>, prefix: string, entries: Entries, item: (string, seq<int>))
    ensures FillGroup(batch, prefix, entries + [item])
      == if item.0 == "token_type_ids" then FillGroup(batch, prefix, entries)
         else FillGroup(batch, prefix, entries)[prefix + item.0 := item.1]
  {
    assert (entries + [item])[..|entries|] == entries;
  }

  /** Copying one more dictionary. */
  lemma FilledSnoc(groups: seq<(string, Entries)>, group: (string, Entries))
    ensures Filled(groups + [group]) == FillGroup(Filled(groups), group.0, group.1)
  {
    assert (groups + [group])[..|groups|] == groups;
  }

  /** A sequence dictionary copied under a prefix adds its three keys. */
  lemma FillSequence(batch: map<string, seq<int>>, prefix: string, e: Entries, cfg: OrpoConfig, p: Tokens, a: Tokens)
    requires e == SequenceEntries(cfg, p, a)
    ensures FillGroup(batch, prefix, e)
      == batch[prefix + "input_ids" := e[0].1][prefix + "attention_mask" := e[1].1][prefix + "labels" := e[2].1]
  {
    assert e == [] + [e[0]] + [e[1]] + [e[2]];
    FillGroupSnoc(batch, prefix, [], e[0]);
    FillGroupSnoc(batch, prefix, [e[0]], e[1]);
    FillGroupSnoc(batch, prefix, [e[0], e[1]], e[2]);
  }

  /** The batch after the chosen sequence's dictionary. */
  lemma FilledChosen(cfg: OrpoConfig, p: Tokens, c: Tokens)
    ensures var e := SequenceEntries(cfg, p, c);
      Filled([("chosen_", e)]) == map["chosen_input_ids" := e[0].1, "chosen_attention_mask" := e[1].1, "chosen_labels" := e[2].1]
  {
    var e := SequenceEntries(cfg, p, c);
    FilledSnoc([], ("chosen_", e));
    assert [] + [("chosen_", e)] == [("chosen_", e)];
    FillSequence(map[], "chosen_", e, cfg, p, c);
    assert "chosen_" + "input_ids" == "chosen_input_ids" && "chosen_" + "attention_mask" == "chosen_attention_mask"
      && "chosen_" + "labels" == "chosen_labels";
  }

  /** The batch after the rejected sequence's dictionary. */
  lemma FilledRejected(cfg: OrpoConfig, p: Tokens, c: Tokens, r: Tokens)
    ensures var e, f := SequenceEntries(cfg, p, c), SequenceEntries(cfg, p, r);
      Filled([("chosen_", e), ("rejected_", f)])
        == map["chosen_input_ids" := e[0].1, "chosen_attention_mask" := e[1].1, "chosen_labels" := e[2].1,
               "rejected_input_ids" := f[0].1, "rejected_attention_mask" := f[1].1, "rejected_labels" := f[2].1]
  {
    var e, f := SequenceEntries(cfg, p, c), SequenceEntries(cfg, p, r);
    FilledChosen(cfg, p, c);
    FilledSnoc([("chosen_", e)], ("rejected_", f));
    assert [("chosen_", e)] + [("rejected_", f)] == [("chosen_", e), ("rejected_", f)];
    FillSequence(Filled([("chosen_", e)]), "rejected_", f, cfg, p, r);
    assert "rejected_" + "input_ids" == "rejected_input_ids" && "rejected_" + "attention_mask" == "rejected_attention_mask"
      && "rejected_" + "labels" == "rejected_labels";
  }

  /** The batch `tokenize_row` returns: the eight prefixed keys and nothing else. */
  lemma BatchKeys(cfg: OrpoConfig, p: Tokens, c: Tokens, r: Tokens)
    ensures var e, f := SequenceEntries(cfg, p, c), SequenceEntries(cfg, p, r);
      Filled([("chosen_", e), ("rejected_", f), ("", PromptEntries(p))])
        == map["chosen_input_ids" := e[0].1, "chosen_attention_mask" := e[1].1, "chosen_labels" := e[2].1,
               "rejected_input_ids" := f[0].1, "rejected_attention_mask" := f[1].1, "rejected_labels" := f[2].1,
               "prompt_input_ids" := p.inputIds, "prompt_attention_mask" := p.attentionMask]
  {
    var e, f, g := SequenceEntries(cfg, p, c), SequenceEntries(cfg, p, r), PromptEntries(p);
    FilledRejected(cfg, p, c, r);
    FilledSnoc([("chosen_", e), ("rejected_", f)], ("", g));
    assert [("chosen_", e), ("rejected_", f)] + [("", g)] == [("chosen_", e), ("rejected_", f), ("", g)];
    assert g == [] + [g[0]] + [g[1]];
    var b2 := Filled([("chosen_", e), ("rejected_", f)]);
    FillGroupSnoc(b2, "", [], g[0]);
    FillGroupSnoc(b2, "", [g[0]], g[1]);
    assert [] + [g[0]] == [g[0]];
    assert "" + "prompt_input_ids" == "prompt_input_ids" && "" + "prompt_attention_mask" == "prompt_attention_mask";
  }

  /**
   * A prompt truncated by the first loop is at most `max_prompt_length` long, except that
   * `keep_end` with `max_prompt_length` 0 slices `[-0:]` and keeps the whole prompt.
   */
  lemma TruncatedPromptBound(cfg: OrpoConfig, prompt: Tokens, longer: int)
    requires cfg.maxPromptLength >= 0 && TruncatedPrompt(cfg, prompt, longer).Ok?
    ensures var p := TruncatedPrompt(cfg, prompt, longer).value;
      && |p.inputIds| <= |prompt.inputIds|
      && ((|prompt.inputIds| + longer > cfg.maxLength && (cfg.maxPromptLength > 0 || cfg.truncationMode == "keep_start"))
          ==> |p.inputIds| <= cfg.maxPromptLength)
      && ((|prompt.inputIds| + longer > cfg.maxLength && cfg.maxPromptLength == 0 && cfg.truncationMode == "keep_end")
          ==> p == prompt)
  {
  }

  /**
   * With `0 < max_prompt_length <= max_length`, both truncations together keep each
   * prompt-plus-answer sequence within `max_length`.
   */
  lemma SequencesFitMaxLength(cfg: OrpoConfig, enc: AnswerEncoder, promptIds: seq<int>, chosen: string, rejected: string)
    requires 0 < cfg.maxPromptLength <= cfg.maxLength
    requires TokenizeRowSpec(cfg, enc, promptIds, Some(chosen), Some(rejected)).Ok?
    ensures var b := TokenizeRowSpec(cfg, enc, promptIds, Some(chosen), Some(rejected)).value;
      && "chosen_input_ids" in b && |b["chosen_input_ids"]| <= cfg.maxLength
      && "rejected_input_ids" in b && |b["rejected_input_ids"]| <= cfg.maxLength
  {
    var c, r := BuildTokenizedAnswer(enc, chosen), BuildTokenizedAnswer(enc, rejected);
    var longer := Max(|c.inputIds|, |r.inputIds|);
    var p := TruncatedPrompt(cfg, PromptTokens(promptIds), longer).value;
    TruncatedPromptBound(cfg, PromptTokens(promptIds), longer);
    BatchKeys(cfg, p, TruncatedAnswer(cfg, p, c, longer), TruncatedAnswer(cfg, p, r, longer));
  }

  /** One answer's sequence: mask and labels as long as the ids, which start with the prompt; the labels pad the prompt. */
  predicate SequenceAligned(ids: seq<int>, mask: seq<int>, labels: seq<int>, prompt: seq<int>, pad: int)
  {
    && |labels| == |ids| == |mask|
    && |prompt| <= |ids| && ids[..|prompt|] == prompt
    && labels == Repeat(pad, |prompt|) + ids[|prompt|..]
  }

  /** Both answers' labels line up with their input ids and mask exactly the (truncated) prompt. */
  lemma BatchLabelsAligned(cfg: OrpoConfig, enc: AnswerEncoder, promptIds: seq<int>, chosen: string, rejected: string)
    requires TokenizeRowSpec(cfg, enc, promptIds, Some(chosen), Some(rejected)).Ok?
    ensures var b := TokenizeRowSpec(cfg, enc, promptIds, Some(chosen), Some(rejected)).value;
      && "prompt_input_ids" in b
      && "chosen_input_ids" in b && "chosen_attention_mask" in b && "chosen_labels" in b
      && "rejected_input_ids" in b && "rejected_attention_mask" in b && "rejected_labels" in b
      && SequenceAligned(b["chosen_input_ids"], b["chosen_attention_mask"], b["chosen_labels"],
                         b["prompt_input_ids"], cfg.labelPadTokenId)
      && SequenceAligned(b["rejected_input_ids"], b["rejected_attention_mask"], b["rejected_labels"],
                         b["prompt_input_ids"], cfg.labelPadTokenId)
  {
    var c, r := BuildTokenizedAnswer(enc, chosen), BuildTokenizedAnswer(enc, rejected);
    var longer := Max(|c.inputIds|, |r.inputIds|);
    var p := TruncatedPrompt(cfg, PromptTokens(promptIds), longer).value;
    var c', r' := TruncatedAnswer(cfg, p, c, longer), TruncatedAnswer(cfg, p, r, longer);
    assert TokenizeRowSpec(cfg, enc, promptIds, Some(chosen), Some(rejected))
        == Ok(Filled([("chosen_", SequenceEntries(cfg, p, c')), ("rejected_", SequenceEntries(cfg, p, r')),
                      ("", PromptEntries(p))]));
    BatchKeys(cfg, p, c', r');
    TruncationKeepsMaskLengths(cfg, PromptTokens(promptIds), c, longer);
    TruncationKeepsMaskLengths(cfg, PromptTokens(promptIds), r, longer);
    EntriesAligned(cfg, p, c');
    EntriesAligned(cfg, p, r');
  }

  /** Truncation cuts ids and mask alike, so each keeps as many mask entries as ids. */
  lemma TruncationKeepsMaskLengths(cfg: OrpoConfig, prompt: Tokens, answer: Tokens, longer: int)
    requires Unmasked(prompt) && Unmasked(answer) && TruncatedPrompt(cfg, prompt, longer).Ok?
    ensures var p := TruncatedPrompt(cfg, prompt, longer).value;
      && |p.attentionMask| == |p.inputIds|
      && var a := TruncatedAnswer(cfg, p, answer, longer); |a.attentionMask| == |a.inputIds|
  {
  }

  /** One sequence's items: ids, mask and labels of one length, the prompt first, its labels padded. */
  lemma EntriesAligned(cfg: OrpoConfig, p: Tokens, a: Tokens)
    requires |p.attentionMask| == |p.inputIds| && |a.attentionMask| == |a.inputIds|
    ensures var e := SequenceEntries(cfg, p, a);
      SequenceAligned(e[0].1, e[1].1, e[2].1, p.inputIds, cfg.labelPadTokenId)
  {
    LabelsMaskPrompt(cfg, p, a);
    assert (p.inputIds + a.inputIds)[..|p.inputIds|] == p.inputIds;
    assert (p.inputIds + a.inputIds)[|p.inputIds|..] == a.inputIds;
  }

  /** Answers that are not strings fail, the chosen one first; an unknown mode fails only when truncation is due. */
  lemma TokenizeRowErrors(cfg: OrpoConfig, enc: AnswerEncoder, promptIds: seq<int>,
                          chosen: Option<string>, rejected: Option<string>)
    ensures chosen.None? ==> TokenizeRowSpec(cfg, enc, promptIds, chosen, rejected) == Err(ChosenNotText)
    ensures chosen.Some? && rejected.None? ==> TokenizeRowSpec(cfg, enc, promptIds, chosen, rejected) == Err(RejectedNotText)
    ensures chosen.Some? && rejected.Some? ==>
      var longer := Max(|enc.encode(chosen.value) + enc.suffixIds|, |enc.encode(rejected.value) + enc.suffixIds|);
      (TokenizeRowSpec(cfg, enc, promptIds, chosen, rejected).Err? <==>
         |promptIds| + longer > cfg.maxLength && cfg.truncationMode != "keep_start" && cfg.truncationMode != "keep_end")
  {
  }

  /**
   * The answer cut is `max_length - max_prompt_length` and its test uses the longer answer's
   * length from before truncation, so an answer whose own sequence fits is cut too: with
   * `max_length` 5, `max_prompt_length` 2, `keep_start`, a one-id prompt, a chosen answer of
   * four ids (five in all) and a rejected one of five, the chosen answer keeps three ids.
   */
  lemma FittingAnswerStillCut()
    ensures var cfg := OrpoConfig(5, 2, "keep_start", -100);
      var p, c := Tokens([1], [1]), Tokens([6, 7, 8, 9], [1, 1, 1, 1]);
      && TruncatedPrompt(cfg, p, 5) == Ok(p)
      && |p.inputIds| + |c.inputIds| <= cfg.maxLength
      && TruncatedAnswer(cfg, p, c, 5) == Tokens([6, 7, 8], [1, 1, 1])
  {
    assert KeepFirst([1], 2) == [1];
    assert KeepFirst([6, 7, 8, 9], 3) == [6, 7, 8];
    assert KeepFirst([1, 1, 1, 1], 3) == [1, 1, 1];
  }

  // ---------------------------------------------------------------------------------------
  // concat_template: which system text and which prefix

  /** The template attributes `concat_template` consults. */
  datatype SystemSettings = SystemSettings(useDefaultSystem: bool, defaultSystem: Option<string>,
                                           prefix: seq<Unit>, prefixHasSystem: Option<seq<Unit>>)

  /**
   * The system text and the prefix `concat_template` encodes with. A missing system falls
   * back to the default one when `use_default_system` is set; an explicit system needs a
   * `prefix_has_system`; with no system at all the plain prefix must differ from it. The
   * prefix is `None` when a default system meets a template without `prefix_has_system`.
   */
  function ChooseSystemPrefix(s: SystemSettings, system: Option<string>): (r: Result<(Option<seq<Unit>>, Option<string>), OrpoError>)
    ensures system.Some? && s.prefixHasSystem.None? ==> r == Err(SystemUnsupported)
    ensures system.Some? && s.prefixHasSystem.Some? ==> r == Ok((s.prefixHasSystem, system))
    ensures r.Ok? && r.value.1.None? ==> r.value.0 == Some(s.prefix) && Some(s.prefix) != s.prefixHasSystem
    ensures r.Ok? && r.value.1.Some? ==> r.value.0 == s.prefixHasSystem
    ensures system.None? && s.useDefaultSystem && s.defaultSystem.Some? ==> r == Ok((s.prefixHasSystem, s.defaultSystem))
    ensures r == Err(PrefixesNotDistinct) <==>
      (system.None? && (!s.useDefaultSystem || s.defaultSystem.None?) && Some(s.prefix) == s.prefixHasSystem)
  {
    var sys := if system.None? && s.useDefaultSystem then s.defaultSystem else system;
    if system.Some? && s.prefixHasSystem.None? then Err(SystemUnsupported)
    else if sys.None? then
      if Some(s.prefix) == s.prefixHasSystem then Err(PrefixesNotDistinct) else Ok((Some(s.prefix), None))
    else Ok((s.prefixHasSystem, sys))
  }
}
