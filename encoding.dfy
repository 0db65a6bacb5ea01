/**
 * The conversation encoder shared by `_encode` in swift/llm/utils/template.py and `_preprocess`
 * in examples/pytorch/llm/src/utils/preprocess.py: the template's prefix, one prompt/response/
 * separator block per history round and the final prompt are concatenated with their
 * placeholders substituted, simplified and tokenized; a response and the template's suffix
 * become the target ids. `_encode` is the training mode of this encoder (`generationMode ==
 * false`); `_preprocess` adds the generation mode.
 */
module Encoding {
  import opened Wrappers
  import opened PyStr
  import opened Context

  /** Earlier rounds of a conversation, as (query, response) pairs. */
  type History = seq<(string, string)>

  const DefaultSystem := "you are a helpful assistant!"

  /** The label that excludes a position from the loss. */
  const LabelMask := -100

  /** The four parts of a template; a template without a chat separator supports one round only. */
  datatype Parts = Parts(prefix: seq<Unit>, prompt: seq<Unit>, chatSep: Option<seq<Unit>>, suffix: seq<Unit>)

  /** The encoder's output dictionary: `input_ids` and `labels`, the latter `None` without a response. */
  datatype Encoded = Encoded(inputIds: seq<int>, labels: Option<seq<int>>)

  /** The number of units one history round contributes. */
  function RoundLength(prompt: seq<Unit>, chatSep: seq<Unit>): nat
  {
    |prompt| + 1 + |chatSep|
  }

  /**
   * The units of history round `i`: the prompt, the response as a text unit and the separator,
   * with `{{QUERY}}` bound to the round's query and `{{ROUND}}` to `str(i + 1)`. The response is a
   * text unit too, so its own placeholders are substituted as well.
   */
  function RoundUnits(prompt: seq<Unit>, chatSep: seq<Unit>, q: string, resp: string, i: nat): (r: seq<Unit>)
    ensures |r| == RoundLength(prompt, chatSep)
    ensures r[|prompt|] == Text(Substitute(resp, None, Some(q), Some(NatToDecimal(i + 1))))
    ensures forall k :: 0 <= k < |prompt| ==> r[k] == SubstituteUnit(prompt[k], None, Some(q), Some(NatToDecimal(i + 1)))
  {
    Substituted(prompt + [Text(resp)] + chatSep, None, Some(q), Some(NatToDecimal(i + 1)))
  }

  /** The units of all history rounds, round after round. */
  function HistoryUnits(prompt: seq<Unit>, chatSep: seq<Unit>, history: History): seq<Unit>
  {
    if |history| == 0 then []
    else
      var n := |history| - 1;
      HistoryUnits(prompt, chatSep, history[..n]) + RoundUnits(prompt, chatSep, history[n].0, history[n].1, n)
  }

  /** The unsimplified context list of a conversation, or the error for a multi-round chat without separator. */
  function PromptUnits(parts: Parts, query: string, history: History, system: Option<string>): (r: Result<seq<Unit>, Error>)
    ensures r.Err? <==> |history| > 0 && parts.chatSep.None?
    ensures r.Err? ==> r.error == MultiRoundUnsupported
  {
    if |history| > 0 && parts.chatSep.None? then Err(MultiRoundUnsupported)
    else
      Ok(Substituted(parts.prefix, system, None, None)
         + HistoryUnits(parts.prompt, parts.chatSep.GetOr([]), history)
         + Substituted(parts.prompt, None, Some(query), Some(NatToDecimal(|history| + 1))))
  }

  /** The ids of the prompt: the simplified context list, tokenized. */
  function PromptIds(tok: Tokenizer, parts: Parts, query: string, history: History, system: Option<string>): Result<seq<int>, Error>
  {
    var units :- PromptUnits(parts, query, history, system);
    EncodeUnits(tok, Simplified(units))
  }

  /** The target ids: the response's ids followed by the suffix's ids. */
  function TargetIds(tok: Tokenizer, parts: Parts, response: string): Result<seq<int>, Error>
  {
    var responseIds :- EncodeUnits(tok, [Text(response)]);
    var suffixIds :- EncodeUnits(tok, parts.suffix);
    Ok(responseIds + suffixIds)
  }

  /** `[-100] * n`. */
  function Mask(n: nat): (r: seq<int>)
    ensures |r| == n && forall k :: 0 <= k < n ==> r[k] == LabelMask
  {
    seq(n, _ => LabelMask)
  }

  /** `input_ids[-max_length:]` and, when there are labels, `labels[-max_length:]`. */
  function Truncate(e: Encoded, maxLength: Option<int>): (r: Encoded)
    ensures r.labels.Some? <==> e.labels.Some?
    ensures maxLength.Some? && maxLength.value > 0 ==>
      |r.inputIds| <= maxLength.value && |r.inputIds| <= |e.inputIds|
      && r.inputIds == e.inputIds[|e.inputIds| - |r.inputIds|..]
  {
    match maxLength
    case None => e
    case Some(m) =>
      Encoded(KeepLast(e.inputIds, m), if e.labels.Some? then Some(KeepLast(e.labels.value, m)) else None)
  }

  /**
   * Reference definition of the encoder. Without a response the labels are `None`; in training
   * mode the target ids are appended to the input and labelled, the prompt masked; in generation
   * mode the input stays the prompt and the labels are the target ids alone.
   */
  function EncodeSpec(tok: Tokenizer, parts: Parts, query: string, response: Option<string>, history: History,
                      system: Option<string>, maxLength: Option<int>, generationMode: bool): (r: Result<Encoded, Error>)
    ensures |history| > 0 && parts.chatSep.None? ==> r == Err(MultiRoundUnsupported)
    ensures r.Ok? ==> (r.value.labels.Some? <==> response.Some?)
  {
    var promptIds :- PromptIds(tok, parts, query, history, system);
    if response.None? then Ok(Truncate(Encoded(promptIds, None), maxLength))
    else
      var tgt :- TargetIds(tok, parts, response.value);
      if !generationMode then Ok(Truncate(Encoded(promptIds + tgt, Some(Mask(|promptIds|) + tgt)), maxLength))
      else Ok(Truncate(Encoded(promptIds, Some(tgt)), maxLength))
  }

  /** The units of the first `i + 1` rounds are those of the first `i` followed by round `i`'s. */
  lemma HistoryUnitsSnoc(prompt: seq<Unit>, chatSep: seq<Unit>, history: History, i: nat)
    requires i < |history|
    ensures HistoryUnits(prompt, chatSep, history[..i + 1])
         == HistoryUnits(prompt, chatSep, history[..i]) + RoundUnits(prompt, chatSep, history[i].0, history[i].1, i)
  {
    assert history[..i + 1][..i] == history[..i];
  }

  /**
   * The concatenation loop of `_encode` / `_preprocess`: the prefix with the system bound, one
   * block per history round (failing on the first round when there is no chat separator), and
   * the final prompt with the next round number.
   */
  method ConcatConversation(parts: Parts, query: string, history: History, system: Option<string>)
    returns (r: Result<seq<Unit>, Error>)
    ensures r == PromptUnits(parts, query, history, system)
  {
    var resContextList := ConcatContextList(parts.prefix, [], system, None, None);
    var rounds := ConcatHistory(parts, history, resContextList);
    if rounds.Err? {
      return Err(rounds.error);
    }
    resContextList := ConcatContextList(parts.prompt, rounds.value, None, Some(query), Some(NatToDecimal(|history| + 1)));
    return Ok(resContextList);
  }

  /** The history loop of the concatenation: one block per round, after the units already collected. */
  method ConcatHistory(parts: Parts, history: History, start: seq<Unit>) returns (r: Result<seq<Unit>, Error>)
    ensures |history| > 0 && parts.chatSep.None? ==> r == Err(MultiRoundUnsupported)
    ensures |history| == 0 || parts.chatSep.Some? ==>
      r == Ok(start + HistoryUnits(parts.prompt, parts.chatSep.GetOr([]), history))
  {
    var resContextList := start;
    for i := 0 to |history|
      invariant i > 0 ==> parts.chatSep.Some?
      invariant resContextList == start + HistoryUnits(parts.prompt, parts.chatSep.GetOr([]), history[..i])
    {
      if parts.chatSep.None? {
        return Err(MultiRoundUnsupported);
      }
      var (q, resp) := history[i];
      HistoryUnitsSnoc(parts.prompt, parts.chatSep.value, history, i);
      resContextList := ConcatContextList(parts.prompt + [Text(resp)] + parts.chatSep.value, resContextList,
                                          None, Some(q), Some(NatToDecimal(i + 1)));
    }
    assert history[..|history|] == history;
    return Ok(resContextList);
  }

  /**
   * `_encode` / `_preprocess` after the concatenation: simplification, tokenization, labels and
   * truncation.
   */
  method EncodeConversation(tok: Tokenizer, parts: Parts, query: string, response: Option<string>, history: History,
                            system: Option<string>, maxLength: Option<int>, generationMode: bool)
    returns (r: Result<Encoded, Error>)
    ensures r == EncodeSpec(tok, parts, query, response, history, system, maxLength, generationMode)
  {
    var units := ConcatConversation(parts, query, history, system);
    if units.Err? {
      return Err(units.error);
    }
    var resContextList := SimplifyContextList(units.value);
    var encoded := EncodeContextList(tok, resContextList);
    if encoded.Err? {
      return Err(encoded.error);
    }
    var inputIds := encoded.value;
    var labels: Option<seq<int>> := None;
    if response.Some? {
      var responseIds := EncodeContextList(tok, [Text(response.value)]);
      assert EncodeUnits(tok, [Text(response.value)]) == Ok(tok.encode(response.value)) by {
        EncodeSnoc(tok, [], Text(response.value));
        assert [] + [Text(response.value)] == [Text(response.value)];
        assert [] + tok.encode(response.value) == tok.encode(response.value);
      }
      var suffixIds := EncodeContextList(tok, parts.suffix);
      if suffixIds.Err? {
        return Err(suffixIds.error);
      }
      var tgtInputIds := responseIds.value + suffixIds.value;
      if !generationMode {
        labels := Some(Mask(|inputIds|) + tgtInputIds);
        inputIds := inputIds + tgtInputIds;
      } else {
        labels := Some(tgtInputIds);
      }
    }
    if maxLength.Some? {
      inputIds := KeepLast(inputIds, maxLength.value);
      if labels.Some? {
        labels := Some(KeepLast(labels.value, maxLength.value));
      }
    }
    return Ok(Encoded(inputIds, labels));
  }

  // ---------------------------------------------------------------------------------------
  // Properties

  /** Arithmetic helper for `HistoryLength`: one more round adds one more round length. */
  lemma MulSucc(n: nat, l: nat)
    ensures n * l + l == (n + 1) * l
  {
  }

  /** The history contributes `RoundLength` units per round. */
  lemma {:induction false} HistoryLength(prompt: seq<Unit>, chatSep: seq<Unit>, history: History)
    ensures |HistoryUnits(prompt, chatSep, history)| == |history| * RoundLength(prompt, chatSep)
  {
    if history != [] {
      var n := |history| - 1;
      HistoryLength(prompt, chatSep, history[..n]);
      MulSucc(n, RoundLength(prompt, chatSep));
    }
  }

  /** The units of the first `k` rounds are a prefix of the units of the whole history. */
  lemma {:induction false} HistoryPrefix(prompt: seq<Unit>, chatSep: seq<Unit>, history: History, k: nat)
    requires k <= |history|
    ensures HistoryUnits(prompt, chatSep, history[..k]) <= HistoryUnits(prompt, chatSep, history)
    decreases |history| - k
  {
    if k < |history| {
      var n := |history| - 1;
      assert history[..n][..k] == history[..k];
      HistoryPrefix(prompt, chatSep, history[..n], k);
    } else {
      assert history[..k] == history;
    }
  }

  /**
   * History round `i` follows the units of the rounds before it and carries `{{ROUND}}` =
   * `str(i + 1)`; with `HistoryLength` it occupies units `i*L .. (i+1)*L`.
   */
  lemma HistoryRound(prompt: seq<Unit>, chatSep: seq<Unit>, history: History, i: nat)
    requires i < |history|
    ensures HistoryUnits(prompt, chatSep, history[..i]) + RoundUnits(prompt, chatSep, history[i].0, history[i].1, i)
            <= HistoryUnits(prompt, chatSep, history)
  {
    assert history[..i + 1][..i] == history[..i];
    HistoryPrefix(prompt, chatSep, history, i + 1);
  }

  /** The prompt ids and the target ids that make up a successful encoding. */
  predicate ComposedOf(tok: Tokenizer, parts: Parts, query: string, response: string, history: History,
                       system: Option<string>, promptIds: seq<int>, tgt: seq<int>)
  {
    PromptIds(tok, parts, query, history, system) == Ok(promptIds) && TargetIds(tok, parts, response) == Ok(tgt)
  }

  /**
   * Training with a response and no length limit: `input_ids` is the prompt ids followed by the
   * response and suffix ids, and `labels` masks every prompt position with -100 (history
   * responses included, as they are part of the prompt) and repeats the target ids.
   */
  lemma TrainingLabels(tok: Tokenizer, parts: Parts, query: string, response: string, history: History,
                       system: Option<string>, e: Encoded)
    requires EncodeSpec(tok, parts, query, Some(response), history, system, None, false) == Ok(e)
    ensures exists promptIds, tgt ::
      (ComposedOf(tok, parts, query, response, history, system, promptIds, tgt)
       && e.inputIds == promptIds + tgt && e.labels == Some(Mask(|promptIds|) + tgt))
  {
    var promptIds := PromptIds(tok, parts, query, history, system).value;
    var tgt := TargetIds(tok, parts, response).value;
    assert ComposedOf(tok, parts, query, response, history, system, promptIds, tgt);
  }

  /** Every label is -100 or the input id at its position. */
  predicate LabelsMatchInput(inputIds: seq<int>, labels: seq<int>)
  {
    |labels| == |inputIds| && forall k :: 0 <= k < |labels| ==> labels[k] == LabelMask || labels[k] == inputIds[k]
  }

  lemma KeepLastKeepsMatch(inputIds: seq<int>, labels: seq<int>, m: int)
    requires LabelsMatchInput(inputIds, labels)
    ensures LabelsMatchInput(KeepLast(inputIds, m), KeepLast(labels, m))
  {
    var a, b := KeepLast(inputIds, m), KeepLast(labels, m);
    var d := |inputIds| - |a|;
    assert a == inputIds[d..] && b == labels[d..];
    forall k | 0 <= k < |b|
      ensures b[k] == LabelMask || b[k] == a[k]
    {
      assert b[k] == labels[d + k] && a[k] == inputIds[d + k];
    }
  }

  /**
   * In training mode, with or without truncation, `labels` and `input_ids` have the same length
   * and each label is -100 or the input id it labels.
   */
  lemma TrainingLabelsAligned(tok: Tokenizer, parts: Parts, query: string, response: string, history: History,
                              system: Option<string>, maxLength: Option<int>, e: Encoded)
    requires EncodeSpec(tok, parts, query, Some(response), history, system, maxLength, false) == Ok(e)
    ensures e.labels.Some? && LabelsMatchInput(e.inputIds, e.labels.value)
  {
    var promptIds := PromptIds(tok, parts, query, history, system).value;
    var tgt := TargetIds(tok, parts, response).value;
    var inputIds, labels := promptIds + tgt, Mask(|promptIds|) + tgt;
    forall k | 0 <= k < |labels|
      ensures labels[k] == LabelMask || labels[k] == inputIds[k]
    {
      if k >= |promptIds| {
        assert labels[k] == tgt[k - |promptIds|] == inputIds[k];
      }
    }
    if maxLength.Some? {
      KeepLastKeepsMatch(inputIds, labels, maxLength.value);
    }
  }

  /** Without a response, `labels` is `None` and `input_ids` is the (truncated) prompt. */
  lemma NoResponseEncodesPrompt(tok: Tokenizer, parts: Parts, query: string, history: History,
                                system: Option<string>, maxLength: Option<int>, generationMode: bool)
    requires PromptIds(tok, parts, query, history, system).Ok?
    ensures EncodeSpec(tok, parts, query, None, history, system, maxLength, generationMode)
      == Ok(Encoded(KeepLast(PromptIds(tok, parts, query, history, system).value,
                             if maxLength.Some? then maxLength.value else 0), None))
  {
  }

  /**
   * In generation mode `input_ids` is the prompt and `labels` the response and suffix ids, each
   * truncated on its own.
   */
  lemma GenerationLabels(tok: Tokenizer, parts: Parts, query: string, response: string, history: History,
                         system: Option<string>, maxLength: Option<int>, e: Encoded)
    requires EncodeSpec(tok, parts, query, Some(response), history, system, maxLength, true) == Ok(e)
    ensures exists promptIds, tgt ::
      (ComposedOf(tok, parts, query, response, history, system, promptIds, tgt)
       && e == Truncate(Encoded(promptIds, Some(tgt)), maxLength))
  {
    var promptIds := PromptIds(tok, parts, query, history, system).value;
    var tgt := TargetIds(tok, parts, response).value;
    assert ComposedOf(tok, parts, query, response, history, system, promptIds, tgt);
  }

  /**
   * A length limit keeps the last `m` ids (and labels) of the unlimited encoding: a suffix of it,
   * of length `min(m, n)` for `m > 0`; `m == 0` keeps everything, as Python's `xs[-0:]` does.
   */
  lemma TruncationKeepsSuffix(tok: Tokenizer, parts: Parts, query: string, response: Option<string>, history: History,
                              system: Option<string>, m: int, generationMode: bool, full: Encoded)
    requires EncodeSpec(tok, parts, query, response, history, system, None, generationMode) == Ok(full)
    ensures var r := EncodeSpec(tok, parts, query, response, history, system, Some(m), generationMode);
      r.Ok? && r.value.labels.Some? == full.labels.Some?
      && (m > 0 ==>
            |r.value.inputIds| == Min(m, |full.inputIds|)
            && r.value.inputIds == full.inputIds[|full.inputIds| - |r.value.inputIds|..])
      && (m > 0 && full.labels.Some? ==>
            |r.value.labels.value| == Min(m, |full.labels.value|)
            && r.value.labels.value == full.labels.value[|full.labels.value| - |r.value.labels.value|..])
      && (m == 0 ==> r.value == full)
  {
    EncodeSpecTruncates(tok, parts, query, response, history, system, m, generationMode, full);
  }

  /** With a maximum length the encoder's result is the untruncated one, truncated. */
  lemma EncodeSpecTruncates(tok: Tokenizer, parts: Parts, query: string, response: Option<string>, history: History,
                            system: Option<string>, m: int, generationMode: bool, full: Encoded)
    requires EncodeSpec(tok, parts, query, response, history, system, None, generationMode) == Ok(full)
    ensures EncodeSpec(tok, parts, query, response, history, system, Some(m), generationMode) == Ok(Truncate(full, Some(m)))
  {
    var promptIds := PromptIds(tok, parts, query, history, system).value;
    if response.Some? {
      var tgt := TargetIds(tok, parts, response.value).value;
      if !generationMode {
        assert full == Encoded(promptIds + tgt, Some(Mask(|promptIds|) + tgt));
      } else {
        assert full == Encoded(promptIds, Some(tgt));
      }
    } else {
      assert full == Encoded(promptIds, None);
    }
  }
}
