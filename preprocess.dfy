/**
 * examples/pytorch/llm/src/utils/preprocess.py: the older, functional copy of the encoder. Its
 * templates are a constant dictionary of parts, `_preprocess` adds the default system and the
 * generation mode, `convert_chatml_to_query_response_history` turns a chat-message list into
 * query/response/history, and `get_preprocess` binds a template to a tokenizer.
 */
module Preprocess {
  import opened Wrappers
  import opened PyStr
  import opened Context
  import opened Encoding
  import opened Templates

  /** `chatglm2-generation` spells its placeholder in lower case. */
  const Chatglm2GenerationParts := Parts([Ids([Id(64790), Id(64792)])], [Text("{{query}}")], None, Eos)

  /** The module's `TEMPLATE_MAPPING`; entries without a `chat_sep` key have `None`. */
  const PreprocessMapping: map<string, Parts> := map[
    "default" := DefaultParts,
    "default-generation" := DefaultGenerationParts,
    "chatml" := ChatmlParts,
    "baichuan" := BaichuanParts,
    "chatglm2" := Chatglm2Parts,
    "chatglm2-generation" := Chatglm2GenerationParts,
    "llama" := LlamaParts,
    "openbuddy-llama" := OpenbuddyParts,
    "internlm" := InternlmParts,
    "xverse" := XverseParts]

  /**
   * The table agrees with the registry of `template.py` on every shared name but `chatglm2`,
   * where it keeps the multi-round entry the registry overwrites; `openbuddy-llama` is the
   * registry's `openbuddy`.
   */
  lemma MappingAgreesWithRegistry()
    ensures PreprocessMapping.Keys == {"default", "default-generation", "chatml", "baichuan", "chatglm2",
                                       "chatglm2-generation", "llama", "openbuddy-llama", "internlm", "xverse"}
    ensures forall k :: k in PreprocessMapping && k in Builtins && k != "chatglm2" ==> PreprocessMapping[k] == Builtins[k]
    ensures PreprocessMapping["chatglm2"] != Builtins["chatglm2"] && PreprocessMapping["chatglm2"].chatSep.Some?
    ensures PreprocessMapping["openbuddy-llama"] == Builtins["openbuddy"]
  {
    BuiltinNames();
    SharedEntriesAgree();
  }

  /** The names both tables hold, `chatglm2` aside, map to the same parts. */
  lemma SharedEntriesAgree()
    ensures forall k :: k in PreprocessMapping && k in Builtins && k != "chatglm2" ==> PreprocessMapping[k] == Builtins[k]
  {
    BuiltinNames();
    forall k | k in PreprocessMapping && k in Builtins && k != "chatglm2"
      ensures PreprocessMapping[k] == Builtins[k]
    {
      assert k in {"default", "default-generation", "chatml", "baichuan", "llama", "internlm", "xverse"};
    }
  }

  // ---------------------------------------------------------------------------------------
  // _preprocess

  /** Reference definition of `_preprocess`: an unknown template fails; a missing system is the default one. */
  function PreprocessSpec(templateType: string, tok: Tokenizer, query: string, response: Option<string>,
                          history: Option<History>, system: Option<string>, maxLength: Option<int>,
                          generationMode: bool): (r: Result<Encoded, Error>)
    ensures templateType !in PreprocessMapping ==> r == Err(UnknownTemplate(templateType))
  {
    if templateType !in PreprocessMapping then Err(UnknownTemplate(templateType))
    else
      EncodeSpec(tok, PreprocessMapping[templateType], query, response, history.GetOr([]),
                 Some(system.GetOr(DefaultSystem)), maxLength, generationMode)
  }

  /** `_preprocess`. */
  method Preprocess(templateType: string, tok: Tokenizer, query: string, response: Option<string>,
                    history: Option<History>, system: Option<string>, maxLength: Option<int>,
                    generationMode: bool) returns (r: Result<Encoded, Error>)
    ensures r == PreprocessSpec(templateType, tok, query, response, history, system, maxLength, generationMode)
  {
    var h := if history.None? then [] else history.value;
    if templateType !in PreprocessMapping {
      return Err(UnknownTemplate(templateType));
    }
    var templateConfig := PreprocessMapping[templateType];
    var sys := if system.None? then DefaultSystem else system.value;
    r := EncodeConversation(tok, templateConfig, query, response, h, Some(sys), maxLength, generationMode);
  }

  /** A missing system is the same as passing the default system. */
  lemma MissingSystemIsDefault(templateType: string, tok: Tokenizer, query: string, response: Option<string>,
                               history: Option<History>, maxLength: Option<int>, generationMode: bool)
    ensures PreprocessSpec(templateType, tok, query, response, history, None, maxLength, generationMode)
         == PreprocessSpec(templateType, tok, query, response, history, Some(DefaultSystem), maxLength, generationMode)
  {
  }

  /** `default-generation` has no `chat_sep` key: any history fails. */
  lemma DefaultGenerationRejectsHistory(tok: Tokenizer, query: string, response: Option<string>, history: History,
                                        system: Option<string>, maxLength: Option<int>, generationMode: bool)
    requires |history| > 0
    ensures PreprocessSpec("default-generation", tok, query, response, Some(history), system, maxLength, generationMode)
         == Err(MultiRoundUnsupported)
  {
  }

  /** The lowercase `{{query}}` of `chatglm2-generation` is never replaced: the prompt ignores the query. */
  lemma Chatglm2GenerationIgnoresQuery(q: string, system: Option<string>)
    ensures PromptUnits(PreprocessMapping["chatglm2-generation"], q, [], system)
         == Ok([Ids([Id(64790), Id(64792)]), Text("{{query}}")])
  {
    var parts := PreprocessMapping["chatglm2-generation"];
    assert parts == Chatglm2GenerationParts;
    var round := NatToDecimal(1);
    LowercaseQueryIsNeverReplaced(None, Some(q), Some(round));
    var p := Substituted(parts.prompt, None, Some(q), Some(round));
    assert p[0] == Text(Substitute("{{query}}", None, Some(q), Some(round)));
    assert p == [Text("{{query}}")];
    var pre := Substituted(parts.prefix, system, None, None);
    assert pre[0] == parts.prefix[0];
    assert pre == parts.prefix;
    assert HistoryUnits(parts.prompt, [], []) == [];
    assert PromptUnits(parts, q, [], system) == Ok(pre + [] + p);
    assert pre + [] + p == [Ids([Id(64790), Id(64792)]), Text("{{query}}")];
  }

  lemma EncodeOneText(tok: Tokenizer, s: string)
    ensures EncodeUnits(tok, [Text(s)]) == Ok(tok.encode(s))
  {
    EncodeSnoc(tok, [], Text(s));
    assert [] + [Text(s)] == [Text(s)];
    assert [] + tok.encode(s) == tok.encode(s);
  }

  lemma DefaultGenerationPromptIds(tok: Tokenizer)
    ensures PromptIds(tok, DefaultGenerationParts, "abc", [], Some(DefaultSystem)) == Ok(tok.encode("abc"))
  {
    var parts := DefaultGenerationParts;
    var round := NatToDecimal(1);
    assert Substitute(QueryTag, None, Some("abc"), Some(round)) == "abc" by {
      assert Contains(QueryTag, QueryTag);
      assert ReplaceAll(QueryTag, QueryTag, "abc") == "abc" + ReplaceAll("", QueryTag, "abc");
      assert RoundTag[2] == 'R';
      AbsentByCharacter("abc", RoundTag, 2);
    }
    var p := Substituted(parts.prompt, None, Some("abc"), Some(round));
    assert p[0] == Text(Substitute(QueryTag, None, Some("abc"), Some(round)));
    assert p == [Text("abc")];
    assert Substituted(parts.prefix, Some(DefaultSystem), None, None) == [];
    assert PromptUnits(parts, "abc", [], Some(DefaultSystem)) == Ok([] + [] + p);
    assert [] + [] + p == [Text("abc")];
    assert Simplified([Text("abc")]) == [Text("abc")] by {
      assert [Text("abc")][..0] == [];
    }
    EncodeOneText(tok, "abc");
  }

  lemma EosTargetIds(tok: Tokenizer, response: string, eos: int)
    requires tok.attr("eos_token_id") == Some(eos)
    ensures TargetIds(tok, DefaultGenerationParts, response) == Ok(tok.encode(response) + [eos])
  {
    EncodeOneText(tok, response);
    assert ResolveTokens(tok, [Name("eos_token_id")]) == Ok([eos]) by {
      assert [Name("eos_token_id")][..0] == [];
      assert [] + [eos] == [eos];
    }
    assert EncodeUnits(tok, Eos) == Ok([eos]) by {
      EncodeSnoc(tok, [], Eos[0]);
      assert [] + [Eos[0]] == Eos;
    }
  }

  lemma DefaultGenerationEncoding(tok: Tokenizer, eos: int)
    requires tok.attr("eos_token_id") == Some(eos)
    ensures EncodeSpec(tok, DefaultGenerationParts, "abc", Some("c"), [], Some(DefaultSystem), None, true)
         == Ok(Encoded(tok.encode("abc"), Some(tok.encode("c") + [eos])))
  {
    DefaultGenerationPromptIds(tok);
    EosTargetIds(tok, "c", eos);
  }

  /**
   * In generation mode `input_ids` and `labels` need not have the same length: with a tokenizer
   * that gives "abc" three ids and "c" one, the query "abc" and the response "c" give three
   * input ids but two labels (the response and end of sequence).
   */
  lemma GenerationLengthsMayDiffer(tok: Tokenizer, eos: int)
    requires |tok.encode("abc")| == 3 && |tok.encode("c")| == 1 && tok.attr("eos_token_id") == Some(eos)
    ensures var r := PreprocessSpec("default-generation", tok, "abc", Some("c"), None, None, None, true);
      r.Ok? && r.value.labels.Some? && |r.value.inputIds| == 3 && |r.value.labels.value| == 2
  {
    assert "default-generation" in PreprocessMapping && PreprocessMapping["default-generation"] == DefaultGenerationParts;
    DefaultGenerationEncoding(tok, eos);
  }

  // ---------------------------------------------------------------------------------------
  // convert_chatml_to_query_response_history

  datatype Message = Message(role: string, content: string)

  /** The dictionary the converter returns. */
  datatype Conversation = Conversation(system: string, query: string, response: Option<string>, history: History)

  /** The role the alternation demands at a position of the messages after the system message. */
  function ExpectedRole(p: nat): string
  {
    if p % 2 == 0 then "user" else "assistant"
  }

  /** The first position at or after `from` whose role breaks the user/assistant alternation. */
  function FirstBadRole(msgs: seq<Message>, from: nat): (r: Option<nat>)
    requires from <= |msgs|
    ensures r.Some? ==> from <= r.value < |msgs| && msgs[r.value].role != ExpectedRole(r.value)
    ensures forall p :: from <= p < |msgs| && (r.None? || p < r.value) ==> msgs[p].role == ExpectedRole(p)
    decreases |msgs| - from
  {
    if from == |msgs| then None
    else if msgs[from].role != ExpectedRole(from) then Some(from)
    else FirstBadRole(msgs, from + 1)
  }

  /** The first `k` complete (user, assistant) pairs. */
  function Pairs(msgs: seq<Message>, k: nat): (h: History)
    requires 2 * k <= |msgs|
    ensures |h| == k
    ensures forall j :: 0 <= j < k ==> h[j] == (msgs[2 * j].content, msgs[2 * j + 1].content)
  {
    seq(k, j requires 0 <= j < k => (msgs[2 * j].content, msgs[2 * j + 1].content))
  }

  /**
   * Reference definition of the converter: a leading system message gives the system text, at
   * least two messages must remain, roles alternate user/assistant from the first, the last
   * user message is the query with the message after it, if any, as the response, and the
   * earlier pairs are the history.
   */
  function Converted(messages: seq<Message>): (r: Result<Conversation, Error>)
    ensures r == Err(NoMessages) <==> |messages| == 0
  {
    if |messages| == 0 then Err(NoMessages)
    else if messages[0].role == "system" then ConvertedRest(messages[0].content, messages[1..])
    else ConvertedRest(DefaultSystem, messages)
  }

  /** The converter on the messages after the system message. */
  function ConvertedRest(system: string, msgs: seq<Message>): (r: Result<Conversation, Error>)
    ensures r.Err? ==> r.error != NoMessages
    ensures r.Ok? ==> r.value.system == system
  {
    if |msgs| < 2 then Err(TooFewMessages)
    else if FirstBadRole(msgs, 0).Some? then Err(UnexpectedRole(FirstBadRole(msgs, 0).value))
    else
      var last := (|msgs| - 1) / 2;
      Ok(Conversation(system, msgs[2 * last].content,
                      if 2 * last + 1 < |msgs| then Some(msgs[2 * last + 1].content) else None,
                      Pairs(msgs, last)))
  }

  /** The first role that breaks the alternation is the one `FirstBadRole` reports. */
  lemma FirstBadRoleIs(msgs: seq<Message>, q: nat)
    requires q < |msgs| && msgs[q].role != ExpectedRole(q)
    requires forall p :: 0 <= p < q ==> msgs[p].role == ExpectedRole(p)
    ensures FirstBadRole(msgs, 0) == Some(q)
  {
  }

  /** Roles that all alternate leave nothing for `FirstBadRole` to report. */
  lemma NoBadRole(msgs: seq<Message>)
    requires forall p :: 0 <= p < |msgs| ==> msgs[p].role == ExpectedRole(p)
    ensures FirstBadRole(msgs, 0).None?
  {
  }

  /** The entries the converter's loop collects: one per user message, the reply if there is one. */
  predicate Collected(msgs: seq<Message>, history: seq<(string, Option<string>)>)
  {
    forall j :: 0 <= j < |history| ==>
      2 * j < |msgs|
      && history[j] == (msgs[2 * j].content, if 2 * j + 1 < |msgs| then Some(msgs[2 * j + 1].content) else None)
  }

  /** The entries of complete pairs, with their replies unwrapped. */
  function Unwrapped(entries: seq<(string, Option<string>)>): (h: History)
    requires forall j :: 0 <= j < |entries| ==> entries[j].1.Some?
    ensures |h| == |entries|
  {
    seq(|entries|, j requires 0 <= j < |entries| => (entries[j].0, entries[j].1.value))
  }

  /** After the loop, popping the last entry gives the reference conversation. */
  lemma PopLast(system: string, msgs: seq<Message>, history: seq<(string, Option<string>)>)
    requires |msgs| >= 2 && |history| == (|msgs| + 1) / 2 && Collected(msgs, history)
    requires forall p :: 0 <= p < |msgs| ==> msgs[p].role == ExpectedRole(p)
    ensures var n := |history| - 1;
      && (forall j :: 0 <= j < n ==> history[..n][j].1.Some?)
      && ConvertedRest(system, msgs) == Ok(Conversation(system, history[n].0, history[n].1, Unwrapped(history[..n])))
  {
    var n := |history| - 1;
    assert FirstBadRole(msgs, 0).None?;
    assert n == (|msgs| - 1) / 2;
    assert Unwrapped(history[..n]) == Pairs(msgs, n);
  }

  /** The first `k` entries were collected from alternating messages. */
  predicate CollectedAlternating(msgs: seq<Message>, history: seq<(string, Option<string>)>)
  {
    forall j :: 0 <= j < |history| ==>
      2 * j < |msgs| && msgs[2 * j].role == "user" && (2 * j + 1 < |msgs| ==> msgs[2 * j + 1].role == "assistant")
      && history[j] == (msgs[2 * j].content, if 2 * j + 1 < |msgs| then Some(msgs[2 * j + 1].content) else None)
  }

  /** Alternating pairs up to `2k` mean the roles before position `2k` are the expected ones. */
  lemma AlternatingRoles(msgs: seq<Message>, history: seq<(string, Option<string>)>, q: nat)
    requires CollectedAlternating(msgs, history) && q <= 2 * |history| && q <= |msgs|
    ensures forall p :: 0 <= p < q ==> msgs[p].role == ExpectedRole(p)
  {
    forall p | 0 <= p < q
      ensures msgs[p].role == ExpectedRole(p)
    {
      PositionSplit(p, |history|);
      var j :| 0 <= j < |history| && (p == 2 * j || p == 2 * j + 1);
      PairRoles(j);
    }
  }

  /** Appending the entry for the user message at `2 * |history|` keeps the collection alternating. */
  lemma CollectedStep(msgs: seq<Message>, history: seq<(string, Option<string>)>, e: (string, Option<string>))
    requires CollectedAlternating(msgs, history)
    requires var i := 2 * |history|;
      && i < |msgs| && msgs[i].role == "user" && (i + 1 < |msgs| ==> msgs[i + 1].role == "assistant")
      && e == (msgs[i].content, if i + 1 < |msgs| then Some(msgs[i + 1].content) else None)
    ensures CollectedAlternating(msgs, history + [e])
  {
    var h := history + [e];
    forall j | 0 <= j < |h|
      ensures 2 * j < |msgs| && msgs[2 * j].role == "user" && (2 * j + 1 < |msgs| ==> msgs[2 * j + 1].role == "assistant")
           && h[j] == (msgs[2 * j].content, if 2 * j + 1 < |msgs| then Some(msgs[2 * j + 1].content) else None)
    {
      if j < |history| {
        assert h[j] == history[j];
      }
    }
  }

  /**
   * The loop of `convert_chatml_to_query_response_history`: one entry per user message, with the
   * assistant reply after it when there is one; the first role out of place fails.
   */
  method CollectRounds(msgs: seq<Message>) returns (r: Result<seq<(string, Option<string>)>, Error>)
    ensures FirstBadRole(msgs, 0).Some? ==> r == Err(UnexpectedRole(FirstBadRole(msgs, 0).value))
    ensures FirstBadRole(msgs, 0).None? ==> r.Ok? && |r.value| == (|msgs| + 1) / 2 && Collected(msgs, r.value)
  {
    var history: seq<(string, Option<string>)> := [];
    var i := 0;
    while i < |msgs|
      invariant i == 2 * |history| && i <= |msgs| + 1
      invariant CollectedAlternating(msgs, history)
    {
      if msgs[i].role != "user" {
        AlternatingRoles(msgs, history, i);
        PairRoles(|history|);
        FirstBadRoleIs(msgs, i);
        return Err(UnexpectedRole(i));
      }
      if i + 1 == |msgs| {
        CollectedStep(msgs, history, (msgs[i].content, None));
        history := history + [(msgs[i].content, None)];
      } else {
        if msgs[i + 1].role != "assistant" {
          AlternatingRoles(msgs, history, i);
          PairRoles(|history|);
          FirstBadRoleIs(msgs, i + 1);
          return Err(UnexpectedRole(i + 1));
        }
        CollectedStep(msgs, history, (msgs[i].content, Some(msgs[i + 1].content)));
        history := history + [(msgs[i].content, Some(msgs[i + 1].content))];
      }
      i := i + 2;
    }
    AlternatingRoles(msgs, history, |msgs|);
    NoBadRole(msgs);
    return Ok(history);
  }

  /** `convert_chatml_to_query_response_history`: the system message, the loop, then a pop of the last entry. */
  method ConvertChatml(messages: seq<Message>) returns (r: Result<Conversation, Error>)
    ensures r == Converted(messages)
  {
    if |messages| == 0 {
      return Err(NoMessages);
    }
    var msgs := messages;
    var system := DefaultSystem;
    if msgs[0].role == "system" {
      system := msgs[0].content;
      msgs := msgs[1..];
    }
    assert Converted(messages) == ConvertedRest(system, msgs);
    r := ConvertRest(system, msgs);
  }

  /** The part of `convert_chatml_to_query_response_history` after the system message. */
  method ConvertRest(system: string, msgs: seq<Message>) returns (r: Result<Conversation, Error>)
    ensures r == ConvertedRest(system, msgs)
  {
    if |msgs| < 2 {
      return Err(TooFewMessages);
    }
    var collected := CollectRounds(msgs);
    if collected.Err? {
      return Err(collected.error);
    }
    var history := collected.value;
    PopLast(system, msgs, history);
    var n := |history| - 1;
    var query, response := history[n].0, history[n].1;
    history := history[..n];
    r := Ok(Conversation(system, query, response, Unwrapped(history)));
  }

  /** Each history round as a user message followed by an assistant message. */
  function HistoryMessages(h: History): (m: seq<Message>)
    ensures |m| == 2 * |h|
  {
    if |h| == 0 then []
    else HistoryMessages(h[..|h| - 1]) + [Message("user", h[|h| - 1].0), Message("assistant", h[|h| - 1].1)]
  }

  /** The chat-message list of a conversation, with an explicit system message. */
  function ToMessages(c: Conversation): (m: seq<Message>)
    ensures |m| == 2 * |c.history| + 2 + (if c.response.Some? then 1 else 0)
  {
    [Message("system", c.system)] + HistoryMessages(c.history) + [Message("user", c.query)]
    + (if c.response.Some? then [Message("assistant", c.response.value)] else [])
  }

  /** Round `j` sits at positions `2j` and `2j + 1` of the history messages. */
  lemma {:induction false} HistoryMessagesAt(h: History, j: nat)
    requires j < |h|
    ensures HistoryMessages(h)[2 * j] == Message("user", h[j].0)
    ensures HistoryMessages(h)[2 * j + 1] == Message("assistant", h[j].1)
    decreases |h|
  {
    var init := h[..|h| - 1];
    if j < |init| {
      HistoryMessagesAt(init, j);
      assert init[j] == h[j];
    }
  }

  /** The roles of a history pair's two positions. */
  lemma PairRoles(j: nat)
    ensures ExpectedRole(2 * j) == "user" && ExpectedRole(2 * j + 1) == "assistant"
  {
  }

  /** Round `j` of the history becomes the user and assistant messages at `2j + 1` and `2j + 2`. */
  lemma ToMessagesPair(c: Conversation, j: nat)
    requires j < |c.history|
    ensures ToMessages(c)[2 * j + 1] == Message("user", c.history[j].0)
    ensures ToMessages(c)[2 * j + 2] == Message("assistant", c.history[j].1)
  {
    var mid := HistoryMessages(c.history);
    var tail := [Message("user", c.query)] + (if c.response.Some? then [Message("assistant", c.response.value)] else []);
    assert ToMessages(c) == [Message("system", c.system)] + mid + tail;
    HistoryMessagesAt(c.history, j);
    assert ToMessages(c)[2 * j + 1] == mid[2 * j] && ToMessages(c)[2 * j + 2] == mid[2 * j + 1];
  }

  /** The system message opens the message list; the query and the response, if any, close it. */
  lemma ToMessagesEnds(c: Conversation)
    ensures ToMessages(c)[0] == Message("system", c.system)
    ensures var k := |c.history|;
      && ToMessages(c)[2 * k + 1] == Message("user", c.query)
      && (c.response.Some? ==> ToMessages(c)[2 * k + 2] == Message("assistant", c.response.value))
  {
    var mid := HistoryMessages(c.history);
    var tail := [Message("user", c.query)] + (if c.response.Some? then [Message("assistant", c.response.value)] else []);
    assert ToMessages(c) == [Message("system", c.system)] + mid + tail;
  }

  /** Every position is a history position `2j` or `2j + 1`, or one of the two closing positions. */
  lemma PositionSplit(p: nat, k: nat)
    ensures p < 2 * k ==> exists j :: 0 <= j < k && (p == 2 * j || p == 2 * j + 1)
  {
    if p < 2 * k {
      var j := p / 2;
      assert p == 2 * j || p == 2 * j + 1;
    }
  }

  /** The messages after the system message alternate and hold the history, the query and the response. */
  lemma ToMessagesRest(c: Conversation)
    ensures var msgs, k := ToMessages(c)[1..], |c.history|;
      && (forall p :: 0 <= p < |msgs| ==> msgs[p].role == ExpectedRole(p))
      && Pairs(msgs, k) == c.history && msgs[2 * k].content == c.query
      && (c.response.Some? ==> msgs[2 * k + 1].content == c.response.value)
  {
    var m := ToMessages(c);
    var msgs := m[1..];
    var k := |c.history|;
    ToMessagesEnds(c);
    forall p | 0 <= p < |msgs|
      ensures msgs[p].role == ExpectedRole(p)
    {
      PositionSplit(p, k);
      if p < 2 * k {
        var j :| 0 <= j < k && (p == 2 * j || p == 2 * j + 1);
        ToMessagesPair(c, j);
        PairRoles(j);
      } else {
        assert p == 2 * k || p == 2 * k + 1;
        PairRoles(k);
      }
    }
    forall j | 0 <= j < k
      ensures Pairs(msgs, k)[j] == c.history[j]
    {
      ToMessagesPair(c, j);
    }
  }

  /** Converting the messages of a conversation with at least two messages after the system gives it back. */
  lemma ConvertToMessages(c: Conversation)
    requires |c.history| > 0 || c.response.Some?
    ensures Converted(ToMessages(c)) == Ok(c)
  {
    ConvertRestOfMessages(c);
    ToMessagesEnds(c);
  }

  /** The messages after the system message convert back to the conversation. */
  lemma ConvertRestOfMessages(c: Conversation)
    requires |c.history| > 0 || c.response.Some?
    ensures ConvertedRest(c.system, ToMessages(c)[1..]) == Ok(c)
  {
    var m := ToMessages(c);
    var msgs := m[1..];
    var k := |c.history|;
    ToMessagesRest(c);
    assert |msgs| == 2 * k + 1 || |msgs| == 2 * k + 2;
    ConvertedRestOfAlternating(c.system, msgs, k);
    var response := if 2 * k + 1 < |msgs| then Some(msgs[2 * k + 1].content) else None;
    assert response == c.response;
    assert c == Conversation(c.system, msgs[2 * k].content, response, Pairs(msgs, k));
  }

  /** Alternating roles with `k` complete pairs before the last user message convert to those pairs. */
  lemma ConvertedRestOfAlternating(system: string, msgs: seq<Message>, k: nat)
    requires |msgs| == 2 * k + 1 || |msgs| == 2 * k + 2
    requires forall p :: 0 <= p < |msgs| ==> msgs[p].role == ExpectedRole(p)
    ensures var response := if 2 * k + 1 < |msgs| then Some(msgs[2 * k + 1].content) else None;
      |msgs| >= 2 ==> ConvertedRest(system, msgs) == Ok(Conversation(system, msgs[2 * k].content, response, Pairs(msgs, k)))
  {
    NoBadRole(msgs);
    assert (|msgs| - 1) / 2 == k;
  }

  /** What a successful `ConvertedRest` says about the messages and the conversation. */
  lemma ConvertedRestFields(system: string, msgs: seq<Message>, c: Conversation)
    requires ConvertedRest(system, msgs) == Ok(c)
    ensures forall p :: 0 <= p < |msgs| ==> msgs[p].role == ExpectedRole(p)
    ensures var k := |c.history|;
      && (|msgs| == 2 * k + 1 || |msgs| == 2 * k + 2)
      && c.system == system && c.query == msgs[2 * k].content
      && (forall j :: 0 <= j < k ==> c.history[j] == (msgs[2 * j].content, msgs[2 * j + 1].content))
      && c.response == (if 2 * k + 1 < |msgs| then Some(msgs[2 * k + 1].content) else None)
  {
    assert FirstBadRole(msgs, 0).None?;
  }

  /** The two messages of a history round come back at their place in `ToMessages`. */
  lemma RebuiltPair(msgs: seq<Message>, c: Conversation, j: nat)
    requires j < |c.history| && 2 * j + 1 < |msgs|
    requires msgs[2 * j].role == ExpectedRole(2 * j) && msgs[2 * j + 1].role == ExpectedRole(2 * j + 1)
    requires c.history[j] == (msgs[2 * j].content, msgs[2 * j + 1].content)
    ensures ToMessages(c)[2 * j + 1] == msgs[2 * j] && ToMessages(c)[2 * j + 2] == msgs[2 * j + 1]
  {
    ToMessagesPair(c, j);
    PairRoles(j);
  }

  /** A successful conversion of messages that start with a system message loses nothing. */
  lemma MessagesFromConverted(messages: seq<Message>, c: Conversation)
    requires |messages| > 0 && messages[0].role == "system"
    requires Converted(messages) == Ok(c)
    ensures ToMessages(c) == messages
  {
    var msgs := messages[1..];
    var k := |c.history|;
    ConvertedRestFields(messages[0].content, msgs, c);
    ToMessagesEnds(c);
    PairRoles(k);
    var m := ToMessages(c);
    assert |m| == |messages|;
    forall p | 0 <= p < |m|
      ensures m[p] == messages[p]
    {
      if p == 0 {
        assert messages[0] == Message("system", c.system);
      } else {
        RebuiltMessage(messages[0].content, msgs, c, p - 1);
      }
    }
  }

  /** Message `q` after the system message comes back at its place in `ToMessages`. */
  lemma RebuiltMessage(system: string, msgs: seq<Message>, c: Conversation, q: nat)
    requires ConvertedRest(system, msgs) == Ok(c) && q < |msgs|
    ensures ToMessages(c)[q + 1] == msgs[q]
  {
    var k := |c.history|;
    ConvertedRestFields(system, msgs, c);
    if q < 2 * k {
      var j := q / 2;
      assert q == 2 * j || q == 2 * j + 1;
      RebuiltPair(msgs, c, j);
    } else {
      PairRoles(k);
      RebuiltClosing(msgs, c, q);
    }
  }

  /** The query and the response, if any, come back at the last places of `ToMessages`. */
  lemma RebuiltClosing(msgs: seq<Message>, c: Conversation, q: nat)
    requires var k := |c.history|;
      && 2 * k <= q < |msgs| && (|msgs| == 2 * k + 1 || |msgs| == 2 * k + 2)
      && msgs[2 * k].role == "user" && c.query == msgs[2 * k].content
      && (2 * k + 1 < |msgs| ==> msgs[2 * k + 1].role == "assistant")
      && c.response == (if 2 * k + 1 < |msgs| then Some(msgs[2 * k + 1].content) else None)
    ensures ToMessages(c)[q + 1] == msgs[q]
  {
    ToMessagesEnds(c);
  }

  // ---------------------------------------------------------------------------------------
  // get_preprocess

  /**
   * The fields of an example dictionary `preprocess` reads: `messages == None` is a missing key;
   * `query == None` a missing key; `system == None` a missing key and `Some(None)` a key
   * holding `None`; a missing `response` or `history` reads as `None`.
   */
  datatype PreprocessExample = PreprocessExample(messages: Option<seq<Message>>, query: Option<string>,
                                                 response: Option<string>, history: Option<History>,
                                                 system: Option<Option<string>>)

  /** The closure `get_preprocess` returns: a template, tokenizer, system and limit bound together. */
  datatype Preprocessor = Preprocessor(templateType: string, tok: Tokenizer, system: Option<string>, maxLength: Option<int>)
  {
    /**
     * Reference definition of `preprocess`: a `messages` example is converted first and its
     * system (the default one when it has no system message) replaces the bound one; otherwise
     * the example's own `system` key, when present, overrides the bound system.
     */
    function ApplySpec(example: PreprocessExample, generationMode: bool): (r: Result<Encoded, Error>)
      ensures templateType !in PreprocessMapping ==> r.Err?
      ensures example.messages.None? && example.query.None? ==> r == Err(MissingQuery)
    {
      if example.messages.Some? then
        var c :- Converted(example.messages.value);
        PreprocessSpec(templateType, tok, c.query, c.response, Some(c.history), Some(c.system), maxLength, generationMode)
      else if example.query.None? then Err(MissingQuery)
      else
        PreprocessSpec(templateType, tok, example.query.value, example.response, example.history,
                       example.system.GetOr(system), maxLength, generationMode)
    }

    /** `preprocess`. */
    method Apply(example: PreprocessExample, generationMode: bool) returns (r: Result<Encoded, Error>)
      ensures r == ApplySpec(example, generationMode)
    {
      var query, response, history, customSystem;
      if example.messages.Some? {
        var converted := ConvertChatml(example.messages.value);
        if converted.Err? {
          return Err(converted.error);
        }
        var c := converted.value;
        query, response, history, customSystem := c.query, c.response, Some(c.history), Some(c.system);
      } else {
        history := example.history;
        if example.query.None? {
          return Err(MissingQuery);
        }
        query := example.query.value;
        response := example.response;
        customSystem := if example.system.Some? then example.system.value else system;
      }
      r := Preprocess(templateType, tok, query, response, history, customSystem, maxLength, generationMode);
    }
  }

  /** `get_preprocess`. */
  function GetPreprocess(templateType: string, tok: Tokenizer, system: Option<string>, maxLength: Option<int>): (p: Preprocessor)
    ensures p.templateType == templateType && p.tok == tok && p.system == system && p.maxLength == maxLength
  {
    Preprocessor(templateType, tok, system, maxLength)
  }

  /** For a `messages` example, the system bound by `get_preprocess` plays no part. */
  lemma MessagesIgnoreBoundSystem(templateType: string, tok: Tokenizer, s1: Option<string>, s2: Option<string>,
                                  maxLength: Option<int>, example: PreprocessExample, generationMode: bool)
    requires example.messages.Some?
    ensures GetPreprocess(templateType, tok, s1, maxLength).ApplySpec(example, generationMode)
         == GetPreprocess(templateType, tok, s2, maxLength).ApplySpec(example, generationMode)
  {
  }

  /** For a plain example, its own `system` key overrides the bound system. */
  lemma ExampleSystemOverrides(p: Preprocessor, example: PreprocessExample, s: Option<string>, generationMode: bool)
    requires example.messages.None? && example.query.Some? && example.system == Some(s)
    ensures p.ApplySpec(example, generationMode)
         == PreprocessSpec(p.templateType, p.tok, example.query.value, example.response, example.history, s,
                           p.maxLength, generationMode)
  {
  }
}
