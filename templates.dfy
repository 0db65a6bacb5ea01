/**
 * swift/llm/utils/template.py: the `Template` class, the `TEMPLATE_MAPPING` registry with its
 * built-in templates, `register_template` and `get_template`. The encoder itself is
 * `Encoding.EncodeConversation` in training mode.
 */
module Templates {
  import opened Wrappers
  import opened PyStr
  import opened Context
  import opened Encoding

  // ---------------------------------------------------------------------------------------
  // Built-in template parts (Chinese characters written as code points)

  const Eos := [Ids([Name("eos_token_id")])]

  const DefaultParts := Parts([Text("{{SYSTEM}}\n\n")],
                              [Text("### Human:\n"), Text("{{QUERY}}\n\n"), Text("### Assistant:\n")],
                              Some([Text("\n\n")]), Eos)
  const DefaultGenerationParts := Parts([], [Text("{{QUERY}}")], None, Eos)
  const ChatmlParts := Parts([Text("<|im_start|>system\n{{SYSTEM}}<|im_end|>\n")],
                             [Text("<|im_start|>user\n{{QUERY}}<|im_end|>\n<|im_start|>assistant\n")],
                             Some([Text("<|im_end|>\n")]), [Text("<|im_end|><|endoftext|>")])
  const BaichuanParts := Parts([], [Ids([Id(195)]), Text("{{QUERY}}"), Ids([Id(196)])], Some([]), Eos)
  const Chatglm2Parts := Parts([Ids([Id(64790), Id(64792)])],
                               [Text("[Round {{ROUND}}]\n\n\U{95EE}\U{FF1A}{{QUERY}}\n\n\U{7B54}\U{FF1A}")],
                               Some([Text("\n\n")]), Eos)
  /** The second `chatglm2` registration, which replaces the first. */
  const Chatglm2SecondParts := Parts([Ids([Id(64790), Id(64792)])], [Text("{{QUERY}}")], None, Eos)
  const LlamaParts := Parts([Ids([Name("bos_token_id")]), Text("[INST] <<SYS>>\n{{SYSTEM}}\n<</SYS>>\n\n")],
                            [Text("{{QUERY}} [/INST] ")],
                            Some([Text(" "), Ids([Name("eos_token_id"), Name("bos_token_id")]), Text("[INST] ")]),
                            Eos)
  const OpenbuddyParts := Parts([Text("{{SYSTEM}}\n\n")], [Text("User: {{QUERY}}\nAssistant: ")], Some([Text("\n")]), Eos)
  const InternlmParts := Parts([Text("<s>")], [Text("<|User|>:{{QUERY}}<eoh>\n<|Bot|>:")], Some([Text("<eoa>\n")]),
                               [Text("<eoa></s>")])
  const XverseParts := Parts([], [Text("Human: {{QUERY}}\n\nAssistant: ")], Some(Eos), Eos)
  const ZiyaParts := Parts([Ids([Name("bos_token_id")])], [Text("<human>:{{QUERY}}\n<bot>:")], Some([Text("\n")]), Eos)

  /** What `TEMPLATE_MAPPING` holds once the module's registrations have run, in their order. */
  const Builtins: map<string, Parts> :=
    map[]["default" := DefaultParts]
         ["default-generation" := DefaultGenerationParts]
         ["chatml" := ChatmlParts]
         ["baichuan" := BaichuanParts]
         ["chatglm2" := Chatglm2Parts]
         ["chatglm2" := Chatglm2SecondParts]
         ["llama" := LlamaParts]
         ["openbuddy" := OpenbuddyParts]
         ["internlm" := InternlmParts]
         ["xverse" := XverseParts]
         ["ziya" := ZiyaParts]

  /** The registry names each built-in template once; the second `chatglm2` registration wins. */
  lemma BuiltinNames()
    ensures Builtins.Keys == {"default", "default-generation", "chatml", "baichuan", "chatglm2", "llama",
                              "openbuddy", "internlm", "xverse", "ziya"}
    ensures Builtins["chatglm2"] == Chatglm2SecondParts && Builtins["chatglm2"].chatSep.None?
  {
  }

  /** Some text unit of the prefix holds `{{SYSTEM}}`; id-list units never count. */
  predicate HasSystemPlaceholder(prefix: seq<Unit>)
  {
    exists k :: 0 <= k < |prefix| && prefix[k].Text? && Contains(prefix[k].text, SystemTag)
  }

  /**
   * The fields of an example dictionary `encode` reads. `query == None` is a missing key;
   * `system == None` is a missing key and `Some(None)` a key holding `None`; a missing
   * `response` or `history` reads as `None`.
   */
  datatype Example = Example(query: Option<string>, response: Option<string>, history: Option<History>,
                             system: Option<Option<string>>)

  class Template {
    const prefix: seq<Unit>
    const prompt: seq<Unit>
    const chatSep: Option<seq<Unit>>
    const suffix: seq<Unit>
    var hasSystem: bool
    var isInit: bool
    /** The attributes `init_template` creates; `None` until it has run. */
    var tokenizer: Option<Tokenizer>
    var system: Option<string>
    var maxLength: Option<int>

    /** `init_template` has run exactly when there is a tokenizer to encode with. */
    predicate Valid()
      reads this
    {
      isInit <==> tokenizer.Some?
    }

    function TemplateParts(): Parts
    {
      Parts(prefix, prompt, chatSep, suffix)
    }

    /** `Template.__init__`: a new template is not initialised and detects a system placeholder in its prefix. */
    constructor(prefix: seq<Unit>, prompt: seq<Unit>, chatSep: Option<seq<Unit>>, suffix: seq<Unit>)
      ensures TemplateParts() == Parts(prefix, prompt, chatSep, suffix)
      ensures hasSystem <==> HasSystemPlaceholder(prefix)
      ensures !isInit && Valid()
    {
      this.prefix := prefix;
      this.prompt := prompt;
      this.chatSep := chatSep;
      this.suffix := suffix;
      new;
      hasSystem := false;
      for k := 0 to |prefix|
        invariant hasSystem <==> exists j :: 0 <= j < k && prefix[j].Text? && Contains(prefix[j].text, SystemTag)
      {
        if prefix[k].Text? && Contains(prefix[k].text, SystemTag) {
          hasSystem := true;
        }
      }
      isInit := false;
      tokenizer := None;
      system := None;
      maxLength := None;
    }

    /** `init_template`: binds the tokenizer, the default system and the length limit. */
    method InitTemplate(tokenizer: Tokenizer, system: Option<string>, maxLength: Option<int>)
      modifies this
      ensures isInit && Valid()
      ensures this.tokenizer == Some(tokenizer) && this.system == system && this.maxLength == maxLength
      ensures hasSystem == old(hasSystem)
    {
      isInit := true;
      this.tokenizer := Some(tokenizer);
      this.system := system;
      this.maxLength := maxLength;
    }

    /**
     * `encode`: fails before `init_template`, then on a missing query; otherwise the training-mode
     * encoding with the example's own system when it has the key, the template's otherwise.
     */
    method Encode(example: Example) returns (r: Result<Encoded, Error>)
      requires Valid()
      ensures !isInit ==> r == Err(NotInitialized)
      ensures isInit && example.query.None? ==> r == Err(MissingQuery)
      ensures isInit && example.query.Some? ==>
        r == EncodeSpec(tokenizer.value, TemplateParts(), example.query.value, example.response,
                        example.history.GetOr([]), example.system.GetOr(system), maxLength, false)
    {
      if !isInit {
        return Err(NotInitialized);
      }
      var history := example.history;
      if example.query.None? {
        return Err(MissingQuery);
      }
      var query := example.query.value;
      var response := example.response;
      var sys := if example.system.Some? then example.system.value else system;
      r := EncodeConversation(tokenizer.value, TemplateParts(), query, response,
                              if history.Some? then history.value else [], sys, maxLength, false);
    }
  }

  /** `TEMPLATE_MAPPING` together with the functions that change and read it. */
  class Registry {
    var mapping: map<string, Template>
    /** The parts each registered template was built from. */
    ghost var registered: map<string, Parts>

    ghost predicate Valid()
      reads this, mapping.Values
    {
      && mapping.Keys == registered.Keys
      && forall k :: k in mapping ==> mapping[k].TemplateParts() == registered[k] && mapping[k].Valid()
    }

    /** No registered template has been initialised yet. */
    predicate NoneInitialised()
      reads this, mapping.Values
    {
      forall k :: k in mapping ==> !mapping[k].isInit
    }

    /** `register_template`: a fresh, uninitialised template under the key, replacing any earlier one. */
    method Register(templateType: string, parts: Parts)
      requires Valid()
      modifies this
      ensures Valid()
      ensures registered == old(registered)[templateType := parts]
      ensures templateType in mapping && mapping == old(mapping)[templateType := mapping[templateType]]
      ensures fresh(mapping[templateType]) && !mapping[templateType].isInit
      ensures mapping[templateType].hasSystem <==> HasSystemPlaceholder(parts.prefix)
      ensures old(NoneInitialised()) ==> NoneInitialised()
    {
      var t := new Template(parts.prefix, parts.prompt, parts.chatSep, parts.suffix);
      mapping := mapping[templateType := t];
      registered := registered[templateType := parts];
    }

    /** The module-level registrations: eleven calls, the second `chatglm2` replacing the first. */
    constructor()
      ensures Valid() && registered == Builtins
      ensures NoneInitialised()
    {
      mapping := map[];
      registered := map[];
      new;
      Register("default", DefaultParts);
      Register("default-generation", DefaultGenerationParts);
      Register("chatml", ChatmlParts);
      Register("baichuan", BaichuanParts);
      Register("chatglm2", Chatglm2Parts);
      Register("chatglm2", Chatglm2SecondParts);
      Register("llama", LlamaParts);
      Register("openbuddy", OpenbuddyParts);
      Register("internlm", InternlmParts);
      Register("xverse", XverseParts);
      Register("ziya", ZiyaParts);
    }

    /**
     * `get_template`: fails on an unknown key; otherwise initialises the registered template in
     * place and returns that same, shared instance.
     */
    method GetTemplate(templateType: string, tokenizer: Tokenizer, system: Option<string>, maxLength: Option<int>)
      returns (r: Result<Template, Error>)
      requires Valid()
      modifies mapping.Values
      ensures mapping == old(mapping) && Valid()
      ensures templateType !in mapping ==> r == Err(UnknownTemplate(templateType))
      ensures templateType in mapping ==> r == Ok(mapping[templateType])
      ensures r.Ok? ==> r.value.isInit && r.value.tokenizer == Some(tokenizer)
                        && r.value.system == system && r.value.maxLength == maxLength
      ensures forall k :: k in mapping && (templateType !in mapping || mapping[k] != mapping[templateType]) ==>
        unchanged(mapping[k])
    {
      if templateType !in mapping {
        return Err(UnknownTemplate(templateType));
      }
      var template := mapping[templateType];
      template.InitTemplate(tokenizer, system, maxLength);
      return Ok(template);
    }
  }

  /** The llama prefix starts with an id list, yet its text unit carries the system placeholder. */
  lemma LlamaHasSystem()
    ensures HasSystemPlaceholder(LlamaParts.prefix)
  {
    var s := LlamaParts.prefix[1].text;
    assert s[15..15 + |SystemTag|] == SystemTag;
    ContainsAt(s, SystemTag, 15);
  }

  /** The prefixes of chatglm2, baichuan and internlm have no system placeholder. */
  lemma NoSystemInIdOnlyPrefixes()
    ensures !HasSystemPlaceholder(Chatglm2SecondParts.prefix)
    ensures !HasSystemPlaceholder(BaichuanParts.prefix)
    ensures !HasSystemPlaceholder(InternlmParts.prefix)
  {
    assert SystemTag[2] == 'S';
    AbsentByCharacter(InternlmParts.prefix[0].text, SystemTag, 2);
  }

  /**
   * The registered `chatglm2` template is the second one: it supports one round only, so any
   * history fails the multi-round assertion.
   */
  lemma Chatglm2RejectsHistory(tok: Tokenizer, query: string, response: Option<string>, history: History,
                               system: Option<string>, maxLength: Option<int>)
    requires |history| > 0
    ensures EncodeSpec(tok, Builtins["chatglm2"], query, response, history, system, maxLength, false)
      == Err(MultiRoundUnsupported)
  {
  }

  /** baichuan's empty separator `[]` is not `None`: multi-round chats are accepted. */
  lemma BaichuanAcceptsHistory(tok: Tokenizer, query: string, history: History, system: Option<string>)
    ensures PromptUnits(Builtins["baichuan"], query, history, system).Ok?
  {
  }
}
