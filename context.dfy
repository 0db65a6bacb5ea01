/**
 * Context units, the building blocks of a conversation template, and the three helpers of
 * swift/llm/utils/template.py that work on lists of them: `_simplify_context_list`
 * (merge adjacent text), `_concat_context_list` (substitute placeholders and append) and
 * `_encode_context_list` (turn units into token ids). examples/pytorch/llm/src/utils/preprocess.py
 * holds verbatim copies of the three (`simplify_context_list`, `concat_context_list`, `_encode`),
 * which these same members model.
 */
module Context {
  import opened Wrappers
  import opened PyStr

  /** An element of an id-list unit: a literal token id, or the name of a tokenizer attribute. */
  datatype Token = Id(id: int) | Name(name: string)

  /** A context unit: a text fragment that may hold placeholders, or a list of token ids and names. */
  datatype Unit = Text(text: string) | Ids(tokens: seq<Token>)

  /**
   * The tokenizer, kept abstract: `encode` tokenizes text without adding special tokens,
   * `attr` is `getattr(tokenizer, name)`, `None` both for a missing attribute and a `None` value.
   */
  datatype Tokenizer = Tokenizer(encode: string -> seq<int>, attr: string -> Option<int>)

  /** The exceptions the encoding pipeline raises. */
  datatype Error =
    | NotInitialized                  // ValueError: encode before init_template
    | UnknownTemplate(key: string)    // KeyError on the template mapping
    | MissingQuery                    // KeyError on example['query']
    | MultiRoundUnsupported           // AssertionError: history but no chat separator
    | MissingSpecialToken(name: string) // getattr(tokenizer, name) absent or None
    | NoMessages                      // IndexError on messages[0]
    | TooFewMessages                  // AssertionError: fewer than two messages
    | UnexpectedRole(position: nat)   // AssertionError: user/assistant alternation broken

  // ---------------------------------------------------------------------------------------
  // Simplification

  /** Appends one unit to a simplified list, gluing a text unit onto a trailing text unit. */
  function Push(res: seq<Unit>, u: Unit): seq<Unit>
  {
    if u.Text? && |res| > 0 && res[|res| - 1].Text?
    then res[..|res| - 1] + [Text(res[|res| - 1].text + u.text)]
    else res + [u]
  }

  /**
   * Reference definition of the simplifier: every run of adjacent text units becomes one, so
   * no two adjacent units of the result are texts.
   */
  function Simplified(units: seq<Unit>): (r: seq<Unit>)
    ensures NoAdjacentText(r)
  {
    if |units| == 0 then []
    else
      var init := Simplified(units[..|units| - 1]);
      PushKeepsNoAdjacentText(init, units[|units| - 1]);
      Push(init, units[|units| - 1])
  }

  /** No unit is a text directly followed by another text. */
  ghost predicate NoAdjacentText(units: seq<Unit>)
  {
    forall i, j :: 0 <= i < j < |units| && j == i + 1 ==> !(units[i].Text? && units[j].Text?)
  }

  /** Appending a unit to a list without adjacent texts, gluing texts, keeps it so. */
  lemma PushKeepsNoAdjacentText(r: seq<Unit>, u: Unit)
    requires NoAdjacentText(r)
    ensures NoAdjacentText(Push(r, u))
  {
    if u.Text? && |r| > 0 && r[|r| - 1].Text? {
      var out := r[..|r| - 1] + [Text(r[|r| - 1].text + u.text)];
      forall i, j | 0 <= i < j < |out| && j == i + 1
        ensures !(out[i].Text? && out[j].Text?)
      {
        assert out[i] == r[i];
        if j < |out| - 1 { assert out[j] == r[j]; }
      }
    }
  }

  /** A list with no adjacent text units is left as it is. */
  lemma {:induction false} SimplifiedFixesMerged(units: seq<Unit>)
    requires NoAdjacentText(units)
    ensures Simplified(units) == units
  {
    if units != [] {
      var n := |units|;
      var init := units[..n - 1];
      assert NoAdjacentText(init) by {
        forall i, j | 0 <= i < j < |init| && j == i + 1
          ensures !(init[i].Text? && init[j].Text?)
        {
          assert init[i] == units[i] && init[j] == units[j];
        }
      }
      SimplifiedFixesMerged(init);
      if n > 1 {
        assert init[n - 2] == units[n - 2];
      }
      assert init + [units[n - 1]] == units;
    }
  }

  /** Simplifying twice is simplifying once. */
  lemma SimplifyIdempotent(units: seq<Unit>)
    ensures Simplified(Simplified(units)) == Simplified(units)
  {
    SimplifiedFixesMerged(Simplified(units));
  }

  /** The content of a list of units: its characters and id lists, in order, ignoring unit boundaries. */
  datatype Atom = Char(c: char) | List(tokens: seq<Token>)

  /** The characters of a text, one atom each. */
  function Chars(s: string): (a: seq<Atom>)
    ensures |a| == |s|
  {
    if |s| == 0 then [] else [Char(s[0])] + Chars(s[1..])
  }

  function Atoms(u: Unit): seq<Atom>
  {
    match u
    case Text(s) => Chars(s)
    case Ids(t) => [List(t)]
  }

  function Flatten(units: seq<Unit>): seq<Atom>
  {
    if |units| == 0 then [] else Flatten(units[..|units| - 1]) + Atoms(units[|units| - 1])
  }

  lemma {:induction false} FlattenSnoc(units: seq<Unit>, u: Unit)
    ensures Flatten(units + [u]) == Flatten(units) + Atoms(u)
  {
    assert (units + [u])[..|units|] == units;
  }

  /** The characters of a concatenation are the characters of its two parts. */
  lemma {:induction false} AtomsOfConcat(t: string, s: string)
    ensures Atoms(Text(t + s)) == Atoms(Text(t)) + Atoms(Text(s))
    decreases |t|
  {
    if t == [] {
      assert t + s == s;
    } else {
      assert (t + s)[0] == t[0] && (t + s)[1..] == t[1..] + s;
      AtomsOfConcat(t[1..], s);
    }
  }

  /** Gluing a text onto a trailing text keeps the flattened content. */
  lemma {:induction false} FlattenMerge(init: seq<Unit>, t: string, s: string)
    ensures Flatten(init + [Text(t + s)]) == Flatten(init + [Text(t)]) + Atoms(Text(s))
  {
    var f, a, b := Flatten(init), Chars(t), Chars(s);
    FlattenSnoc(init, Text(t));
    FlattenSnoc(init, Text(t + s));
    AtomsOfConcat(t, s);
    assert Flatten(init + [Text(t + s)]) == f + (a + b);
    assert Flatten(init + [Text(t)]) == f + a;
    assert f + (a + b) == (f + a) + b;
  }

  /** One step of the simplifier keeps the flattened content. */
  lemma {:induction false} FlattenPush(r: seq<Unit>, u: Unit)
    ensures Flatten(Push(r, u)) == Flatten(r) + Atoms(u)
  {
    if u.Text? && |r| > 0 && r[|r| - 1].Text? {
      var init := r[..|r| - 1];
      assert init + [Text(r[|r| - 1].text)] == r;
      FlattenMerge(init, r[|r| - 1].text, u.text);
    } else {
      FlattenSnoc(r, u);
    }
  }

  /** Each run of text becomes its concatenation: the characters and id lists are kept in order. */
  lemma {:induction false} SimplifyKeepsContent(units: seq<Unit>)
    ensures Flatten(Simplified(units)) == Flatten(units)
  {
    if units != [] {
      var n := |units|;
      SimplifyKeepsContent(units[..n - 1]);
      FlattenPush(Simplified(units[..n - 1]), units[n - 1]);
    }
  }

  /** The id-list units of a list, in order. */
  function IdLists(units: seq<Unit>): seq<seq<Token>>
  {
    if units == [] then []
    else
      var u := units[|units| - 1];
      IdLists(units[..|units| - 1]) + (if u.Ids? then [u.tokens] else [])
  }

  /** Id-list units come out of the simplifier unchanged and in the same order. */
  lemma {:induction false} SimplifyKeepsIdLists(units: seq<Unit>)
    ensures IdLists(Simplified(units)) == IdLists(units)
  {
    if |units| != 0 {
      var n := |units|;
      var r := Simplified(units[..n - 1]);
      var u := units[n - 1];
      assert Simplified(units) == Push(r, u);
      SimplifyKeepsIdLists(units[..n - 1]);
      if u.Text? && |r| > 0 && r[|r| - 1].Text? {
        var init := r[..|r| - 1];
        var merged := Text(r[|r| - 1].text + u.text);
        assert (init + [merged])[..|init|] == init;
        assert IdLists(Push(r, u)) == IdLists(init);
        assert (init + [r[|r| - 1]]) == r;
        assert IdLists(r) == IdLists(init);
      } else {
        assert (r + [u])[..|r|] == r;
      }
    }
  }

  /** The text unit `_simplify_context_list` emits for its buffer of pending strings. */
  function Pending(temp: seq<string>): seq<Unit>
  {
    if |temp| > 0 then [Text(Join(temp, ""))] else []
  }

  /** One step of the simplifier's loop: a text joins the buffer, an id list flushes it. */
  lemma PushPending(res: seq<Unit>, temp: seq<string>, c: Unit)
    requires res == [] || res[|res| - 1].Ids?
    ensures c.Text? ==> Push(res + Pending(temp), c) == res + Pending(temp + [c.text])
    ensures c.Ids? ==> Push(res + Pending(temp), c) == res + Pending(temp) + [c]
  {
    if c.Text? {
      JoinSnoc(temp, c.text);
      if |temp| > 0 {
        var r := res + Pending(temp);
        assert r[..|r| - 1] == res;
      }
    }
  }

  /** The loop invariant of the simplifier survives item `i`. */
  lemma SimplifyStep(contextList: seq<Unit>, i: nat, res: seq<Unit>, temp: seq<string>)
    requires i < |contextList|
    requires res + Pending(temp) == Simplified(contextList[..i])
    requires res == [] || res[|res| - 1].Ids?
    ensures var c := contextList[i];
      && (c.Text? ==> res + Pending(temp + [c.text]) == Simplified(contextList[..i + 1]))
      && (c.Ids? ==> res + Pending(temp) + [c] == Simplified(contextList[..i + 1]))
  {
    assert contextList[..i + 1][..i] == contextList[..i];
    PushPending(res, temp, contextList[i]);
  }

  /** `_simplify_context_list`: strings collect in a buffer that is flushed before each id list and at the end. */
  method SimplifyContextList(contextList: seq<Unit>) returns (res: seq<Unit>)
    ensures res == Simplified(contextList)
  {
    var temp;
    res, temp := CollectPending(contextList);
    if |temp| > 0 {
      res := res + [Text(Join(temp, ""))];
    }
  }

  /** The loop of `_simplify_context_list`: the flushed units and the strings still in the buffer. */
  method CollectPending(contextList: seq<Unit>) returns (res: seq<Unit>, temp: seq<string>)
    ensures res + Pending(temp) == Simplified(contextList)
    ensures res == [] || res[|res| - 1].Ids?
  {
    res, temp := [], [];
    var i := 0;
    while i < |contextList|
      invariant i <= |contextList|
      invariant res + Pending(temp) == Simplified(contextList[..i])
      invariant res == [] || res[|res| - 1].Ids?
    {
      SimplifyStep(contextList, i, res, temp);
      var c := contextList[i];
      if c.Text? {
        temp := temp + [c.text];
      } else {
        res := res + Pending(temp) + [c];
        temp := [];
      }
      i := i + 1;
    }
    assert contextList[..|contextList|] == contextList;
  }

  // ---------------------------------------------------------------------------------------
  // Placeholder substitution

  const SystemTag := "{{SYSTEM}}"
  const QueryTag := "{{QUERY}}"
  const RoundTag := "{{ROUND}}"

  /** One step of the placeholder loop: replace `tag` when a value is given and the tag occurs. */
  function ReplaceIfGiven(s: string, tag: string, value: Option<string>): string
    requires tag != ""
  {
    if value.Some? && Contains(s, tag) then ReplaceAll(s, tag, value.value) else s
  }

  /** The three placeholders, replaced in the order SYSTEM, QUERY, ROUND, each only if given. */
  function Substitute(s: string, system: Option<string>, query: Option<string>, round: Option<string>): (r: string)
    ensures !Contains(s, SystemTag) && !Contains(s, QueryTag) && !Contains(s, RoundTag) ==> r == s
  {
    ReplaceIfGiven(ReplaceIfGiven(ReplaceIfGiven(s, SystemTag, system), QueryTag, query), RoundTag, round)
  }

  function SubstituteUnit(u: Unit, system: Option<string>, query: Option<string>, round: Option<string>): Unit
  {
    match u
    case Text(s) => Text(Substitute(s, system, query, round))
    case Ids(_) => u
  }

  function Substituted(units: seq<Unit>, system: Option<string>, query: Option<string>, round: Option<string>): (r: seq<Unit>)
    ensures |r| == |units|
  {
    seq(|units|, i requires 0 <= i < |units| => SubstituteUnit(units[i], system, query, round))
  }

  /** The `old_str in context` guard is immaterial: a given value replaces every occurrence. */
  lemma ReplaceIfGivenReplaces(s: string, tag: string, value: string)
    requires tag != ""
    ensures ReplaceIfGiven(s, tag, Some(value)) == ReplaceAll(s, tag, value)
  {
    if !Contains(s, tag) {
      ReplaceAbsent(s, tag, value);
    }
  }

  /** A placeholder containing a character the text lacks does not occur in it. */
  lemma {:induction false} AbsentByCharacter(s: string, p: string, k: nat)
    requires k < |p| && p[k] !in s
    ensures !Contains(s, p)
    decreases |s|
  {
    if |s| > 0 {
      assert forall c :: c in s[1..] ==> c in s;
      AbsentByCharacter(s[1..], p, k);
    }
  }

  /** The lowercase `{{query}}` of the `chatglm2-generation` entry is never replaced. */
  lemma LowercaseQueryIsNeverReplaced(system: Option<string>, query: Option<string>, round: Option<string>)
    ensures Substitute("{{query}}", system, query, round) == "{{query}}"
  {
    var s := "{{query}}";
    assert SystemTag[2] == 'S' && QueryTag[2] == 'Q' && RoundTag[2] == 'R';
    AbsentByCharacter(s, SystemTag, 2);
    AbsentByCharacter(s, QueryTag, 2);
    AbsentByCharacter(s, RoundTag, 2);
  }

  /**
   * A substituted value is scanned again by the later placeholders: a query that itself reads
   * `{{ROUND}}` comes out as the round number.
   */
  lemma QueryValueIsRescannedForRound()
    ensures Substitute(QueryTag, None, Some(RoundTag), Some("1")) == "1"
  {
    assert Contains(QueryTag, QueryTag);
    assert ReplaceAll(QueryTag, QueryTag, RoundTag) == RoundTag + ReplaceAll("", QueryTag, RoundTag);
    assert Contains(RoundTag, RoundTag);
    assert ReplaceAll(RoundTag, RoundTag, "1") == "1" + ReplaceAll("", RoundTag, "1");
  }

  /** The value of `context` after the first `k` rounds of the placeholder loop. */
  function Stage(s: string, system: Option<string>, query: Option<string>, round: Option<string>, k: nat): string
    requires k <= 3
  {
    if k == 0 then s
    else if k == 1 then ReplaceIfGiven(s, SystemTag, system)
    else if k == 2 then ReplaceIfGiven(ReplaceIfGiven(s, SystemTag, system), QueryTag, query)
    else Substitute(s, system, query, round)
  }

  /** The inner `zip` loop of `_concat_context_list` over one text unit. */
  method SubstitutePlaceholders(context: string, system: Option<string>, query: Option<string>, round: Option<string>)
    returns (r: string)
    ensures r == Substitute(context, system, query, round)
  {
    var tags := [SystemTag, QueryTag, RoundTag];
    var values := [system, query, round];
    r := context;
    for k := 0 to 3
      invariant r == Stage(context, system, query, round, k)
    {
      var oldStr, newStr := tags[k], values[k];
      if newStr.Some? && Contains(r, oldStr) {
        r := ReplaceAll(r, oldStr, newStr.value);
      }
    }
  }

  /**
   * `_concat_context_list`: appends one unit per input unit to `resContextList`, text units with
   * their placeholders substituted, id-list units unchanged; earlier units are untouched.
   */
  method ConcatContextList(contextList: seq<Unit>, resContextList: seq<Unit>,
                           system: Option<string>, query: Option<string>, round: Option<string>)
    returns (res: seq<Unit>)
    ensures |res| == |resContextList| + |contextList|
    ensures res[..|resContextList|] == resContextList
    ensures forall i :: 0 <= i < |contextList| ==>
      res[|resContextList| + i] == SubstituteUnit(contextList[i], system, query, round)
    ensures forall i :: 0 <= i < |contextList| && contextList[i].Ids? ==>
      res[|resContextList| + i] == contextList[i]
    ensures res == resContextList + Substituted(contextList, system, query, round)
  {
    res := resContextList;
    for i := 0 to |contextList|
      invariant res == resContextList + Substituted(contextList[..i], system, query, round)
    {
      var context := contextList[i];
      if context.Text? {
        var s := SubstitutePlaceholders(context.text, system, query, round);
        context := Text(s);
      }
      res := res + [context];
    }
    assert contextList[..|contextList|] == contextList;
  }

  // ---------------------------------------------------------------------------------------
  // Encoding

  /** The ids of an id-list unit: literal ids as they are, names through `getattr(tokenizer, name)`. */
  function ResolveTokens(tok: Tokenizer, tokens: seq<Token>): (r: Result<seq<int>, Error>)
    ensures r.Ok? <==> forall j :: 0 <= j < |tokens| && tokens[j].Name? ==> tok.attr(tokens[j].name).Some?
    ensures r.Ok? ==> |r.value| == |tokens|
    ensures r.Ok? ==> forall j :: 0 <= j < |tokens| ==>
      r.value[j] == (match tokens[j] case Id(x) => x case Name(nm) => tok.attr(nm).value)
  {
    if tokens == [] then Ok([])
    else
      var n := |tokens|;
      assert forall j :: 0 <= j < n - 1 ==> tokens[..n - 1][j] == tokens[j];
      match ResolveTokens(tok, tokens[..n - 1])
      case Err(e) => Err(e)
      case Ok(ids) =>
        match tokens[n - 1]
        case Id(x) => Ok(ids + [x])
        case Name(nm) =>
          if tok.attr(nm).Some? then Ok(ids + [tok.attr(nm).value]) else Err(MissingSpecialToken(nm))
  }

  function EncodeUnit(tok: Tokenizer, u: Unit): Result<seq<int>, Error>
  {
    match u
    case Text(s) => Ok(tok.encode(s))
    case Ids(ts) => ResolveTokens(tok, ts)
  }

  /** Reference definition of the encoder: the units' ids in order; the first failing name is the error. */
  function EncodeUnits(tok: Tokenizer, units: seq<Unit>): (r: Result<seq<int>, Error>)
    ensures (forall k :: 0 <= k < |units| ==> units[k].Text?) ==> r.Ok?
  {
    if units == [] then Ok([])
    else
      match EncodeUnits(tok, units[..|units| - 1])
      case Err(e) => Err(e)
      case Ok(ids) =>
        match EncodeUnit(tok, units[|units| - 1])
        case Err(e) => Err(e)
        case Ok(more) => Ok(ids + more)
  }

  /** Every tokenizer attribute named in the units exists and is not `None`. */
  predicate Resolvable(tok: Tokenizer, units: seq<Unit>)
  {
    forall i, j :: 0 <= i < |units| && units[i].Ids? && 0 <= j < |units[i].tokens| && units[i].tokens[j].Name?
      ==> tok.attr(units[i].tokens[j].name).Some?
  }

  /** Encoding succeeds exactly when every named token resolves. */
  lemma {:induction false} EncodeSucceedsIffResolvable(tok: Tokenizer, units: seq<Unit>)
    ensures EncodeUnits(tok, units).Ok? <==> Resolvable(tok, units)
  {
    if units != [] {
      var n := |units|;
      var init := units[..n - 1];
      EncodeSucceedsIffResolvable(tok, init);
      assert forall i :: 0 <= i < n - 1 ==> init[i] == units[i];
    }
  }

  lemma EncodeSnoc(tok: Tokenizer, units: seq<Unit>, u: Unit)
    ensures EncodeUnits(tok, units + [u]) ==
      match EncodeUnits(tok, units)
      case Err(e) => Err(e)
      case Ok(ids) => (match EncodeUnit(tok, u) case Err(e) => Err(e) case Ok(more) => Ok(ids + more))
  {
    assert (units + [u])[..|units|] == units;
  }

  /** An error in a prefix of the units is the error of the whole encoding. */
  lemma {:induction false} EncodeErrorPropagates(tok: Tokenizer, units: seq<Unit>, k: nat)
    requires k <= |units| && EncodeUnits(tok, units[..k]).Err?
    ensures EncodeUnits(tok, units) == EncodeUnits(tok, units[..k])
    decreases |units| - k
  {
    if k < |units| {
      var n := |units|;
      assert units[..n - 1][..k] == units[..k];
      EncodeErrorPropagates(tok, units[..n - 1], k);
    } else {
      assert units[..k] == units;
    }
  }

  lemma {:induction false} ResolveErrorPropagates(tok: Tokenizer, tokens: seq<Token>, k: nat)
    requires k <= |tokens| && ResolveTokens(tok, tokens[..k]).Err?
    ensures ResolveTokens(tok, tokens) == ResolveTokens(tok, tokens[..k])
    decreases |tokens| - k
  {
    if k < |tokens| {
      var n := |tokens|;
      assert tokens[..n - 1][..k] == tokens[..k];
      ResolveErrorPropagates(tok, tokens[..n - 1], k);
    } else {
      assert tokens[..k] == tokens;
    }
  }

  /** A tokenizer that tokenizes a concatenation as the concatenation of the tokenizations. */
  ghost predicate Additive(tok: Tokenizer)
  {
    forall a: string, b: string :: tok.encode(a + b) == tok.encode(a) + tok.encode(b)
  }

  /** One merge of the simplifier, for a tokenizer that is additive on the two merged texts. */
  lemma MergeKeepsIds(tok: Tokenizer, init: seq<Unit>, t: string, s: string)
    requires tok.encode(t + s) == tok.encode(t) + tok.encode(s)
    ensures EncodeUnits(tok, init + [Text(t + s)]) == EncodeUnits(tok, init + [Text(t)] + [Text(s)])
  {
    EncodeSnoc(tok, init, Text(t));
    EncodeSnoc(tok, init, Text(t + s));
    EncodeSnoc(tok, init + [Text(t)], Text(s));
    match EncodeUnits(tok, init)
    case Err(e) =>
    case Ok(ids) =>
      assert ids + tok.encode(t + s) == (ids + tok.encode(t)) + tok.encode(s);
  }

  /**
   * Merging adjacent text leaves the token ids unchanged when the tokenizer is additive; a real
   * subword tokenizer is not, and then the merge is what decides the ids.
   */
  lemma {:induction false} SimplifyKeepsIdsOfAdditiveTokenizer(tok: Tokenizer, units: seq<Unit>)
    requires Additive(tok)
    ensures EncodeUnits(tok, Simplified(units)) == EncodeUnits(tok, units)
  {
    if units != [] {
      var n := |units|;
      var r := Simplified(units[..n - 1]);
      var u := units[n - 1];
      SimplifyKeepsIdsOfAdditiveTokenizer(tok, units[..n - 1]);
      EncodeSnoc(tok, units[..n - 1], u);
      assert units[..n - 1] + [u] == units;
      PushKeepsIds(tok, r, u);
    }
  }

  /** One step of the simplifier leaves the ids of an additive tokenizer unchanged. */
  lemma PushKeepsIds(tok: Tokenizer, r: seq<Unit>, u: Unit)
    requires Additive(tok)
    ensures EncodeUnits(tok, Push(r, u)) == EncodeUnits(tok, r + [u])
  {
    if u.Text? && |r| > 0 && r[|r| - 1].Text? {
      var init := r[..|r| - 1];
      var t := r[|r| - 1].text;
      assert init + [Text(t)] == r;
      assert Push(r, u) == init + [Text(t + u.text)];
      MergeKeepsIds(tok, init, t, u.text);
    }
  }

  /** The error path of the inner loop: a name that does not resolve fails the whole encoding. */
  lemma MissingNameFails(tok: Tokenizer, contextList: seq<Unit>, i: nat, j: nat, done: seq<int>)
    requires i < |contextList| && contextList[i].Ids? && j < |contextList[i].tokens|
    requires EncodeUnits(tok, contextList[..i]) == Ok(done)
    requires ResolveTokens(tok, contextList[i].tokens[..j]).Ok?
    requires contextList[i].tokens[j].Name? && tok.attr(contextList[i].tokens[j].name).None?
    ensures EncodeUnits(tok, contextList) == Err(MissingSpecialToken(contextList[i].tokens[j].name))
  {
    var tokens := contextList[i].tokens;
    assert tokens[..j + 1][..j] == tokens[..j];
    ResolveErrorPropagates(tok, tokens, j + 1);
    EncodeSnoc(tok, contextList[..i], contextList[i]);
    assert contextList[..i] + [contextList[i]] == contextList[..i + 1];
    EncodeErrorPropagates(tok, contextList, i + 1);
  }

  /** The inner loop of `_encode_context_list`: each token's id, the attribute for a name; a missing one fails. */
  method ResolveIds(tok: Tokenizer, tokens: seq<Token>) returns (r: Result<seq<int>, Error>)
    ensures r == ResolveTokens(tok, tokens)
  {
    var resolved: seq<int> := [];
    for j := 0 to |tokens|
      invariant ResolveTokens(tok, tokens[..j]) == Ok(resolved)
    {
      assert tokens[..j + 1][..j] == tokens[..j];
      var token: int;
      match tokens[j] {
        case Name(name) =>
          var t := tok.attr(name);
          if t.None? {
            ResolveErrorPropagates(tok, tokens, j + 1);
            return Err(MissingSpecialToken(name));
          }
          token := t.value;
        case Id(x) =>
          token := x;
      }
      resolved := resolved + [token];
    }
    assert tokens[..|tokens|] == tokens;
    r := Ok(resolved);
  }

  /** `_encode_context_list`: tokenize text units, resolve and append the ids of id-list units. */
  method EncodeContextList(tok: Tokenizer, contextList: seq<Unit>) returns (r: Result<seq<int>, Error>)
    ensures r == EncodeUnits(tok, contextList)
  {
    var inputIds: seq<int> := [];
    for i := 0 to |contextList|
      invariant EncodeUnits(tok, contextList[..i]) == Ok(inputIds)
    {
      var context := contextList[i];
      EncodeSnoc(tok, contextList[..i], context);
      assert contextList[..i] + [context] == contextList[..i + 1];
      match context
      case Ids(tokens) =>
        var ids := ResolveIds(tok, tokens);
        if ids.Err? {
          EncodeErrorPropagates(tok, contextList, i + 1);
          return Err(ids.error);
        }
        inputIds := inputIds + ids.value;
      case Text(s) =>
        inputIds := inputIds + tok.encode(s);
    }
    assert contextList[..|contextList|] == contextList;
    r := Ok(inputIds);
  }
}
