/**
 * swift/llm/utils/media.py: `MediaTagReplacer`, which rewrites the user's media tag in the
 * queries of an example dictionary into the standard tag of the media type and stores the
 * media under their key, and `MediaCache.get_url`.
 */
module Media {
  import opened Wrappers
  import opened PyStr

  datatype MediaKind = Image | Audio | Video

  /** `standard_tags`. */
  function StandardTag(k: MediaKind): string
  {
    match k
    case Image => "<image>"
    case Audio => "<audio>"
    case Video => "<video>"
  }

  /** `media_keys`: the dictionary key the media are stored under. */
  function MediaKey(k: MediaKind): string
  {
    match k
    case Image => "images"
    case Audio => "audios"
    case Video => "videos"
  }

  datatype TaskType = CaptionWithGrounding | RefGrounding | GroundingCaption | Ocr | Vqa

  /**
   * The `medias` argument: a list of media (one round), a tuple of such lists (one per round),
   * a single media, or `None`.
   */
  datatype Medias = Many(items: seq<string>) | PerRound(rounds: seq<seq<string>>) | Single(item: string) | NoMedia

  /** The media count: the length of a list or tuple, 1 for a non-empty single media, 0 otherwise. */
  function MediaCount(m: Medias): (c: nat)
    ensures c == 0 <==> m.NoMedia? || (m.Single? && m.item == "") || (m.Many? && |m.items| == 0)
                        || (m.PerRound? && |m.rounds| == 0)
  {
    match m
    case Many(items) => |items|
    case PerRound(rounds) => |rounds|
    case Single(item) => if item != "" then 1 else 0
    case NoMedia => 0
  }

  /** The values an example dictionary holds under the keys the replacer reads and writes. */
  datatype Value = NoneValue | Str(s: string) | Turns(turns: seq<(string, string)>) | Stored(medias: Medias)

  datatype MediaError =
    | PromptChoiceNotOneDimensional  // `np.random.choice` over a list of (query, response) pairs
    | NotImplementedTask             // task type `ocr`
    | QueryNotText                   // `str + None` when the query is missing
    | TagCountMismatch(tags: nat, medias: nat)

  const UnusedTag := "<unused_tag>"

  /** The tag `__init__` keeps: the given one, or `<unused_tag>` when it is missing or empty. */
  function DefaultTag(mediaTag: Option<string>): (t: string)
    ensures t != ""
    ensures mediaTag.Some? && mediaTag.value != "" ==> t == mediaTag.value
    ensures mediaTag.None? || mediaTag.value == "" ==> t == UnusedTag
  {
    if mediaTag.Some? && mediaTag.value != "" then mediaTag.value else UnusedTag
  }

  /** A `history` entry, when there is one, is a list of turns or `None`. */
  predicate WellTyped(d: map<string, Value>)
  {
    "history" in d ==> d["history"].NoneValue? || d["history"].Turns?
  }

  /** `d.get('history') or []`. */
  function HistoryOf(d: map<string, Value>): seq<(string, string)>
  {
    if "history" in d && d["history"].Turns? then d["history"].turns else []
  }

  /** `d.get('query')`. */
  function QueryOf(d: map<string, Value>): Value
  {
    if "query" in d then d["query"] else NoneValue
  }

  function Queries(history: seq<(string, string)>): (qs: seq<string>)
    ensures |qs| == |history| && forall j :: 0 <= j < |history| ==> qs[j] == history[j].0
  {
    seq(|history|, j requires 0 <= j < |history| => history[j].0)
  }

  /** `''.join([h[0] for h in history]) + query`. */
  function AllQueries(history: seq<(string, string)>, query: string): string
  {
    Join(Queries(history), "") + query
  }

  /** The history after the loop that rewrites each query in place; the answers stay as they are. */
  function Retagged(history: seq<(string, string)>, tag: string, standard: string): seq<(string, string)>
    requires tag != ""
  {
    seq(|history|, j requires 0 <= j < |history| => (ReplaceAll(history[j].0, tag, standard), history[j].1))
  }

  /**
   * Reference definition of `__call__` on the dictionary `d`: the new dictionary, or the error
   * raised before anything was written.
   */
  function Rewritten(mediaType: Option<MediaKind>, taskType: TaskType, tag: string,
                     d: map<string, Value>, medias: Medias): (r: Result<map<string, Value>, MediaError>)
    requires tag != ""
    ensures r.Ok? ==> d.Keys <= r.value.Keys
    ensures r.Ok? && mediaType.Some? ==> r.value.Keys == d.Keys + {"query", MediaKey(mediaType.value)}
  {
    if mediaType.None? then Ok(d)
    else if taskType.RefGrounding? || taskType.GroundingCaption? then Err(PromptChoiceNotOneDimensional)
    else if taskType.Ocr? then Err(NotImplementedTask)
    else if !QueryOf(d).Str? then Err(QueryNotText)
    else
      var kind, history, query := mediaType.value, HistoryOf(d), QueryOf(d).s;
      var all := AllQueries(history, query);
      if Contains(all, tag) && Count(all, tag) != MediaCount(medias) then
        Err(TagCountMismatch(Count(all, tag), MediaCount(medias)))
      else
        var found := Contains(all, tag);
        var history' := if found then Retagged(history, tag, StandardTag(kind)) else history;
        var query' := if found then ReplaceAll(query, tag, StandardTag(kind)) else query;
        var withHistory := if "history" in d then d["history" := Turns(history')] else d;
        Ok(withHistory["query" := Str(query')][MediaKey(kind) := Stored(medias)])
  }

  /** The example dictionary `__call__` updates in place. */
  class Sample {
    var fields: map<string, Value>

    constructor(fields: map<string, Value>)
      ensures this.fields == fields
    {
      this.fields := fields;
    }
  }

  class MediaTagReplacer {
    const mediaType: Option<MediaKind>
    const taskType: TaskType
    const mediaTag: string

    /** `__init__`: `None` is the falsy media type; the tag falls back to `<unused_tag>`. */
    constructor(mediaType: Option<MediaKind>, mediaTag: Option<string>, taskType: TaskType)
      ensures this.mediaType == mediaType && this.taskType == taskType
      ensures this.mediaTag == DefaultTag(mediaTag)
    {
      this.mediaType := mediaType;
      this.taskType := taskType;
      this.mediaTag := DefaultTag(mediaTag);
    }

    /**
     * `__call__`: on success `d` holds the reference dictionary; an error leaves it as it was.
     * Writing `response` back stores the value it already holds, so it is not a step here.
     */
    method Call(d: Sample, medias: Medias) returns (o: Outcome<MediaError>)
      requires mediaTag != "" && WellTyped(d.fields)
      modifies d
      ensures var res := Rewritten(mediaType, taskType, mediaTag, old(d.fields), medias);
        && (res.Ok? ==> o == Pass && d.fields == res.value)
        && (res.Err? ==> o == Fail(res.error) && d.fields == old(d.fields))
    {
      if mediaType.None? {
        return Pass;
      }
      var kind := mediaType.value;
      var mediaCnt := MediaCount(medias);
      var history := HistoryOf(d.fields);
      var query := QueryOf(d.fields);
      if taskType.RefGrounding? || taskType.GroundingCaption? {
        return Fail(PromptChoiceNotOneDimensional);
      } else if taskType.Ocr? {
        return Fail(NotImplementedTask);
      }
      var standardTag := StandardTag(kind);
      if !query.Str? {
        return Fail(QueryNotText);
      }
      var q := query.s;
      var allQueries := Join(Queries(history), "") + q;
      if Contains(allQueries, mediaTag) {
        if Count(allQueries, mediaTag) != mediaCnt {
          return Fail(TagCountMismatch(Count(allQueries, mediaTag), mediaCnt));
        }
        history := RetagHistory(history, mediaTag, standardTag);
        q := ReplaceAll(q, mediaTag, standardTag);
      }
      if "history" in d.fields {
        d.fields := d.fields["history" := Turns(history)];
      }
      d.fields := d.fields["query" := Str(q)];
      d.fields := d.fields[MediaKey(kind) := Stored(medias)];
      return Pass;
    }
  }

  /** The loop `for h in history: h[0] = h[0].replace(tag, standard)`. */
  method RetagHistory(history: seq<(string, string)>, tag: string, standard: string) returns (h: seq<(string, string)>)
    requires tag != ""
    ensures h == Retagged(history, tag, standard)
  {
    h := history;
    var i := 0;
    while i < |h|
      invariant i <= |h| == |history|
      invariant h[..i] == Retagged(history[..i], tag, standard)
      invariant h[i..] == history[i..]
    {
      assert history[..i + 1] == history[..i] + [history[i]];
      h := h[i := (ReplaceAll(h[i].0, tag, standard), h[i].1)];
      i := i + 1;
    }
    assert history[..i] == history;
  }

  // ---------------------------------------------------------------------------------------
  // Properties of the rewrite

  /** Without a media type the dictionary is returned untouched, whatever else it holds. */
  lemma FalsyMediaTypeLeavesSample(taskType: TaskType, tag: string, d: map<string, Value>, medias: Medias)
    requires tag != ""
    ensures Rewritten(None, taskType, tag, d, medias) == Ok(d)
  {
  }

  /** The `ocr` task raises, and so do the two grounding tasks, whatever the dictionary holds. */
  lemma UnsupportedTasksFail(kind: MediaKind, taskType: TaskType, tag: string, d: map<string, Value>, medias: Medias)
    requires tag != ""
    requires taskType.Ocr? || taskType.RefGrounding? || taskType.GroundingCaption?
    ensures Rewritten(Some(kind), taskType, tag, d, medias).Err?
    ensures taskType.Ocr? ==> Rewritten(Some(kind), taskType, tag, d, medias) == Err(NotImplementedTask)
  {
  }

  /**
   * On the vqa and caption paths with a text query, the rewrite fails exactly when the tag
   * occurs in the concatenated queries and its count differs from the media count.
   */
  lemma TagCountChecked(kind: MediaKind, taskType: TaskType, tag: string, d: map<string, Value>, medias: Medias)
    requires tag != "" && (taskType.Vqa? || taskType.CaptionWithGrounding?) && QueryOf(d).Str?
    ensures var all := AllQueries(HistoryOf(d), QueryOf(d).s);
      Rewritten(Some(kind), taskType, tag, d, medias).Err? <==> Count(all, tag) > 0 && Count(all, tag) != MediaCount(medias)
  {
    CountPositiveIffContains(AllQueries(HistoryOf(d), QueryOf(d).s), tag);
  }

  /** A tag that occurs in some query occurs in their concatenation. */
  lemma {:induction false} QueryTagShowsInAll(history: seq<(string, string)>, query: string, tag: string)
    requires exists j :: 0 <= j < |history| && Contains(history[j].0, tag)
    ensures Contains(AllQueries(history, query), tag)
  {
    var j :| 0 <= j < |history| && Contains(history[j].0, tag);
    var qs := Queries(history);
    assert qs == qs[..j] + [qs[j]] + qs[j + 1..];
    JoinAppend(qs[..j] + [qs[j]], qs[j + 1..]);
    JoinAppend(qs[..j], [qs[j]]);
    assert Join(qs, "") + query == Join(qs[..j], "") + history[j].0 + (Join(qs[j + 1..], "") + query);
    ContainsInfix(Join(qs[..j], ""), history[j].0, Join(qs[j + 1..], "") + query, tag);
  }

  /**
   * When the tag is absent from the concatenated queries, rewriting them would change nothing:
   * skipping the rewrite only skips the count check.
   */
  lemma AbsentTagNothingToRewrite(history: seq<(string, string)>, query: string, tag: string, standard: string)
    requires tag != "" && !Contains(AllQueries(history, query), tag)
    ensures Retagged(history, tag, standard) == history
    ensures ReplaceAll(query, tag, standard) == query
  {
    forall j | 0 <= j < |history|
      ensures ReplaceAll(history[j].0, tag, standard) == history[j].0
    {
      if Contains(history[j].0, tag) {
        QueryTagShowsInAll(history, query, tag);
      }
      ReplaceAbsent(history[j].0, tag, standard);
    }
    if Contains(query, tag) {
      assert Join(Queries(history), "") + query + "" == AllQueries(history, query);
      ContainsInfix(Join(Queries(history), ""), query, "", tag);
    }
    ReplaceAbsent(query, tag, standard);
  }

  /**
   * A successful rewrite stores the media under the type's key, always writes the query (with
   * every tag replaced by the standard one), writes the history only when the key was present,
   * with each query rewritten and each answer kept, and leaves every other key as it was.
   */
  lemma RewriteResult(kind: MediaKind, taskType: TaskType, tag: string, d: map<string, Value>, medias: Medias)
    requires tag != "" && Rewritten(Some(kind), taskType, tag, d, medias).Ok?
    ensures var r, h, q := Rewritten(Some(kind), taskType, tag, d, medias).value, HistoryOf(d), QueryOf(d);
      && q.Str? && (taskType.Vqa? || taskType.CaptionWithGrounding?)
      && r[MediaKey(kind)] == Stored(medias)
      && r["query"] == Str(ReplaceAll(q.s, tag, StandardTag(kind)))
      && ("history" in r <==> "history" in d)
      && ("history" in d ==> r["history"] == Turns(Retagged(h, tag, StandardTag(kind))))
      && forall k :: k !in {"history", "query", MediaKey(kind)} ==> (k in r <==> k in d) && (k in d ==> r[k] == d[k])
  {
    var h, q := HistoryOf(d), QueryOf(d).s;
    if !Contains(AllQueries(h, q), tag) {
      AbsentTagNothingToRewrite(h, q, tag, StandardTag(kind));
    }
  }

  /** Each answer of the history, and the number of rounds, survive the rewrite. */
  lemma RetaggedKeepsAnswers(history: seq<(string, string)>, tag: string, standard: string)
    requires tag != ""
    ensures |Retagged(history, tag, standard)| == |history|
    ensures forall j :: 0 <= j < |history| ==> Retagged(history, tag, standard)[j].1 == history[j].1
  {
  }

  /**
   * The count runs over the concatenation, the rewrite over each query: a tag split across two
   * queries is counted against the media yet rewritten nowhere. With the tag `<img>`, the
   * history query `<im`, the query `g>` and one image, the call succeeds and both queries
   * keep their text.
   */
  lemma StraddlingTagCountedNotRewritten()
    ensures var d := map["history" := Turns([("<im", "a")]), "query" := Str("g>")];
      Rewritten(Some(Image), Vqa, "<img>", d, Many(["1.jpg"]))
        == Ok(d["history" := Turns([("<im", "a")])]["query" := Str("g>")]["images" := Stored(Many(["1.jpg"]))])
  {
    var d := map["history" := Turns([("<im", "a")]), "query" := Str("g>")];
    var h := HistoryOf(d);
    assert Queries(h) == ["<im"];
    assert AllQueries(h, "g>") == "<img>";
    assert "<img>" <= "<img>";
    assert Contains("<img>", "<img>");
    assert Count("<img>", "<img>") == 1 by {
      assert "<img>"[5..] == "";
    }
    assert ReplaceAll("<im", "<img>", "<image>") == "<im";
    assert ReplaceAll("g>", "<img>", "<image>") == "g>";
    assert Retagged(h, "<img>", "<image>") == [("<im", "a")];
  }

  // ---------------------------------------------------------------------------------------
  // MediaCache.get_url

  const UrlPrefix := "https://www.modelscope.cn/api/v1/datasets/hjh0119/sharegpt4v-images/repo?Revision=master&FilePath="

  /** The download address of a media archive: `.tar` for `ocr_vqa`, `.zip` for every other type. */
  function GetUrl(mediaType: string): (url: string)
    ensures |url| == |UrlPrefix| + |mediaType| + 4
    ensures url[..|UrlPrefix|] == UrlPrefix && url[|UrlPrefix|..|UrlPrefix| + |mediaType|] == mediaType
    ensures url[|url| - 4..] == (if mediaType == "ocr_vqa" then ".tar" else ".zip")
  {
    UrlPrefix + mediaType + "." + (if mediaType == "ocr_vqa" then "tar" else "zip")
  }

  /** Distinct media types get distinct addresses. */
  lemma GetUrlInjective(a: string, b: string)
    requires GetUrl(a) == GetUrl(b)
    ensures a == b
  {
    assert |a| == |b|;
  }
}
