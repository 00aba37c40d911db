/** The request bodies the search-engine helpers build: `analyze_morph`
    fills an analyze body from its optional arguments and picks the
    index-scoped or the global analyze endpoint; `create_index` deletes an
    existing index of that name and creates it with a settings/mappings body.
    The search-engine client is a sink: the model returns the call it makes,
    and the cluster is an abstract store of index names. */
module Search {
  import opened Wrappers
  import opened Json

  /** A dict body, as the client serialises it. */
  type Body = map<string, Json>

  /** The arguments of `analyze_morph` (`hosts` only selects the cluster and
      is left out). An omitted argument is its default: `None`, and `False`
      for `explain`. */
  datatype AnalyzeArgs = AnalyzeArgs(
    text: Json,
    analyzer: Json,
    tokenizer: Json,
    filters: Json,
    explain: Json,
    decompoundMode: Json,
    userDictionaryRules: Json,
    index: Json)

  /** `analyze_morph(text)` with every other argument left at its default. */
  function DefaultArgs(text: Json): AnalyzeArgs {
    AnalyzeArgs(text, JNull, JNull, JNull, JBool(false), JNull, JNull, JNull)
  }

  /** Nori options are given, so the tokenizer becomes an inline definition. */
  predicate WantsNoriOptions(a: AnalyzeArgs) {
    Truthy(a.decompoundMode) || Truthy(a.userDictionaryRules)
  }

  /** The inline tokenizer definition: type `nori_tokenizer`, plus each Nori
      option exactly when it is truthy. */
  ghost predicate IsNoriTokenizer(a: AnalyzeArgs, t: Body) {
    && t.Keys <= {"type", "decompound_mode", "user_dictionary_rules"}
    && "type" in t && t["type"] == JStr("nori_tokenizer")
    && ("decompound_mode" in t <==> Truthy(a.decompoundMode))
    && ("decompound_mode" in t ==> t["decompound_mode"] == a.decompoundMode)
    && ("user_dictionary_rules" in t <==> Truthy(a.userDictionaryRules))
    && ("user_dictionary_rules" in t ==> t["user_dictionary_rules"] == a.userDictionaryRules)
  }

  /** What the analyze body holds for the arguments a. */
  ghost predicate IsAnalyzeBody(a: AnalyzeArgs, body: Body) {
    && body.Keys <= {"text", "analyzer", "tokenizer", "filter", "explain"}
    && "text" in body && body["text"] == a.text
    && ("analyzer" in body <==> Truthy(a.analyzer))
    && ("analyzer" in body ==> body["analyzer"] == a.analyzer)
    && ("filter" in body <==> Truthy(a.filters))
    && ("filter" in body ==> body["filter"] == a.filters)
    && ("explain" in body <==> Truthy(a.explain))
    && ("explain" in body ==> body["explain"] == JBool(true))
    && (if WantsNoriOptions(a) then
          "tokenizer" in body && body["tokenizer"].JObject? && IsNoriTokenizer(a, body["tokenizer"].fields)
        else
          ("tokenizer" in body <==> Truthy(a.tokenizer))
          && ("tokenizer" in body ==> body["tokenizer"] == a.tokenizer))
  }

  /** The body of `analyze_morph`, filled key by key; the tokenizer entry is
      replaced by a dict and that dict is then updated in place. */
  method AnalyzeBody(a: AnalyzeArgs) returns (body: Body)
    ensures IsAnalyzeBody(a, body)
  {
    body := map["text" := a.text];
    if Truthy(a.analyzer) {
      body := body["analyzer" := a.analyzer];
    }
    if Truthy(a.tokenizer) {
      body := body["tokenizer" := a.tokenizer];
    }
    if Truthy(a.filters) {
      body := body["filter" := a.filters];
    }
    if Truthy(a.explain) {
      body := body["explain" := JBool(true)];
    }
    if Truthy(a.decompoundMode) || Truthy(a.userDictionaryRules) {
      body := body["tokenizer" := JObject(map["type" := JStr("nori_tokenizer")])];
      if Truthy(a.decompoundMode) {
        body := body["tokenizer" := JObject(body["tokenizer"].fields["decompound_mode" := a.decompoundMode])];
      }
      if Truthy(a.userDictionaryRules) {
        body := body["tokenizer" := JObject(body["tokenizer"].fields["user_dictionary_rules" := a.userDictionaryRules])];
      }
    }
  }

  /** The rules leave no freedom: two bodies that both follow them are equal. */
  lemma AnalyzeBodyDetermined(a: AnalyzeArgs, b1: Body, b2: Body)
    requires IsAnalyzeBody(a, b1) && IsAnalyzeBody(a, b2)
    ensures b1 == b2
  {
    if WantsNoriOptions(a) {
      NoriTokenizerDetermined(a, b1["tokenizer"].fields, b2["tokenizer"].fields);
    }
    assert b1.Keys == b2.Keys;
  }

  lemma NoriTokenizerDetermined(a: AnalyzeArgs, t1: Body, t2: Body)
    requires IsNoriTokenizer(a, t1) && IsNoriTokenizer(a, t2)
    ensures t1 == t2
  {
    assert t1.Keys == t2.Keys;
  }

  /** Which analyze endpoint is called. */
  datatype Scope = IndexScoped(index: Json) | Global

  /** The call `analyze_morph` hands to the client. */
  datatype AnalyzeCall = AnalyzeCall(scope: Scope, body: Body)

  /** `analyze_morph`: the body, sent to `indices.analyze(index=..., body=...)`
      when `index` is truthy and to the global `indices.analyze(body=...)` otherwise. */
  method AnalyzeMorph(a: AnalyzeArgs) returns (call: AnalyzeCall)
    ensures IsAnalyzeBody(a, call.body)
    ensures call.scope.IndexScoped? <==> Truthy(a.index)
    ensures call.scope.IndexScoped? ==> call.scope.index == a.index
  {
    var body := AnalyzeBody(a);
    if Truthy(a.index) {
      call := AnalyzeCall(IndexScoped(a.index), body);
    } else {
      call := AnalyzeCall(Global, body);
    }
  }

  /** With only a text, the body is `{"text": text}`. */
  lemma AnalyzeDefaults(text: Json, body: Body)
    requires IsAnalyzeBody(DefaultArgs(text), body)
    ensures body == map["text" := text]
  {
    assert body.Keys == {"text"};
  }

  // ---------------------------------------------------------------------------
  // create_index
  // ---------------------------------------------------------------------------

  /** What the index-creation body holds. */
  ghost predicate IsCreateBody(settings: Json, mappings: Json, body: Body) {
    && body.Keys <= {"settings", "mappings"}
    && ("settings" in body <==> Truthy(settings))
    && ("settings" in body ==> body["settings"] == settings)
    && ("mappings" in body <==> Truthy(mappings))
    && ("mappings" in body ==> body["mappings"] == mappings)
  }

  method CreateIndexBody(settings: Json, mappings: Json) returns (body: Body)
    ensures IsCreateBody(settings, mappings, body)
  {
    body := map[];
    if Truthy(settings) {
      body := body["settings" := settings];
    }
    if Truthy(mappings) {
      body := body["mappings" := mappings];
    }
  }

  /** `DEFAULT_SETTINGS`: a custom analyzer `nori_analyzer` over `nori_tokenizer`. */
  const DefaultSettings: Json :=
    JObject(map["analysis" := JObject(map["analyzer" := JObject(map["nori_analyzer" :=
      JObject(map["type" := JStr("custom"), "tokenizer" := JStr("nori_tokenizer")])])])])

  /** `DEFAULT_MAPPINGS`: text fields `title` and `content` analysed by `nori_analyzer`. */
  const DefaultMappings: Json :=
    JObject(map["properties" := JObject(map[
      "title" := JObject(map["type" := JStr("text"), "analyzer" := JStr("nori_analyzer")]),
      "content" := JObject(map["type" := JStr("text"), "analyzer" := JStr("nori_analyzer")])])])

  /** Truthy settings and mappings both go into the body, and nothing else. */
  lemma BothGivenFillBody(settings: Json, mappings: Json, body: Body)
    requires Truthy(settings) && Truthy(mappings)
    requires IsCreateBody(settings, mappings, body)
    ensures body == map["settings" := settings, "mappings" := mappings]
  {
    assert body.Keys == {"settings", "mappings"};
  }

  /** Passing the defaults therefore puts both of them in the body. */
  lemma DefaultsFillBody(body: Body)
    requires IsCreateBody(DefaultSettings, DefaultMappings, body)
    ensures body == map["settings" := DefaultSettings, "mappings" := DefaultMappings]
  {
    assert "analysis" in DefaultSettings.fields && "properties" in DefaultMappings.fields;
    BothGivenFillBody(DefaultSettings, DefaultMappings, body);
  }

  /** The cluster, as far as these helpers see it: each index name with the
      body it was created from. */
  class IndexStore {
    var indices: map<string, Body>

    constructor (initial: map<string, Body>)
      ensures indices == initial
    {
      indices := initial;
    }

    /** `indices.exists(index=name)` */
    function Exists(name: string): bool
      reads this
    {
      name in indices
    }

    /** `indices.delete(index=name)`: fails, changing nothing, when there is
        no such index. */
    method Delete(name: string) returns (ok: bool)
      modifies this
      ensures ok == (name in old(indices))
      ensures indices == old(indices) - {name}
    {
      ok := name in indices;
      indices := indices - {name};
    }

    /** `indices.create(index=name, body=body)`: fails, changing nothing,
        when the index already exists. */
    method Create(name: string, body: Body) returns (ok: bool)
      modifies this
      ensures ok == (name !in old(indices))
      ensures indices == if ok then old(indices)[name := body] else old(indices)
    {
      ok := name !in indices;
      if ok {
        indices := indices[name := body];
      }
    }

    /** `create_index`: drop an existing index of that name, then create it.
        The creation always succeeds, the index holds the new body, and no
        other index changes. */
    method CreateIndex(name: string, settings: Json, mappings: Json) returns (ok: bool)
      modifies this
      ensures ok
      ensures name in indices && IsCreateBody(settings, mappings, indices[name])
      ensures indices.Keys == old(indices).Keys + {name}
      ensures forall n :: n in old(indices) && n != name ==> indices[n] == old(indices)[n]
    {
      if Exists(name) {
        var _ := Delete(name);
      }
      var body := CreateIndexBody(settings, mappings);
      ok := Create(name, body);
    }
  }
}
