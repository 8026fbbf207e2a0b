/** `PromptLoader`: picks the evaluation and in-context loaders by name, then
    builds one prompt per evaluation record, seeding the in-context sample with the
    record's position. */
module Prompts {
  import opened Results
  import opened Strings
  import opened Records
  import opened Renderers
  import opened Sampling
  import opened Loaders

  /** The `eval` branch of `__init__`: only three datasets can be evaluated. */
  function EvalKind(name: string): Option<Kind> {
    if name == "gigaword" then Some(Gigaword)
    else if name == "dailymail" then Some(Dailymail)
    else if name == "rotten_tomatoes" then Some(RottenTomatoes)
    else None
  }

  /** The `incontext` branches of `__init__` after the equality test. */
  function IncontextKind(name: string): Option<Kind> {
    if name == "gigaword" then Some(Gigaword)
    else if name == "dailymail" then Some(Dailymail)
    else if name == "wikicat" then Some(Wikicat)
    else if name == "rotten_tomatoes" then Some(RottenTomatoes)
    else if name == "tweetqa" then Some(TweetQA)
    else None
  }

  /** Constructing the loader for `kind` raises. */
  ghost predicate LoadFails(kind: Option<Kind>, hub: Hub) {
    kind.Some? && Prepare(kind.value, hub(DatasetName(kind.value))).Err?
  }

  /** The exception constructing the loader for `kind` raises. */
  ghost function LoadError(kind: Option<Kind>, hub: Hub): Error
    requires LoadFails(kind, hub)
  {
    Prepare(kind.value, hub(DatasetName(kind.value))).error
  }

  /** `loader` is the loader for `kind` built from the hub's splits. */
  ghost predicate LoadedFrom(loader: DatasetLoader, kind: Kind, hub: Hub) {
    loader.kind == kind && Prepare(kind, hub(DatasetName(kind))) == Ok(Pools(loader.train, loader.test))
  }

  /** One element of the `load_prompt` comprehension: the in-context block drawn
      with `seed`, then the query. */
  function Prompt(ic: DatasetLoader, k: int, seed: nat, sample: Sampler, query: string): (r: Result<string>)
    requires ic.Valid() && IsSampler(sample)
    ensures r.Ok? <==> 0 <= k <= |ic.train|
    ensures r.Err? ==> r.error == ValueError
    ensures k == 0 ==> r == Ok(query)
    ensures r.Ok? && k > 0 ==> r.value == Prefix(ic.kind) + Join(ic.Examples(k, seed, sample).value, "\n") + "\n" + query
  {
    var block :- ic.InContextPrompt(k, seed, sample);
    assert k == 0 ==> block + query == query;
    Ok(block + query)
  }

  /** The `load_prompt` comprehension over `queries`, the query's position serving
      as seed. The first element's exception propagates; when the first element
      can be built, so can every other. */
  function FlatPrompts(ic: DatasetLoader, queries: seq<string>, k: int, sample: Sampler): (r: Result<seq<string>>)
    requires ic.Valid() && IsSampler(sample)
    ensures r.Ok? <==> |queries| == 0 || 0 <= k <= |ic.train|
    ensures r.Err? ==> r.error == ValueError
    ensures r.Ok? ==> |r.value| == |queries|
    ensures r.Ok? ==> forall i :: 0 <= i < |queries| ==> Prompt(ic, k, i, sample, queries[i]) == Ok(r.value[i])
  {
    if |queries| == 0 then Ok([])
    else
      var first :- Prompt(ic, k, 0, sample, queries[0]);
      Ok(seq(|queries|, i requires 0 <= i < |queries| => Prompt(ic, k, i, sample, queries[i]).value))
  }

  /** One element of the `load_prompt_iterative` comprehension: the in-context
      turns drawn with `seed`, then a user turn holding the query. */
  function Conversation(ic: DatasetLoader, k: int, seed: nat, sample: Sampler, query: string): (r: Result<seq<Turn>>)
    requires ic.Valid() && IsSampler(sample)
    ensures r.Ok? <==> 0 <= k <= |ic.train|
    ensures r.Err? ==> r.error == ValueError
    ensures k == 0 ==> r == Ok([Turn(User, query)])
    ensures r.Ok? ==> |r.value| == 2 * k + 1 && r.value[2 * k] == Turn(User, query)
    ensures r.Ok? ==> r.value[..2 * k] == ic.InContextTurns(k, seed, sample).value
  {
    var turns :- ic.InContextTurns(k, seed, sample);
    assert k == 0 ==> turns + [Turn(User, query)] == [Turn(User, query)];
    Ok(turns + [Turn(User, query)])
  }

  /** The `load_prompt_iterative` comprehension over `queries`, the query's
      position serving as seed. */
  function TurnPrompts(ic: DatasetLoader, queries: seq<string>, k: int, sample: Sampler): (r: Result<seq<seq<Turn>>>)
    requires ic.Valid() && IsSampler(sample)
    ensures r.Ok? <==> |queries| == 0 || 0 <= k <= |ic.train|
    ensures r.Err? ==> r.error == ValueError
    ensures r.Ok? ==> |r.value| == |queries|
    ensures r.Ok? ==> forall i :: 0 <= i < |queries| ==> Conversation(ic, k, i, sample, queries[i]) == Ok(r.value[i])
  {
    if |queries| == 0 then Ok([])
    else
      var first :- Conversation(ic, k, 0, sample, queries[0]);
      Ok(seq(|queries|, i requires 0 <= i < |queries| => Conversation(ic, k, i, sample, queries[i]).value))
  }

  class PromptLoader {
    /** `self.eval_set`; null while `__init__` has not assigned it. */
    var evalSet: DatasetLoader?
    /** `self.incontext_set`; null while `__init__` has not assigned it. */
    var incontextSet: DatasetLoader?

    ghost predicate Valid()
      reads this
    {
      && (evalSet != null ==> evalSet.Valid())
      && (incontextSet != null ==> incontextSet.Valid())
    }

    constructor Unset()
      ensures evalSet == null && incontextSet == null
    {
      evalSet := null;
      incontextSet := null;
    }

    /** `PromptLoader(incontext, eval)`. The evaluation loader is built only for
        gigaword, dailymail and rotten tomatoes; equal names share that one
        instance, and fail when it was never assigned; otherwise the in-context
        loader is built for any of the five names and left unassigned for others. */
    static method New(incontext: string, eval: string, hub: Hub) returns (r: Result<PromptLoader>)
      ensures r.Err? <==>
        || LoadFails(EvalKind(eval), hub)
        || (incontext == eval && EvalKind(eval).None?)
        || (incontext != eval && LoadFails(IncontextKind(incontext), hub))
      ensures incontext == eval && EvalKind(eval).None? ==> r == Err(AttributeError("eval_set"))
      ensures LoadFails(EvalKind(eval), hub) ==> r == Err(LoadError(EvalKind(eval), hub))
      ensures !LoadFails(EvalKind(eval), hub) && incontext != eval && LoadFails(IncontextKind(incontext), hub) ==>
        r == Err(LoadError(IncontextKind(incontext), hub))
      ensures r.Ok? ==> fresh(r.value) && r.value.Valid()
      ensures r.Ok? ==> (r.value.evalSet != null <==> EvalKind(eval).Some?)
      ensures r.Ok? && r.value.evalSet != null ==>
        fresh(r.value.evalSet) && LoadedFrom(r.value.evalSet, EvalKind(eval).value, hub)
      ensures r.Ok? && incontext == eval ==> r.value.incontextSet == r.value.evalSet
      ensures r.Ok? && incontext != eval ==> (r.value.incontextSet != null <==> IncontextKind(incontext).Some?)
      ensures r.Ok? && incontext != eval && r.value.incontextSet != null ==>
        && fresh(r.value.incontextSet)
        && r.value.incontextSet != r.value.evalSet
        && LoadedFrom(r.value.incontextSet, IncontextKind(incontext).value, hub)
    {
      var loader := new PromptLoader.Unset();
      var evalKind := EvalKind(eval);
      if evalKind.Some? {
        var evalSet :- DatasetLoader.Load(evalKind.value, hub);
        loader.evalSet := evalSet;
      }
      if incontext == eval {
        if loader.evalSet == null {
          return Err(AttributeError("eval_set"));
        }
        loader.incontextSet := loader.evalSet;
      } else {
        var incontextKind := IncontextKind(incontext);
        if incontextKind.Some? {
          var incontextSet :- DatasetLoader.Load(incontextKind.value, hub);
          loader.incontextSet := incontextSet;
        }
      }
      return Ok(loader);
    }

    /** `load_prompt`: the evaluation prompts are read first, and the in-context
        loader only when there is at least one of them. */
    function LoadPrompt(k: int, sample: Sampler): (r: Result<seq<string>>)
      reads this
      requires Valid() && IsSampler(sample)
      ensures r.Ok? <==>
        evalSet != null && (|evalSet.test| == 0 || (incontextSet != null && 0 <= k <= |incontextSet.train|))
      ensures evalSet == null ==> r == Err(AttributeError("eval_set"))
      ensures evalSet != null && |evalSet.test| > 0 && incontextSet == null ==> r == Err(AttributeError("incontext_set"))
      ensures evalSet != null && incontextSet != null && r.Err? ==> r.error == ValueError
      ensures r.Ok? ==> |r.value| == |evalSet.test|
      ensures r.Ok? ==> forall i :: 0 <= i < |evalSet.test| ==>
        && incontextSet != null
        && Prompt(incontextSet, k, i, sample, evalSet.EvalPrompts()[i]) == Ok(r.value[i])
    {
      if evalSet == null then Err(AttributeError("eval_set"))
      else if |evalSet.EvalPrompts()| == 0 then Ok([])
      else if incontextSet == null then Err(AttributeError("incontext_set"))
      else FlatPrompts(incontextSet, evalSet.EvalPrompts(), k, sample)
    }

    /** `load_prompt_iterative`. */
    function LoadPromptIterative(k: int, sample: Sampler): (r: Result<seq<seq<Turn>>>)
      reads this
      requires Valid() && IsSampler(sample)
      ensures r.Ok? <==>
        evalSet != null && (|evalSet.test| == 0 || (incontextSet != null && 0 <= k <= |incontextSet.train|))
      ensures evalSet == null ==> r == Err(AttributeError("eval_set"))
      ensures evalSet != null && |evalSet.test| > 0 && incontextSet == null ==> r == Err(AttributeError("incontext_set"))
      ensures evalSet != null && incontextSet != null && r.Err? ==> r.error == ValueError
      ensures r.Ok? ==> |r.value| == |evalSet.test|
      ensures r.Ok? ==> forall i :: 0 <= i < |evalSet.test| ==>
        && incontextSet != null
        && Conversation(incontextSet, k, i, sample, evalSet.EvalPrompts()[i]) == Ok(r.value[i])
    {
      if evalSet == null then Err(AttributeError("eval_set"))
      else if |evalSet.EvalPrompts()| == 0 then Ok([])
      else if incontextSet == null then Err(AttributeError("incontext_set"))
      else TurnPrompts(incontextSet, evalSet.EvalPrompts(), k, sample)
    }

    /** `load_testdata`: the evaluation loader's reference column. */
    function LoadTestdata(): (r: Result<seq<Value>>)
      reads this
      ensures evalSet == null ==> r == Err(AttributeError("eval_set"))
      ensures evalSet != null && r.Err? ==> r.error == KeyError
      ensures r.Ok? <==> evalSet != null && forall i :: 0 <= i < |evalSet.test| ==> ReferenceKey(evalSet.kind) in evalSet.test[i]
      ensures r.Ok? ==> |r.value| == |evalSet.test|
      ensures r.Ok? ==> forall i :: 0 <= i < |evalSet.test| ==> r.value[i] == evalSet.test[i][ReferenceKey(evalSet.kind)]
    {
      if evalSet == null then Err(AttributeError("eval_set")) else evalSet.TestReference()
    }
  }

  /** With no in-context examples every prompt is the evaluation prompt itself. */
  lemma {:induction false} ZeroShotPrompts(pl: PromptLoader, sample: Sampler)
    requires pl.Valid() && IsSampler(sample)
    requires pl.evalSet != null && (|pl.evalSet.test| == 0 || pl.incontextSet != null)
    ensures pl.LoadPrompt(0, sample) == Ok(pl.evalSet.EvalPrompts())
  {
    if |pl.evalSet.test| > 0 {
      ZeroShotFlat(pl.incontextSet, pl.evalSet.EvalPrompts(), sample);
    }
  }

  /** The comprehension with zero examples returns the queries unchanged. */
  lemma {:induction false} ZeroShotFlat(ic: DatasetLoader, queries: seq<string>, sample: Sampler)
    requires ic.Valid() && IsSampler(sample)
    ensures FlatPrompts(ic, queries, 0, sample) == Ok(queries)
  {
    var ps := FlatPrompts(ic, queries, 0, sample).value;
    forall i | 0 <= i < |queries|
      ensures ps[i] == queries[i]
    {
      assert Prompt(ic, 0, i, sample, queries[i]) == Ok(ps[i]);
    }
    assert ps == queries;
  }

  /** A conversation of k alternating user and assistant turns followed by the
      query as a user turn. */
  ghost predicate ConversationEndingIn(turns: seq<Turn>, k: int, query: string) {
    && |turns| == 2 * k + 1
    && (forall j :: 0 <= j < k ==> turns[2 * j].role == User && turns[2 * j + 1].role == Assistant)
    && turns[2 * k] == Turn(User, query)
  }

  /** One conversation: the in-context turns followed by the query as a user turn. */
  lemma {:induction false} OneConversationShape(ic: DatasetLoader, k: int, seed: nat, sample: Sampler, query: string, turns: seq<Turn>)
    requires ic.Valid() && IsSampler(sample)
    requires Conversation(ic, k, seed, sample, query) == Ok(turns)
    ensures ConversationEndingIn(turns, k, query)
  {
    var block := ic.InContextTurns(k, seed, sample).value;
    TurnsAlternate(ic, k, seed, sample);
    forall j | 0 <= j < k
      ensures turns[2 * j].role == User && turns[2 * j + 1].role == Assistant
    {
      assert turns[2 * j] == block[2 * j] && turns[2 * j + 1] == block[2 * j + 1];
    }
  }

  /** Every conversation of `load_prompt_iterative` has 2k + 1 turns: k user and
      assistant pairs alternating, then the evaluation prompt as a user turn. */
  lemma {:induction false} ConversationShape(pl: PromptLoader, k: int, sample: Sampler)
    requires pl.Valid() && IsSampler(sample)
    requires pl.LoadPromptIterative(k, sample).Ok?
    ensures forall i :: 0 <= i < |pl.evalSet.test| ==>
      ConversationEndingIn(pl.LoadPromptIterative(k, sample).value[i], k, pl.evalSet.EvalPrompts()[i])
  {
    var ts: seq<seq<Turn>> := pl.LoadPromptIterative(k, sample).value;
    var qs := pl.evalSet.EvalPrompts();
    forall i | 0 <= i < |pl.evalSet.test|
      ensures ConversationEndingIn(ts[i], k, qs[i])
    {
      OneConversationShape(pl.incontextSet, k, i, sample, qs[i], ts[i]);
    }
  }

  /** The flat prompt and the conversation for the same evaluation record carry the
      same examples: both draw with the record's position as seed, so joining the
      conversation's pairs back together gives the flat prompt. */
  lemma {:induction false} PromptMatchesConversation(pl: PromptLoader, k: int, sample: Sampler)
    requires pl.Valid() && IsSampler(sample) && k > 0
    requires pl.LoadPrompt(k, sample).Ok?
    requires pl.incontextSet != null && SeparatorUnique(pl.incontextSet)
    ensures pl.LoadPromptIterative(k, sample).Ok?
    ensures forall i :: 0 <= i < |pl.evalSet.test| ==>
      var ic, turns := pl.incontextSet, pl.LoadPromptIterative(k, sample).value[i];
      pl.LoadPrompt(k, sample).value[i]
        == Prefix(ic.kind) + Join(Reassembled(Command(ic.kind), Separator(ic.kind), turns[..2 * k]), "\n") + "\n"
           + turns[2 * k].content
  {
    var ic := pl.incontextSet;
    var ps, ts := pl.LoadPrompt(k, sample).value, pl.LoadPromptIterative(k, sample).value;
    forall i | 0 <= i < |pl.evalSet.test|
      ensures ps[i] == Prefix(ic.kind) + Join(Reassembled(Command(ic.kind), Separator(ic.kind), ts[i][..2 * k]), "\n") + "\n"
           + ts[i][2 * k].content
    {
      FlatPromptFromTurns(ic, k, i, sample);
      assert Prompt(ic, k, i, sample, pl.evalSet.EvalPrompts()[i]) == Ok(ps[i]);
      assert ps[i] == ic.InContextPrompt(k, i, sample).value + pl.evalSet.EvalPrompts()[i];
      var block := ic.InContextTurns(k, i, sample).value;
      assert Conversation(ic, k, i, sample, pl.evalSet.EvalPrompts()[i]) == Ok(ts[i]);
      assert ts[i] == block + [Turn(User, pl.evalSet.EvalPrompts()[i])];
      assert ts[i][..2 * k] == block;
    }
  }

  /** A raw rotten-tomatoes row. */
  function Review(text: string, lbl: int): Record {
    map["text" := Str(text), "label" := Int(lbl)]
  }

  /** The raw rotten-tomatoes splits of the worked example: one positive training
      review "A" and one negative test review "B". */
  function TinyRottenTomatoes(): Splits {
    Splits([Review("A", 1)], [], [Review("B", 0)])
  }

  /** Mapping over a one-row split. */
  lemma {:induction false} AddColumnToOneRow(row: Record, key: string, f: Record -> Result<string>, out: string)
    requires f(row) == Ok(out)
    ensures AddColumn([row], key, f) == Ok([row[key := Str(out)]])
  {
    assert [row][..0] == [];
    assert AddColumn([], key, f) == Ok([]);
    assert [] + [row[key := Str(out)]] == [row[key := Str(out)]];
  }

  /** The worked example's training fragment. */
  const TinyFragment: string := "review: A\nsentiment: positive"

  /** The rotten-tomatoes renderer's pieces for review "A" spell the fragment. */
  lemma {:induction false} TinyFragmentSpelled()
    ensures Tag(RottenTomatoes) + "A" + Separator(RottenTomatoes) + "positive" == TinyFragment
  {
  }

  /** The worked example's evaluation prompt. */
  function TinyQuery(): string {
    Instruction(RottenTomatoes) + "B"
  }

  /** The worked example's training row after preparation. */
  function TinyTrainRow(): Record {
    Review("A", 1)[SentimentKey := Str("positive")][PromptKey := Str(TinyFragment)]
  }

  /** The worked example's test row after preparation. */
  function TinyTestRow(): Record {
    Review("B", 0)[SentimentKey := Str("negative")][EvalPromptKey := Str(TinyQuery())]
  }

  /** Labelling the worked example's splits. */
  lemma {:induction false} TinyRottenTomatoesLabelled()
    ensures WithSentiment(TinyRottenTomatoes())
         == Ok(Splits([Review("A", 1)[SentimentKey := Str("positive")]], [], [Review("B", 0)[SentimentKey := Str("negative")]]))
  {
    AddColumnToOneRow(Review("A", 1), SentimentKey, LabelToSentiment, "positive");
    AddColumnToOneRow(Review("B", 0), SentimentKey, LabelToSentiment, "negative");
  }

  /** The training review renders to the worked example's fragment. */
  lemma {:induction false} TinyReviewRendered()
    ensures RenderFragment(RottenTomatoes, Review("A", 1)[SentimentKey := Str("positive")]) == Ok(TinyFragment)
  {
    var a := Review("A", 1)[SentimentKey := Str("positive")];
    assert StrField(a, "text") == Ok("A") && StrField(a, SentimentKey) == Ok("positive");
    TinyFragmentSpelled();
  }

  /** The test review renders to the worked example's evaluation prompt. */
  lemma {:induction false} TinyQueryRendered()
    ensures RenderQuery(RottenTomatoes, Review("B", 0)[SentimentKey := Str("negative")]) == Ok(TinyQuery())
  {
    var b := Review("B", 0)[SentimentKey := Str("negative")];
    assert StrField(b, "text") == Ok("B");
    QueryOfInput(RottenTomatoes, b, "B");
  }

  /** The evaluation prompt of a record whose input is known. */
  lemma {:induction false} QueryOfInput(kind: Kind, rec: Record, input: string)
    requires InputText(kind, rec) == Ok(input)
    ensures RenderQuery(kind, rec) == Ok(Instruction(kind) + input)
  {
  }

  /** Preparing the worked example's splits labels both reviews and renders the
      training fragment and the test prompt. */
  lemma {:induction false} TinyRottenTomatoesPrepared()
    ensures Prepare(RottenTomatoes, TinyRottenTomatoes()) == Ok(Pools([TinyTrainRow()], [TinyTestRow()]))
  {
    TinyRottenTomatoesLabelled();
    var a := Review("A", 1)[SentimentKey := Str("positive")];
    var b := Review("B", 0)[SentimentKey := Str("negative")];
    TinyReviewRendered();
    TinyQueryRendered();
    OneRowPools(RottenTomatoes, a, b, TinyFragment, TinyQuery());
  }

  /** Rendering a one-row training split and a one-row test split. */
  lemma {:induction false} OneRowPools(kind: Kind, a: Record, b: Record, fragment: string, query: string)
    requires RenderFragment(kind, a) == Ok(fragment) && RenderQuery(kind, b) == Ok(query)
    ensures RenderPools(kind, Splits([a], [], [b])) == Ok(Pools([a[PromptKey := Str(fragment)]], [b[EvalPromptKey := Str(query)]]))
  {
    AddColumnToOneRow(a, PromptKey, FragmentColumn(kind), fragment);
    AddColumnToOneRow(b, EvalPromptKey, QueryColumn(kind), query);
  }

  /** The only draw of one index out of one. */
  lemma {:induction false} DrawOneOfOne(sample: Sampler, seed: nat)
    requires IsSampler(sample)
    ensures sample(1, 1, seed) == [0]
  {
    var drawn := sample(1, 1, seed);
    assert ValidDraw(drawn, 1, 1);
  }

  /** A prompt loader sharing one loader whose training pool has one fragment and
      whose test pool has one evaluation prompt: with one example, the only prompt
      is the header, that fragment, a newline and the evaluation prompt. */
  lemma {:induction false} SingleRowPrompt(pl: PromptLoader, sample: Sampler, fragment: string, query: string)
    requires pl.Valid() && IsSampler(sample)
    requires pl.evalSet != null && pl.incontextSet == pl.evalSet
    requires pl.evalSet.Prompts() == [fragment] && pl.evalSet.EvalPrompts() == [query]
    ensures pl.LoadPrompt(1, sample) == Ok([Prefix(pl.evalSet.kind) + fragment + "\n" + query])
  {
    var ic := pl.evalSet;
    DrawOneOfOne(sample, 0);
    var examples := ic.Examples(1, 0, sample).value;
    assert examples[0] == fragment;
    assert examples == [fragment];
    assert ic.InContextPrompt(1, 0, sample) == Ok(Prefix(ic.kind) + fragment + "\n");
    var prompts := pl.LoadPrompt(1, sample).value;
    assert Prompt(ic, 1, 0, sample, query) == Ok(prompts[0]);
    assert prompts == [prompts[0]];
  }

  /** The worked example on a prompt loader sharing the prepared loader. */
  lemma {:induction false} TinyPromptLoader(pl: PromptLoader, sample: Sampler)
    requires pl.Valid() && IsSampler(sample)
    requires pl.evalSet != null && pl.incontextSet == pl.evalSet
    requires pl.evalSet.kind == RottenTomatoes
    requires pl.evalSet.train == [TinyTrainRow()] && pl.evalSet.test == [TinyTestRow()]
    ensures pl.LoadPrompt(1, sample) == Ok([Prefix(RottenTomatoes) + TinyFragment + "\n" + TinyQuery()])
  {
    var ic := pl.evalSet;
    assert ic.Prompts()[0] == TinyFragment;
    assert ic.Prompts() == [TinyFragment];
    assert ic.EvalPrompts()[0] == TinyQuery();
    assert ic.EvalPrompts() == [TinyQuery()];
    SingleRowPrompt(pl, sample, TinyFragment, TinyQuery());
  }

  /** The worked example's references: the test review's sentiment. */
  lemma {:induction false} TinyReferences(pl: PromptLoader)
    requires pl.evalSet != null && pl.evalSet.kind == RottenTomatoes && pl.evalSet.test == [TinyTestRow()]
    ensures pl.LoadTestdata() == Ok([Str("negative")])
  {
    assert "sentiment" in TinyTestRow() && TinyTestRow()["sentiment"] == Str("negative");
    var refs := pl.LoadTestdata().value;
    assert refs[0] == Str("negative");
    assert refs == [Str("negative")];
  }

  /** `rotten_tomatoes` names the rotten-tomatoes loader on the evaluation side. */
  lemma {:induction false} RottenTomatoesIsEvaluable()
    ensures EvalKind("rotten_tomatoes") == Some(RottenTomatoes)
  {
    assert |"rotten_tomatoes"| == 15 && |"gigaword"| == 8 && |"dailymail"| == 9;
  }

  /** A hub serving the worked example's splits yields the prepared loader. */
  lemma {:induction false} TinyHubLoads(hub: Hub)
    requires hub("rotten_tomatoes") == TinyRottenTomatoes()
    ensures EvalKind("rotten_tomatoes") == Some(RottenTomatoes)
    ensures !LoadFails(EvalKind("rotten_tomatoes"), hub)
  {
    TinyRottenTomatoesPrepared();
    RottenTomatoesIsEvaluable();
  }

  /** The loader built from that hub holds the prepared rows. */
  lemma {:induction false} TinyLoaderRows(l: DatasetLoader, hub: Hub)
    requires hub("rotten_tomatoes") == TinyRottenTomatoes()
    requires LoadedFrom(l, RottenTomatoes, hub)
    ensures l.train == [TinyTrainRow()] && l.test == [TinyTestRow()]
  {
    TinyRottenTomatoesPrepared();
  }

  /** A prompt loader whose one shared loader was built from a hub serving the
      worked example's splits gives the worked example's prompt and reference. */
  lemma {:induction false} TinyLoaderResults(pl: PromptLoader, hub: Hub, sample: Sampler)
    requires pl.Valid() && IsSampler(sample)
    requires hub("rotten_tomatoes") == TinyRottenTomatoes()
    requires pl.evalSet != null && pl.incontextSet == pl.evalSet
    requires LoadedFrom(pl.evalSet, RottenTomatoes, hub)
    ensures pl.LoadPrompt(1, sample) == Ok([Prefix(RottenTomatoes) + TinyFragment + "\n" + TinyQuery()])
    ensures pl.LoadTestdata() == Ok([Str("negative")])
  {
    TinyLoaderRows(pl.evalSet, hub);
    TinyPromptLoader(pl, sample);
    TinyReferences(pl);
  }

  /** `PromptLoader("rotten_tomatoes", "rotten_tomatoes")` on a hub serving the
      worked example's splits: one shared loader holding the prepared rows. */
  method NewTinyLoader(hub: Hub) returns (loader: PromptLoader)
    requires hub("rotten_tomatoes") == TinyRottenTomatoes()
    ensures loader.Valid() && loader.evalSet != null && loader.incontextSet == loader.evalSet
    ensures LoadedFrom(loader.evalSet, RottenTomatoes, hub)
  {
    TinyHubLoads(hub);
    var created := PromptLoader.New("rotten_tomatoes", "rotten_tomatoes", hub);
    loader := created.value;
  }

  /** The worked example end to end, on any hub that serves the one-review splits
      under `rotten_tomatoes`: one in-context example drawn from a one-review
      training pool, prompting for the one test review, whose reference is its
      sentiment. */
  method RottenTomatoesExample(hub: Hub, sample: Sampler) returns (prompts: Result<seq<string>>, references: Result<seq<Value>>)
    requires hub("rotten_tomatoes") == TinyRottenTomatoes() && IsSampler(sample)
    ensures prompts == Ok([Prefix(RottenTomatoes) + TinyFragment + "\n" + TinyQuery()])
    ensures references == Ok([Str("negative")])
  {
    var loader := NewTinyLoader(hub);
    TinyLoaderResults(loader, hub, sample);
    prompts := loader.LoadPrompt(1, sample);
    references := loader.LoadTestdata();
  }
}
