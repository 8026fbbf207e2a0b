/** The dataset loader classes: construction from the dataset hub (the `.map`
    steps of each `__init__`), `incontext_prompt`, `incontext_prompt_iterative`,
    `eval_prompt` and `load_test_reference`. One class, `DatasetLoader`, tagged
    with its `Kind`, stands for the five. */
module Loaders {
  import opened Results
  import opened Strings
  import opened Records
  import opened Renderers
  import opened Sampling

  datatype Role = User | Assistant

  /** One `{'role': ..., 'content': ...}` message. */
  datatype Turn = Turn(role: Role, content: string)

  /** The three splits the dataset hub returns for a dataset name. */
  datatype Splits = Splits(train: seq<Record>, validation: seq<Record>, test: seq<Record>)

  /** `load_dataset`: external I/O, a parameter here. */
  type Hub = string -> Splits

  /** The training and test rows a loader keeps after its `.map` steps. */
  datatype Pools = Pools(train: seq<Record>, test: seq<Record>)

  /** Every training row carries its fragment in `prompt` and every test row its
      evaluation prompt in `eval_prompt`, each equal to the rendering of that row. */
  ghost predicate Rendered(kind: Kind, pools: Pools) {
    && (forall i :: 0 <= i < |pools.train| ==>
          && PromptKey in pools.train[i] && pools.train[i][PromptKey].Str?
          && RenderFragment(kind, pools.train[i]) == Ok(pools.train[i][PromptKey].s))
    && (forall i :: 0 <= i < |pools.test| ==>
          && EvalPromptKey in pools.test[i] && pools.test[i][EvalPromptKey].Str?
          && RenderQuery(kind, pools.test[i]) == Ok(pools.test[i][EvalPromptKey].s))
  }

  /** `self.dataset.map(_label_to_sentiment)`: all three splits, in order. */
  function WithSentiment(raw: Splits): (r: Result<Splits>)
    ensures r.Ok? <==>
      && (forall i :: 0 <= i < |raw.train| ==> "label" in raw.train[i])
      && (forall i :: 0 <= i < |raw.validation| ==> "label" in raw.validation[i])
      && (forall i :: 0 <= i < |raw.test| ==> "label" in raw.test[i])
    ensures r.Err? ==> r.error == KeyError
    ensures r.Ok? ==> |r.value.train| == |raw.train| && |r.value.test| == |raw.test|
    ensures r.Ok? ==> forall i :: 0 <= i < |raw.train| ==>
      r.value.train[i] == raw.train[i][SentimentKey := Str(LabelToSentiment(raw.train[i]).value)]
    ensures r.Ok? ==> forall i :: 0 <= i < |raw.test| ==>
      r.value.test[i] == raw.test[i][SentimentKey := Str(LabelToSentiment(raw.test[i]).value)]
  {
    var train :- AddColumn(raw.train, SentimentKey, LabelToSentiment);
    var validation :- AddColumn(raw.validation, SentimentKey, LabelToSentiment);
    var test :- AddColumn(raw.test, SentimentKey, LabelToSentiment);
    Ok(Splits(train, validation, test))
  }

  /** `_prompt` as the function handed to `.map`. */
  function FragmentColumn(kind: Kind): Record -> Result<string> {
    rec => RenderFragment(kind, rec)
  }

  /** `_eval_prompt` as the function handed to `.map`. */
  function QueryColumn(kind: Kind): Record -> Result<string> {
    rec => RenderQuery(kind, rec)
  }

  /** `self.train.map(_prompt)` and `self.test.map(_eval_prompt)`: each training
      row gains its fragment, each test row its evaluation prompt. */
  function RenderPools(kind: Kind, splits: Splits): (r: Result<Pools>)
    ensures r.Ok? ==> |r.value.train| == |splits.train| && |r.value.test| == |splits.test|
    ensures r.Ok? <==>
      && (forall i :: 0 <= i < |splits.train| ==> RenderFragment(kind, splits.train[i]).Ok?)
      && (forall i :: 0 <= i < |splits.test| ==> RenderQuery(kind, splits.test[i]).Ok?)
    ensures r.Ok? ==> forall i :: 0 <= i < |splits.train| ==>
      r.value.train[i] == splits.train[i][PromptKey := Str(RenderFragment(kind, splits.train[i]).value)]
    ensures r.Ok? ==> forall i :: 0 <= i < |splits.test| ==>
      r.value.test[i] == splits.test[i][EvalPromptKey := Str(RenderQuery(kind, splits.test[i]).value)]
    ensures r.Ok? ==> Rendered(kind, r.value)
  {
    var train :- AddColumn(splits.train, PromptKey, FragmentColumn(kind));
    var test :- AddColumn(splits.test, EvalPromptKey, QueryColumn(kind));
    RenderedAfterMapping(kind, splits, train, test);
    Ok(Pools(train, test))
  }

  /** The `.map` steps of a loader's `__init__`: only rotten tomatoes first maps
      its labels to sentiments, and an exception there aborts before rendering. */
  function Prepare(kind: Kind, raw: Splits): (r: Result<Pools>)
    ensures kind != RottenTomatoes ==> r == RenderPools(kind, raw)
    ensures kind == RottenTomatoes && WithSentiment(raw).Err? ==> r == Err(WithSentiment(raw).error)
    ensures kind == RottenTomatoes && WithSentiment(raw).Ok? ==> r == RenderPools(kind, WithSentiment(raw).value)
    ensures r.Ok? ==> |r.value.train| == |raw.train| && |r.value.test| == |raw.test| && Rendered(kind, r.value)
  {
    var labelled :- if kind == RottenTomatoes then WithSentiment(raw) else Ok(raw);
    RenderPools(kind, labelled)
  }

  /** Adding the rendered columns yields rows that render to their own column. */
  lemma {:induction false} RenderedAfterMapping(kind: Kind, labelled: Splits, train: seq<Record>, test: seq<Record>)
    requires AddColumn(labelled.train, PromptKey, FragmentColumn(kind)) == Ok(train)
    requires AddColumn(labelled.test, EvalPromptKey, QueryColumn(kind)) == Ok(test)
    ensures Rendered(kind, Pools(train, test))
  {
    FragmentsAfterMapping(kind, labelled.train, train);
    QueriesAfterMapping(kind, labelled.test, test);
  }

  /** The training half of `RenderedAfterMapping`. */
  lemma {:induction false} FragmentsAfterMapping(kind: Kind, rows: seq<Record>, train: seq<Record>)
    requires AddColumn(rows, PromptKey, FragmentColumn(kind)) == Ok(train)
    ensures forall i :: 0 <= i < |train| ==>
      && PromptKey in train[i] && train[i][PromptKey].Str?
      && RenderFragment(kind, train[i]) == Ok(train[i][PromptKey].s)
  {
    forall i | 0 <= i < |train|
      ensures PromptKey in train[i] && train[i][PromptKey].Str?
      ensures RenderFragment(kind, train[i]) == Ok(train[i][PromptKey].s)
    {
      var fragment := RenderFragment(kind, rows[i]).value;
      assert train[i] == rows[i][PromptKey := Str(fragment)];
      RenderingIgnoresAddedColumns(kind, rows[i], Str(fragment));
    }
  }

  /** The test half of `RenderedAfterMapping`. */
  lemma {:induction false} QueriesAfterMapping(kind: Kind, rows: seq<Record>, test: seq<Record>)
    requires AddColumn(rows, EvalPromptKey, QueryColumn(kind)) == Ok(test)
    ensures forall i :: 0 <= i < |test| ==>
      && EvalPromptKey in test[i] && test[i][EvalPromptKey].Str?
      && RenderQuery(kind, test[i]) == Ok(test[i][EvalPromptKey].s)
  {
    forall i | 0 <= i < |test|
      ensures EvalPromptKey in test[i] && test[i][EvalPromptKey].Str?
      ensures RenderQuery(kind, test[i]) == Ok(test[i][EvalPromptKey].s)
    {
      var query := RenderQuery(kind, rows[i]).value;
      assert test[i] == rows[i][EvalPromptKey := Str(query)];
      RenderingIgnoresAddedColumns(kind, rows[i], Str(query));
    }
  }

  /** Every example contains the separator. */
  ghost predicate AllContain(sep: string, examples: seq<string>) {
    forall j :: 0 <= j < |examples| ==> Occurs(sep, examples[j])
  }

  /** The body of the turn builder's loop for one example: split it at the
      separator, a user turn with the command and the first piece, an assistant
      turn with the second piece. */
  function Exchange(command: string, sep: string, example: string): seq<Turn>
    requires |sep| > 0 && Occurs(sep, example)
  {
    var parts := Split(example, sep);
    [Turn(User, command + parts[0]), Turn(Assistant, parts[1])]
  }

  /** The turns the builder appends for `examples`, in order. */
  function TurnPairs(command: string, sep: string, examples: seq<string>): seq<Turn>
    requires |sep| > 0 && AllContain(sep, examples)
    decreases |examples|
  {
    if |examples| == 0 then []
    else TurnPairs(command, sep, examples[..|examples| - 1]) + Exchange(command, sep, examples[|examples| - 1])
  }

  /** Exactly two turns per example, alternating user and assistant, the user turn
      holding the command and the piece before the separator, the assistant turn the
      piece after it. */
  lemma {:induction false} TurnPairsShape(command: string, sep: string, examples: seq<string>)
    requires |sep| > 0 && AllContain(sep, examples)
    ensures |TurnPairs(command, sep, examples)| == 2 * |examples|
    ensures forall j :: 0 <= j < |examples| ==>
      && TurnPairs(command, sep, examples)[2 * j] == Turn(User, command + Split(examples[j], sep)[0])
      && TurnPairs(command, sep, examples)[2 * j + 1] == Turn(Assistant, Split(examples[j], sep)[1])
    decreases |examples|
  {
    if |examples| > 0 {
      var n := |examples| - 1;
      var init := examples[..n];
      TurnPairsShape(command, sep, init);
      var turns := TurnPairs(command, sep, examples);
      assert turns == TurnPairs(command, sep, init) + Exchange(command, sep, examples[n]);
      forall j | 0 <= j < |examples|
        ensures turns[2 * j] == Turn(User, command + Split(examples[j], sep)[0])
        ensures turns[2 * j + 1] == Turn(Assistant, Split(examples[j], sep)[1])
      {
        if j < n {
          assert init[j] == examples[j];
        }
      }
    }
  }

  /** Extending the examples by the next one extends the turns by its exchange. */
  lemma {:induction false} TurnPairsNext(command: string, sep: string, examples: seq<string>, i: nat)
    requires |sep| > 0 && i < |examples| && AllContain(sep, examples)
    ensures AllContain(sep, examples[..i]) && AllContain(sep, examples[..i + 1])
    ensures TurnPairs(command, sep, examples[..i + 1])
         == TurnPairs(command, sep, examples[..i]) + Exchange(command, sep, examples[i])
  {
    var done := examples[..i + 1];
    assert done[..i] == examples[..i] && done[i] == examples[i];
  }

  /** The loop of `incontext_prompt_iterative`: for each sampled example, split it
      at the separator and append the user and the assistant turn. */
  method BuildTurns(command: string, sep: string, examples: seq<string>) returns (out: seq<Turn>)
    requires |sep| > 0 && AllContain(sep, examples)
    ensures out == TurnPairs(command, sep, examples)
  {
    out := [];
    for i := 0 to |examples|
      invariant out == TurnPairs(command, sep, examples[..i])
    {
      TurnPairsNext(command, sep, examples, i);
      var parts := Split(examples[i], sep);
      out := out + [Turn(User, command + parts[0]), Turn(Assistant, parts[1])];
    }
    assert examples[..|examples|] == examples;
  }

  /** `s.removeprefix(prefix)`. */
  function RemovePrefix(s: string, prefix: string): string {
    if |prefix| <= |s| && s[..|prefix|] == prefix then s[|prefix|..] else s
  }

  /** The turns of `incontext_prompt_iterative` alternate: a user turn, then an
      assistant turn, for each example. */
  lemma {:induction false} TurnsAlternate(l: DatasetLoader, k: int, seed: nat, sample: Sampler)
    requires l.Valid() && IsSampler(sample)
    requires l.InContextTurns(k, seed, sample).Ok?
    ensures forall j :: 0 <= j < k ==>
      l.InContextTurns(k, seed, sample).value[2 * j].role == User
      && l.InContextTurns(k, seed, sample).value[2 * j + 1].role == Assistant
  {
    if k > 0 {
      var examples := l.Examples(k, seed, sample).value;
      TurnPairsShape(Command(l.kind), Separator(l.kind), examples);
    }
  }

  /** Undoes the split for each user/assistant pair, in order: the user text after
      the command, the separator, and the assistant text. */
  function Reassembled(command: string, sep: string, turns: seq<Turn>): seq<string>
    decreases |turns|
  {
    if |turns| < 2 then []
    else
      var n := |turns|;
      Reassembled(command, sep, turns[..n - 2]) + [RemovePrefix(turns[n - 2].content, command) + sep + turns[n - 1].content]
  }

  /** One of the five loader classes, after `__init__`. Its fields are never
      reassigned afterwards. */
  class DatasetLoader {
    const kind: Kind
    const train: seq<Record>
    const test: seq<Record>

    ghost predicate Valid() {
      Rendered(kind, Pools(train, test))
    }

    constructor (kind: Kind, pools: Pools)
      requires Rendered(kind, pools)
      ensures this.kind == kind && train == pools.train && test == pools.test
      ensures Valid()
    {
      this.kind := kind;
      train := pools.train;
      test := pools.test;
    }

    /** `__init__`: fetch the splits from the hub and apply the `.map` steps;
        the first exception aborts construction. */
    static method Load(kind: Kind, hub: Hub) returns (r: Result<DatasetLoader>)
      ensures r.Ok? <==> Prepare(kind, hub(DatasetName(kind))).Ok?
      ensures r.Err? ==> r.error == Prepare(kind, hub(DatasetName(kind))).error
      ensures r.Ok? ==> fresh(r.value) && r.value.Valid() && r.value.kind == kind
      ensures r.Ok? ==> Pools(r.value.train, r.value.test) == Prepare(kind, hub(DatasetName(kind))).value
    {
      var pools :- Prepare(kind, hub(DatasetName(kind)));
      var loader := new DatasetLoader(kind, pools);
      return Ok(loader);
    }

    /** The `prompt` column of the training rows: each is the fragment of its row. */
    function Prompts(): (ps: seq<string>)
      requires Valid()
      ensures |ps| == |train|
      ensures forall i :: 0 <= i < |train| ==> RenderFragment(kind, train[i]) == Ok(ps[i])
      ensures AllContain(Separator(kind), ps)
    {
      seq(|train|, i requires 0 <= i < |train| => train[i][PromptKey].s)
    }

    /** `eval_prompt()`: the `eval_prompt` column of the test rows, in order. */
    function EvalPrompts(): (qs: seq<string>)
      requires Valid()
      ensures |qs| == |test|
      ensures forall i :: 0 <= i < |test| ==> RenderQuery(kind, test[i]) == Ok(qs[i])
    {
      seq(|test|, i requires 0 <= i < |test| => test[i][EvalPromptKey].s)
    }

    /** `self.train.select(idxs)["prompt"]` for the indices numpy draws with `seed`:
        the fragments in draw order, not re-sorted. */
    function Examples(k: int, seed: nat, sample: Sampler): (r: Result<seq<string>>)
      requires Valid() && IsSampler(sample)
      ensures r.Ok? <==> 0 <= k <= |train|
      ensures r.Err? ==> r.error == ValueError
      ensures r.Ok? ==> |r.value| == k && AllContain(Separator(kind), r.value)
      ensures r.Ok? ==> forall j :: 0 <= j < k ==> r.value[j] == Prompts()[sample(|train|, k, seed)[j]]
    {
      var idxs :- Choose(sample, |train|, k, seed);
      var ps := Prompts();
      var examples := seq(|idxs|, j requires 0 <= j < |idxs| => ps[idxs[j]]);
      assert forall j :: 0 <= j < |idxs| ==> examples[j] == ps[idxs[j]];
      Ok(examples)
    }

    /** `incontext_prompt`: empty for zero examples; otherwise the header, the
        sampled fragments joined by newlines, and a final newline. */
    function InContextPrompt(k: int, seed: nat, sample: Sampler): (r: Result<string>)
      requires Valid() && IsSampler(sample)
      ensures r.Ok? <==> 0 <= k <= |train|
      ensures k == 0 ==> r == Ok("")
    {
      if k == 0 then Ok("")
      else
        var examples :- Examples(k, seed, sample);
        Ok(Prefix(kind) + Join(examples, "\n") + "\n")
    }

    /** The list `incontext_prompt_iterative` returns. */
    function InContextTurns(k: int, seed: nat, sample: Sampler): (r: Result<seq<Turn>>)
      requires Valid() && IsSampler(sample)
      ensures r.Ok? <==> 0 <= k <= |train|
      ensures r.Ok? ==> |r.value| == 2 * k
    {
      if k == 0 then Ok([])
      else
        var examples :- Examples(k, seed, sample);
        TurnPairsShape(Command(kind), Separator(kind), examples);
        Ok(TurnPairs(Command(kind), Separator(kind), examples))
    }

    /** `incontext_prompt_iterative`: no turns for `k == 0`; otherwise the sampled
        examples, each turned into a user and an assistant turn by the loop. */
    method IncontextPromptIterative(k: int, seed: nat, sample: Sampler) returns (r: Result<seq<Turn>>)
      requires Valid() && IsSampler(sample)
      ensures r == InContextTurns(k, seed, sample)
    {
      if k == 0 {
        return Ok([]);
      }
      var examples :- Examples(k, seed, sample);
      var out := BuildTurns(Command(kind), Separator(kind), examples);
      return Ok(out);
    }

    /** `load_test_reference`: the reference column of the test rows. */
    function TestReference(): (r: Result<seq<Value>>)
      ensures r.Ok? <==> forall i :: 0 <= i < |test| ==> ReferenceKey(kind) in test[i]
      ensures r.Ok? ==> |r.value| == |test|
      ensures r.Ok? ==> forall i :: 0 <= i < |test| ==>
        ReferenceKey(kind) in test[i] && r.value[i] == test[i][ReferenceKey(kind)]
      ensures r.Err? ==> r.error == KeyError
    {
      Column(test, ReferenceKey(kind))
    }
  }

  /** Neither the input nor the target of the row contains the dataset's separator. */
  ghost predicate Unambiguous(kind: Kind, rec: Record) {
    && InputText(kind, rec).Ok? && TargetText(kind, rec).Ok?
    && !Occurs(Separator(kind), InputText(kind, rec).value)
    && !Occurs(Separator(kind), TargetText(kind, rec).value)
  }

  /** The turn list renders the sampled training rows themselves: for the j-th
      index numpy draws, the user turn is the command, the tag and that row's
      input, and the assistant turn is that row's target. */
  lemma {:induction false} TurnsRenderSampledRows(l: DatasetLoader, k: int, seed: nat, sample: Sampler)
    requires l.Valid() && IsSampler(sample) && 0 < k <= |l.train|
    requires forall i :: 0 <= i < |l.train| ==> Unambiguous(l.kind, l.train[i])
    ensures l.InContextTurns(k, seed, sample).Ok?
    ensures forall j :: 0 <= j < k ==>
      var row := l.train[sample(|l.train|, k, seed)[j]];
      && l.InContextTurns(k, seed, sample).value[2 * j]
           == Turn(User, Command(l.kind) + Tag(l.kind) + InputText(l.kind, row).value)
      && l.InContextTurns(k, seed, sample).value[2 * j + 1]
           == Turn(Assistant, TargetText(l.kind, row).value)
  {
    var command, sep := Command(l.kind), Separator(l.kind);
    var examples := l.Examples(k, seed, sample).value;
    var idxs := sample(|l.train|, k, seed);
    var turns := TurnPairs(command, sep, examples);
    assert l.InContextTurns(k, seed, sample) == Ok(turns);
    TurnPairsShape(command, sep, examples);
    forall j | 0 <= j < k
      ensures turns[2 * j] == Turn(User, command + Tag(l.kind) + InputText(l.kind, l.train[idxs[j]]).value)
      ensures turns[2 * j + 1] == Turn(Assistant, TargetText(l.kind, l.train[idxs[j]]).value)
    {
      SampledExchange(l.kind, l.train[idxs[j]], examples[j], turns[2 * j], turns[2 * j + 1]);
    }
  }

  /** The exchange built from an unambiguous row's fragment holds the row's tagged
      input and its target. */
  lemma {:induction false} SampledExchange(kind: Kind, row: Record, fragment: string, user: Turn, assistant: Turn)
    requires Unambiguous(kind, row) && RenderFragment(kind, row) == Ok(fragment)
    requires Occurs(Separator(kind), fragment)
    requires user == Turn(User, Command(kind) + Split(fragment, Separator(kind))[0])
    requires assistant == Turn(Assistant, Split(fragment, Separator(kind))[1])
    ensures user == Turn(User, Command(kind) + Tag(kind) + InputText(kind, row).value)
    ensures assistant == Turn(Assistant, TargetText(kind, row).value)
  {
    var tagged, target := Tag(kind) + InputText(kind, row).value, TargetText(kind, row).value;
    FragmentRoundTrip(kind, row);
    var parts := Split(fragment, Separator(kind));
    assert parts == [tagged, target];
    ConcatRegroups(Command(kind), Tag(kind), InputText(kind, row).value);
  }

  /** Every training fragment contains its separator exactly once. */
  ghost predicate SeparatorUnique(l: DatasetLoader)
    requires l.Valid()
  {
    forall i :: 0 <= i < |l.train| ==> |Split(l.Prompts()[i], Separator(l.kind))| == 2
  }

  /** Rows whose input and target are free of the separator give fragments that
      contain it exactly once. */
  lemma {:induction false} UnambiguousRowsSplitInTwo(l: DatasetLoader)
    requires l.Valid()
    requires forall i :: 0 <= i < |l.train| ==> Unambiguous(l.kind, l.train[i])
    ensures SeparatorUnique(l)
  {
    forall i | 0 <= i < |l.train|
      ensures |Split(l.Prompts()[i], Separator(l.kind))| == 2
    {
      FragmentRoundTrip(l.kind, l.train[i]);
    }
  }

  /** Rebuilding one example from its pair of turns gives it back when it
      contains the separator exactly once. */
  lemma {:induction false} ReassembledExchange(command: string, sep: string, example: string)
    requires |sep| > 0 && Occurs(sep, example) && |Split(example, sep)| == 2
    ensures RemovePrefix(Exchange(command, sep, example)[0].content, command) + sep
            + Exchange(command, sep, example)[1].content == example
  {
    var parts := Split(example, sep);
    JoinSplit(example, sep);
    assert parts[1..] == [parts[1]];
    assert Join(parts, sep) == parts[0] + sep + parts[1];
    assert (command + parts[0])[..|command|] == command;
    assert (command + parts[0])[|command|..] == parts[0];
  }

  /** Rebuilding each example from its pair of turns gives the examples back when
      each contains the separator exactly once. */
  lemma {:induction false} ReassembledTurnPairs(command: string, sep: string, examples: seq<string>)
    requires |sep| > 0 && AllContain(sep, examples)
    requires forall j :: 0 <= j < |examples| ==> |Split(examples[j], sep)| == 2
    ensures Reassembled(command, sep, TurnPairs(command, sep, examples)) == examples
    decreases |examples|
  {
    if |examples| > 0 {
      var n := |examples| - 1;
      var init, last := examples[..n], examples[n];
      assert examples == init + [last];
      assert forall j :: 0 <= j < n ==> init[j] == examples[j];
      ReassembledTurnPairs(command, sep, init);
      var front, pair := TurnPairs(command, sep, init), Exchange(command, sep, last);
      var turns := front + pair;
      assert TurnPairs(command, sep, examples) == turns;
      var m := |turns|;
      assert m >= 2 && turns[..m - 2] == front;
      assert turns[m - 2] == pair[0] && turns[m - 1] == pair[1];
      ReassembledExchange(command, sep, last);
      var rebuilt := RemovePrefix(turns[m - 2].content, command) + sep + turns[m - 1].content;
      assert rebuilt == last;
      assert Reassembled(command, sep, turns) == Reassembled(command, sep, front) + [rebuilt];
    }
  }

  /** Both representations use the same examples for the same seed: the flat
      in-context block is the header, the fragments rebuilt from the turn list
      (user text after the command, separator, assistant text) joined by newlines,
      and a final newline. */
  lemma {:induction false} FlatPromptFromTurns(l: DatasetLoader, k: int, seed: nat, sample: Sampler)
    requires l.Valid() && IsSampler(sample) && 0 < k <= |l.train|
    requires SeparatorUnique(l)
    ensures l.InContextTurns(k, seed, sample).Ok?
    ensures l.InContextPrompt(k, seed, sample)
         == Ok(Prefix(l.kind) + Join(Reassembled(Command(l.kind), Separator(l.kind), l.InContextTurns(k, seed, sample).value), "\n") + "\n")
  {
    var command, sep := Command(l.kind), Separator(l.kind);
    var examples := l.Examples(k, seed, sample).value;
    assert |examples| == k;
    assert forall j :: 0 <= j < |examples| ==> |Split(examples[j], sep)| == 2 by {
      forall j | 0 <= j < k
        ensures |Split(examples[j], sep)| == 2
      {
        assert examples[j] == l.Prompts()[sample(|l.train|, k, seed)[j]];
      }
    }
    ReassembledTurnPairs(command, sep, examples);
    assert l.InContextTurns(k, seed, sample) == Ok(TurnPairs(command, sep, examples));
    assert l.InContextPrompt(k, seed, sample) == Ok(Prefix(l.kind) + Join(examples, "\n") + "\n");
  }
}
