# In-context prompt assembly of `llm-in-context-bias`, in Dafny

This project models how the data-loading module of `llm-in-context-bias` builds
the prompts for its in-context learning experiments, and proves what those
prompts contain.

An evaluation dataset (gigaword, dailymail or rotten tomatoes) supplies the
queries. An in-context dataset (any of those three, wikicat or tweetqa) supplies
the worked examples. Each test record gets one prompt. The prompt holds `k`
training fragments drawn with numpy, using the record's position as the seed,
followed by the record's evaluation prompt. It comes in two forms:

- `load_prompt` gives one flat string.
- `load_prompt_iterative` gives a list of user and assistant turns. Each example
  is split back at its separator into a question and an answer.

`load_testdata` returns the reference column that the answers are scored against.

## Modules

| module | file | contents |
|---|---|---|
| `Results` | `results.dfy` | `Result`, `Option` and the Python exceptions the code can raise, with `:-` propagating the first one. |
| `Strings` | `strings.dfy` | Python's `str.split` and `str.join`, with the split/join round trip. |
| `Records` | `records.dfy` | Rows as dicts of values, field access with its `KeyError`/`TypeError`/`IndexError` cases, and Hugging Face `Dataset.map` and column access. |
| `Renderers` | `renderers.dfy` | The static `_label_to_sentiment`, `_prompt` and `_eval_prompt` of the five loader classes, with their constants. |
| `Sampling` | `sampling.dfy` | numpy's `choice(n, k, replace=False)`, as a parameter with numpy's guarantees. |
| `Loaders` | `loaders.dfy` | The loader classes after `__init__` (one class tagged with its dataset), `incontext_prompt`, `incontext_prompt_iterative` with its loop, `eval_prompt` and `load_test_reference`. |
| `Prompts` | `prompts.dfy` | `PromptLoader`: `__init__` and its aliasing, `load_prompt`, `load_prompt_iterative`, `load_testdata`, and a worked rotten-tomatoes example. |
| `Transforms` | `transforms.dfy` | `change_key`, `content_map`, `_multi_key_to_text`, `_invert_labels` and `_map_labels`. |

## How the model follows the code

- Each `+` and each lookup is evaluated left to right, as in Python. The first
  exception raised is the one a member returns: a missing key gives `KeyError`,
  and a non-string operand of `+` gives `TypeError`.
- `Dataset.map` stops at the first row whose renderer raises.
- An attribute that `PromptLoader.__init__` never assigns is a `null` field.
  Reading it gives `AttributeError` naming the attribute.
- `PROMPT_PREFIX` and the evaluation instructions end in `"\n"`. The examples
  are joined by `"\n"`, one more `"\n"` follows the last of them, and the
  evaluation prompt comes straight after. `Prompts.TinyPromptLoader` states the
  exact string.
- For rotten tomatoes, the `command` of `incontext_prompt_iterative` is only
  the first sentence of the evaluation instruction. The two string literals on
  the following lines are separate statements whose values are discarded.

## Model

| member | source | states |
|---|---|---|
| `Strings.Split` | src/data/dataloader.py:236 | `ex.split(sep)` has at least one piece, and two or more exactly when `sep` occurs in `ex` |
| `Strings.JoinLength` | src/data/dataloader.py:215 | `"\n".join(examples)` of n > 0 pieces has the pieces' total length plus n - 1 separators, and starts with the first piece |
| `Strings.JoinSplit` | src/data/dataloader.py:236 | joining the pieces of `ex.split(sep)` with `sep` gives `ex` back |
| `Strings.SplitPiecesAreFree` | src/data/dataloader.py:236 | no piece of a split contains the separator |
| `Strings.SplitAroundSeparator` | src/data/dataloader.py:236 | for a separator that cannot overlap itself, `(head + sep + tail).split(sep)` is `[head, tail]` when neither part contains `sep` |
| `Records.StrField` | src/data/dataloader.py:187 | `example[key]` as an operand of `+` succeeds exactly when the key is present and holds a `str`; otherwise `KeyError` (missing) or `TypeError` (not a string) |
| `Records.FirstItem` | src/data/dataloader.py:580 | `example["Answer"][0]` succeeds exactly for a list whose first item is a `str` and for a non-empty string, giving that item or the first character; an empty list or string raises `IndexError`, an int or a list starting with a non-string `TypeError`, a dict `KeyError` |
| `Records.JoinWithSpace` | src/data/dataloader.py:487 | `" ".join(v)` of a list succeeds exactly when every item is a `str`, and is then the items joined by single spaces; a list with a non-string item, an int or a dict raises `TypeError`; of a string it always succeeds (the same call is at line 496) |
| `Records.SpaceJoinOfString` | src/data/dataloader.py:487 | `" ".join(s)` of a string puts one space between each pair of neighbouring characters: character j is at position 2j, and the result has 2n-1 characters for n > 0 |
| `Records.AddColumn` | src/data/dataloader.py:164-169 | `Dataset.map(f)` succeeds exactly when `f` succeeds on every row; it keeps the row count and each row gains the column `f` computes; on failure, the error is `f`'s on the first failing row |
| `Records.Column` | src/data/dataloader.py:173 | `dataset[key]` succeeds exactly when every row has the column, and returns the rows' values in order |
| `Renderers.LabelToSentiment` | src/data/dataloader.py:175-180 | the sentiment is "positive" exactly when the label equals 1, and "negative" otherwise; a missing label raises |
| `Renderers.RenderFragment` | src/data/dataloader.py:182-189 | `_prompt` succeeds exactly when the input and the target can be read, and the fragment always contains its separator (the same holds at lines 273-279, 369-375, 482-489 and 575-581) |
| `Renderers.RenderQuery` | src/data/dataloader.py:191-199 | `_eval_prompt` succeeds exactly when the input can be read, and starts with the dataset's instruction (the same holds at lines 282-286, 378-382, 492-496 and 585-589) |
| `Renderers.SeparatorIsBorderless` | src/data/dataloader.py:187 | each separator ("\nsentiment: ", "\nsummary: ", "\nanswer: ") starts with the only newline it contains, and no tag contains that newline |
| `Renderers.FragmentRoundTrip` | src/data/dataloader.py:236-238 | splitting an example fragment at its separator gives the tagged input and the target back, when neither contains the separator |
| `Renderers.QueryIgnoresTarget` | src/data/dataloader.py:191-199 | the evaluation prompt, or its exception, does not depend on the target field |
| `Renderers.RenderingIgnoresAddedColumns` | src/data/dataloader.py:164-169 | adding the `prompt` or `eval_prompt` column does not change what a row renders to |
| `Sampling.Choose` | src/data/dataloader.py:212 | `rng.choice(len(train), k, replace=False)` returns `k` distinct indices below `len(train)`, and raises `ValueError` exactly when `k < 0` or `k > len(train)` |
| `Loaders.WithSentiment` | src/data/dataloader.py:161 | mapping `_label_to_sentiment` over the three splits succeeds exactly when every row has a label, and each row gains its sentiment |
| `Loaders.RenderPools` | src/data/dataloader.py:164-169 | the two rendering `.map` steps succeed exactly when every training row renders a fragment and every test row an evaluation prompt; each training row gains its fragment, each test row its evaluation prompt, row counts are kept and the rendered-columns invariant holds |
| `Loaders.Prepare` | src/data/dataloader.py:157-169 | only rotten tomatoes maps labels to sentiments first, and a missing label aborts construction with that `KeyError` before any rendering; otherwise the result is the rendering of the (labelled) rows, with the same row counts |
| `Loaders.RenderedAfterMapping` | src/data/dataloader.py:164-169 | after both `.map` steps, each row's `prompt` or `eval_prompt` column equals the rendering of that row itself |
| `Loaders.DatasetLoader.Load` | src/data/dataloader.py:157-169 | constructing a loader raises exactly when its `.map` steps raise; otherwise it holds the prepared pools |
| `Loaders.DatasetLoader.Prompts` | src/data/dataloader.py:165 | the `prompt` column: one fragment per training row, each the rendering of its row, each containing the separator |
| `Loaders.DatasetLoader.EvalPrompts` | src/data/dataloader.py:241-245 | `eval_prompt()` yields one prompt per test row, in order, each the rendering of its row |
| `Loaders.DatasetLoader.Examples` | src/data/dataloader.py:211-213 | `self.train.select(idxs)["prompt"]`: `k` fragments in draw order, the j-th being the fragment of the j-th index drawn; `ValueError` exactly when numpy refuses the draw |
| `Loaders.DatasetLoader.InContextPrompt` | src/data/dataloader.py:201-216 | `incontext_prompt` is empty for zero examples and succeeds exactly when `0 <= k <= len(train)` |
| `Loaders.DatasetLoader.InContextTurns` | src/data/dataloader.py:218-239 | `incontext_prompt_iterative` succeeds exactly when `0 <= k <= len(train)` and returns two turns per example |
| `Loaders.DatasetLoader.IncontextPromptIterative` | src/data/dataloader.py:218-239 | the method with the loop returns exactly the turn list of `InContextTurns` |
| `Loaders.DatasetLoader.TestReference` | src/data/dataloader.py:171-173 | `load_test_reference` succeeds exactly when every test row has the reference column, and is then that column, in order; otherwise it raises `KeyError` |
| `Loaders.BuildTurns` | src/data/dataloader.py:232-238 | the loop over the examples appends exactly one user turn and one assistant turn per example, in order |
| `Loaders.TurnPairsShape` | src/data/dataloader.py:232-238 | the turn list has two turns per example: turn 2j is a user turn with the command and the j-th example's first piece, and turn 2j+1 is an assistant turn with its second piece |
| `Loaders.TurnsAlternate` | src/data/dataloader.py:218-239 | the in-context turns alternate user and assistant |
| `Loaders.TurnsRenderSampledRows` | src/data/dataloader.py:226-238 | for rows free of the separator, the j-th user turn is the command, the tag and the j-th drawn row's input, and the j-th assistant turn is that row's target |
| `Loaders.UnambiguousRowsSplitInTwo` | src/data/dataloader.py:183-189 | when no row's input or target contains the separator, every fragment splits into exactly two pieces |
| `Loaders.ReassembledTurnPairs` | src/data/dataloader.py:232-238 | rebuilding each example from its user and assistant turns (strip the command, add the separator back) gives the examples back, when each contains the separator once |
| `Loaders.FlatPromptFromTurns` | src/data/dataloader.py:201-239 | for the same seed, the flat block is the header, the examples rebuilt from the turn list joined by newlines, and a final newline |
| `Prompts.Prompt` | src/data/dataloader.py:69-72 | one flat prompt is the in-context block drawn with the record's seed followed by the query: for `k > 0` the header, the drawn fragments joined by newlines, a newline and the query; for `k = 0` the query itself; it raises `ValueError` exactly when numpy refuses the draw |
| `Prompts.FlatPrompts` | src/data/dataloader.py:69-72 | the comprehension gives one prompt per query, the i-th drawn with seed i; it raises only when there is at least one query and the draw is refused |
| `Prompts.Conversation` | src/data/dataloader.py:106-107 | one conversation is the 2k in-context turns for the record's seed followed by a user turn with the query; it raises `ValueError` exactly when numpy refuses the draw |
| `Prompts.TurnPrompts` | src/data/dataloader.py:106-107 | the comprehension gives one conversation per query, the i-th drawn with seed i |
| `Prompts.PromptLoader.New` | src/data/dataloader.py:27-49 | the evaluation loader is built only for the three evaluable names; equal names share one loader, and raise `AttributeError` when it was never built; otherwise a separate in-context loader is built for the five names and left unset for others; construction raises exactly when a loader it builds raises, and then with that loader's own exception, the evaluation loader's first |
| `Prompts.PromptLoader.LoadPrompt` | src/data/dataloader.py:51-75 | one prompt per test record, the i-th being the in-context block drawn with seed i plus the i-th evaluation prompt; `AttributeError` for an unset evaluation loader, and for an unset in-context loader only when there is a test record; `ValueError` otherwise |
| `Prompts.PromptLoader.LoadPromptIterative` | src/data/dataloader.py:77-109 | the same for conversations: the in-context turns drawn with seed i, then the i-th evaluation prompt as a user turn, with the same error cases |
| `Prompts.PromptLoader.LoadTestdata` | src/data/dataloader.py:111-116 | the evaluation loader's reference column; `AttributeError` when it is unset, `KeyError` when a test row lacks the reference column |
| `Prompts.ZeroShotFlat` | src/data/dataloader.py:69-72 | with zero examples the comprehension returns the evaluation prompts unchanged, in order |
| `Prompts.ZeroShotPrompts` | src/data/dataloader.py:207-209 | with zero examples every prompt is exactly the evaluation prompt |
| `Prompts.ConversationShape` | src/data/dataloader.py:106-107 | every conversation has 2k+1 turns: k alternating user and assistant pairs, then the evaluation prompt as a user turn |
| `Prompts.PromptMatchesConversation` | src/data/dataloader.py:51-109 | the flat prompt and the conversation for the same record hold the same examples: reassembling the conversation's pairs gives the flat prompt |
| `Prompts.TinyRottenTomatoesPrepared` | src/data/dataloader.py:157-169 | preparing one positive training review "A" and one negative test review "B" labels both and renders the fragment "review: A\nsentiment: positive" |
| `Prompts.SingleRowPrompt` | src/data/dataloader.py:51-75 | on a shared loader with one training fragment and one evaluation prompt, `load_prompt(1)` is the header, that fragment, a newline and that evaluation prompt |
| `Prompts.TinyPromptLoader` | src/data/dataloader.py:51-75 | on that data, `load_prompt(1)` is the header, the fragment, a newline, the instruction and "B" |
| `Prompts.TinyReferences` | src/data/dataloader.py:111-116 | on that data, `load_testdata()` is `["negative"]` |
| `Prompts.TinyLoaderResults` | src/data/dataloader.py:51-116 | a shared loader built from a hub serving that data gives the one prompt above and the reference "negative" |
| `Prompts.NewTinyLoader` | src/data/dataloader.py:27-49 | `PromptLoader("rotten_tomatoes", "rotten_tomatoes")` on a hub serving that data succeeds with one shared loader holding the prepared rows |
| `Prompts.RottenTomatoesExample` | src/data/dataloader.py:27-116 | end to end, `PromptLoader("rotten_tomatoes", "rotten_tomatoes")` on any hub serving that data gives the one prompt above and the reference "negative" |
| `Transforms.Renamed` | src/data/dataloader.py:662-666 | `change_key` moves the value of the old key to the new key; `KeyError` exactly when the old key is missing; other keys keep their values |
| `Transforms.ChangeKey` | src/data/dataloader.py:662-666 | the method returns a new row holding the renamed fields and leaves the argument as it was |
| `Transforms.RenameBack` | src/data/dataloader.py:662-666 | renaming back undoes a rename to a free key |
| `Transforms.Remapped` | src/data/dataloader.py:669-671 | `content_map` replaces the field's value by its image under the mapping; `KeyError` for a missing field, then `TypeError` for an unhashable value, then `KeyError` for a value the mapping lacks |
| `Transforms.ContentMap` | src/data/dataloader.py:669-671 | the method updates the argument in place and returns that same row; on failure the row is unchanged |
| `Transforms.RemapBack` | src/data/dataloader.py:669-671 | remapping through the inverse of a one-to-one mapping restores the row |
| `Transforms.Merged` | src/data/dataloader.py:674-678 | `_multi_key_to_text` removes both keys and stores their strings joined by a space under "text"; `KeyError` for a missing first key, `TypeError` for a non-string first value, `KeyError` for a missing second key, `TypeError` for a non-string second value, in that order |
| `Transforms.MultiKeyToText` | src/data/dataloader.py:674-678 | the method returns a new row holding the merged fields and leaves the argument as it was |
| `Transforms.MergedSplitsAtFirstSpace` | src/data/dataloader.py:674-678 | when the first field holds one word, splitting the merged text at spaces gives that word followed by the second field's words |
| `Transforms.Inverted` | src/data/dataloader.py:681-684 | `_invert_labels` maps an integer label `l` to `1 - l` on a copy; `KeyError` without a label, `TypeError` for a non-integer one |
| `Transforms.InvertTwice` | src/data/dataloader.py:681-684 | inverting twice gives the row back |
| `Transforms.InvertSwapsBinaryLabels` | src/data/dataloader.py:681-684 | labels 0 and 1 are swapped |
| `Transforms.MappedLabels` | src/data/dataloader.py:687-690 | `_map_labels` is `content_map` on the "label" field, applied to a copy |
| `Transforms.DefaultLabelMapping` | src/data/dataloader.py:687-690 | with the default mapping, exactly the labels -1 and 1 are accepted, becoming 0 and 1 |

## Left out

- Downloading datasets (`load_dataset`, the lazy `dataset` property, lines 127-133) is I/O. It is a parameter `hub` from dataset name to splits. The `"3.0.0"` configuration passed for `cnn_dailymail` is not modelled.
- numpy's generator is foreign code. It is the `sample` parameter, which must meet numpy's guarantees (`k` distinct indices below `n` when `k <= n`). Which indices a given seed draws is not modelled.
- `load_data`, `_load_rotten_tomatoes` and the `_load_gigaword` that `load_data` refers to (lines 13-18 and 436-455) are not used by the prompt pipeline and are not part of this model. `_load_gigaword` is not defined in the module.
- `_create_splits` and `_rand_sample` shuffle with Python's `random`. They are not used by the prompt pipeline and are not part of this model.
- The five loader classes share one class, `DatasetLoader`, tagged with its dataset. Their per-dataset differences are functions of the tag.
- Generators (`eval_prompt`) are sequences. Their laziness is not modelled.
- `DailymailDataLoader` defines `eval_prompt` twice (lines 423-433). The second definition replaces the first and has the same body, so it is modelled once.
- `" ".join(d)` of a dict joins its keys in insertion order. Dafny maps have no order, so the model raises `TypeError` there.
- `change_key`'s default arguments (`old_key="content"`, `new_key="text"`, line 662) are not modelled. `Transforms.Renamed` and `Transforms.ChangeKey` always take both keys.
- Python `None` is not a field value in the model. So a `None` field, which would make the renderers' `+` raise `TypeError`, cannot be expressed.
- Python `bool` and `float` values are not modelled. So the equalities `True == 1` and `1.0 == 1`, and their effect on `_label_to_sentiment` and dictionary lookups, are not captured.
- The validation split is only read by the rotten-tomatoes label mapping, whose failure aborts construction. The source keeps the mapped splits in `self._dataset`; the model does not keep the validation split.
- The `seed=SEED` default of `incontext_prompt` and `incontext_prompt_iterative` (lines 201 and 218) is not modelled: the seed is always a parameter, as `PromptLoader` always passes `seed=idx`.
- Rows are maps without a table schema, so an empty split has no columns to check: `Records.Column`, `Loaders.DatasetLoader.TestReference` and `Loaders.DatasetLoader.EvalPrompts` succeed on an empty test split whatever columns the dataset declares.
- `tqdm`, `keep_in_memory` and the caching of `Dataset.map` have no effect on the results and are left out.
- `TweetQADataLoader.load_test_reference` reads a `summary` column. The model looks it up like any other column and raises `KeyError` where a row lacks it. The dataset's actual schema is not part of this model.
- `Loaders.DatasetLoader.InContextPrompt`: states when it succeeds and the zero-example case. Its text is related to the sampled rows by `Loaders.DatasetLoader.Examples` and `Loaders.FlatPromptFromTurns` rather than by its own contract.
