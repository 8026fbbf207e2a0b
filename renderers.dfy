/** The per-dataset renderers: the static `_label_to_sentiment`, `_prompt` and
    `_eval_prompt` of the five loader classes, and the constants each class uses.
    The five near-identical classes become one tag, `Kind`, and functions that
    dispatch on it. */
module Renderers {
  import opened Results
  import opened Strings
  import opened Records

  datatype Kind = RottenTomatoes | Gigaword | Dailymail | Wikicat | TweetQA

  /** The column `Dataset.map(_prompt)` adds to each training row. */
  const PromptKey := "prompt"
  /** The column `Dataset.map(_eval_prompt)` adds to each test row. */
  const EvalPromptKey := "eval_prompt"
  /** The column `_label_to_sentiment` adds to every rotten-tomatoes row. */
  const SentimentKey := "sentiment"

  /** The name the loader passes to the dataset hub. */
  function DatasetName(kind: Kind): string {
    match kind
    case RottenTomatoes => "rotten_tomatoes"
    case Gigaword => "gigaword"
    case Dailymail => "cnn_dailymail"
    case Wikicat => "GEM/wiki_cat_sum"
    case TweetQA => "tweet_qa"
  }

  /** `PROMPT_PREFIX`: the header of a flat in-context block. */
  function Prefix(kind: Kind): string {
    match kind
    case RottenTomatoes => "Please read the following pairs of movie reviews and sentiment:\n"
    case Gigaword | Dailymail | Wikicat => "Please read the following pairs of texts and summaries:\n"
    case TweetQA => "Please read the following triplet of contexts, questions and answers and summaries:\n"
  }

  /** The fixed text a fragment puts before its input. */
  function Tag(kind: Kind): string {
    match kind
    case RottenTomatoes => "review: "
    case Gigaword | Dailymail | Wikicat => "article: "
    case TweetQA => ""
  }

  /** The text a fragment puts between its input and its target, and at which the
      turn builder splits the fragment again. */
  function Separator(kind: Kind): string {
    match kind
    case RottenTomatoes => "\nsentiment: "
    case Gigaword | Dailymail | Wikicat => "\nsummary: "
    case TweetQA => "\nanswer: "
  }

  /** The instruction the turn builder puts before each example's input. For
      rotten tomatoes it is only the first sentence of the evaluation instruction:
      the two string literals that follow the assignment in the source are separate
      expression statements and are discarded. */
  function Command(kind: Kind): string {
    match kind
    case RottenTomatoes => "Please perform a Sentiment Classification task. "
    case Gigaword | Dailymail | Wikicat => "Please summarize the following article.\n"
    case TweetQA => "Read the given tweet and answer the corresponding question.\n"
  }

  /** The instruction every evaluation prompt starts with. */
  function Instruction(kind: Kind): string {
    match kind
    case RottenTomatoes =>
      "Please perform a Sentiment Classification task. "
      + "Given the following movie review, assign a sentiment label from ['negative', 'positive']. "
      + "Return only the sentiment label without any other text.\n"
    case Gigaword | Dailymail | Wikicat => "Please summarize the following article.\n"
    case TweetQA => "Read the given tweet and answer the corresponding question.\n"
  }

  /** The field the renderers read the target from. */
  function TargetKey(kind: Kind): string {
    match kind
    case RottenTomatoes => SentimentKey
    case Gigaword | Wikicat => "summary"
    case Dailymail => "highlights"
    case TweetQA => "Answer"
  }

  /** The column `load_test_reference` returns. */
  function ReferenceKey(kind: Kind): string {
    match kind
    case RottenTomatoes => SentimentKey
    case Gigaword | Wikicat | TweetQA => "summary"
    case Dailymail => "highlights"
  }

  /** `_label_to_sentiment`: label 1 is "positive", any other label "negative". */
  function LabelToSentiment(rec: Record): (r: Result<string>)
    ensures r.Ok? <==> "label" in rec
    ensures r.Ok? ==> (r.value == "positive" <==> rec["label"] == Int(1))
    ensures r.Ok? ==> r.value == "positive" || r.value == "negative"
  {
    var lbl :- Field(rec, "label");
    Ok(if lbl == Int(1) then "positive" else "negative")
  }

  /** The input part of a record as both renderers use it, evaluated left to right
      as the source's concatenations are. */
  function InputText(kind: Kind, rec: Record): Result<string> {
    match kind
    case RottenTomatoes => StrField(rec, "text")
    case Gigaword => StrField(rec, "document")
    case Dailymail => StrField(rec, "article")
    case Wikicat =>
      var paragraphs :- Field(rec, "paragraphs");
      JoinWithSpace(paragraphs)
    case TweetQA =>
      var tweet :- StrField(rec, "Tweet");
      var question :- StrField(rec, "Question");
      Ok("tweet: " + tweet + "\nquestion: " + question)
  }

  /** The target part of a record, as `_prompt` renders it. */
  function TargetText(kind: Kind, rec: Record): Result<string> {
    match kind
    case RottenTomatoes => StrField(rec, SentimentKey)
    case Gigaword => StrField(rec, "summary")
    case Dailymail => StrField(rec, "highlights")
    case Wikicat =>
      var summary :- Field(rec, "summary");
      var text :- Subscript(summary, "text");
      JoinWithSpace(text)
    case TweetQA =>
      var answer :- Field(rec, "Answer");
      FirstItem(answer)
  }

  /** `_prompt`: one in-context fragment, tag + input + separator + target. Every
      fragment contains its separator, so splitting it there always yields at
      least two pieces. */
  function RenderFragment(kind: Kind, rec: Record): (r: Result<string>)
    ensures r.Ok? <==> InputText(kind, rec).Ok? && TargetText(kind, rec).Ok?
    ensures r.Ok? ==> Occurs(Separator(kind), r.value)
  {
    var input :- InputText(kind, rec);
    var target :- TargetText(kind, rec);
    var fragment := Tag(kind) + input + Separator(kind) + target;
    assert fragment[|Tag(kind) + input|..|Tag(kind) + input| + |Separator(kind)|] == Separator(kind);
    assert OccursAt(fragment, Separator(kind), |Tag(kind) + input|);
    Ok(fragment)
  }

  /** `_eval_prompt`: the instruction followed by the record's input. */
  function RenderQuery(kind: Kind, rec: Record): (r: Result<string>)
    ensures r.Ok? <==> InputText(kind, rec).Ok?
    ensures r.Ok? ==> |Instruction(kind)| <= |r.value| && r.value[..|Instruction(kind)|] == Instruction(kind)
  {
    var input :- InputText(kind, rec);
    Ok(Instruction(kind) + input)
  }

  /** Each separator starts with the only newline it contains, and no tag contains a
      newline. */
  lemma {:induction false} SeparatorIsBorderless(kind: Kind)
    ensures Borderless(Separator(kind))
    ensures Separator(kind)[0] !in Tag(kind)
  {
    var sep := Separator(kind);
    forall i | 0 < i < |sep|
      ensures sep[i] != sep[0]
    {
      match kind
      case RottenTomatoes => assert sep[1..] == "sentiment: ";
      case Gigaword | Dailymail | Wikicat => assert sep[1..] == "summary: ";
      case TweetQA => assert sep[1..] == "answer: ";
      assert sep[i] == sep[1..][i - 1];
    }
  }

  /** Split/render round trip: when neither the input nor the target contains the
      separator, splitting a fragment at its separator gives back the tagged input
      and the target. */
  lemma {:induction false} FragmentRoundTrip(kind: Kind, rec: Record)
    requires InputText(kind, rec).Ok? && TargetText(kind, rec).Ok?
    requires !Occurs(Separator(kind), InputText(kind, rec).value)
    requires !Occurs(Separator(kind), TargetText(kind, rec).value)
    ensures RenderFragment(kind, rec).Ok?
    ensures Split(RenderFragment(kind, rec).value, Separator(kind))
         == [Tag(kind) + InputText(kind, rec).value, TargetText(kind, rec).value]
  {
    var sep := Separator(kind);
    var input, target := InputText(kind, rec).value, TargetText(kind, rec).value;
    SeparatorIsBorderless(kind);
    LabelKeepsSeparatorOut(Tag(kind), input, sep);
    SplitAroundSeparator(Tag(kind) + input, sep, target);
  }

  /** An evaluation prompt never depends on the target field: overwriting it leaves
      the prompt (or the exception) unchanged. */
  lemma {:induction false} QueryIgnoresTarget(kind: Kind, rec: Record, v: Value)
    ensures RenderQuery(kind, rec[TargetKey(kind) := v]) == RenderQuery(kind, rec)
  {
    InputIgnoresKey(kind, rec, TargetKey(kind), v);
  }

  /** The columns the pipeline adds (`prompt`, `eval_prompt`) are never read by
      the renderers, so rendering a row after a column was added gives the same
      result as before. */
  lemma {:induction false} RenderingIgnoresAddedColumns(kind: Kind, rec: Record, v: Value)
    ensures RenderFragment(kind, rec[PromptKey := v]) == RenderFragment(kind, rec)
    ensures RenderQuery(kind, rec[EvalPromptKey := v]) == RenderQuery(kind, rec)
  {
    InputIgnoresKey(kind, rec, PromptKey, v);
    TargetIgnoresKey(kind, rec, PromptKey, v);
    var withPrompt := rec[PromptKey := v];
    if InputText(kind, rec).Ok? && TargetText(kind, rec).Ok? {
      assert RenderFragment(kind, withPrompt).value == RenderFragment(kind, rec).value;
    }
    InputIgnoresKey(kind, rec, EvalPromptKey, v);
  }

  /** The fields the input part is read from. */
  function InputKeys(kind: Kind): set<string> {
    match kind
    case RottenTomatoes => {"text"}
    case Gigaword => {"document"}
    case Dailymail => {"article"}
    case Wikicat => {"paragraphs"}
    case TweetQA => {"Tweet", "Question"}
  }

  /** Overwriting a field the input part is not read from leaves it unchanged. */
  lemma {:induction false} InputIgnoresKey(kind: Kind, rec: Record, key: string, v: Value)
    requires key !in InputKeys(kind)
    ensures InputText(kind, rec[key := v]) == InputText(kind, rec)
  {
    var rec' := rec[key := v];
    forall k | k in InputKeys(kind)
      ensures Field(rec', k) == Field(rec, k)
    {
      assert k != key;
    }
    match kind
    case RottenTomatoes => assert Field(rec', "text") == Field(rec, "text");
    case Gigaword => assert Field(rec', "document") == Field(rec, "document");
    case Dailymail => assert Field(rec', "article") == Field(rec, "article");
    case Wikicat => assert Field(rec', "paragraphs") == Field(rec, "paragraphs");
    case TweetQA =>
      assert Field(rec', "Tweet") == Field(rec, "Tweet");
      assert Field(rec', "Question") == Field(rec, "Question");
  }

  /** Overwriting a field other than the target leaves the target part unchanged. */
  lemma {:induction false} TargetIgnoresKey(kind: Kind, rec: Record, key: string, v: Value)
    requires key != TargetKey(kind)
    ensures TargetText(kind, rec[key := v]) == TargetText(kind, rec)
  {
    var rec' := rec[key := v];
    assert Field(rec', TargetKey(kind)) == Field(rec, TargetKey(kind));
  }
}
