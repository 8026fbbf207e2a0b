/** Dataset rows as Python dicts: field name to value. Field access, the string
    operations the renderers apply to field values, and the two Hugging Face
    `Dataset` operations the loaders use (`map` adding a column, and column access). */
module Records {
  import opened Results
  import opened Strings

  /** The values a row's field can hold. */
  datatype Value =
    | Str(s: string)
    | Int(i: int)
    | List(items: seq<Value>)
    | Dict(entries: map<string, Value>)

  /** One dataset row. */
  type Record = map<string, Value>

  /** `example[key]`. */
  function Field(rec: Record, key: string): Result<Value> {
    if key in rec then Ok(rec[key]) else Err(KeyError)
  }

  /** `example[key]` used as an operand of string `+`: the field must be a `str`. */
  function StrField(rec: Record, key: string): (r: Result<string>)
    ensures r.Ok? <==> key in rec && rec[key].Str?
    ensures r.Ok? ==> rec[key] == Str(r.value)
    ensures r.Err? ==> r.error == (if key in rec then TypeError else KeyError)
  {
    var v :- Field(rec, key);
    if v.Str? then Ok(v.s) else Err(TypeError)
  }

  /** The strings of a list, or TypeError if one item is not a `str`. */
  function StrItems(items: seq<Value>): (r: Result<seq<string>>)
    ensures r.Ok? <==> forall j :: 0 <= j < |items| ==> items[j].Str?
    ensures r.Ok? ==> |r.value| == |items| && forall j :: 0 <= j < |items| ==> items[j] == Str(r.value[j])
    ensures r.Err? ==> r.error == TypeError
  {
    if |items| == 0 then Ok([])
    else if !items[0].Str? then Err(TypeError)
    else
      var rest :- StrItems(items[1..]);
      Ok([items[0].s] + rest)
  }

  /** The one-character strings a string iterates over. */
  function Chars(s: string): seq<string> {
    seq(|s|, j requires 0 <= j < |s| => [s[j]])
  }

  /** `" ".join(v)`: a list of strings is joined; a string is iterated character by
      character; anything else raises. */
  function JoinWithSpace(v: Value): (r: Result<string>)
    ensures v.List? ==> (r.Ok? <==> forall j :: 0 <= j < |v.items| ==> v.items[j].Str?)
    ensures v.List? && r.Ok? ==> r.value == Join(seq(|v.items|, j requires 0 <= j < |v.items| => v.items[j].s), " ")
    ensures v.List? && r.Err? ==> r.error == TypeError
    ensures v.Str? ==> r.Ok?
    ensures v.Int? || v.Dict? ==> r == Err(TypeError)
  {
    match v
    case List(items) =>
      var strs :- StrItems(items);
      assert strs == seq(|items|, j requires 0 <= j < |items| => items[j].s);
      Ok(Join(strs, " "))
    case Str(s) => Ok(Join(Chars(s), " "))
    case _ => Err(TypeError)
  }

  /** `" ".join(s)` of a string puts a space between each pair of neighbouring
      characters: `" ".join("ab")` is `"a b"`. */
  lemma {:induction false} SpaceJoinOfString(s: string)
    ensures JoinWithSpace(Str(s)).Ok?
    ensures |JoinWithSpace(Str(s)).value| == if |s| == 0 then 0 else 2 * |s| - 1
    ensures forall j :: 0 <= j < |s| ==> JoinWithSpace(Str(s)).value[2 * j] == s[j]
    ensures forall j :: 0 <= j < |s| - 1 ==> JoinWithSpace(Str(s)).value[2 * j + 1] == ' '
  {
    JoinChars(s);
  }

  /** The induction behind `SpaceJoinOfString`. */
  lemma {:induction false} JoinChars(s: string)
    ensures |Join(Chars(s), " ")| == if |s| == 0 then 0 else 2 * |s| - 1
    ensures forall j :: 0 <= j < |s| ==> Join(Chars(s), " ")[2 * j] == s[j]
    ensures forall j :: 0 <= j < |s| - 1 ==> Join(Chars(s), " ")[2 * j + 1] == ' '
    decreases |s|
  {
    if |s| > 1 {
      var rest := Join(Chars(s[1..]), " ");
      JoinChars(s[1..]);
      assert Chars(s)[1..] == Chars(s[1..]);
      assert Join(Chars(s), " ") == [s[0]] + " " + rest;
      forall j | 1 <= j < |s|
        ensures Join(Chars(s), " ")[2 * j] == s[j]
      {
        assert rest[2 * (j - 1)] == s[1..][j - 1];
      }
      forall j | 1 <= j < |s| - 1
        ensures Join(Chars(s), " ")[2 * j + 1] == ' '
      {
        assert rest[2 * (j - 1) + 1] == ' ';
      }
    }
  }

  /** `v[0]` used as an operand of string `+`. */
  function FirstItem(v: Value): (r: Result<string>)
    ensures r.Ok? ==>
      || (v.List? && |v.items| > 0 && v.items[0] == Str(r.value))
      || (v.Str? && |v.s| > 0 && r.value == [v.s[0]])
    ensures r.Ok? <==> (v.List? && |v.items| > 0 && v.items[0].Str?) || (v.Str? && |v.s| > 0)
    ensures (v.List? && |v.items| == 0) || (v.Str? && |v.s| == 0) ==> r == Err(IndexError)
    ensures v.Int? || (v.List? && |v.items| > 0 && !v.items[0].Str?) ==> r == Err(TypeError)
    ensures v.Dict? ==> r == Err(KeyError)
  {
    match v
    case List(items) =>
      if |items| == 0 then Err(IndexError)
      else if items[0].Str? then Ok(items[0].s)
      else Err(TypeError)
    case Str(s) => if |s| == 0 then Err(IndexError) else Ok([s[0]])
    case Int(_) => Err(TypeError)       // an int is not subscriptable
    case Dict(_) => Err(KeyError)       // a dict of str keys has no key 0
  }

  /** `v[key]` for a string key: only a dict can be subscripted by a string. */
  function Subscript(v: Value, key: string): Result<Value> {
    match v
    case Dict(entries) => if key in entries then Ok(entries[key]) else Err(KeyError)
    case _ => Err(TypeError)
  }

  /** `Dataset.map(f)` where `f` returns `{key: ...}`: every row gains (or has
      overwritten) the column `key`; the first row on which `f` raises aborts. */
  function AddColumn(rows: seq<Record>, key: string, f: Record -> Result<string>): (r: Result<seq<Record>>)
    ensures r.Ok? <==> forall i :: 0 <= i < |rows| ==> f(rows[i]).Ok?
    ensures r.Ok? ==> |r.value| == |rows|
    ensures r.Ok? ==> forall i :: 0 <= i < |rows| ==> r.value[i] == rows[i][key := Str(f(rows[i]).value)]
    ensures r.Err? ==> exists i :: 0 <= i < |rows| && f(rows[i]) == Err(r.error)
                         && forall j :: 0 <= j < i ==> f(rows[j]).Ok?
    decreases |rows|
  {
    if |rows| == 0 then Ok([])
    else
      var done :- AddColumn(rows[..|rows| - 1], key, f);
      var last := rows[|rows| - 1];
      var out :- f(last);
      Ok(done + [last[key := Str(out)]])
  }

  /** `dataset[key]`: the column `key`, in row order. */
  function Column(rows: seq<Record>, key: string): (r: Result<seq<Value>>)
    ensures r.Ok? <==> forall i :: 0 <= i < |rows| ==> key in rows[i]
    ensures r.Ok? ==> |r.value| == |rows| && forall i :: 0 <= i < |rows| ==> r.value[i] == rows[i][key]
  {
    if forall i :: 0 <= i < |rows| ==> key in rows[i] then
      Ok(seq(|rows|, i requires 0 <= i < |rows| => rows[i][key]))
    else
      Err(KeyError)
  }
}
