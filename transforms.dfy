/** The row helpers at the end of the data-loading module: renaming a field,
    remapping a field's value through a dictionary, merging two text fields, and
    the two label rewrites. Rows the helpers copy or update are `Row` objects; what
    each helper does to the fields is stated by a function on `Record`. */
module Transforms {
  import opened Results
  import opened Strings
  import opened Records

  /** A Python `dict` holding one row; its fields change in place. */
  class Row {
    var fields: Record

    constructor (fields: Record)
      ensures this.fields == fields
    {
      this.fields := fields;
    }
  }

  /** The fields after `change_key`: the value of `oldKey` moves to `newKey`. */
  function Renamed(ex: Record, oldKey: string, newKey: string): (r: Result<Record>)
    ensures r.Ok? <==> oldKey in ex
    ensures r.Err? ==> r.error == KeyError
    ensures r.Ok? ==> newKey in r.value && r.value[newKey] == ex[oldKey]
    ensures r.Ok? && oldKey != newKey ==> oldKey !in r.value
    ensures r.Ok? ==> forall k :: k != oldKey && k != newKey ==>
      (k in r.value <==> k in ex) && (k in ex ==> r.value[k] == ex[k])
  {
    if oldKey in ex then Ok((ex - {oldKey})[newKey := ex[oldKey]]) else Err(KeyError)
  }

  /** `change_key`: copies the row, pops `oldKey` from the copy and stores the
      value under `newKey`; the argument is left as it was. */
  method ChangeKey(ex: Row, oldKey: string, newKey: string) returns (r: Result<Row>)
    ensures r.Err? ==> Renamed(ex.fields, oldKey, newKey) == Err(r.error)
    ensures r.Ok? ==> r.value != ex && Renamed(ex.fields, oldKey, newKey) == Ok(r.value.fields)
  {
    var fields := ex.fields;
    if oldKey !in fields {
      return Err(KeyError);
    }
    var v := fields[oldKey];
    fields := fields - {oldKey};
    fields := fields[newKey := v];
    var copy := new Row(fields);
    return Ok(copy);
  }

  /** Renaming back undoes a rename, provided the new name was free. */
  lemma {:induction false} RenameBack(ex: Record, oldKey: string, newKey: string)
    requires oldKey in ex && newKey !in ex
    ensures Renamed(ex, oldKey, newKey).Ok?
    ensures Renamed(Renamed(ex, oldKey, newKey).value, newKey, oldKey) == Ok(ex)
  {
    var moved := Renamed(ex, oldKey, newKey).value;
    var back := Renamed(moved, newKey, oldKey).value;
    assert back.Keys == ex.Keys;
    forall k | k in ex
      ensures back[k] == ex[k]
    {
      if k != oldKey && k != newKey {
        assert moved[k] == ex[k];
      }
    }
    assert back == ex;
  }

  /** Python can look a value up in a `dict` only when it is hashable: strings and
      integers are, lists and dictionaries are not. */
  predicate Hashable(v: Value) {
    v.Str? || v.Int?
  }

  /** The fields after `content_map`: `targetKey` holds `mapping[ex[targetKey]]`. */
  function Remapped(ex: Record, targetKey: string, mapping: map<Value, Value>): (r: Result<Record>)
    ensures r.Ok? <==> targetKey in ex && Hashable(ex[targetKey]) && ex[targetKey] in mapping
    ensures targetKey in ex && !Hashable(ex[targetKey]) ==> r == Err(TypeError)
    ensures r.Err? && r.error != TypeError ==> r.error == KeyError
    ensures targetKey !in ex ==> r == Err(KeyError)
    ensures targetKey in ex && Hashable(ex[targetKey]) && ex[targetKey] !in mapping ==> r == Err(KeyError)
    ensures r.Ok? ==> r.value.Keys == ex.Keys && r.value[targetKey] == mapping[ex[targetKey]]
    ensures r.Ok? ==> forall k :: k in ex && k != targetKey ==> r.value[k] == ex[k]
  {
    if targetKey !in ex then Err(KeyError)
    else if !Hashable(ex[targetKey]) then Err(TypeError)
    else if ex[targetKey] !in mapping then Err(KeyError)
    else Ok(ex[targetKey := mapping[ex[targetKey]]])
  }

  /** `content_map`: overwrites the field in the argument itself and returns that
      same row; on failure the row is untouched. */
  method ContentMap(ex: Row, targetKey: string, mapping: map<Value, Value>) returns (r: Result<Row>)
    modifies ex
    ensures r.Err? ==> Remapped(old(ex.fields), targetKey, mapping) == Err(r.error) && ex.fields == old(ex.fields)
    ensures r.Ok? ==> r.value == ex && Remapped(old(ex.fields), targetKey, mapping) == Ok(ex.fields)
  {
    if targetKey !in ex.fields {
      return Err(KeyError);
    }
    var v := ex.fields[targetKey];
    if !Hashable(v) {
      return Err(TypeError);
    }
    if v !in mapping {
      return Err(KeyError);
    }
    ex.fields := ex.fields[targetKey := mapping[v]];
    return Ok(ex);
  }

  /** Remapping through the inverse of a one-to-one mapping restores the row. */
  lemma {:induction false} RemapBack(ex: Record, targetKey: string, mapping: map<Value, Value>, inverse: map<Value, Value>)
    requires Remapped(ex, targetKey, mapping).Ok?
    requires forall v :: v in mapping ==> Hashable(mapping[v]) && mapping[v] in inverse && inverse[mapping[v]] == v
    ensures Remapped(Remapped(ex, targetKey, mapping).value, targetKey, inverse) == Ok(ex)
  {
    var mapped := Remapped(ex, targetKey, mapping).value;
    var back := Remapped(mapped, targetKey, inverse).value;
    assert back[targetKey] == ex[targetKey];
    assert back == ex;
  }

  /** The fields after `_multi_key_to_text`: `key1` and `key2` popped in that
      order, their strings joined with a space under `text`. */
  function Merged(ex: Record, key1: string, key2: string): (r: Result<Record>)
    ensures r.Ok? <==> key1 in ex && ex[key1].Str? && key2 != key1 && key2 in ex && ex[key2].Str?
    ensures key1 !in ex ==> r == Err(KeyError)
    ensures key1 in ex && !ex[key1].Str? ==> r == Err(TypeError)
    ensures key1 in ex && ex[key1].Str? && (key2 == key1 || key2 !in ex) ==> r == Err(KeyError)
    ensures key1 in ex && ex[key1].Str? && key2 != key1 && key2 in ex && !ex[key2].Str? ==> r == Err(TypeError)
    ensures r.Ok? ==> "text" in r.value && r.value["text"] == Str(ex[key1].s + " " + ex[key2].s)
    ensures r.Ok? ==> forall k :: k != "text" ==> (k in r.value <==> k in ex && k != key1 && k != key2)
    ensures r.Ok? ==> forall k :: k in r.value && k != "text" ==> r.value[k] == ex[k]
  {
    var first :- StrField(ex, key1);
    var rest := ex - {key1};
    var second :- StrField(rest, key2);
    Ok((rest - {key2})["text" := Str(first + " " + second)])
  }

  /** `_multi_key_to_text`: pops both fields from a copy of the row; the argument
      is left as it was. */
  method MultiKeyToText(ex: Row, key1: string, key2: string) returns (r: Result<Row>)
    ensures r.Err? ==> Merged(ex.fields, key1, key2) == Err(r.error)
    ensures r.Ok? ==> r.value != ex && Merged(ex.fields, key1, key2) == Ok(r.value.fields)
  {
    var fields := ex.fields;
    if key1 !in fields {
      return Err(KeyError);
    }
    var first := fields[key1];
    fields := fields - {key1};
    if !first.Str? {
      return Err(TypeError);
    }
    if key2 !in fields {
      return Err(KeyError);
    }
    var second := fields[key2];
    fields := fields - {key2};
    if !second.Str? {
      return Err(TypeError);
    }
    fields := fields["text" := Str(first.s + " " + second.s)];
    var copy := new Row(fields);
    return Ok(copy);
  }

  /** When the first field holds a single word, splitting the merged text at spaces
      gives that word back, followed by the words of the second field. */
  lemma {:induction false} MergedSplitsAtFirstSpace(ex: Record, key1: string, key2: string)
    requires Merged(ex, key1, key2).Ok?
    requires !Occurs(" ", ex[key1].s)
    ensures Split(Merged(ex, key1, key2).value["text"].s, " ") == [ex[key1].s] + Split(ex[key2].s, " ")
  {
    var first, second := ex[key1].s, ex[key2].s;
    var text := Merged(ex, key1, key2).value["text"].s;
    assert text == first + " " + second;
    assert OccursAt(text, " ", |first|) by {
      assert text[|first|..|first| + 1] == " ";
    }
    forall q: nat | q < |first|
      ensures !OccursAt(text, " ", q)
    {
      assert text[q..q + 1] == first[q..q + 1];
      assert !OccursAt(first, " ", q);
    }
    assert FindFrom(text, " ", 0) == Some(|first|);
    SplitStep(text, " ", |first|);
    assert text[..|first|] == first;
    assert text[|first| + 1..] == second;
  }

  /** The fields after `_invert_labels`: the integer label `l` becomes `1 - l`. */
  function Inverted(ex: Record): (r: Result<Record>)
    ensures r.Ok? <==> "label" in ex && ex["label"].Int?
    ensures r.Err? ==> r.error == (if "label" in ex then TypeError else KeyError)
    ensures r.Ok? ==> r.value.Keys == ex.Keys && r.value["label"] == Int(1 - ex["label"].i)
    ensures r.Ok? ==> forall k :: k in ex && k != "label" ==> r.value[k] == ex[k]
  {
    var v :- Field(ex, "label");
    if v.Int? then Ok(ex["label" := Int(1 - v.i)]) else Err(TypeError)
  }

  /** `_invert_labels` is an involution. */
  lemma {:induction false} InvertTwice(ex: Record)
    requires Inverted(ex).Ok?
    ensures Inverted(Inverted(ex).value) == Ok(ex)
  {
    var once := Inverted(ex).value;
    var twice := Inverted(once).value;
    assert twice["label"] == ex["label"];
    assert twice == ex;
  }

  /** Inverting maps 0/1 labels onto 0/1 labels, swapping them. */
  lemma {:induction false} InvertSwapsBinaryLabels(ex: Record)
    requires "label" in ex && ex["label"] in {Int(0), Int(1)}
    ensures Inverted(ex).Ok?
    ensures Inverted(ex).value["label"] in {Int(0), Int(1)}
    ensures Inverted(ex).value["label"] != ex["label"]
  {
    assert ex["label"].Int?;
  }

  /** The default `map_dict` of `_map_labels`: -1 to 0 and 1 to 1. */
  const DefaultLabelMap: map<Value, Value> := map[Int(-1) := Int(0), Int(1) := Int(1)]

  /** `_map_labels`: the copy's label looked up in `mapDict`. It is `content_map`
      on the `label` field, applied to a copy instead of the argument. */
  function MappedLabels(ex: Record, mapDict: map<Value, Value>): (r: Result<Record>)
    ensures r == Remapped(ex, "label", mapDict)
  {
    var v :- Field(ex, "label");
    if !Hashable(v) then Err(TypeError)
    else if v !in mapDict then Err(KeyError)
    else Ok(ex["label" := mapDict[v]])
  }

  /** With the default mapping, exactly the labels -1 and 1 are accepted, and they
      become 0 and 1. */
  lemma {:induction false} DefaultLabelMapping(ex: Record)
    ensures MappedLabels(ex, DefaultLabelMap).Ok? <==> "label" in ex && ex["label"] in {Int(-1), Int(1)}
    ensures MappedLabels(ex, DefaultLabelMap).Ok? ==>
      MappedLabels(ex, DefaultLabelMap).value["label"] == (if ex["label"] == Int(1) then Int(1) else Int(0))
  {
    assert DefaultLabelMap.Keys == {Int(-1), Int(1)};
  }
}
