/**
 * The remote store's two write operations on one document, as pure functions
 * on the document's data: `update` with dotted field paths, and `set` with
 * merging. Transport, authentication and failures are outside this model.
 */
module Store {
  import opened Documents
  import opened Strings

  /** One entry of an `update` call: a dotted field path and the value written there. */
  datatype FieldWrite = FieldWrite(path: string, value: Json)

  /** The fields of a value that is a map; anything else has none. */
  function FieldsOf(j: Json): map<string, Json> {
    if j.Obj? then j.fields else map[]
  }

  /**
   * Writes `value` at the path `segments` below `fields`, creating (or
   * replacing non-map values by) intermediate maps on the way.
   */
  function SetPath(fields: map<string, Json>, segments: seq<string>, value: Json): (r: map<string, Json>)
    requires |segments| >= 1
    ensures r.Keys == fields.Keys + {segments[0]}
    ensures forall k :: k in fields && k != segments[0] ==> r[k] == fields[k]
    decreases |segments|
  {
    var head := segments[0];
    if |segments| == 1 then fields[head := value]
    else
      var below := if head in fields then FieldsOf(fields[head]) else map[];
      fields[head := Obj(SetPath(below, segments[1..], value))]
  }

  /** `doc.update({path: value, ...})`: each entry replaces the value at its field path, in order. */
  function Update(doc: map<string, Json>, writes: seq<FieldWrite>): map<string, Json>
    decreases |writes|
  {
    if writes == [] then doc
    else Update(SetPath(doc, Split(writes[0].path, '.'), writes[0].value), writes[1..])
  }

  /**
   * `doc.set(data, {merge: true})`: every field of `data` is written; where
   * both sides hold a map the two are merged, otherwise `data` wins.
   */
  function MergeSet(doc: map<string, Json>, data: map<string, Json>): (r: map<string, Json>)
    ensures r.Keys == doc.Keys + data.Keys
    ensures forall k :: k in doc && k !in data ==> r[k] == doc[k]
    decreases Obj(data)
  {
    map k | k in doc.Keys + data.Keys ::
      if k !in data then doc[k]
      else if k in doc && doc[k].Obj? && data[k].Obj? then Obj(MergeSet(doc[k].fields, data[k].fields))
      else data[k]
  }

  /**
   * An update at `parent.child`, for a child id free of dots, replaces that
   * one entry of the `parent` map and leaves every other entry and every
   * other top-level field as it was.
   */
  lemma ChildUpdateLeavesSiblings(doc: map<string, Json>, parent: string, child: string, value: Json)
    requires '.' !in parent && '.' !in child
    ensures var r := Update(doc, [FieldWrite(parent + "." + child, value)]);
      && r.Keys == doc.Keys + {parent}
      && (forall k :: k in doc && k != parent ==> r[k] == doc[k])
      && r[parent] == Obj(FieldsOf(if parent in doc then doc[parent] else Obj(map[]))[child := value])
  {
    SplitAfterHead(parent, '.', child);
    SplitWithoutSeparator(child, '.');
    assert parent + "." + child == parent + ['.'] + child;
    var segments := Split(parent + "." + child, '.');
    assert segments == [parent, child];
    var below := if parent in doc then FieldsOf(doc[parent]) else map[];
    assert SetPath(below, segments[1..], value) == below[child := value];
    assert Update(doc, [FieldWrite(parent + "." + child, value)]) == SetPath(doc, segments, value);
  }
}
