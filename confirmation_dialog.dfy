/**
 * The confirmation dialog of the command palette: how a pending tool call's
 * argument tree is flattened into the (label, value) list the human reviews,
 * how the tool name is shown, and which callback each dialog action fires.
 */
module ConfirmationDialog {
  import opened JsValues
  import opened Text

  /** One reviewed line: `{ label, value }`. */
  datatype DisplayParam = DisplayParam(labelText: string, value: string)

  /** The dialog's own `ToolCall` prop: note the arguments are read from "args". */
  datatype DialogToolCall = DialogToolCall(id: string, toolName: string, args: seq<(string, Json)>, apiName: Option<string>)

  /** Values that are left out of the review: null, undefined and the empty string. */
  predicate IsSkipped(v: Json) {
    v == Null || v == Undefined || v == Str("")
  }

  // ---------------------------------------------------------------------------
  // formatValue

  /** `formatValue(value)`: the one-line rendering of a value of any shape. */
  function FormatValue(value: Json): string
    decreases value, 1
  {
    match value
    case Null => ""
    case Undefined => ""
    case Arr(items) => Join(FormatItems(items), ", ")
    case Obj(fields) => Join(FormatEntries(fields), ", ")
    case _ => PrimitiveToString(value)
  }

  /** `items.map(formatValue)`. */
  function FormatItems(items: seq<Json>): (r: seq<string>)
    decreases items, 0
    ensures |r| == |items|
    ensures forall i :: 0 <= i < |items| ==> r[i] == FormatValue(items[i])
  {
    if items == [] then []
    else [FormatValue(items[0])] + FormatItems(items[1..])
  }

  /** `Object.entries(o).filter(not skipped).map(([k, v]) => k + ": " + formatValue(v))`. */
  function FormatEntries(fields: seq<(string, Json)>): seq<string>
    decreases fields, 0
  {
    if fields == [] then []
    else
      var (k, v) := fields[0];
      assert v < fields[0];
      (if IsSkipped(v) then [] else [k + ": " + FormatValue(v)]) + FormatEntries(fields[1..])
  }

  /** The entries that survive the filter, in their original order. */
  function Kept(fields: seq<(string, Json)>): (r: seq<(string, Json)>)
    ensures |r| <= |fields|
    ensures forall i :: 0 <= i < |r| ==> !IsSkipped(r[i].1)
  {
    if fields == [] then []
    else (if IsSkipped(fields[0].1) then [] else [fields[0]]) + Kept(fields[1..])
  }

  /** Exactly the entries whose value is not skipped survive the filter. */
  lemma {:induction false} KeptMembers(fields: seq<(string, Json)>)
    ensures forall e :: e in Kept(fields) <==> e in fields && !IsSkipped(e.1)
  {
    if fields != [] {
      KeptMembers(fields[1..]);
      assert fields == [fields[0]] + fields[1..];
    }
  }

  /** The filter keeps order: filtering a concatenation filters each part in place. */
  lemma {:induction false} KeptAppend(a: seq<(string, Json)>, b: seq<(string, Json)>)
    ensures Kept(a + b) == Kept(a) + Kept(b)
  {
    if a == [] {
      assert a + b == b;
    } else {
      KeptAppend(a[1..], b);
      var head := if IsSkipped(a[0].1) then [] else [a[0]];
      assert Kept(a + b) == head + Kept(a[1..] + b) by {
        assert (a + b)[0] == a[0];
        assert (a + b)[1..] == a[1..] + b;
      }
      assert Kept(a) == head + Kept(a[1..]);
      assert head + (Kept(a[1..]) + Kept(b)) == (head + Kept(a[1..])) + Kept(b);
    }
  }

  /** One rendered "key: value" string per kept entry, in order. */
  lemma {:induction false} FormatEntriesOfKept(fields: seq<(string, Json)>)
    ensures |FormatEntries(fields)| == |Kept(fields)|
    ensures forall i :: 0 <= i < |Kept(fields)| ==>
      FormatEntries(fields)[i] == Kept(fields)[i].0 + ": " + FormatValue(Kept(fields)[i].1)
  {
    if fields != [] {
      FormatEntriesOfKept(fields[1..]);
    }
  }

  /**
   * formatValue by kind: null and undefined give the empty string, an array
   * the join of its elements' renderings, an object the join of "k: v" over
   * its kept entries, and a primitive its `String` form.
   */
  lemma FormatValueByKind(value: Json)
    ensures IsNullish(value) ==> FormatValue(value) == ""
    ensures value.Arr? ==> (
      FormatValue(value) ==
      Join(seq(|value.items|, i requires 0 <= i < |value.items| => FormatValue(value.items[i])), ", "))
    ensures value.Obj? ==> (
      FormatValue(value) ==
      Join(seq(|Kept(value.fields)|, i requires 0 <= i < |Kept(value.fields)| =>
                 Kept(value.fields)[i].0 + ": " + FormatValue(Kept(value.fields)[i].1)), ", "))
    ensures value.Str? ==> FormatValue(value) == value.s
    ensures value.Bool? ==> FormatValue(value) == if value.b then "true" else "false"
    ensures value.Num? ==> FormatValue(value) == NumberToString(value.n)
  {
    if value.Arr? {
      var items := value.items;
      assert FormatItems(items) == seq(|items|, i requires 0 <= i < |items| => FormatValue(items[i]));
    }
    if value.Obj? {
      FormatEntriesOfKept(value.fields);
      assert FormatEntries(value.fields) ==
        seq(|Kept(value.fields)|, i requires 0 <= i < |Kept(value.fields)| =>
              Kept(value.fields)[i].0 + ": " + FormatValue(Kept(value.fields)[i].1));
    }
  }

  /** Filtering first changes nothing: skipped entries leave no trace in an object's rendering. */
  lemma {:induction false} SkippedEntriesInvisible(fields: seq<(string, Json)>)
    ensures FormatValue(Obj(Kept(fields))) == FormatValue(Obj(fields))
  {
    KeptEntriesFormatAlike(fields);
  }

  lemma {:induction false} KeptEntriesFormatAlike(fields: seq<(string, Json)>)
    ensures FormatEntries(Kept(fields)) == FormatEntries(fields)
  {
    if fields != [] {
      KeptEntriesFormatAlike(fields[1..]);
      var rest := Kept(fields[1..]);
      if !IsSkipped(fields[0].1) {
        assert ([fields[0]] + rest)[1..] == rest;
      } else {
        assert Kept(fields) == rest;
      }
    }
  }

  /** An array's rendering is the renderings of its two halves joined by ", ". */
  lemma FormatArrayAppend(xs: seq<Json>, ys: seq<Json>)
    requires xs != [] && ys != []
    ensures FormatValue(Arr(xs + ys)) == FormatValue(Arr(xs)) + ", " + FormatValue(Arr(ys))
  {
    assert FormatItems(xs + ys) == FormatItems(xs) + FormatItems(ys);
    JoinAppend(FormatItems(xs), FormatItems(ys), ", ");
  }

  // ---------------------------------------------------------------------------
  // Labels

  /** The un-capitalised label of an entry: top-level keys get underscores turned into spaces, nested ones are appended to the parent label and trimmed. */
  function Label(prefix: string, key: string): string
  {
    if prefix != "" then Trim(prefix + " " + key) else ReplaceAll(key, '_', ' ')
  }

  /** `label.split(" ").map(capitalise).join(" ")`. */
  function Capitalize(entryLabel: string): string
  {
    TitleCase(entryLabel, ' ')
  }

  /** Capitalize keeps the length and upper-cases exactly the first character of each space-separated word. */
  lemma CapitalizeAt(entryLabel: string)
    ensures |Capitalize(entryLabel)| == |entryLabel|
    ensures forall i :: 0 <= i < |entryLabel| ==>
      Capitalize(entryLabel)[i] == if i == 0 || entryLabel[i - 1] == ' ' then ToUpper(entryLabel[i]) else entryLabel[i]
  {
    TitleCaseAt(entryLabel, ' ');
    forall i | 0 <= i < |entryLabel| && entryLabel[i] == ' ' ensures ToUpper(entryLabel[i]) == ' ' {
    }
  }

  /** `formattedToolName`: underscores become spaces and each underscore-separated word is capitalised. */
  function FormattedToolName(toolName: string): string
  {
    TitleCase(toolName, '_')
  }

  lemma FormattedToolNameAt(toolName: string)
    ensures |FormattedToolName(toolName)| == |toolName|
    ensures forall i :: 0 <= i < |toolName| ==>
      FormattedToolName(toolName)[i] == if toolName[i] == '_' then ' '
                                        else if i == 0 || toolName[i - 1] == '_' then ToUpper(toolName[i])
                                        else toolName[i]
    ensures '_' !in FormattedToolName(toolName)
  {
    TitleCaseAt(toolName, '_');
    forall i | 0 <= i < |toolName| ensures FormattedToolName(toolName)[i] != '_' {
      var c := toolName[i];
      if c != '_' {
        assert ToUpper(c) != '_';
      }
    }
  }

  // ---------------------------------------------------------------------------
  // getDisplayParams, as a specification

  /** What the `forEach` callback of `processObject` contributes for one entry. */
  function EntryParams(key: string, value: Json, prefix: string): seq<DisplayParam>
    decreases value, 1
  {
    if IsSkipped(value) then []
    else
      var entryLabel := Label(prefix, key);
      if value.Obj? then ObjectParams(value.fields, entryLabel)
      else [DisplayParam(Capitalize(entryLabel), FormatValue(value))]
  }

  /** Everything `processObject(obj, prefix)` pushes, in push order. */
  function ObjectParams(obj: seq<(string, Json)>, prefix: string): seq<DisplayParam>
    decreases obj, 0
  {
    if obj == [] then []
    else
      var (key, value) := obj[0];
      assert value < obj[0];
      EntryParams(key, value, prefix) + ObjectParams(obj[1..], prefix)
  }

  /** The reviewed values of a subtree in depth-first order: every value that is neither skipped nor a plain object. */
  function Leaves(value: Json): (r: seq<Json>)
    decreases value, 1
    ensures forall i :: 0 <= i < |r| ==> !IsSkipped(r[i]) && !r[i].Obj?
  {
    if IsSkipped(value) then []
    else if value.Obj? then ObjectLeaves(value.fields)
    else [value]
  }

  function ObjectLeaves(obj: seq<(string, Json)>): (r: seq<Json>)
    decreases obj, 0
    ensures forall i :: 0 <= i < |r| ==> !IsSkipped(r[i]) && !r[i].Obj?
  {
    if obj == [] then []
    else
      var value := obj[0].1;
      assert value < obj[0];
      var r := Leaves(value) + ObjectLeaves(obj[1..]);
      assert forall i :: 0 <= i < |r| ==>
        r[i] == if i < |Leaves(value)| then Leaves(value)[i] else ObjectLeaves(obj[1..])[i - |Leaves(value)|];
      r
  }

  /**
   * One param per leaf, in depth-first key order, each showing that leaf's
   * rendering; since no leaf is null, undefined or "" and no leaf is a plain
   * object, no such value is ever shown and objects are only recursed into.
   */
  lemma {:induction false} EntryParamsFollowLeaves(key: string, value: Json, prefix: string)
    decreases value, 1
    ensures |EntryParams(key, value, prefix)| == |Leaves(value)|
    ensures forall i :: 0 <= i < |Leaves(value)| ==> EntryParams(key, value, prefix)[i].value == FormatValue(Leaves(value)[i])
  {
    if !IsSkipped(value) && value.Obj? {
      ObjectParamsFollowLeaves(value.fields, Label(prefix, key));
    }
  }

  lemma {:induction false} ObjectParamsFollowLeaves(obj: seq<(string, Json)>, prefix: string)
    decreases obj, 0
    ensures |ObjectParams(obj, prefix)| == |ObjectLeaves(obj)|
    ensures forall i :: 0 <= i < |ObjectLeaves(obj)| ==> ObjectParams(obj, prefix)[i].value == FormatValue(ObjectLeaves(obj)[i])
  {
    if obj != [] {
      var (key, value) := obj[0];
      assert value < obj[0];
      EntryParamsFollowLeaves(key, value, prefix);
      ObjectParamsFollowLeaves(obj[1..], prefix);
      var head: seq<DisplayParam>, tail: seq<DisplayParam> := EntryParams(key, value, prefix), ObjectParams(obj[1..], prefix);
      var lhead: seq<Json>, ltail: seq<Json> := Leaves(value), ObjectLeaves(obj[1..]);
      forall i | 0 <= i < |lhead + ltail|
        ensures (head + tail)[i].value == FormatValue((lhead + ltail)[i])
      {
        if i >= |lhead| {
          assert (head + tail)[i] == tail[i - |head|];
          assert (lhead + ltail)[i] == ltail[i - |lhead|];
        }
      }
    }
  }

  /**
   * The un-capitalised label of a leaf reached from `prefix` along a path of
   * keys: each key is labelled under the label of the key before it.
   */
  function PathLabel(prefix: string, path: seq<string>): string
    decreases |path|
  {
    if path == [] then prefix else PathLabel(Label(prefix, path[0]), path[1..])
  }

  /** The key paths to the reviewed leaves of an entry, in depth-first key order. */
  function LeafPaths(key: string, value: Json): seq<seq<string>>
    decreases value, 1
  {
    if IsSkipped(value) then []
    else if value.Obj? then
      var inner := ObjectLeafPaths(value.fields);
      seq(|inner|, i requires 0 <= i < |inner| => [key] + inner[i])
    else [[key]]
  }

  function ObjectLeafPaths(obj: seq<(string, Json)>): seq<seq<string>>
    decreases obj, 0
  {
    if obj == [] then []
    else
      var (key, value) := obj[0];
      assert value < obj[0];
      LeafPaths(key, value) + ObjectLeafPaths(obj[1..])
  }

  /** Each param of an entry is labelled by the path of keys leading to its leaf, at any depth. */
  lemma {:induction false} EntryParamsFollowPaths(key: string, value: Json, prefix: string)
    decreases value, 1
    ensures |EntryParams(key, value, prefix)| == |LeafPaths(key, value)|
    ensures forall i :: 0 <= i < |LeafPaths(key, value)| ==>
      EntryParams(key, value, prefix)[i].labelText == Capitalize(PathLabel(prefix, LeafPaths(key, value)[i]))
  {
    if !IsSkipped(value) {
      var entryLabel := Label(prefix, key);
      if value.Obj? {
        ObjectParamsFollowPaths(value.fields, entryLabel);
        var inner := ObjectLeafPaths(value.fields);
        forall i | 0 <= i < |inner|
          ensures PathLabel(prefix, [key] + inner[i]) == PathLabel(entryLabel, inner[i])
        {
          assert ([key] + inner[i])[1..] == inner[i];
        }
      } else {
        assert PathLabel(prefix, [key]) == PathLabel(entryLabel, []);
      }
    }
  }

  lemma {:induction false} ObjectParamsFollowPaths(obj: seq<(string, Json)>, prefix: string)
    decreases obj, 0
    ensures |ObjectParams(obj, prefix)| == |ObjectLeafPaths(obj)|
    ensures forall i :: 0 <= i < |ObjectLeafPaths(obj)| ==>
      ObjectParams(obj, prefix)[i].labelText == Capitalize(PathLabel(prefix, ObjectLeafPaths(obj)[i]))
  {
    if obj != [] {
      var (key, value) := obj[0];
      assert value < obj[0];
      EntryParamsFollowPaths(key, value, prefix);
      ObjectParamsFollowPaths(obj[1..], prefix);
      var head: seq<DisplayParam>, tail: seq<DisplayParam> := EntryParams(key, value, prefix), ObjectParams(obj[1..], prefix);
      var phead: seq<seq<string>>, ptail: seq<seq<string>> := LeafPaths(key, value), ObjectLeafPaths(obj[1..]);
      forall i | 0 <= i < |phead + ptail|
        ensures (head + tail)[i].labelText == Capitalize(PathLabel(prefix, (phead + ptail)[i]))
      {
        if i >= |phead| {
          assert (head + tail)[i] == tail[i - |head|];
          assert (phead + ptail)[i] == ptail[i - |phead|];
        }
      }
    }
  }

  /**
   * The reviewed list in full: the i-th param shows the i-th leaf's rendering
   * under the capitalised label of the i-th leaf's key path.
   */
  lemma DisplayParamsByLeaf(args: seq<(string, Json)>)
    ensures |ObjectLeafPaths(args)| == |ObjectLeaves(args)|
    ensures ObjectParams(args, "") ==
      seq(|ObjectLeaves(args)|, i requires 0 <= i < |ObjectLeaves(args)| =>
        DisplayParam(Capitalize(PathLabel("", ObjectLeafPaths(args)[i])), FormatValue(ObjectLeaves(args)[i])))
  {
    ObjectParamsFollowLeaves(args, "");
    ObjectParamsFollowPaths(args, "");
  }

  /** A top-level key "" labels nothing: its children are labelled as if they were top-level keys. */
  lemma EmptyKeyTransparent(path: seq<string>)
    ensures PathLabel("", [""] + path) == PathLabel("", path)
  {
    assert ([""] + path)[1..] == path;
    assert ReplaceAll("", '_', ' ') == "";
  }

  /** The first entry's params come first. */
  lemma ObjectParamsFirst(obj: seq<(string, Json)>, prefix: string)
    requires obj != []
    ensures ObjectParams(obj, prefix) == ObjectParams([obj[0]], prefix) + ObjectParams(obj[1..], prefix)
  {
    assert [obj[0]][1..] == [];
  }

  /** Output order is key order: the params of a concatenation are the concatenation of the params. */
  lemma {:induction false} ObjectParamsAppend(a: seq<(string, Json)>, b: seq<(string, Json)>, prefix: string)
    ensures ObjectParams(a + b, prefix) == ObjectParams(a, prefix) + ObjectParams(b, prefix)
  {
    if a == [] {
      assert a + b == b;
      assert ObjectParams(a, prefix) == [];
    } else {
      ObjectParamsAppend(a[1..], b, prefix);
      ObjectParamsAppendStep(a, b, prefix);
    }
  }

  lemma ObjectParamsAppendStep(a: seq<(string, Json)>, b: seq<(string, Json)>, prefix: string)
    requires a != []
    requires ObjectParams(a[1..] + b, prefix) == ObjectParams(a[1..], prefix) + ObjectParams(b, prefix)
    ensures ObjectParams(a + b, prefix) == ObjectParams(a, prefix) + ObjectParams(b, prefix)
  {
    assert ObjectParams(a + b, prefix) == ObjectParams([a[0]], prefix) + ObjectParams(a[1..] + b, prefix) by {
      ObjectParamsFirst(a + b, prefix);
      assert (a + b)[0] == a[0];
      assert (a + b)[1..] == a[1..] + b;
    }
    ObjectParamsFirst(a, prefix);
    ConcatStep(ObjectParams([a[0]], prefix), ObjectParams(a[1..], prefix), ObjectParams(b, prefix));
  }

  lemma ConcatStep(h: seq<DisplayParam>, q: seq<DisplayParam>, r: seq<DisplayParam>)
    ensures h + (q + r) == (h + q) + r
  {
  }

  lemma EntryParamsUnfold(key: string, value: Json, prefix: string)
    ensures IsSkipped(value) ==> EntryParams(key, value, prefix) == []
    ensures !IsSkipped(value) && value.Obj? ==> EntryParams(key, value, prefix) == ObjectParams(value.fields, Label(prefix, key))
    ensures !IsSkipped(value) && !value.Obj? ==>
      EntryParams(key, value, prefix) == [DisplayParam(Capitalize(Label(prefix, key)), FormatValue(value))]
  {
  }

  /** Processing one more entry appends that entry's params. */
  lemma ObjectParamsSnoc(obj: seq<(string, Json)>, i: nat, prefix: string)
    requires i < |obj|
    ensures ObjectParams(obj[..i + 1], prefix) == ObjectParams(obj[..i], prefix) + EntryParams(obj[i].0, obj[i].1, prefix)
  {
    ObjectParamsAppend(obj[..i], [obj[i]], prefix);
    assert obj[..i + 1] == obj[..i] + [obj[i]];
    assert [obj[i]][1..] == [];
  }

  /** A top-level leaf entry gives one param whose label is its key with underscores as spaces, capitalised. */
  lemma TopLevelLeaf(key: string, value: Json)
    requires !IsSkipped(value) && !value.Obj?
    ensures ObjectParams([(key, value)], "") == [DisplayParam(Capitalize(ReplaceAll(key, '_', ' ')), FormatValue(value))]
  {
  }

  /**
   * A leaf one level down is labelled with the parent's un-capitalised label,
   * a space and its own key (underscores kept), trimmed, then capitalised.
   */
  lemma NestedLeaf(key: string, child: string, value: Json)
    requires ReplaceAll(key, '_', ' ') != ""
    requires !IsSkipped(value) && !value.Obj?
    ensures ObjectParams([(key, Obj([(child, value)]))], "") ==
      [DisplayParam(Capitalize(Trim(ReplaceAll(key, '_', ' ') + " " + child)), FormatValue(value))]
  {
    var parent := ReplaceAll(key, '_', ' ');
    assert EntryParams(child, value, parent) == [DisplayParam(Capitalize(Trim(parent + " " + child)), FormatValue(value))];
    assert ObjectParams([(child, value)], parent) == EntryParams(child, value, parent);
    assert EntryParams(key, Obj([(child, value)]), "") == ObjectParams([(child, value)], parent);
  }

  /** An empty nested object contributes nothing. */
  lemma EmptyObjectContributesNothing(key: string, prefix: string)
    ensures EntryParams(key, Obj([]), prefix) == []
  {
  }

  lemma TwoItemArrayValue()
    ensures FormatValue(Arr([Str("x"), Str("y")])) == "x, y"
  {
    FormatArrayAppend([Str("x")], [Str("y")]);
    assert [Str("x")] + [Str("y")] == [Str("x"), Str("y")];
    assert FormatValue(Arr([Str("x")])) == "x";
    assert FormatValue(Arr([Str("y")])) == "y";
  }

  lemma TopLevelLabelText()
    ensures Capitalize(ReplaceAll("tags", '_', ' ')) == "Tags"
  {
    assert ReplaceAll("tags", '_', ' ') == "tags";
    CapitalizeAt("tags");
  }

  /** `{tags: ["x", "y"]}` gives the single param "Tags" = "x, y": an array is one leaf. */
  lemma ArrayIsOneParam()
    ensures ObjectParams([("tags", Arr([Str("x"), Str("y")]))], "") == [DisplayParam("Tags", "x, y")]
  {
    TopLevelLeaf("tags", Arr([Str("x"), Str("y")]));
    TwoItemArrayValue();
    TopLevelLabelText();
  }

  /**
   * The skip test looks at the raw value, not its rendering: `{tags: []}` and
   * `{tags: [null]}` each still give one param, whose shown value is "".
   */
  lemma EmptyArrayShownBlank()
    ensures ObjectParams([("tags", Arr([]))], "") == [DisplayParam("Tags", "")]
  {
    TopLevelLeaf("tags", Arr([]));
    TopLevelLabelText();
    assert FormatValue(Arr([])) == "";
  }

  lemma NullItemShownBlank()
    ensures ObjectParams([("tags", Arr([Null]))], "") == [DisplayParam("Tags", "")]
  {
    TopLevelLeaf("tags", Arr([Null]));
    TopLevelLabelText();
    assert FormatItems([Null]) == [""];
    assert FormatValue(Arr([Null])) == "";
  }

  lemma NestedLabelJoined()
    ensures Trim(ReplaceAll("a", '_', ' ') + " " + "b_c") == "a b_c"
  {
    assert ReplaceAll("a", '_', ' ') == "a";
    assert "a" + " " + "b_c" == "a b_c";
    assert TrimStart("a b_c") == "a b_c";
  }

  lemma NestedLabelCapitalized()
    ensures Capitalize("a b_c") == "A B_c"
  {
    CapitalizeAt("a b_c");
  }

  /** `{a: {b_c: "x"}}` gives "A B_c": underscores in a nested key are kept. */
  lemma NestedKeyKeepsUnderscores()
    ensures ObjectParams([("a", Obj([("b_c", Str("x"))]))], "") == [DisplayParam("A B_c", "x")]
  {
    NestedLeaf("a", "b_c", Str("x"));
    NestedLabelJoined();
    NestedLabelCapitalized();
  }

  // ---------------------------------------------------------------------------
  // getDisplayParams, as the source computes it: a shared result array that a
  // recursive processObject pushes into from a loop over the entries.

  class ParamCollector {
    var result: seq<DisplayParam>

    constructor ()
      ensures result == []
    {
      result := [];
    }

    /** `result.push(param)`. */
    method Push(param: DisplayParam)
      modifies this
      ensures result == old(result) + [param]
    {
      result := result + [param];
    }

    /** `processObject(obj, prefix)`: appends exactly ObjectParams(obj, prefix). */
    method ProcessObject(obj: seq<(string, Json)>, prefix: string)
      modifies this
      decreases obj, 0
      ensures result == old(result) + ObjectParams(obj, prefix)
    {
      var i := 0;
      while i < |obj|
        invariant 0 <= i <= |obj|
        invariant result == old(result) + ObjectParams(obj[..i], prefix)
      {
        var (key, value) := obj[i];
        assert value < obj[i];
        ProcessEntry(key, value, prefix);
        ObjectParamsSnoc(obj, i, prefix);
        i := i + 1;
      }
      assert obj[..|obj|] == obj;
    }

    /** The `forEach` callback of `processObject`: skip, recurse into a plain object, or push one param. */
    method ProcessEntry(key: string, value: Json, prefix: string)
      modifies this
      decreases value, 1
      ensures result == old(result) + EntryParams(key, value, prefix)
    {
      EntryParamsUnfold(key, value, prefix);
      if IsSkipped(value) {
        return;
      }
      var entryLabel := Label(prefix, key);
      var formattedLabel := Capitalize(entryLabel);
      if value.Obj? {
        ProcessObject(value.fields, entryLabel);
      } else {
        Push(DisplayParam(formattedLabel, FormatValue(value)));
      }
    }
  }

  /** `getDisplayParams(args)`: a fresh result array, filled by `processObject(args)`. */
  method GetDisplayParams(args: seq<(string, Json)>) returns (params: seq<DisplayParam>)
    ensures params == ObjectParams(args, "")
  {
    var collector := new ParamCollector();
    collector.ProcessObject(args, "");
    params := collector.result;
  }

  // ---------------------------------------------------------------------------
  // The dialog itself

  /** What is on screen while a tool call is pending. */
  datatype DialogView = DialogView(
    title: string,
    toolName: string,
    via: Option<string>,
    params: seq<DisplayParam>,
    confirmDisabled: bool)

  /** The dialog's actions: a change of its open state (closing it), the Cancel button, the Confirm button. */
  datatype DialogEvent = OpenChange | CancelClick | ConfirmClick

  datatype Callback = OnConfirm | OnCancel

  /** Rendering: nothing without a tool call; `isConfirming` left undefined does not disable Confirm. */
  function Render(toolCall: Option<DialogToolCall>, isConfirming: Option<bool>): Option<DialogView>
  {
    match toolCall
    case None => None
    case Some(tc) =>
      Some(DialogView(
        "Confirm Action",
        FormattedToolName(tc.toolName),
        if tc.apiName.Some? && tc.apiName.value != "" then tc.apiName else None,
        ObjectParams(tc.args, ""),
        isConfirming == Some(true)))
  }

  /** The callback an action fires, if any; a disabled Confirm button fires nothing. */
  function Dispatch(view: Option<DialogView>, event: DialogEvent): Option<Callback>
  {
    match view
    case None => None
    case Some(v) =>
      match event
      case OpenChange => Some(OnCancel)
      case CancelClick => Some(OnCancel)
      case ConfirmClick => if v.confirmDisabled then None else Some(OnConfirm)
  }

  /**
   * Confirmation happens only by the Confirm button, only while a tool call
   * is shown and only while it is not confirming; closing the dialog cancels.
   */
  lemma ConfirmOnlyByEnabledButton(toolCall: Option<DialogToolCall>, isConfirming: Option<bool>, event: DialogEvent)
    ensures Dispatch(Render(toolCall, isConfirming), event) == Some(OnConfirm) <==>
      toolCall.Some? && event == ConfirmClick && isConfirming != Some(true)
    ensures toolCall.Some? && event != ConfirmClick ==> Dispatch(Render(toolCall, isConfirming), event) == Some(OnCancel)
    ensures toolCall.None? ==> Render(toolCall, isConfirming) == None && Dispatch(Render(toolCall, isConfirming), event) == None
  {
  }
}
