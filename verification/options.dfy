/** The option-description builders: each scalar option is a one-key document
    `name -> {type, default, description, _required}`; `getList` describes list
    parameters with a differently spelled `required` key. */
module Options {
  import opened Wrappers
  import opened PyValue

  function GetDefault(typeTag: string, name: string, description: string,
                      required: bool := false, default: Value := VNone): (r: Value)
    ensures r.VDict? && r.entries.Keys == {name}
    ensures var o := r.entries[name];
      && o.VDict? && o.entries.Keys == {"type", "default", "description", "_required"}
      && o.entries["type"] == VStr(typeTag) && o.entries["default"] == default
      && o.entries["description"] == VStr(description) && o.entries["_required"] == VBool(required)
  {
    VDict(map[name := VDict(map[
      "type" := VStr(typeTag),
      "default" := default,
      "description" := VStr(description),
      "_required" := VBool(required)])])
  }

  function GetBoolean(name: string, description: string, required: bool := false, default: bool := false): Value {
    GetDefault("boolean", name, description, required, VBool(default))
  }

  function GetInteger(name: string, description: string, required: bool := false, default: int := 0): Value {
    GetDefault("integer", name, description, required, VInt(default))
  }

  function GetFloat(name: string, description: string, required: bool := false, default: real := 0.0): Value {
    GetDefault("float", name, description, required, VFloat(default))
  }

  function GetString(name: string, description: string, required: bool := false, default: string := ""): Value {
    GetDefault("string", name, description, required, VStr(default))
  }

  /** `{**a, **b, ...}`: the entries of the documents, a later key replacing
      an earlier one; a part that is not a dict adds nothing. */
  function Merge(parts: seq<Value>): (m: map<string, Value>)
    decreases |parts|
  {
    if |parts| == 0 then map[]
    else
      var last := parts[|parts| - 1];
      Merge(parts[..|parts| - 1]) + (if last.VDict? then last.entries else map[])
  }

  /** Each part is a document with the single key `names[i]`. */
  predicate OneKeyEach(parts: seq<Value>, names: seq<string>) {
    |parts| == |names| && forall i :: 0 <= i < |parts| ==> parts[i].VDict? && parts[i].entries.Keys == {names[i]}
  }

  /** Merging one-key documents gives exactly their keys. */
  lemma {:induction false} MergeKeys(parts: seq<Value>, names: seq<string>)
    requires OneKeyEach(parts, names)
    ensures forall k :: k in Merge(parts) <==> k in names
    decreases |parts|
  {
    if |parts| > 0 {
      var n := |parts| - 1;
      var prefix, firstNames := parts[..n], names[..n];
      assert forall i :: 0 <= i < n ==> prefix[i] == parts[i] && firstNames[i] == names[i];
      MergeKeys(prefix, firstNames);
      var last := parts[n].entries;
      assert Merge(parts) == Merge(prefix) + last;
      assert last.Keys == {names[n]};
      Snoc(names);
      AddOneKey(Merge(prefix), last, firstNames, names[n]);
    }
  }

  /** Adding a one-key map adds exactly its key. */
  lemma AddOneKey(m: map<string, Value>, last: map<string, Value>, names: seq<string>, name: string)
    requires forall k :: k in m <==> k in names
    requires last.Keys == {name}
    ensures forall k :: k in m + last <==> k in names + [name]
  {
    forall k
      ensures k in m + last <==> k in names + [name]
    {
      assert k in names + [name] <==> k in names || k == name;
    }
  }

  /** A non-empty sequence is its front followed by its last element. */
  lemma Snoc<T>(s: seq<T>)
    requires |s| > 0
    ensures s == s[..|s| - 1] + [s[|s| - 1]]
  {
  }

  /** Merging one-key documents with distinct keys keeps every key with its
      own document's value. */
  lemma {:induction false} MergeDistinct(parts: seq<Value>, names: seq<string>)
    requires OneKeyEach(parts, names)
    requires forall i, j :: 0 <= i < j < |names| ==> names[i] != names[j]
    ensures forall i :: 0 <= i < |names| ==> names[i] in Merge(parts) && Merge(parts)[names[i]] == parts[i].entries[names[i]]
    decreases |parts|
  {
    if |parts| > 0 {
      var n := |parts| - 1;
      var prefix, firstNames := parts[..n], names[..n];
      assert forall i :: 0 <= i < n ==> prefix[i] == parts[i] && firstNames[i] == names[i];
      MergeDistinct(prefix, firstNames);
      var m := Merge(parts);
      var last := parts[n].entries;
      assert m == Merge(prefix) + last;
      assert names[n] in last;
      forall i | 0 <= i < n ensures names[i] in m && m[names[i]] == parts[i].entries[names[i]] {
        assert names[i] in Merge(prefix) && names[i] != names[n];
        assert names[i] !in last;
      }
    }
  }

  /** The type tag and default an option document declares for `name`. */
  function Declared(option: Value, name: string): (Value, Value)
    requires option.VDict? && name in option.entries
    requires option.entries[name].VDict?
    requires "type" in option.entries[name].entries && "default" in option.entries[name].entries
  {
    (option.entries[name].entries["type"], option.entries[name].entries["default"])
  }

  /** Whether an option document marks `name` as required. */
  function RequiredFlag(option: Value, name: string): Value
    requires option.VDict? && name in option.entries
    requires option.entries[name].VDict? && "_required" in option.entries[name].entries
  {
    option.entries[name].entries["_required"]
  }

  /** The scalar builders' type tags and defaults, and that none of them marks
      its option required unless asked. */
  lemma ScalarBuilderDefaults(name: string, description: string)
    ensures Declared(GetBoolean(name, description), name) == (VStr("boolean"), VBool(false))
    ensures Declared(GetInteger(name, description), name) == (VStr("integer"), VInt(0))
    ensures Declared(GetFloat(name, description), name) == (VStr("float"), VFloat(0.0))
    ensures Declared(GetString(name, description), name) == (VStr("string"), VStr(""))
    ensures RequiredFlag(GetBoolean(name, description), name) == VBool(false)
    ensures RequiredFlag(GetInteger(name, description), name) == VBool(false)
    ensures RequiredFlag(GetFloat(name, description), name) == VBool(false)
    ensures RequiredFlag(GetString(name, description), name) == VBool(false)
  {
  }

  /** The description of one list parameter. */
  function ListEntry(param: string): Value {
    VDict(map[param := VDict(map["type" := VStr("list"), "required" := VBool(true)])])
  }

  /** `getList`: one entry per parameter, in order. */
  function GetList(params: seq<string>): (r: seq<Value>)
    ensures |r| == |params|
    ensures forall k :: 0 <= k < |params| ==> r[k].VDict? && r[k].entries.Keys == {params[k]}
    ensures forall k :: 0 <= k < |params| ==>
      var o := r[k].entries[params[k]];
      o.VDict? && o.entries.Keys == {"type", "required"}
      && o.entries["type"] == VStr("list") && o.entries["required"] == VBool(true)
  {
    seq(|params|, k requires 0 <= k < |params| => ListEntry(params[k]))
  }

  /** Building the list of a concatenation is concatenating the lists. */
  lemma GetListAppend(a: seq<string>, b: seq<string>)
    ensures GetList(a + b) == GetList(a) + GetList(b)
  {
  }

  /** A list entry has no `_required` key, so a reader that looks for the scalar
      spelling gets a `KeyError`. */
  lemma ListEntryLacksRequiredFlag(param: string)
    ensures Index(GetList([param])[0], param).Success?
    ensures Index(Index(GetList([param])[0], param).value, "_required") == Failure(KeyError("_required"))
  {
  }
}
