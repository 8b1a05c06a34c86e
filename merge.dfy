/** `updateState`'s merge of a changes object into the game state
    (today-game.js:132-139), on a JSON-like model of JavaScript values.
    For each key of the changes: a plain object (not null, not an array) is
    spread over the old value of that key, one level deep (an old array or
    string spreads as index keys, anything else as nothing); any other change
    replaces the old value. Keys the changes do not name keep their values. */
module StateMerge {

  /** The JavaScript values a state record holds. */
  datatype Value =
    | Null
    | Bool(b: bool)
    | Num(n: int)
    | Str(s: string)
    | Arr(items: seq<Value>)
    | Obj(fields: map<string, Value>)

  /** The digit character of d. */
  function DigitChar(d: nat): char
    requires d < 10
  {
    "0123456789"[d]
  }

  /** The decimal numeral of n, which is how an array or string index is
      written as a property key. */
  function DecimalString(n: nat): (r: string)
    ensures |r| >= 1
    ensures n < 10 <==> |r| == 1
  {
    if n < 10 then [DigitChar(n)] else DecimalString(n / 10) + [DigitChar(n % 10)]
  }

  /** Distinct indices have distinct keys. */
  lemma {:induction false} DecimalStringInjective(m: nat, n: nat)
    requires DecimalString(m) == DecimalString(n)
    ensures m == n
  {
    var a, b := DecimalString(m), DecimalString(n);
    if m >= 10 && n >= 10 {
      assert a[|a| - 1] == b[|b| - 1];
      assert DigitChar(m % 10) == DigitChar(n % 10);
      assert a[..|a| - 1] == DecimalString(m / 10);
      assert b[..|b| - 1] == DecimalString(n / 10);
      DecimalStringInjective(m / 10, n / 10);
    }
  }

  /** Values keyed by their indices, as a spread copies an array's items. */
  function Indexed(items: seq<Value>): map<string, Value>
  {
    if |items| == 0 then map[]
    else Indexed(items[..|items| - 1])[DecimalString(|items| - 1) := items[|items| - 1]]
  }

  /** The own keys a spread `{ ...v }` copies: an object's fields; an array's
      items and a string's characters (one-character strings), keyed by
      their indices; null, booleans and numbers copy none. */
  function Spread(v: Value): map<string, Value>
  {
    match v
    case Obj(fields) => fields
    case Arr(items) => Indexed(items)
    case Str(chars) => Indexed(seq(|chars|, i requires 0 <= i < |chars| => Str([chars[i]])))
    case _ => map[]
  }

  /** The item at index i is found under the key of i. */
  lemma {:induction false} IndexedItem(items: seq<Value>, i: nat)
    requires i < |items|
    ensures DecimalString(i) in Indexed(items) && Indexed(items)[DecimalString(i)] == items[i]
  {
    var n := |items| - 1;
    if i < n {
      IndexedItem(items[..n], i);
      assert items[..n][i] == items[i];
      if DecimalString(i) == DecimalString(n) {
        DecimalStringInjective(i, n);
      }
    }
  }

  /** Only index keys are present. */
  lemma {:induction false} IndexedKeys(items: seq<Value>, key: string)
    requires key in Indexed(items)
    ensures exists i: nat :: i < |items| && key == DecimalString(i)
  {
    var n := |items| - 1;
    if key != DecimalString(n) {
      IndexedKeys(items[..n], key);
    }
  }

  /** Spreading an array copies exactly its items, each under the key of its
      index. */
  lemma SpreadArrayKeepsItems(items: seq<Value>)
    ensures forall i: nat :: i < |items| ==>
      DecimalString(i) in Spread(Arr(items)) && Spread(Arr(items))[DecimalString(i)] == items[i]
    ensures forall key :: key in Spread(Arr(items)) ==> exists i: nat :: i < |items| && key == DecimalString(i)
  {
    forall i: nat | i < |items|
      ensures DecimalString(i) in Indexed(items) && Indexed(items)[DecimalString(i)] == items[i]
    {
      IndexedItem(items, i);
    }
    forall key | key in Indexed(items)
      ensures exists i: nat :: i < |items| && key == DecimalString(i)
    {
      IndexedKeys(items, key);
    }
  }

  /** The new value of one key: `{ ...old, ...change }` for a plain object,
      the change itself otherwise. */
  function MergeValue(state: map<string, Value>, key: string, change: Value): Value
  {
    if change.Obj? then
      Obj((if key in state then Spread(state[key]) else map[]) + change.fields)
    else change
  }

  /** The state after `updateState(changes)`. */
  function Merge(state: map<string, Value>, changes: map<string, Value>): (r: map<string, Value>)
    ensures r.Keys == state.Keys + changes.Keys
  {
    map k | k in state.Keys + changes.Keys ::
      if k in changes then MergeValue(state, k, changes[k]) else state[k]
  }

  /** Keys the changes do not name are left alone. */
  lemma MergeKeepsOtherKeys(state: map<string, Value>, changes: map<string, Value>, k: string)
    requires k in state && k !in changes
    ensures k in Merge(state, changes) && Merge(state, changes)[k] == state[k]
  {}

  /** A value that is not a plain object replaces the old one outright; this
      is how a new citizens array, a number or a scenario id is written. */
  lemma MergeReplacesNonObjects(state: map<string, Value>, changes: map<string, Value>, k: string)
    requires k in changes && !changes[k].Obj?
    ensures Merge(state, changes)[k] == changes[k]
  {}

  /** An object change keeps the old object's other fields and overrides the
      ones it names, one level deep: a nested object in the change replaces
      the old nested object instead of being merged into it. */
  lemma MergeOneLevel(state: map<string, Value>, changes: map<string, Value>, k: string, f: string)
    requires k in state && state[k].Obj? && k in changes && changes[k].Obj?
    ensures Merge(state, changes)[k].Obj?
    ensures f in changes[k].fields ==> Merge(state, changes)[k].fields[f] == changes[k].fields[f]
    ensures f !in changes[k].fields && f in state[k].fields ==>
      Merge(state, changes)[k].fields[f] == state[k].fields[f]
    ensures Merge(state, changes)[k].fields.Keys == state[k].fields.Keys + changes[k].fields.Keys
  {}

  /** A change that names every field of the old object (such as
      `{ ...gameState.resources, budget: ... }`) replaces that object. This is
      why the game's handlers, which always pass full copies of `resources`
      and `dailyActions`, can be modelled as plain assignments. */
  lemma MergeFullObjectReplaces(state: map<string, Value>, changes: map<string, Value>, k: string)
    requires k in state && state[k].Obj? && k in changes && changes[k].Obj?
    requires state[k].fields.Keys <= changes[k].fields.Keys
    ensures Merge(state, changes)[k] == changes[k]
  {
    var merged := Merge(state, changes)[k].fields;
    assert merged == state[k].fields + changes[k].fields;
    assert merged.Keys == changes[k].fields.Keys;
    assert forall f :: f in merged ==> merged[f] == changes[k].fields[f];
  }

  /** An object change merged over an array keeps the array's items under
      their index keys: `{ ...[1], a: 2 }` is `{ "0": 1, "a": 2 }`. */
  lemma MergeOverArray()
    ensures Merge(map["k" := Arr([Num(1)])], map["k" := Obj(map["a" := Num(2)])])["k"]
            == Obj(map["0" := Num(1), "a" := Num(2)])
  {
    SpreadArrayKeepsItems([Num(1)]);
    var spread := Spread(Arr([Num(1)]));
    assert DecimalString(0) == "0";
    assert spread.Keys == {"0"};
    assert spread == map["0" := Num(1)];
  }

  /** Applying the same changes twice is the same as applying them once. */
  lemma MergeIdempotent(state: map<string, Value>, changes: map<string, Value>)
    ensures Merge(Merge(state, changes), changes) == Merge(state, changes)
  {
    var once := Merge(state, changes);
    var twice := Merge(once, changes);
    forall k | k in twice
      ensures twice[k] == once[k]
    {
      if k in changes && changes[k].Obj? {
        assert once[k].Obj?;
        var f1 := once[k].fields;
        assert twice[k].fields == f1 + changes[k].fields;
        assert f1 + changes[k].fields == f1;
      }
    }
  }
}
