/** Application settings (settings.py): an untrusted JSON document is merged
    into a fixed default schema, and a corrupt settings file is moved to the
    first free backup name. Files, directories and the JSON text are not
    modelled; a document is a `Json` value and the files that exist are a
    set of paths. */
module SettingsModel {
  import opened PyText

  /** A decoded JSON value. An object keeps its members in order, as a
      Python dict does; `Decoded` says which values a decoder can deliver. */
  datatype Json =
    | JNull
    | JBool(b: bool)
    | JNum(r: real)
    | JStr(s: string)
    | JArr(items: seq<Json>)
    | JObj(fields: seq<(string, Json)>)

  /** What `json.load` can deliver: every object, at every depth, has
      distinct keys, since a key repeated in the text keeps only its last
      value. */
  predicate Decoded(j: Json) {
    match j
    case JArr(items) => forall x :: x in items ==> Decoded(x)
    case JObj(fields) => DistinctKeys(fields) && forall p :: p in fields ==> Decoded(p.1)
    case _ => true
  }

  /** Python's `bool(value)` on a decoded JSON value. */
  predicate Truthy(j: Json) {
    match j
    case JNull => false
    case JBool(b) => b
    case JNum(r) => r != 0.0
    case JStr(s) => s != ""
    case JArr(items) => items != []
    case JObj(fields) => fields != []
  }

  function Keys(obj: seq<(string, Json)>): (ks: seq<string>)
    ensures |ks| == |obj| && forall i :: 0 <= i < |obj| ==> ks[i] == obj[i].0
  {
    seq(|obj|, i requires 0 <= i < |obj| => obj[i].0)
  }

  predicate DistinctKeys(obj: seq<(string, Json)>) {
    forall i, j :: 0 <= i < j < |obj| ==> obj[i].0 != obj[j].0
  }

  /** `obj[k]`, for a key the object has. */
  function Get(obj: seq<(string, Json)>, k: string): Json
    requires k in Keys(obj)
  {
    if obj[0].0 == k then obj[0].1 else (assert k in Keys(obj[1..]); Get(obj[1..], k))
  }

  /** `obj[k] = v` for a key the object already has: the member keeps its
      place. */
  function Put(obj: seq<(string, Json)>, k: string, v: Json): (r: seq<(string, Json)>)
    ensures Keys(r) == Keys(obj)
  {
    seq(|obj|, i requires 0 <= i < |obj| => if obj[i].0 == k then (k, v) else obj[i])
  }

  function DefaultShortcuts(): seq<(string, Json)> {
    [("fullscreen", JStr("F11")), ("previous", JStr("Left")), ("next", JStr("Right")),
     ("help", JStr("F1")), ("save", JStr("Control-s"))]
  }

  function DefaultDisplay(): seq<(string, Json)> {
    [("animations", JBool(true)), ("transition_speed", JStr("normal")), ("theme", JStr("dark"))]
  }

  /** `DEFAULT_SETTINGS`. */
  function Defaults(): Json {
    JObj([("shortcuts", JObj(DefaultShortcuts())), ("display", JObj(DefaultDisplay())),
          ("sound", JBool(true))])
  }

  const Categories: seq<string> := ["shortcuts", "display", "sound"]

  /** The shape every validated document has: the three categories in
      order, the two dictionaries with exactly their default keys, and a
      boolean `sound`. */
  predicate Shaped(v: Json) {
    && v.JObj? && Keys(v.fields) == Categories
    && v.fields[0].1.JObj? && Keys(v.fields[0].1.fields) == Keys(DefaultShortcuts())
    && v.fields[1].1.JObj? && Keys(v.fields[1].1.fields) == Keys(DefaultDisplay())
    && v.fields[2].1.JBool?
  }

  /** The inner loop: each incoming member whose key the category already
      has overwrites it, whatever its type; other keys are dropped. */
  function MergeKnown(base: seq<(string, Json)>, incoming: seq<(string, Json)>): (r: seq<(string, Json)>)
    ensures Keys(r) == Keys(base)
  {
    if incoming == [] then base
    else
      var r := MergeKnown(base, incoming[..|incoming| - 1]);
      var (k, v) := incoming[|incoming| - 1];
      if k in Keys(r) then Put(r, k, v) else r
  }

  /** One pass of the outer loop, for one incoming category. */
  function ApplyCategory(validated: seq<(string, Json)>, item: (string, Json)): (r: seq<(string, Json)>)
    ensures Keys(r) == Keys(validated)
    ensures item.0 !in Keys(validated) ==> r == validated
    ensures item.0 in Keys(validated) && item.1.JObj? && Get(validated, item.0).JObj? ==>
              r == Put(validated, item.0, JObj(MergeKnown(Get(validated, item.0).fields, item.1.fields)))
    ensures item.0 in Keys(validated) && !(item.1.JObj? && Get(validated, item.0).JObj?) ==>
              r == if item.0 == "sound" then Put(validated, item.0, JBool(Truthy(item.1))) else validated
  {
    var (category, values) := item;
    if category !in Keys(validated) then validated
    else
      var current := Get(validated, category);
      if values.JObj? && current.JObj? then
        Put(validated, category, JObj(MergeKnown(current.fields, values.fields)))
      else if category == "sound" then
        Put(validated, category, JBool(Truthy(values)))
      else validated
  }

  /** The outer loop over the first categories of the incoming document. */
  function ApplyAll(validated: seq<(string, Json)>, items: seq<(string, Json)>): (r: seq<(string, Json)>)
    ensures Keys(r) == Keys(validated)
  {
    if items == [] then validated
    else ApplyCategory(ApplyAll(validated, items[..|items| - 1]), items[|items| - 1])
  }

  /** `validate_and_update`'s result: a document that is not an object
      raises inside the `try` and yields the defaults. */
  function Validated(incoming: Json): (v: Json)
    ensures Shaped(v)
    ensures !incoming.JObj? ==> v == Defaults()
  {
    if incoming.JObj? then
      DefaultsShaped();
      ApplyAllShaped(Defaults().fields, incoming.fields);
      JObj(ApplyAll(Defaults().fields, incoming.fields))
    else Defaults()
  }

  lemma DefaultsShaped()
    ensures Shaped(Defaults())
  {
  }

  /** Merging any document into a shaped one keeps the shape. */
  lemma {:induction false} ApplyAllShaped(base: seq<(string, Json)>, items: seq<(string, Json)>)
    requires Shaped(JObj(base))
    ensures Shaped(JObj(ApplyAll(base, items)))
  {
    if items != [] {
      ApplyAllShaped(base, items[..|items| - 1]);
      ApplyCategoryShaped(ApplyAll(base, items[..|items| - 1]), items[|items| - 1]);
    }
  }

  /** A category the incoming document never names keeps the value it had
      before validation. */
  lemma {:induction false} ApplyAllUnmentioned(base: seq<(string, Json)>, items: seq<(string, Json)>, i: int)
    requires 0 <= i < |base|
    requires forall j :: 0 <= j < |items| ==> items[j].0 != base[i].0
    ensures ApplyAll(base, items)[i] == base[i]
  {
    if items != [] {
      var init := items[..|items| - 1];
      assert forall j :: 0 <= j < |init| ==> init[j] == items[j];
      ApplyAllUnmentioned(base, init, i);
      var w := ApplyAll(base, init);
      assert Keys(w)[i] == Keys(base)[i];
    }
  }

  /** Every category the incoming document does not name is validated to
      its default value, however often validation ran before. */
  lemma UnmentionedKeepsDefault(incoming: Json, i: int)
    requires 0 <= i < |Categories|
    requires incoming.JObj? ==> forall j :: 0 <= j < |incoming.fields| ==> incoming.fields[j].0 != Categories[i]
    ensures Validated(incoming).fields[i] == Defaults().fields[i]
  {
    if incoming.JObj? {
      ApplyAllUnmentioned(Defaults().fields, incoming.fields, i);
    }
  }

  /** `validate_and_update` as written: `DEFAULT_SETTINGS.copy()` copies the
      outer dictionary only, so merging into the `shortcuts` or `display`
      category writes into the dictionary the defaults themselves hold,
      while `sound` is rebound in the copy. Returns the validated document
      and the defaults as they are afterwards. */
  function SharedValidate(defaults: seq<(string, Json)>, incoming: Json): (r: (Json, seq<(string, Json)>))
    requires Shaped(JObj(defaults))
    ensures Shaped(r.0) && Shaped(JObj(r.1))
    ensures r.1[..2] == r.0.fields[..2] && r.1[2] == defaults[2]
  {
    if !incoming.JObj? then (JObj(defaults), defaults)
    else
      ApplyAllShaped(defaults, incoming.fields);
      var v := ApplyAll(defaults, incoming.fields);
      (JObj(v), [v[0], v[1], defaults[2]])
  }

  /** A theme chosen once leaks into the defaults: validating an empty
      document afterwards yields the "light" theme instead of the default
      "dark" one. */
  lemma DefaultsDrift()
    ensures var d1 := SharedValidate(Defaults().fields, JObj([("display", JObj([("theme", JStr("light"))]))])).1;
            SharedValidate(d1, JObj([])).0.fields[1].1.fields[2].1 == JStr("light")
    ensures Validated(JObj([])).fields[1].1.fields[2].1 == JStr("dark")
  {
    DefaultsShaped();
    var item := ("display", JObj([("theme", JStr("light"))]));
    var d := Defaults().fields;
    GetShaped(d);
    assert [item][..0] == [];
    assert ApplyAll(d, [item]) == ApplyCategory(d, item);
    var merged := MergeKnown(DefaultDisplay(), [("theme", JStr("light"))]);
    assert [("theme", JStr("light"))][..0] == [];
    assert merged == Put(DefaultDisplay(), "theme", JStr("light"));
    assert merged[2].1 == JStr("light");
    assert ApplyCategory(d, item)[1].1 == JObj(merged);
  }

  /** The fields of a shaped document, read by position. */
  lemma GetShaped(w: seq<(string, Json)>)
    requires Shaped(JObj(w))
    ensures Get(w, "shortcuts") == w[0].1
    ensures Get(w, "display") == w[1].1
    ensures Get(w, "sound") == w[2].1
  {
    assert w[0].0 == "shortcuts" && w[1].0 == "display" && w[2].0 == "sound";
    var w1, w2 := w[1..], w[2..];
    assert w1[0] == w[1] && w1[1..] == w2 && w2[0] == w[2];
    assert "display" in Keys(w1) && "sound" in Keys(w1) && "sound" in Keys(w2);
    assert Get(w2, "sound") == w[2].1;
    assert Get(w1, "display") == w[1].1;
    assert Get(w1, "sound") == Get(w2, "sound");
  }

  lemma ApplyCategoryShaped(w: seq<(string, Json)>, item: (string, Json))
    requires Shaped(JObj(w))
    ensures Shaped(JObj(ApplyCategory(w, item)))
  {
    var (category, values) := item;
    if category in Keys(w) {
      GetShaped(w);
      var r := ApplyCategory(w, item);
      if category == "shortcuts" || category == "display" {
        forall i | 0 <= i < 3
          ensures r[i].1 == (if w[i].0 == category && values.JObj? then JObj(MergeKnown(w[i].1.fields, values.fields)) else w[i].1)
        {
        }
      } else {
        assert category == "sound";
      }
    }
  }

  /** Incoming `sound` becomes its truthiness, whatever its type. */
  lemma SoundBecomesTruthy(w: seq<(string, Json)>, value: Json)
    requires Shaped(JObj(w))
    ensures ApplyCategory(w, ("sound", value))[2].1 == JBool(Truthy(value))
    ensures ApplyCategory(w, ("sound", value))[..2] == w[..2]
  {
    GetShaped(w);
  }

  /** A category that is not a dictionary where one is expected keeps its
      current value, as does an unknown category. */
  lemma NonDictIgnored(w: seq<(string, Json)>, category: string, value: Json)
    requires Shaped(JObj(w))
    requires category != "sound" && !value.JObj?
    ensures ApplyCategory(w, (category, value)) == w
  {
    if category in Keys(w) {
      GetShaped(w);
    }
  }

  /** Overwriting the member at position `i` of an object with distinct
      keys changes that position only. */
  lemma PutAt(obj: seq<(string, Json)>, i: int, v: Json)
    requires DistinctKeys(obj) && 0 <= i < |obj|
    ensures Put(obj, obj[i].0, v) == obj[..i] + [(obj[i].0, v)] + obj[i + 1..]
  {
  }

  /** Merging a dictionary that has exactly the base's keys, in the same
      order, takes every incoming value. */
  lemma {:induction false} MergeSameKeys(base: seq<(string, Json)>, incoming: seq<(string, Json)>, n: nat)
    requires DistinctKeys(base) && Keys(incoming) == Keys(base)
    requires n <= |incoming|
    ensures MergeKnown(base, incoming[..n]) == incoming[..n] + base[n..]
  {
    if n == 0 {
      assert incoming[..0] == [];
    } else {
      MergeSameKeys(base, incoming, n - 1);
      MergeOneMore(base, incoming, n);
    }
  }

  lemma MergeOneMore(base: seq<(string, Json)>, incoming: seq<(string, Json)>, n: nat)
    requires DistinctKeys(base) && Keys(incoming) == Keys(base)
    requires 0 < n <= |incoming|
    requires MergeKnown(base, incoming[..n - 1]) == incoming[..n - 1] + base[n - 1..]
    ensures MergeKnown(base, incoming[..n]) == incoming[..n] + base[n..]
  {
    var prev := incoming[..n - 1] + base[n - 1..];
    SameKeysPrefix(base, incoming, n - 1);
    var pre := incoming[..n];
    assert pre[..|pre| - 1] == incoming[..n - 1] && pre[|pre| - 1] == incoming[n - 1];
    NextKeyKnown(base, incoming, n, prev);
    MergeLast(base, pre, prev);
    PutLast(base, incoming, n, prev);
  }

  /** The n-th incoming key sits at the same place in the half-merged list. */
  lemma NextKeyKnown(base: seq<(string, Json)>, incoming: seq<(string, Json)>, n: nat, prev: seq<(string, Json)>)
    requires Keys(incoming) == Keys(base) && 0 < n <= |incoming|
    requires prev == incoming[..n - 1] + base[n - 1..]
    ensures prev[n - 1].0 == incoming[n - 1].0 && incoming[n - 1].0 in Keys(prev)
  {
    assert prev[n - 1] == base[n - 1];
    assert Keys(incoming)[n - 1] == Keys(base)[n - 1];
    assert Keys(prev)[n - 1] == prev[n - 1].0;
  }

  /** The last incoming member of a known key overwrites that key. */
  lemma MergeLast(base: seq<(string, Json)>, pre: seq<(string, Json)>, prev: seq<(string, Json)>)
    requires pre != [] && MergeKnown(base, pre[..|pre| - 1]) == prev
    requires pre[|pre| - 1].0 in Keys(prev)
    ensures MergeKnown(base, pre) == Put(prev, pre[|pre| - 1].0, pre[|pre| - 1].1)
  {
  }

  lemma PutLast(base: seq<(string, Json)>, incoming: seq<(string, Json)>, n: nat, prev: seq<(string, Json)>)
    requires 0 < n <= |incoming| && |base| == |incoming|
    requires prev == incoming[..n - 1] + base[n - 1..] && DistinctKeys(prev)
    requires prev[n - 1].0 == incoming[n - 1].0
    ensures Put(prev, incoming[n - 1].0, incoming[n - 1].1) == incoming[..n] + base[n..]
  {
    PutAt(prev, n - 1, incoming[n - 1].1);
    assert prev[..n - 1] == incoming[..n - 1];
    assert prev[n..] == base[n..];
    assert incoming[..n - 1] + [incoming[n - 1]] == incoming[..n];
  }

  /** Part incoming, part base: the keys are still the base's. */
  lemma SameKeysPrefix(base: seq<(string, Json)>, incoming: seq<(string, Json)>, m: nat)
    requires DistinctKeys(base) && Keys(incoming) == Keys(base)
    requires m < |incoming|
    ensures Keys(incoming[..m] + base[m..]) == Keys(base)
    ensures DistinctKeys(incoming[..m] + base[m..])
  {
    var prev := incoming[..m] + base[m..];
    forall i | 0 <= i < |prev|
      ensures prev[i].0 == base[i].0
    {
      if i < m {
        assert Keys(incoming)[i] == Keys(base)[i];
      }
    }
  }

  lemma MergeSameKeysAll(base: seq<(string, Json)>, incoming: seq<(string, Json)>)
    requires DistinctKeys(base) && Keys(incoming) == Keys(base)
    ensures MergeKnown(base, incoming) == incoming
  {
    MergeSameKeys(base, incoming, |incoming|);
    assert incoming[..|incoming|] == incoming;
    assert base[|incoming|..] == [];
  }

  /** No member of `items` from position `from` on has key `k`. */
  predicate NoKeyFrom(items: seq<(string, Json)>, k: string, from: int) {
    forall l :: 0 <= l < |items| && from <= l ==> items[l].0 != k
  }

  /** What the merge leaves under each key of the category: the value of
      the last incoming member with that key, or the current value when no
      incoming member has it. */
  lemma {:induction false} MergeValue(base: seq<(string, Json)>, incoming: seq<(string, Json)>, i: int)
    requires 0 <= i < |base|
    ensures NoKeyFrom(incoming, base[i].0, 0) ==> MergeKnown(base, incoming)[i] == base[i]
    ensures forall j :: 0 <= j < |incoming| && incoming[j].0 == base[i].0 && NoKeyFrom(incoming, base[i].0, j + 1) ==>
              MergeKnown(base, incoming)[i] == (base[i].0, incoming[j].1)
  {
    if incoming != [] {
      var n := |incoming|;
      var init := incoming[..n - 1];
      assert forall l :: 0 <= l < n - 1 ==> init[l] == incoming[l];
      MergeValue(base, init, i);
      var w := MergeKnown(base, init);
      assert Keys(w)[i] == Keys(base)[i];
      var (k, v) := incoming[n - 1];
      if k == base[i].0 {
        assert MergeKnown(base, incoming)[i] == (k, v);
      } else {
        assert MergeKnown(base, incoming)[i] == w[i];
        forall j | 0 <= j < n && incoming[j].0 == base[i].0 && NoKeyFrom(incoming, base[i].0, j + 1)
          ensures MergeKnown(base, incoming)[i] == (base[i].0, incoming[j].1)
        {
          assert j < n - 1 && init[j] == incoming[j];
          assert NoKeyFrom(init, base[i].0, j + 1);
        }
      }
    }
  }

  /** A dictionary category that the incoming document names once, with a
      dictionary, ends up as that dictionary merged into the category's
      value before validation. */
  lemma {:induction false} ApplyAllMerges(base: seq<(string, Json)>, items: seq<(string, Json)>, c: int, j: int)
    requires Shaped(JObj(base)) && 0 <= c < 2
    requires 0 <= j < |items| && items[j].0 == base[c].0 && items[j].1.JObj?
    requires forall l :: 0 <= l < |items| && l != j ==> items[l].0 != base[c].0
    ensures ApplyAll(base, items)[c] == (base[c].0, JObj(MergeKnown(base[c].1.fields, items[j].1.fields)))
  {
    var n := |items|;
    var init := items[..n - 1];
    assert forall l :: 0 <= l < n - 1 ==> init[l] == items[l];
    var w := ApplyAll(base, init);
    ApplyAllShaped(base, init);
    GetShaped(w);
    assert Keys(w)[c] == Keys(base)[c] == Categories[c];
    if j == n - 1 {
      ApplyAllUnmentioned(base, init, c);
      assert Get(w, items[j].0) == base[c].1;
    } else {
      ApplyAllMerges(base, init, c, j);
      assert ApplyCategory(w, items[n - 1])[c] == w[c];
    }
  }

  /** Validation of a document with distinct top-level keys: a `shortcuts`
      or `display` dictionary is merged into that category's defaults. */
  lemma ValidatedMerges(items: seq<(string, Json)>, c: int, j: int)
    requires DistinctKeys(items) && 0 <= c < 2
    requires 0 <= j < |items| && items[j].0 == Categories[c] && items[j].1.JObj?
    ensures Validated(JObj(items)).fields[c].1 == JObj(MergeKnown(Defaults().fields[c].1.fields, items[j].1.fields))
  {
    DefaultsShaped();
    ApplyAllMerges(Defaults().fields, items, c, j);
  }

  /** Any value given as the display theme is taken as it is; the other
      display settings and the other categories keep their defaults. */
  lemma ThemeChosen(t: Json)
    ensures var v := Validated(JObj([("display", JObj([("theme", t)]))]));
            && v.fields[1].1 == JObj([("animations", JBool(true)), ("transition_speed", JStr("normal")), ("theme", t)])
            && v.fields[0] == Defaults().fields[0] && v.fields[2] == Defaults().fields[2]
  {
    var items := [("display", JObj([("theme", t)]))];
    var given := [("theme", t)];
    ValidatedMerges(items, 1, 0);
    UnmentionedKeepsDefault(JObj(items), 0);
    UnmentionedKeepsDefault(JObj(items), 2);
    var m := MergeKnown(DefaultDisplay(), given);
    assert |Keys(m)| == 3;
    MergeValue(DefaultDisplay(), given, 0);
    MergeValue(DefaultDisplay(), given, 1);
    MergeValue(DefaultDisplay(), given, 2);
    assert m == [("animations", JBool(true)), ("transition_speed", JStr("normal")), ("theme", t)];
  }

  /** The `sound` category named once ends up as the truthiness of the
      value given for it. */
  lemma {:induction false} ApplyAllSound(base: seq<(string, Json)>, items: seq<(string, Json)>, j: int)
    requires Shaped(JObj(base))
    requires 0 <= j < |items| && items[j].0 == "sound"
    requires forall l :: 0 <= l < |items| && l != j ==> items[l].0 != "sound"
    ensures ApplyAll(base, items)[2] == ("sound", JBool(Truthy(items[j].1)))
  {
    var n := |items|;
    var init := items[..n - 1];
    assert forall l :: 0 <= l < n - 1 ==> init[l] == items[l];
    var w := ApplyAll(base, init);
    ApplyAllShaped(base, init);
    assert Keys(w)[2] == Keys(base)[2] == "sound";
    if j == n - 1 {
      SoundBecomesTruthy(w, items[j].1);
      assert Keys(ApplyCategory(w, items[j]))[2] == "sound";
    } else {
      ApplyAllSound(base, init, j);
      assert ApplyCategory(w, items[n - 1])[2] == w[2];
    }
  }

  /** A dictionary category that the incoming document never gives as a
      dictionary keeps its value, however often it is named. */
  lemma {:induction false} ApplyAllNonDict(base: seq<(string, Json)>, items: seq<(string, Json)>, c: int)
    requires Shaped(JObj(base)) && 0 <= c < 2
    requires forall l :: 0 <= l < |items| && items[l].0 == base[c].0 ==> !items[l].1.JObj?
    ensures ApplyAll(base, items)[c] == base[c]
  {
    if items != [] {
      var n := |items|;
      var init := items[..n - 1];
      assert forall l :: 0 <= l < n - 1 ==> init[l] == items[l];
      ApplyAllNonDict(base, init, c);
      var w := ApplyAll(base, init);
      ApplyAllShaped(base, init);
      assert Keys(w)[c] == Keys(base)[c] == Categories[c];
      var (category, value) := items[n - 1];
      if category == base[c].0 {
        NonDictIgnored(w, category, value);
      } else {
        assert ApplyCategory(w, items[n - 1])[c] == w[c];
      }
    }
  }

  /** Validation of a document with distinct top-level keys: a `sound`
      value becomes its truthiness. */
  lemma ValidatedSound(items: seq<(string, Json)>, j: int)
    requires DistinctKeys(items)
    requires 0 <= j < |items| && items[j].0 == "sound"
    ensures Validated(JObj(items)).fields[2].1 == JBool(Truthy(items[j].1))
  {
    DefaultsShaped();
    ApplyAllSound(Defaults().fields, items, j);
  }

  /** A `shortcuts` or `display` category given only as something other
      than a dictionary validates to its default. */
  lemma ValidatedNonDict(items: seq<(string, Json)>, c: int)
    requires 0 <= c < 2
    requires forall l :: 0 <= l < |items| && items[l].0 == Categories[c] ==> !items[l].1.JObj?
    ensures Validated(JObj(items)).fields[c] == Defaults().fields[c]
  {
    DefaultsShaped();
    ApplyAllNonDict(Defaults().fields, items, c);
  }

  /** A document of the default shape passes validation unchanged, so
      validating twice is validating once, and the defaults are kept as
      they are. */
  lemma ShapedIsFixpoint(v: Json)
    requires Shaped(v)
    ensures Validated(v) == v
  {
    var f := v.fields;
    var d := Defaults().fields;
    var s1 := FirstCategory(v);
    var s2 := SecondCategory(v, s1);
    ThirdCategory(v, s2);
    ApplyAllThree(d, f);
  }

  /** The outer loop over a three-member document, one category at a time. */
  lemma ApplyAllThree(d: seq<(string, Json)>, f: seq<(string, Json)>)
    requires |f| == 3
    ensures ApplyAll(d, f) == ApplyCategory(ApplyCategory(ApplyCategory(d, f[0]), f[1]), f[2])
  {
    var f1, f2 := f[..1], f[..2];
    assert f1[..0] == [] && f1[0] == f[0];
    assert ApplyAll(d, f1) == ApplyCategory(d, f[0]);
    assert f2[..1] == f1 && f2[1] == f[1];
    assert ApplyAll(d, f2) == ApplyCategory(ApplyAll(d, f1), f[1]);
    assert f[..2] == f2;
  }

  lemma FirstCategory(v: Json) returns (s1: seq<(string, Json)>)
    requires Shaped(v)
    ensures s1 == ApplyCategory(Defaults().fields, v.fields[0])
    ensures s1 == [v.fields[0], Defaults().fields[1], Defaults().fields[2]]
  {
    var f, d := v.fields, Defaults().fields;
    DefaultKeysDistinct();
    MergeSameKeysAll(DefaultShortcuts(), f[0].1.fields);
    GetShaped(d);
    s1 := ApplyCategory(d, f[0]);
    PutAt(d, 0, f[0].1);
  }

  lemma DefaultKeysDistinct()
    ensures DistinctKeys(DefaultShortcuts()) && DistinctKeys(DefaultDisplay())
  {
  }

  lemma SecondCategory(v: Json, s1: seq<(string, Json)>) returns (s2: seq<(string, Json)>)
    requires Shaped(v)
    requires s1 == [v.fields[0], Defaults().fields[1], Defaults().fields[2]]
    ensures s2 == ApplyCategory(s1, v.fields[1])
    ensures s2 == [v.fields[0], v.fields[1], Defaults().fields[2]]
  {
    var f := v.fields;
    DefaultKeysDistinct();
    MergeSameKeysAll(DefaultDisplay(), f[1].1.fields);
    GetShaped(s1);
    s2 := ApplyCategory(s1, f[1]);
    PutAt(s1, 1, f[1].1);
  }

  lemma ThirdCategory(v: Json, s2: seq<(string, Json)>)
    requires Shaped(v)
    requires s2 == [v.fields[0], v.fields[1], Defaults().fields[2]]
    ensures ApplyCategory(s2, v.fields[2]) == v.fields
  {
    var f := v.fields;
    GetShaped(s2);
    assert Truthy(f[2].1) == f[2].1.b;
    PutAt(s2, 2, JBool(Truthy(f[2].1)));
    assert f == [f[0], f[1], f[2]];
  }

  lemma ValidateIdempotent(incoming: Json)
    ensures Validated(Validated(incoming)) == Validated(incoming)
    ensures Validated(Defaults()) == Defaults()
  {
    ShapedIsFixpoint(Validated(incoming));
    DefaultsShaped();
    ShapedIsFixpoint(Defaults());
  }

  /** The `n`-th name `_backup_and_reset` tries: `.bak`, then `.bak.1`,
      `.bak.2`, ... */
  function Candidate(path: string, n: nat): string {
    if n == 0 then path + ".bak" else path + ".bak." + NatToString(n)
  }

  /** Different attempts try different names. */
  lemma CandidateInjective(path: string, m: nat, n: nat)
    requires Candidate(path, m) == Candidate(path, n)
    ensures m == n
  {
    var c := Candidate(path, m);
    if m != 0 && n != 0 {
      var sm, sn := NatToString(m), NatToString(n);
      assert c[|path| + 5..] == sm by {
        assert c == (path + ".bak.") + sm;
      }
      assert Candidate(path, n)[|path| + 5..] == sn by {
        assert Candidate(path, n) == (path + ".bak.") + sn;
      }
      NatToStringInjective(m, n);
    }
  }

  lemma SubsetCard(a: set<string>, b: set<string>)
    requires a <= b
    ensures |a| <= |b|
  {
    assert b == a + (b - a);
    assert a * (b - a) == {};
  }

  class AppSettings {
    var settings: Json

    /** The defaults; reading the settings file is not modelled. */
    constructor ()
      ensures settings == Defaults()
    {
      settings := Defaults();
    }

    /** `validate_and_update`: the nested loops over the incoming document,
        writing into a fresh copy of the defaults. The document comes from a
        decoder, so its objects have distinct keys; a dictionary given for
        `shortcuts` or `display` is then merged into that category's
        defaults. */
    method ValidateAndUpdate(incoming: Json)
      requires Decoded(incoming)
      modifies this
      ensures settings == Validated(incoming)
      ensures Shaped(settings)
      ensures incoming.JObj? ==>
                forall c, j ::
                  0 <= c < 2 && 0 <= j < |incoming.fields| && incoming.fields[j].0 == Categories[c] && incoming.fields[j].1.JObj? ==>
                  settings.fields[c].1 == JObj(MergeKnown(Defaults().fields[c].1.fields, incoming.fields[j].1.fields))
    {
      if !incoming.JObj? {
        settings := Defaults();
        return;
      }
      var items := incoming.fields;
      var validated := Defaults().fields;
      var i := 0;
      while i < |items|
        invariant 0 <= i <= |items|
        invariant validated == ApplyAll(Defaults().fields, items[..i])
      {
        var (category, values) := items[i];
        if category in Keys(validated) {
          var current := Get(validated, category);
          if values.JObj? && current.JObj? {
            var inner := MergeInto(current.fields, values.fields);
            validated := Put(validated, category, JObj(inner));
          } else if category == "sound" {
            validated := Put(validated, category, JBool(Truthy(values)));
          }
        }
        assert items[..i + 1][..i] == items[..i];
        i := i + 1;
      }
      assert items[..i] == items;
      settings := JObj(validated);
      forall c, j | 0 <= c < 2 && 0 <= j < |items| && items[j].0 == Categories[c] && items[j].1.JObj?
        ensures settings.fields[c].1 == JObj(MergeKnown(Defaults().fields[c].1.fields, items[j].1.fields))
      {
        ValidatedMerges(items, c, j);
      }
    }

    /** The inner loop of `validate_and_update`: each incoming member whose
        key the category has overwrites that member. */
    static method MergeInto(current: seq<(string, Json)>, incoming: seq<(string, Json)>)
      returns (inner: seq<(string, Json)>)
      ensures inner == MergeKnown(current, incoming)
    {
      inner := current;
      var j := 0;
      while j < |incoming|
        invariant 0 <= j <= |incoming|
        invariant inner == MergeKnown(current, incoming[..j])
      {
        var (k, v) := incoming[j];
        if k in Keys(inner) {
          inner := Put(inner, k, v);
        }
        assert incoming[..j + 1][..j] == incoming[..j];
        j := j + 1;
      }
      assert incoming[..j] == incoming;
    }

    function GetSettings(): (s: Json)
      reads this
    {
      settings
    }
  }

  /** The name `_backup_and_reset` moves a corrupt settings file to: the
      first of `.bak`, `.bak.1`, `.bak.2`, ... that does not exist yet. The
      loop ends because the attempted names are all different and only
      finitely many files exist. */
  method BackupName(settingsPath: string, existing: set<string>) returns (backupPath: string, ghost n: nat)
    ensures backupPath == Candidate(settingsPath, n) && backupPath !in existing
    ensures forall m :: 0 <= m < n ==> Candidate(settingsPath, m) in existing
  {
    backupPath := settingsPath + ".bak";
    var counter := 1;
    n := 0;
    ghost var tried: set<string> := {};
    while backupPath in existing
      invariant counter == n + 1
      invariant backupPath == Candidate(settingsPath, n)
      invariant forall m :: 0 <= m < n ==> Candidate(settingsPath, m) in existing
      invariant tried == Tried(settingsPath, n) && |tried| == n && tried <= existing
      decreases |existing| - |tried|
    {
      TriedGrows(settingsPath, n);
      tried := tried + {backupPath};
      SubsetCard(tried, existing);
      backupPath := settingsPath + ".bak." + NatToString(counter);
      counter := counter + 1;
      n := n + 1;
    }
  }

  /** The names tried before attempt `n`. */
  ghost function Tried(path: string, n: nat): set<string> {
    set m | 0 <= m < n :: Candidate(path, m)
  }

  /** Each attempt adds a name not tried before. */
  lemma TriedGrows(path: string, n: nat)
    requires |Tried(path, n)| == n
    ensures Candidate(path, n) !in Tried(path, n)
    ensures Tried(path, n + 1) == Tried(path, n) + {Candidate(path, n)}
    ensures |Tried(path, n + 1)| == n + 1
  {
    forall m | 0 <= m < n
      ensures Candidate(path, m) != Candidate(path, n)
    {
      if Candidate(path, m) == Candidate(path, n) {
        CandidateInjective(path, m, n);
      }
    }
  }
}
