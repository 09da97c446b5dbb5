/** JavaScript values as they arrive in HTTP response bodies, with the
    operators the source applies to them: optional chaining (`?.`),
    truthiness, `includes` and `filter(...).map(m => m.id)`. */
module JsValue {
  import opened Wrappers
  import Lists

  datatype Value =
    | Undefined
    | Null
    | Bool(b: bool)
    | Num(n: real)
    | Str(s: string)
    | Arr(elems: seq<Value>)
    | Obj(fields: map<string, Value>)

  predicate IsNullish(v: Value) { v.Undefined? || v.Null? }

  /** `v?.key` (and `v.key` when v is not nullish): never throws. */
  function Get(v: Value, key: string): (r: Value)
    ensures !v.Obj? ==> r == Undefined
    ensures v.Obj? && key in v.fields ==> r == v.fields[key]
  {
    if v.Obj? && key in v.fields then v.fields[key] else Undefined
  }

  /** `v?.[i]`. */
  function At(v: Value, i: nat): (r: Value)
    ensures v.Arr? && i < |v.elems| ==> r == v.elems[i]
    ensures v.Arr? && i >= |v.elems| ==> r == Undefined
  {
    match v
    case Arr(es) => if i < |es| then es[i] else Undefined
    case Str(s) => if i < |s| then Str([s[i]]) else Undefined
    case _ => Undefined
  }

  datatype Step = Key(key: string) | Index(index: nat)

  /** An optional chain `v?.a?.[0]?.b ...`. */
  function Chain(v: Value, steps: seq<Step>): Value
    decreases |steps|
  {
    if steps == [] then v
    else
      var next := match steps[0]
        case Key(k) => Get(v, k)
        case Index(i) => At(v, i);
      Chain(next, steps[1..])
  }

  predicate Truthy(v: Value) {
    match v
    case Undefined => false
    case Null => false
    case Bool(b) => b
    case Num(n) => n != 0.0
    case Str(s) => s != []
    case Arr(_) => true
    case Obj(_) => true
  }

  /** The string a truthiness test lets through: a non-empty string. */
  function TextOf(v: Value): (r: Option<string>)
    ensures r.Some? <==> v.Str? && v.s != []
    ensures r.Some? ==> Truthy(v) && r.value != [] && v == Str(r.value)
  {
    if v.Str? && v.s != [] then Some(v.s) else None
  }

  /** `a || b` where both sides are strings: the first non-empty one. */
  function TextOr(v: Value, fallback: string): (r: string)
    ensures TextOf(v).Some? ==> r == TextOf(v).value
    ensures TextOf(v).None? ==> r == fallback
  {
    TextOf(v).GetOr(fallback)
  }

  predicate HasPrefix(s: string, t: string) { |t| <= |s| && s[..|t|] == t }

  /** `s.includes(t)` on strings. */
  predicate HasSubstring(s: string, t: string)
    decreases |s|
  {
    HasPrefix(s, t) || (s != [] && HasSubstring(s[1..], t))
  }

  lemma {:induction false} HasSubstringAt(s: string, t: string, i: nat)
    requires i + |t| <= |s| && s[i..i + |t|] == t
    ensures HasSubstring(s, t)
  {
    if i > 0 {
      assert s[1..][i - 1..i - 1 + |t|] == s[i..i + |t|];
      HasSubstringAt(s[1..], t, i - 1);
    }
  }

  /** `v.includes(x)` for a string argument x: membership in an array,
      substring test on a string, a TypeError (None) on anything else. */
  function Includes(v: Value, x: string): (r: Option<bool>)
    ensures v.Arr? ==> r == Some(Str(x) in v.elems)
    ensures v.Str? ==> r == Some(HasSubstring(v.s, x))
    ensures r.None? <==> !(v.Arr? || v.Str?)
  {
    match v
    case Arr(es) => Some(Str(x) in es)
    case Str(s) => Some(HasSubstring(s, x))
    case _ => None
  }

  /** `list.filter(keep).map(m => m.id)`, where `keep` may throw a TypeError
      (None); the whole call then throws. */
  function SelectIds(list: seq<Value>, keep: Value -> Option<bool>): (r: Option<seq<Value>>)
    ensures r.None? <==> exists i :: 0 <= i < |list| && keep(list[i]).None?
    ensures r.Some? ==> |r.value| <= |list|
    ensures r.Some? ==> forall id :: id in r.value ==>
              exists m :: m in list && keep(m) == Some(true) && Get(m, "id") == id
  {
    if list == [] then Some([])
    else
      match keep(list[0])
      case None => None
      case Some(k) =>
        match SelectIds(list[1..], keep)
        case None =>
          assert forall i :: 0 < i < |list| ==> list[1..][i - 1] == list[i];
          None
        case Some(ids) =>
          assert forall i :: 0 < i < |list| ==> list[1..][i - 1] == list[i];
          if k then Some([Get(list[0], "id")] + ids) else Some(ids)
  }

  /** The predicate `filter(keep)` applies to an element once no call of
      `keep` has thrown: a truthy verdict. */
  function Kept(keep: Value -> Option<bool>): Value -> bool
  {
    m => keep(m) == Some(true)
  }

  /** `ms.map(m => m.id)`: one id per element, in order. */
  function Ids(ms: seq<Value>): (r: seq<Value>)
    ensures |r| == |ms|
    ensures forall i :: 0 <= i < |ms| ==> r[i] == Get(ms[i], "id")
  {
    if ms == [] then [] else [Get(ms[0], "id")] + Ids(ms[1..])
  }

  /** When nothing throws, the selection is exactly the filter followed by
      the map: every kept element contributes its id, in order, and no
      other id appears. */
  lemma {:induction false} SelectIdsFilterMap(list: seq<Value>, keep: Value -> Option<bool>)
    requires SelectIds(list, keep).Some?
    ensures SelectIds(list, keep).value == Ids(Lists.Filter(list, Kept(keep)))
  {
    if list != [] {
      var rest := list[1..];
      assert keep(list[0]).Some? && SelectIds(rest, keep).Some?;
      SelectIdsFilterMap(rest, keep);
      var kept := Lists.Filter(rest, Kept(keep));
      if keep(list[0]).value {
        assert Kept(keep)(list[0]);
        assert Lists.Filter(list, Kept(keep)) == [list[0]] + kept;
        assert ([list[0]] + kept)[1..] == kept;
        assert Ids([list[0]] + kept) == [Get(list[0], "id")] + Ids(kept);
      } else {
        assert !Kept(keep)(list[0]);
        assert Lists.Filter(list, Kept(keep)) == kept;
      }
    }
  }

  /** The consequences a caller reads off: the ids of all kept elements,
      each at its place, and as many as there are kept elements. */
  lemma SelectIdsComplete(list: seq<Value>, keep: Value -> Option<bool>)
    requires SelectIds(list, keep).Some?
    ensures |SelectIds(list, keep).value| == |Lists.Filter(list, Kept(keep))|
    ensures forall i :: 0 <= i < |list| && keep(list[i]) == Some(true) ==>
              Get(list[i], "id") in SelectIds(list, keep).value
  {
    SelectIdsFilterMap(list, keep);
    var kept := Lists.Filter(list, Kept(keep));
    forall i | 0 <= i < |list| && keep(list[i]) == Some(true)
      ensures Get(list[i], "id") in SelectIds(list, keep).value
    {
      assert Kept(keep)(list[i]);
      assert list[i] in kept;
      var j :| 0 <= j < |kept| && kept[j] == list[i];
      assert Ids(kept)[j] == Get(list[i], "id");
    }
  }

  /** One element: it throws, is dropped, or contributes its id. With
      SelectIdsAppend this fixes the selection of every list. */
  lemma SelectIdsSingle(m: Value, keep: Value -> Option<bool>)
    ensures SelectIds([m], keep) ==
      if keep(m).None? then None else Some(if keep(m).value then [Get(m, "id")] else [])
  {
    assert [m][1..] == [];
    assert SelectIds([m][1..], keep) == Some([]);
    assert [m][0] == m;
    if keep(m) == Some(true) {
      assert [Get(m, "id")] + [] == [Get(m, "id")];
    }
  }

  /** The ids come out in response order: selection distributes over
      concatenation. */
  lemma {:induction false} SelectIdsAppend(a: seq<Value>, b: seq<Value>, keep: Value -> Option<bool>)
    requires SelectIds(a, keep).Some? && SelectIds(b, keep).Some?
    ensures SelectIds(a + b, keep) == Some(SelectIds(a, keep).value + SelectIds(b, keep).value)
  {
    if a == [] {
      assert a + b == b;
      assert SelectIds(a, keep).value == [];
      assert SelectIds(a + b, keep) == SelectIds(b, keep);
      assert [] + SelectIds(b, keep).value == SelectIds(b, keep).value;
    } else {
      assert (a + b)[0] == a[0];
      assert (a + b)[1..] == a[1..] + b;
      assert keep(a[0]).Some? && SelectIds(a[1..], keep).Some?;
      SelectIdsAppend(a[1..], b, keep);
      var ra, rb := SelectIds(a[1..], keep).value, SelectIds(b, keep).value;
      if keep(a[0]).value {
        assert SelectIds(a, keep).value == [Get(a[0], "id")] + ra;
        assert SelectIds(a + b, keep).value == [Get(a[0], "id")] + (ra + rb);
        assert [Get(a[0], "id")] + (ra + rb) == ([Get(a[0], "id")] + ra) + rb;
      } else {
        assert SelectIds(a, keep).value == ra;
      }
    }
  }
}
