/** The slice of JavaScript's value model the front end relies on: values
    and their truthiness, and plain objects as insertion-ordered property
    lists, with property assignment and object spread. */
module Js {

  /** A browser File as the upload handlers see it. */
  datatype File = File(name: string, size: nat, mimeType: string)

  /** A JavaScript value. Numbers are kept as reals (NaN is not modelled);
      functions are known only by an identity. */
  datatype JsValue =
    | Undefined
    | Null
    | Bool(b: bool)
    | Num(x: real)
    | Str(s: string)
    | FileRef(file: File)
    | Fn(id: nat)
    | Obj(fields: seq<(string, JsValue)>)

  /** JavaScript's ToBoolean. */
  predicate Truthy(v: JsValue) {
    match v
    case Undefined => false
    case Null => false
    case Bool(b) => b
    case Num(x) => x != 0.0
    case Str(s) => s != ""
    case FileRef(_) => true
    case Fn(_) => true
    case Obj(_) => true
  }

  /** `v === null || v === undefined`. */
  predicate IsNullish(v: JsValue) {
    v.Undefined? || v.Null?
  }

  /** The own enumerable properties of a plain object, in the order
      `Object.keys` reports them (insertion order for non-index keys). */
  type Entries = seq<(string, JsValue)>

  function Keys(o: Entries): (ks: seq<string>)
    ensures |ks| == |o|
    ensures forall i :: 0 <= i < |o| ==> ks[i] == o[i].0
  {
    if o == [] then [] else [o[0].0] + Keys(o[1..])
  }

  /** No key appears twice, as in every JavaScript object. */
  predicate UniqueKeys(o: Entries) {
    forall i, j :: 0 <= i < j < |o| ==> o[i].0 != o[j].0
  }

  /** `o[k]`: the value of property `k`, `undefined` when absent. */
  function Get(o: Entries, k: string): JsValue
  {
    if o == [] then Undefined else if o[0].0 == k then o[0].1 else Get(o[1..], k)
  }

  /** A property the object lacks reads as `undefined`. */
  lemma {:induction false} GetAbsent(o: Entries, k: string)
    requires k !in Keys(o)
    ensures Get(o, k) == Undefined
  {
    if o != [] {
      assert Keys(o) == [o[0].0] + Keys(o[1..]);
      GetAbsent(o[1..], k);
    }
  }

  /** Reading a property of a concatenation: the first part wins. */
  lemma {:induction false} GetConcat(a: Entries, b: Entries, k: string)
    ensures Get(a + b, k) == if k in Keys(a) then Get(a, k) else Get(b, k)
  {
    if a == [] {
      assert a + b == b;
    } else {
      assert (a + b)[0] == a[0];
      assert (a + b)[1..] == a[1..] + b;
      assert Keys(a) == [a[0].0] + Keys(a[1..]);
      GetConcat(a[1..], b, k);
    }
  }

  /** `o[k] = v`: the property is replaced in place, or added last. */
  function Put(o: Entries, k: string, v: JsValue): Entries {
    if o == [] then [(k, v)]
    else if o[0].0 == k then [(k, v)] + o[1..]
    else [o[0]] + Put(o[1..], k, v)
  }

  /** After `o[k] = v`, `k` reads `v` and every other property reads as before. */
  lemma {:induction false} PutGet(o: Entries, k: string, v: JsValue, k': string)
    ensures Get(Put(o, k, v), k') == if k' == k then v else Get(o, k')
  {
    if o != [] && o[0].0 != k {
      PutGet(o[1..], k, v, k');
      assert Put(o, k, v)[1..] == Put(o[1..], k, v);
    } else if o != [] {
      assert Put(o, k, v)[1..] == o[1..];
    }
  }

  /** An existing property keeps its place; a new one goes last. */
  lemma {:induction false} PutKeys(o: Entries, k: string, v: JsValue)
    ensures k in Keys(o) ==> Keys(Put(o, k, v)) == Keys(o)
    ensures k !in Keys(o) ==> Keys(Put(o, k, v)) == Keys(o) + [k]
  {
    if o != [] && o[0].0 != k {
      PutKeys(o[1..], k, v);
      assert Keys(o) == [o[0].0] + Keys(o[1..]);
      assert Keys(Put(o, k, v)) == [o[0].0] + Keys(Put(o[1..], k, v));
    }
  }

  /** Assigning a property the object lacks appends it. */
  lemma {:induction false} PutNewKey(o: Entries, k: string, v: JsValue)
    requires forall i :: 0 <= i < |o| ==> o[i].0 != k
    ensures Put(o, k, v) == o + [(k, v)]
  {
    if o != [] {
      PutNewKey(o[1..], k, v);
      assert o == [o[0]] + o[1..];
    }
  }

  /** Assigning the property at position `i` replaces its value in place. */
  lemma {:induction false} PutExistingKey(o: Entries, i: nat, v: JsValue)
    requires i < |o|
    requires forall j :: 0 <= j < i ==> o[j].0 != o[i].0
    ensures Put(o, o[i].0, v) == o[..i] + [(o[i].0, v)] + o[i + 1..]
  {
    var k := o[i].0;
    if i > 0 {
      var t := o[1..];
      assert t[i - 1] == o[i];
      assert o[0].0 != k;
      PutExistingKey(t, i - 1, v);
      assert Put(o, k, v) == [o[0]] + Put(t, k, v);
      assert t[..i - 1] == o[1..i];
      assert t[i..] == o[i + 1..];
      assert o[..i] == [o[0]] + o[1..i];
    }
  }

  /** Spreading properties the object lacks appends them in order. */
  lemma {:induction false} SpreadNewKeys(o: Entries, p: Entries)
    requires forall i, j :: 0 <= i < |o| && 0 <= j < |p| ==> o[i].0 != p[j].0
    requires UniqueKeys(p)
    ensures Spread(o, p) == o + p
    decreases |p|
  {
    if p != [] {
      var p' := p[1..];
      PutNewKey(o, p[0].0, p[0].1);
      var o' := o + [p[0]];
      assert Spread(o, p) == Spread(o', p');
      forall i, j | 0 <= i < |o'| && 0 <= j < |p'| ensures o'[i].0 != p'[j].0 {
        assert p'[j] == p[j + 1];
        if i == |o| { assert o'[i] == p[0]; } else { assert o'[i] == o[i]; }
      }
      assert UniqueKeys(p') by {
        forall i, j | 0 <= i < j < |p'| ensures p'[i].0 != p'[j].0 {
          assert p'[i] == p[i + 1] && p'[j] == p[j + 1];
        }
      }
      SpreadNewKeys(o', p');
      assert o' + p' == o + p;
    }
  }

  /** Assignment never duplicates a key. */
  lemma PutUnique(o: Entries, k: string, v: JsValue)
    requires UniqueKeys(o)
    ensures UniqueKeys(Put(o, k, v))
  {
    PutKeys(o, k, v);
    var r := Put(o, k, v);
    assert forall i :: 0 <= i < |r| ==> r[i].0 == Keys(r)[i];
    assert forall i :: 0 <= i < |o| ==> o[i].0 == Keys(o)[i];
  }

  /** `{...o, ...p}`: the properties of `p` assigned onto a copy of `o`, in order. */
  function Spread(o: Entries, p: Entries): Entries
    decreases |p|
  {
    if p == [] then o else Spread(Put(o, p[0].0, p[0].1), p[1..])
  }

  /** Spreading `p` over `o`: a property of `p` wins, every other property
      keeps its value from `o`. */
  lemma {:induction false} SpreadGet(o: Entries, p: Entries, k: string)
    requires UniqueKeys(p)
    ensures Get(Spread(o, p), k) == if k in Keys(p) then Get(p, k) else Get(o, k)
    decreases |p|
  {
    if p != [] {
      assert UniqueKeys(p[1..]);
      SpreadGet(Put(o, p[0].0, p[0].1), p[1..], k);
      PutGet(o, p[0].0, p[0].1, k);
      assert Keys(p) == [p[0].0] + Keys(p[1..]);
      if k == p[0].0 {
        assert forall i :: 0 <= i < |p[1..]| ==> Keys(p[1..])[i] != k;
      }
    }
  }

  /** The keys of a spread: those of `o` in their order, then the new keys of `p` in theirs. */
  lemma {:induction false} SpreadKeepsOrder(o: Entries, p: Entries)
    ensures Keys(o) <= Keys(Spread(o, p))
    decreases |p|
  {
    if p != [] {
      var o' := Put(o, p[0].0, p[0].1);
      PutKeys(o, p[0].0, p[0].1);
      SpreadKeepsOrder(o', p[1..]);
    }
  }
}
