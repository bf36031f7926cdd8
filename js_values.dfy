/**
 * The untyped JavaScript values the flow modeler stores in an element's `value`,
 * JavaScript truthiness, and the deep copy `JSON.parse(JSON.stringify(x))`.
 */
module JsValues {

  /** A JavaScript value as far as JSON can carry it. Object members keep their order. */
  datatype JsValue =
    | Undefined
    | Null
    | Bool(b: bool)
    | Num(n: int)
    | Str(s: string)
    | Arr(items: seq<JsValue>)
    | Obj(members: seq<Member>)

  datatype Member = Member(key: string, val: JsValue)

  /** The falsy values JSON can carry. */
  const FALSY: set<JsValue> := {Undefined, Null, Bool(false), Num(0), Str("")}

  /** JavaScript truthiness: every array and object, even an empty one, is truthy. */
  predicate Truthy(v: JsValue)
    ensures Truthy(v) <==> v !in FALSY
  {
    match v
    case Undefined => false
    case Null => false
    case Bool(b) => b
    case Num(n) => n != 0
    case Str(s) => s != ""
    case Arr(_) => true
    case Obj(_) => true
  }

  /** The members `JSON.stringify` writes out: those whose value is not `undefined`. */
  function Defined(ms: seq<Member>): (r: seq<Member>)
    ensures forall m :: m in r <==> m in ms && !m.val.Undefined?
    ensures |r| <= |ms|
    ensures |ms| == 1 ==> (r == [] <==> ms[0].val.Undefined?)
    ensures (forall i :: 0 <= i < |ms| ==> !ms[i].val.Undefined?) ==> r == ms
  {
    if ms == [] then []
    else (if ms[0].val.Undefined? then [] else [ms[0]]) + Defined(ms[1..])
  }

  /**
   * The kept members keep their order: what is written for two runs of members is
   * what is written for the first followed by what is written for the second.
   */
  lemma {:induction false} DefinedAppend(a: seq<Member>, b: seq<Member>)
    ensures Defined(a + b) == Defined(a) + Defined(b)
  {
    if a == [] {
      assert a + b == b;
    } else {
      assert (a + b)[0] == a[0] && (a + b)[1..] == a[1..] + b;
      DefinedAppend(a[1..], b);
      var head := if a[0].val.Undefined? then [] else [a[0]];
      assert Defined(a + b) == head + (Defined(a[1..]) + Defined(b));
    }
  }

  /**
   * `JSON.parse(JSON.stringify(v))` for a value that sits inside an object:
   * object members that are `undefined` disappear, array items that are `undefined`
   * become `null`, and a member that is itself `undefined` reads back as `undefined`.
   */
  function Copy(v: JsValue): (r: JsValue)
    ensures r.Arr? <==> v.Arr?
    ensures v.Arr? ==> |r.items| == |v.items|
    ensures r.Obj? <==> v.Obj?
    ensures v.Obj? ==> |r.members| <= |v.members|
    ensures !v.Arr? && !v.Obj? ==> r == v
  {
    match v
    case Arr(items) =>
      Arr(seq(|items|, i requires 0 <= i < |items| => if items[i].Undefined? then Null else Copy(items[i])))
    case Obj(members) =>
      var kept := Defined(members);
      Obj(seq(|kept|, i requires 0 <= i < |kept| => Member(kept[i].key, Copy(kept[i].val))))
    case _ => v
  }

  /** A value that survives the JSON round trip unchanged: no `undefined` anywhere inside it. */
  predicate Normal(v: JsValue)
  {
    match v
    case Arr(items) => forall i :: 0 <= i < |items| ==> !items[i].Undefined? && Normal(items[i])
    case Obj(members) => forall i :: 0 <= i < |members| ==> !members[i].val.Undefined? && Normal(members[i].val)
    case _ => true
  }

  /**
   * What the copy holds: an object keeps exactly its defined members, in order, each
   * with its value copied; an array keeps every item, copied, with `undefined` items
   * turned into `null`.
   */
  lemma CopyContents(v: JsValue)
    ensures v.Obj? ==>
      && |Copy(v).members| == |Defined(v.members)|
      && forall i :: 0 <= i < |Copy(v).members| ==>
           Copy(v).members[i] == Member(Defined(v.members)[i].key, Copy(Defined(v.members)[i].val))
    ensures v.Obj? ==> forall m :: m in v.members && !m.val.Undefined? ==> Member(m.key, Copy(m.val)) in Copy(v).members
    ensures v.Arr? ==> forall i :: 0 <= i < |v.items| ==>
      Copy(v).items[i] == (if v.items[i].Undefined? then Null else Copy(v.items[i]))
  {
    if v.Obj? {
      var kept := Defined(v.members);
      forall m | m in v.members && !m.val.Undefined?
        ensures Member(m.key, Copy(m.val)) in Copy(v).members
      {
        var i :| 0 <= i < |kept| && kept[i] == m;
        assert Copy(v).members[i] == Member(m.key, Copy(m.val));
      }
    }
  }

  /** `{a: 1, b: undefined}` copies to `{a: 1}`, and `[undefined]` to `[null]`. */
  lemma CopyExamples()
    ensures Copy(Obj([Member("a", Num(1)), Member("b", Undefined)])) == Obj([Member("a", Num(1))])
    ensures Copy(Arr([Undefined, Num(2)])) == Arr([Null, Num(2)])
  {
    var ms := [Member("a", Num(1)), Member("b", Undefined)];
    assert Defined(ms) == [Member("a", Num(1))] by {
      assert ms[1..] == [Member("b", Undefined)];
      assert ms[1..][1..] == [];
    }
  }

  /** The copy keeps a value's kind, so it keeps its truthiness. */
  lemma CopyKeepsTruthiness(v: JsValue)
    ensures Truthy(Copy(v)) == Truthy(v)
    ensures Copy(v).Undefined? <==> v.Undefined?
  {
  }

  /** A normal value is its own copy. */
  lemma {:induction false} CopyFixesNormal(v: JsValue)
    requires Normal(v)
    ensures Copy(v) == v
  {
    match v
    case Arr(items) =>
      forall i | 0 <= i < |items|
        ensures Copy(items[i]) == items[i]
      {
        CopyFixesNormal(items[i]);
      }
      assert Copy(v).items == items;
    case Obj(members) =>
      assert Defined(members) == members;
      forall i | 0 <= i < |members|
        ensures Copy(members[i].val) == members[i].val
      {
        CopyFixesNormal(members[i].val);
      }
      assert Copy(v).members == members;
    case _ =>
  }

  /** Every copy is normal. */
  lemma {:induction false} CopyIsNormal(v: JsValue)
    ensures Normal(Copy(v))
  {
    match v
    case Arr(items) =>
      forall i | 0 <= i < |items| && !items[i].Undefined?
        ensures Normal(Copy(items[i]))
      {
        CopyIsNormal(items[i]);
      }
    case Obj(members) =>
      var kept := Defined(members);
      forall i | 0 <= i < |kept|
        ensures Normal(Copy(kept[i].val))
      {
        assert kept[i] in members;
        CopyIsNormal(kept[i].val);
      }
    case _ =>
  }

  /** Copying twice is copying once: a deep copy of a deep copy changes nothing. */
  lemma CopyIdempotent(v: JsValue)
    ensures Copy(Copy(v)) == Copy(v)
  {
    CopyIsNormal(v);
    CopyFixesNormal(Copy(v));
  }
}
