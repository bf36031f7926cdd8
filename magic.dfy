/**
 * The "magic" adapter: try every benchmark-output parser in a fixed order and
 * keep the first result. The individual parsers are parameters.
 */
module AdapterMagic {
  import opened Wrappers

  /** The nine parsers the magic adapter tries. */
  datatype Adapters<R> = Adapters(
    json: string -> Option<R>,
    cSharp: string -> Option<R>,
    cpp: string -> Option<R>,
    go: string -> Option<R>,
    java: string -> Option<R>,
    js: string -> Option<R>,
    python: string -> Option<R>,
    ruby: string -> Option<R>,
    rust: string -> Option<R>)

  /** `Option::or_else`: keep a result, otherwise take the alternative. */
  function OrElse<R>(first: Option<R>, alternative: Option<R>): Option<R>
  {
    if first.Some? then first else alternative
  }

  /** `AdapterMagic::parse`: the chain of `or_else` calls, JSON first and Rust last. */
  function Parse<R>(input: string, adapters: Adapters<R>): (r: Option<R>)
    ensures r.Some? ==> r in Attempts(input, adapters)
    ensures adapters.json(input).Some? ==> r == adapters.json(input)
    ensures adapters.rust(input).Some? ==> r.Some?
  {
    OrElse(OrElse(OrElse(OrElse(OrElse(OrElse(OrElse(OrElse(
      adapters.json(input),
      adapters.cSharp(input)),
      adapters.cpp(input)),
      adapters.go(input)),
      adapters.java(input)),
      adapters.js(input)),
      adapters.python(input)),
      adapters.ruby(input)),
      adapters.rust(input))
  }

  /** What each parser makes of the input, in the order they are tried. */
  function Attempts<R>(input: string, adapters: Adapters<R>): (r: seq<Option<R>>)
    ensures |r| == 9
  {
    [adapters.json(input), adapters.cSharp(input), adapters.cpp(input), adapters.go(input), adapters.java(input),
     adapters.js(input), adapters.python(input), adapters.ruby(input), adapters.rust(input)]
  }

  /** The first present result of a list, as an independent reference. */
  function FirstSome<R>(results: seq<Option<R>>): Option<R>
  {
    if results == [] then None
    else if results[0].Some? then results[0]
    else FirstSome(results[1..])
  }

  /** The first present result is absent exactly when every result is absent. */
  lemma {:induction false} FirstSomeNone<R>(results: seq<Option<R>>)
    ensures FirstSome(results).None? <==> forall i :: 0 <= i < |results| ==> results[i].None?
  {
    if results != [] {
      FirstSomeNone(results[1..]);
      if results[0].None? {
        assert forall i :: 1 <= i < |results| ==> results[i] == results[1..][i - 1];
      }
    }
  }

  /** The first present result is the one at the first index whose result is present. */
  lemma {:induction false} FirstSomeAt<R>(results: seq<Option<R>>, k: nat)
    requires k < |results| && results[k].Some?
    requires forall j :: 0 <= j < k ==> results[j].None?
    ensures FirstSome(results) == results[k]
  {
    if k > 0 {
      FirstSomeAt(results[1..], k - 1);
    }
  }

  /** Trying one more parser at the end is one more `or_else`. */
  lemma {:induction false} FirstSomeSnoc<R>(results: seq<Option<R>>, last: Option<R>)
    ensures FirstSome(results + [last]) == OrElse(FirstSome(results), last)
  {
    if results != [] {
      assert (results + [last])[1..] == results[1..] + [last];
      FirstSomeSnoc(results[1..], last);
    }
  }

  /** The chain as written picks the first present result of the nine parsers in order. */
  lemma ParseIsFirstSome<R>(input: string, adapters: Adapters<R>)
    ensures Parse(input, adapters) == FirstSome(Attempts(input, adapters))
  {
    var a := Attempts(input, adapters);
    assert FirstSome(a[..1]) == a[0];
    assert a[..2] == a[..1] + [a[1]];
    FirstSomeSnoc(a[..1], a[1]);
    assert a[..3] == a[..2] + [a[2]];
    FirstSomeSnoc(a[..2], a[2]);
    assert a[..4] == a[..3] + [a[3]];
    FirstSomeSnoc(a[..3], a[3]);
    assert a[..5] == a[..4] + [a[4]];
    FirstSomeSnoc(a[..4], a[4]);
    assert a[..6] == a[..5] + [a[5]];
    FirstSomeSnoc(a[..5], a[5]);
    assert a[..7] == a[..6] + [a[6]];
    FirstSomeSnoc(a[..6], a[6]);
    assert a[..8] == a[..7] + [a[7]];
    FirstSomeSnoc(a[..7], a[7]);
    assert a[..9] == a[..8] + [a[8]];
    FirstSomeSnoc(a[..8], a[8]);
    assert a[..9] == a;
  }

  /** A JSON result wins over every other parser. */
  lemma JsonFirst<R>(input: string, adapters: Adapters<R>)
    requires adapters.json(input).Some?
    ensures Parse(input, adapters) == adapters.json(input)
  {
  }

  /** The magic adapter finds nothing exactly when none of the nine parsers does. */
  lemma ParseNoneIffAllNone<R>(input: string, adapters: Adapters<R>)
    ensures Parse(input, adapters).None? <==> forall i :: 0 <= i < 9 ==> Attempts(input, adapters)[i].None?
  {
    ParseIsFirstSome(input, adapters);
    FirstSomeNone(Attempts(input, adapters));
  }

  /**
   * The result is the first parser's in order that accepts the input; the parsers after it
   * play no part, so replacing them changes nothing.
   */
  lemma ParseIsFirstAccepting<R>(input: string, adapters: Adapters<R>, other: Adapters<R>, k: nat)
    requires k < 9 && Attempts(input, adapters)[k].Some?
    requires forall j :: 0 <= j < k ==> Attempts(input, adapters)[j].None?
    requires Attempts(input, other)[..k + 1] == Attempts(input, adapters)[..k + 1]
    ensures Parse(input, adapters) == Attempts(input, adapters)[k]
    ensures Parse(input, other) == Parse(input, adapters)
  {
    var a := Attempts(input, adapters);
    var b := Attempts(input, other);
    ParseIsFirstSome(input, adapters);
    ParseIsFirstSome(input, other);
    FirstSomeAt(a, k);
    assert forall j :: 0 <= j <= k ==> b[j] == b[..k + 1][j] == a[..k + 1][j] == a[j];
    FirstSomeAt(b, k);
  }
}
