/** What the post and profile controllers share: the first response a
    handler sends, the validator's verdict, the little of JavaScript's
    value semantics that the handlers' guards depend on, and the two
    array operations they use to edit embedded lists (`indexOf` and
    `splice(k, 1)`). */
module Common {

  datatype Option<+T> = None | Some(value: T)

  /** User ids are compared as strings (`x.user.toString()` against `req.user.id`). */
  type UserId = string

  /** The verdict of an input validator (validation/post, validation/profile):
      whether the body is acceptable and, if not, one message per field. */
  datatype Validation = Validation(isValid: bool, errors: map<string, string>)

  /** The first response a handler sends. A handler that sends a second
      response (the "headers already sent" cases) is modelled by its first. */
  datatype Response<+T> =
    | Ok(value: T)
    | NotFound
    | Unauthorized
    | InvalidInput(errors: map<string, string>)
    | AlreadyLiked
    | NotLiked
    | CommentNotFound
    | DuplicateHandle
      // the handler threw a TypeError before it touched the store
    | Threw

  /** The JavaScript values the guards of the handlers compare and test. */
  datatype JsValue = Undefined | Bool(b: bool) | Str(s: string) | Array(length: nat)

  predicate IsPrimitive(v: JsValue) {
    !v.Array?
  }

  /** JavaScript's ToBoolean: `undefined`, `false` and `""` are falsy; every
      array, the empty one included, is truthy. */
  predicate Truthy(v: JsValue) {
    match v
    case Undefined => false
    case Bool(b) => b
    case Str(s) => s != ""
    case Array(_) => true
  }

  /** `===` on primitive values: the same type and the same value. */
  predicate StrictEquals(a: JsValue, b: JsValue)
    requires IsPrimitive(a) && IsPrimitive(b)
  {
    a == b
  }

  /** The string the `typeof` operator yields. */
  function TypeOf(v: JsValue): (t: string)
    ensures t == "undefined" <==> v.Undefined?
  {
    match v
    case Undefined => "undefined"
    case Bool(_) => "boolean"
    case Str(_) => "string"
    case Array(_) => "object"
  }

  /** A field of a request body: absent (`undefined`) or a string. */
  function FromBody(field: Option<string>): JsValue {
    match field
    case None => Undefined
    case Some(s) => Str(s)
  }

  /** `if (req.body.x)`: the field is present and not the empty string. */
  predicate TruthyField(field: Option<string>)
    ensures TruthyField(field) <==> field.Some? && field.value != ""
  {
    Truthy(FromBody(field))
  }

  /** `Array.prototype.indexOf`: the position of the first occurrence of `x`, or -1. */
  function IndexOf<T(==)>(xs: seq<T>, x: T): (k: int)
    ensures -1 <= k < |xs|
    ensures k == -1 <==> x !in xs
    ensures 0 <= k ==> xs[k] == x && x !in xs[..k]
  {
    if xs == [] then -1
    else if xs[0] == x then 0
    else
      var k := IndexOf(xs[1..], x);
      if k == -1 then -1
      else
        assert xs[..k + 1] == [xs[0]] + xs[1..][..k];
        k + 1
  }

  /** `Array.prototype.filter`: the elements that `keep` accepts, in order. */
  function Filter<T(!new)>(xs: seq<T>, keep: T -> bool): (r: seq<T>)
    ensures |r| <= |xs|
    ensures forall x :: x in r <==> x in xs && keep(x)
    ensures r == [] <==> forall x :: x in xs ==> !keep(x)
  {
    if xs == [] then []
    else
      assert xs == [xs[0]] + xs[1..];
      (if keep(xs[0]) then [xs[0]] else []) + Filter(xs[1..], keep)
  }

  /** `xs.splice(k, 1)` for a position inside the array: the element at `k`
      leaves, the others keep their order. */
  function Splice1<T>(xs: seq<T>, k: nat): (r: seq<T>)
    requires k < |xs|
    ensures |r| == |xs| - 1
    ensures forall j :: 0 <= j < k ==> r[j] == xs[j]
    ensures forall j :: k <= j < |r| ==> r[j] == xs[j + 1]
    ensures multiset(r) + multiset{xs[k]} == multiset(xs)
  {
    assert xs == xs[..k] + [xs[k]] + xs[k + 1..];
    xs[..k] + xs[k + 1..]
  }

  /** A sequence is its prefix before `k`, the element at `k` and the rest. */
  lemma SplitAround<T>(xs: seq<T>, k: nat)
    requires k < |xs|
    ensures xs[..k] + [xs[k]] + xs[k + 1..] == xs
  {
  }

  /** In `a + [x] + b` where `a` does not hold `x`, `indexOf(x)` is `|a|`. */
  lemma {:induction false} IndexOfAfter<T>(a: seq<T>, x: T, b: seq<T>)
    requires x !in a
    ensures IndexOf(a + [x] + b, x) == |a|
  {
    var xs := a + [x] + b;
    if a == [] {
      assert xs[0] == x;
    } else {
      assert xs[0] == a[0] && a[0] != x;
      assert xs[1..] == a[1..] + [x] + b;
      IndexOfAfter(a[1..], x, b);
    }
  }
}
