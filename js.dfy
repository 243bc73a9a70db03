/**
 The small part of JavaScript's semantics that the record-building callbacks
 rely on: optional properties, the TypeError thrown by reading a property of
 `undefined`, truthiness and `||`, `String.prototype.substring` with one
 argument, `Array.prototype.join` and `Array.prototype.map` with a callback
 that may throw.
 */
module Js {

  /** A property that may be missing (`undefined`) in a JSON object. */
  datatype Option<+T> = None | Some(value: T)

  /** The exception a callback throws: reading `property` of `undefined`. */
  datatype TypeError = ReadOfUndefined(property: string)

  /** The outcome of evaluating an expression that may throw. */
  datatype Result<+T> = Ok(value: T) | Err(error: TypeError) {
    predicate IsFailure() {
      Err?
    }

    function PropagateFailure<U>(): Result<U>
      requires Err?
    {
      Err(error)
    }

    function Extract(): T
      requires Ok?
    {
      value
    }
  }

  /** The primitive values that appear in the built records. Numbers are integers here. */
  datatype Value = Bool(b: bool) | Num(n: int) | Str(s: string)

  /** JavaScript truthiness: `false`, `0` and `""` are the falsy primitives modelled. */
  predicate Truthy(v: Value): (r: bool)
    ensures r <==> v != Bool(false) && v != Num(0) && v != Str("")
  {
    match v
    case Bool(b) => b
    case Num(n) => n != 0
    case Str(s) => s != ""
  }

  /** `a || b`: the left operand when it is truthy, the right one otherwise. */
  function Or(a: Value, b: Value): (r: Value)
    ensures Truthy(a) ==> r == a
    ensures !Truthy(a) ==> r == b
    ensures Truthy(b) ==> Truthy(r)
  {
    if Truthy(a) then a else b
  }

  /** `s.substring(start)` for a non-negative start: the suffix after the first `start` characters. */
  function Substring(s: string, start: nat): (r: string)
    ensures start <= |s| ==> s == s[..start] + r
    ensures start >= |s| ==> r == ""
  {
    if start >= |s| then "" else s[start..]
  }

  /** The separator the routes join author names with. */
  const Separator: string := ", "

  /** `names.join(", ")`, built from the front. */
  function Join(names: seq<string>): (r: string)
    ensures |names| == 0 ==> r == ""
  {
    if |names| == 0 then ""
    else if |names| == 1 then names[0]
    else names[0] + Separator + Join(names[1..])
  }

  /**
   Reference definition of `join`: the result is accumulated left to right,
   adding the separator before every element except the first.
   */
  function JoinFromLeft(names: seq<string>): string
  {
    if |names| == 0 then ""
    else if |names| == 1 then names[0]
    else JoinFromLeft(names[..|names| - 1]) + Separator + names[|names| - 1]
  }

  /** Total length of the elements of `names`. */
  function TotalLength(names: seq<string>): nat
  {
    if |names| == 0 then 0 else |names[0]| + TotalLength(names[1..])
  }

  /** The join's length is the names' total length plus one separator per neighbouring pair. */
  lemma {:induction false} JoinLength(names: seq<string>)
    ensures |names| > 0 ==> |Join(names)| == TotalLength(names) + |Separator| * (|names| - 1)
    ensures |names| == 0 ==> Join(names) == ""
  {
    if |names| > 1 {
      JoinLength(names[1..]);
    }
  }

  /** The join starts with the first name. */
  lemma {:induction false} JoinStartsWithFirst(names: seq<string>)
    requires |names| > 0
    ensures names[0] <= Join(names)
  {
    if |names| > 1 {
      assert Join(names) == names[0] + (Separator + Join(names[1..]));
    }
  }

  /** The join ends with the last name. */
  lemma {:induction false} JoinEndsWithLast(names: seq<string>)
    requires |names| > 0
    ensures |names[|names| - 1]| <= |Join(names)|
    ensures Join(names)[|Join(names)| - |names[|names| - 1]|..] == names[|names| - 1]
  {
    if |names| > 1 {
      JoinEndsWithLast(names[1..]);
      var rest := Join(names[1..]);
      assert Join(names) == (names[0] + Separator) + rest;
    }
  }

  /** The join is empty exactly for the empty list and for a list holding one empty string. */
  lemma {:induction false} JoinEmptyIff(names: seq<string>)
    ensures Join(names) == "" <==> |names| == 0 || (|names| == 1 && names[0] == "")
  {
    if |names| > 1 {
      assert |Join(names)| >= |Separator|;
    }
  }

  /** Appending one element appends the separator and that element. */
  lemma {:induction false} JoinAppend(names: seq<string>, last: string)
    requires |names| > 0
    ensures Join(names + [last]) == Join(names) + Separator + last
  {
    if |names| == 1 {
      assert (names + [last])[1..] == [last];
    } else {
      assert (names + [last])[1..] == names[1..] + [last];
      JoinAppend(names[1..], last);
    }
  }

  /** Joining two non-empty lists end to end keeps both in order with one separator between. */
  lemma {:induction false} JoinConcat(front: seq<string>, back: seq<string>)
    requires |front| > 0 && |back| > 0
    ensures Join(front + back) == Join(front) + Separator + Join(back)
  {
    if |front| == 1 {
      assert (front + back)[1..] == back;
    } else {
      assert (front + back)[1..] == front[1..] + back;
      JoinConcat(front[1..], back);
    }
  }

  /** The front-built join agrees with the left-to-right reference definition. */
  lemma {:induction false} JoinMatchesReference(names: seq<string>)
    ensures Join(names) == JoinFromLeft(names)
  {
    if |names| > 1 {
      var init := names[..|names| - 1];
      JoinMatchesReference(init);
      JoinAppend(init, names[|names| - 1]);
      assert init + [names[|names| - 1]] == names;
    }
  }

  /**
   `xs.map(f)` where `f` may throw: every element is mapped in order; the
   first throw aborts the whole map and no partial array escapes.
   */
  function MapAll<T, U>(f: T -> Result<U>, xs: seq<T>): (r: Result<seq<U>>)
    ensures r.Ok? <==> forall i :: 0 <= i < |xs| ==> f(xs[i]).Ok?
    ensures r.Ok? ==> |r.value| == |xs| && forall i :: 0 <= i < |xs| ==> r.value[i] == f(xs[i]).value
    ensures r.Err? ==> exists i :: 0 <= i < |xs| && FirstThrow(f, xs, i) && r.error == f(xs[i]).error
  {
    if |xs| == 0 then Ok([])
    else
      match f(xs[0])
      case Err(e) =>
        assert FirstThrow(f, xs, 0);
        Err(e)
      case Ok(y) =>
        var rest := MapAll(f, xs[1..]);
        match rest
        case Err(e) =>
          var k :| 0 <= k < |xs| - 1 && FirstThrow(f, xs[1..], k) && e == f(xs[1..][k]).error;
          assert FirstThrow(f, xs, k + 1);
          Err(e)
        case Ok(ys) => Ok([y] + ys)
  }

  /** Element `i` is the first one on which `f` throws. */
  predicate FirstThrow<T, U>(f: T -> Result<U>, xs: seq<T>, i: int)
  {
    0 <= i < |xs| && f(xs[i]).Err? && forall j :: 0 <= j < i ==> f(xs[j]).Ok?
  }
}
