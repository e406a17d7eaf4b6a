/** `lazyIterator(data)` of src/lib/array.js: a generator that shifts values off the
    front of the caller's array and yields them until it shifts a falsy one. */
module LazyArray {

  /** The JavaScript values an array can hold, with numbers restricted to integers. */
  datatype JsValue = Undefined | Null | Bool(b: bool) | Number(n: int) | Str(s: string) | Object(id: nat)

  /** JavaScript truthiness: undefined, null, false, 0 and "" are falsy. */
  predicate Truthy(v: JsValue): (b: bool)
    ensures !b <==> v in {Undefined, Null, Bool(false), Number(0), Str("")}
  {
    match v
    case Undefined => false
    case Null => false
    case Bool(b) => b
    case Number(n) => n != 0
    case Str(s) => s != ""
    case Object(_) => true
  }

  /** A JavaScript array, shared by reference between its owner and the iterator. */
  class JsArray {
    var elems: seq<JsValue>

    constructor (elems: seq<JsValue>)
      ensures this.elems == elems
    {
      this.elems := elems;
    }

    /** `shift()`: removes and returns the first element, or returns undefined when empty. */
    method Shift() returns (v: JsValue)
      modifies this
      ensures old(elems) == [] ==> v == Undefined && elems == []
      ensures old(elems) != [] ==> v == old(elems)[0] && elems == old(elems)[1..]
    {
      if elems == [] {
        v := Undefined;
      } else {
        v := elems[0];
        elems := elems[1..];
      }
    }
  }

  /** What `next()` returns: `{value, done: false}` or `{value: undefined, done: true}`. */
  datatype Step = Yield(value: JsValue) | Done

  /** The longest prefix of s whose values are all truthy: what a full run yields. */
  function TakeTruthy(s: seq<JsValue>): (p: seq<JsValue>)
    ensures p <= s
    ensures forall i :: 0 <= i < |p| ==> Truthy(p[i])
    ensures |p| < |s| ==> !Truthy(s[|p|])
  {
    if s == [] || !Truthy(s[0]) then [] else [s[0]] + TakeTruthy(s[1..])
  }

  /** A split of s into truthy values followed by nothing or by a falsy value is the split
      TakeTruthy makes: what was yielded is determined by the original array. */
  lemma {:induction false} TruthyPrefixUnique(s: seq<JsValue>, yielded: seq<JsValue>, after: seq<JsValue>)
    requires s == yielded + after
    requires forall i :: 0 <= i < |yielded| ==> Truthy(yielded[i])
    requires after == [] || !Truthy(after[0])
    ensures TakeTruthy(s) == yielded
  {
    if yielded != [] {
      assert s[0] == yielded[0];
      assert s[1..] == yielded[1..] + after;
      TruthyPrefixUnique(s[1..], yielded[1..], after);
    } else if s != [] {
      assert s[0] == after[0];
    }
  }

  /** The generator object. `finished` is set once the generator body has returned.
      The ghost fields record the array as it was when iteration began, what has been
      yielded, the falsy value that stopped iteration (if one did) and what remained then. */
  class LazyIterator {
    const data: JsArray
    var finished: bool
    ghost var origin: seq<JsValue>
    ghost var yielded: seq<JsValue>
    ghost var stop: seq<JsValue>
    ghost var rest: seq<JsValue>

    /** While nobody else touches `data`: every yielded value is truthy, and the original
        array is what was yielded, then the falsy stopper (if any), then what remains. */
    ghost predicate Consistent()
      reads this, data
    {
      (forall i :: 0 <= i < |yielded| ==> Truthy(yielded[i])) &&
      |stop| <= 1 && (forall i :: 0 <= i < |stop| ==> !Truthy(stop[i])) &&
      (!finished ==> stop == [] && origin == yielded + data.elems) &&
      (finished ==> origin == yielded + stop + rest && (stop == [] ==> rest == []))
    }

    /** `lazyIterator(data)`: creating the generator runs none of its body. */
    constructor (data: JsArray)
      ensures this.data == data && data.elems == old(data.elems)
      ensures !finished && origin == data.elems && yielded == []
      ensures Consistent()
    {
      this.data := data;
      finished := false;
      origin := data.elems;
      yielded := [];
      stop := [];
      rest := [];
    }

    /** `next()`: one turn of `while ((val = data.shift())) yield val`. Each turn removes
        exactly one front element, the falsy one included; after the generator returned,
        the array is left alone. */
    method Next() returns (step: Step)
      modifies this, data
      ensures origin == old(origin)
      ensures old(finished) ==> step == Done && finished && data.elems == old(data.elems)
      ensures !old(finished) && old(data.elems) == [] ==> step == Done && finished && data.elems == []
      ensures !old(finished) && old(data.elems) != [] ==>
                && data.elems == old(data.elems)[1..]
                && (Truthy(old(data.elems)[0]) ==> step == Yield(old(data.elems)[0]) && !finished)
                && (!Truthy(old(data.elems)[0]) ==> step == Done && finished)
      ensures yielded == old(yielded) + (if step.Yield? then [step.value] else [])
      ensures old(Consistent()) ==> Consistent()
      ensures old(Consistent()) && !old(finished) && finished ==>
                && data.elems == rest
                && yielded == TakeTruthy(origin)
                && origin == yielded + stop + data.elems
    {
      if finished {
        return Done;
      }
      ghost var before := data.elems;
      var v := data.Shift();
      if Truthy(v) {
        yielded := yielded + [v];
        return Yield(v);
      }
      finished := true;
      stop := if before == [] then [] else [v];
      rest := data.elems;
      if old(Consistent()) {
        TruthyPrefixUnique(origin, yielded, stop + rest);
        assert origin == yielded + stop + rest;
      }
      step := Done;
    }
  }
}
