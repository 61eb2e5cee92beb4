/** Values shared by every part of the model: optional values and JSON object members. */
module Common {

  datatype Option<+T> = None | Some(value: T)

  /** One member of a JSON object, as a Python dict holds it: the key is missing,
      the key maps to null, or the key maps to a value. */
  datatype Field<+T> = Absent | Null | Present(value: T)

  /** `d.get(key)`: a missing key and a null value both read as None. */
  function Get<T>(f: Field<T>): Option<T>
  {
    match f
    case Present(v) => Some(v)
    case _ => None
  }

  /** `d.get(key, default)`: only a missing key falls back to the default;
      a key that maps to null still reads as None. */
  function GetOr<T>(f: Field<T>, default: T): Option<T>
  {
    match f
    case Absent => Some(default)
    case Null => None
    case Present(v) => Some(v)
  }

  /** Stores a value that may be None under a key that is then present. */
  function Store<T>(o: Option<T>): Field<T>
  {
    match o
    case Some(v) => Present(v)
    case None => Null
  }

  /** Python truthiness of a string or None. */
  predicate Truthy(o: Option<string>)
  {
    o.Some? && o.value != ""
  }

  /** A task applied to each input, one result per input, in input order: what reading the
      futures of a list of submitted tasks gives. */
  function Results<A, R>(task: A -> R, xs: seq<A>): seq<R>
  {
    seq(|xs|, i requires 0 <= i < |xs| => task(xs[i]))
  }

  /** The values of the present entries, in order: what a loop keeping the truthy results of
      a list of tasks collects. */
  function Somes<T>(xs: seq<Option<T>>): seq<T>
  {
    if xs == [] then []
    else
      var last := xs[|xs| - 1];
      Somes(xs[..|xs| - 1]) + (if last.Some? then [last.value] else [])
  }

  /** Keeping the present entries never lengthens a list. */
  lemma {:induction false} SomesLength<T>(xs: seq<Option<T>>)
    ensures |Somes(xs)| <= |xs|
    decreases |xs|
  {
    if xs != [] {
      SomesLength(xs[..|xs| - 1]);
    }
  }

  /** Keeping the present entries commutes with concatenation, so the survivors of an earlier
      part of the list come before those of a later part. */
  lemma {:induction false} SomesAppend<T>(a: seq<Option<T>>, b: seq<Option<T>>)
    ensures Somes(a + b) == Somes(a) + Somes(b)
    decreases |b|
  {
    if b == [] {
      assert a + b == a;
    } else {
      assert (a + b)[..|a + b| - 1] == a + b[..|b| - 1];
      SomesAppend(a, b[..|b| - 1]);
    }
  }

  /** A value survives exactly when it was present somewhere in the list. */
  lemma {:induction false} SomesMembers<T>(xs: seq<Option<T>>, x: T)
    ensures x in Somes(xs) <==> Some(x) in xs
    decreases |xs|
  {
    if xs != [] {
      var init := xs[..|xs| - 1];
      SomesMembers(init, x);
      assert xs == init + [xs[|xs| - 1]];
    }
  }

  /** When every entry is present, nothing is dropped. */
  lemma {:induction false} SomesAllPresent<T>(xs: seq<Option<T>>)
    requires forall i :: 0 <= i < |xs| ==> xs[i].Some?
    ensures |Somes(xs)| == |xs|
    ensures forall i :: 0 <= i < |xs| ==> Some(Somes(xs)[i]) == xs[i]
    decreases |xs|
  {
    if xs != [] {
      SomesAllPresent(xs[..|xs| - 1]);
    }
  }
}
