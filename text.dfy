/** String helpers with Python's semantics: `sep.join(parts)` and fixed-width slicing. */
module Text {

  /** `sep.join(parts)`. */
  function Join(parts: seq<string>, sep: string): string
    decreases |parts|
  {
    if |parts| == 0 then ""
    else if |parts| == 1 then parts[0]
    else parts[0] + sep + Join(parts[1..], sep)
  }

  /** The parts written one after the other. */
  function Concat(parts: seq<string>): string
    decreases |parts|
  {
    if parts == [] then "" else parts[0] + Concat(parts[1..])
  }

  /** A string of n copies of c. */
  function Repeat(c: char, n: nat): (r: string)
    ensures |r| == n
    ensures forall i :: 0 <= i < n ==> r[i] == c
  {
    if n == 0 then "" else [c] + Repeat(c, n - 1)
  }

  /** With a non-empty separator the join is empty exactly when there is no part,
      or a single empty one. */
  lemma JoinEmptyIff(parts: seq<string>, sep: string)
    requires sep != ""
    ensures Join(parts, sep) == "" <==> (|parts| == 0 || (|parts| == 1 && parts[0] == ""))
  {
    if |parts| >= 2 {
      assert |Join(parts, sep)| >= |sep|;
    }
  }

  /** Joining n empty parts with one character gives n - 1 copies of it. */
  lemma {:induction false} JoinOfEmpties(parts: seq<string>, c: char)
    requires |parts| > 0
    requires forall i :: 0 <= i < |parts| ==> parts[i] == ""
    ensures Join(parts, [c]) == Repeat(c, |parts| - 1)
  {
    if |parts| >= 2 {
      JoinOfEmpties(parts[1..], c);
      assert Join(parts, [c]) == [c] + Join(parts[1..], [c]);
    }
  }

  /** Width of the slices the summariser sends to the language model. */
  const MaxLength: nat := 4000

  function Min(a: int, b: int): int { if a <= b then a else b }

  /** `[s[i:i+4000] for i in range(0, len(s), 4000)]`, written as repeated slicing
      off the front. */
  function Chunks(s: string): seq<string>
    decreases |s|
  {
    if s == [] then []
    else if |s| <= MaxLength then [s]
    else [s[..MaxLength]] + Chunks(s[MaxLength..])
  }

  /** The chunks put back together give the input. */
  lemma {:induction false} ChunksConcat(s: string)
    ensures Concat(Chunks(s)) == s
    decreases |s|
  {
    if |s| > MaxLength {
      ChunksConcat(s[MaxLength..]);
      assert s == s[..MaxLength] + s[MaxLength..];
    }
  }

  /** Every chunk is non-empty and at most 4000 long; all but the last are exactly 4000 long,
      and there are ceil(|s| / 4000) of them. */
  lemma {:induction false} ChunksSizes(s: string)
    ensures |Chunks(s)| == (|s| + MaxLength - 1) / MaxLength
    ensures forall i :: 0 <= i < |Chunks(s)| ==> 0 < |Chunks(s)[i]| <= MaxLength
    ensures forall i :: 0 <= i < |Chunks(s)| - 1 ==> |Chunks(s)[i]| == MaxLength
    decreases |s|
  {
    if |s| > MaxLength {
      ChunksSizes(s[MaxLength..]);
      var rest := Chunks(s[MaxLength..]);
      assert Chunks(s) == [s[..MaxLength]] + rest;
      forall i | 1 <= i < |Chunks(s)|
        ensures Chunks(s)[i] == rest[i - 1]
      {
      }
    }
  }

  /** Chunk i is the slice s[4000 i : 4000 i + 4000], as the list comprehension of
      `analyze_website_with_gpt` builds it. */
  lemma {:induction false} ChunkIsSlice(s: string, i: nat)
    requires i < |Chunks(s)|
    ensures i * MaxLength < |s|
    ensures Chunks(s)[i] == s[i * MaxLength .. Min(i * MaxLength + MaxLength, |s|)]
    decreases |s|
  {
    if i > 0 {
      var t := s[MaxLength..];
      assert Chunks(s) == [s[..MaxLength]] + Chunks(t);
      ChunkIsSlice(t, i - 1);
      var j := (i - 1) * MaxLength;
      assert i * MaxLength == j + MaxLength;
      assert t[j .. Min(j + MaxLength, |t|)] == s[j + MaxLength .. Min(j + MaxLength, |t|) + MaxLength];
    }
  }
}
