/** Helpers shared by the models of the pool's modules: optional values,
    bytes, JavaScript truthiness of numeric options, decimal text, sums,
    concatenation of chunks and the ascending key order of a table. */
module Base {

  datatype Option<+T> = None | Some(value: T)

  /** An operation that either yields a value or throws (the error text). */
  datatype Result<+T> = Ok(value: T) | Err(error: string)

  newtype Byte = b: int | 0 <= b < 256

  /** A retry-delay directive carried by an error: absent (undefined or false),
      `true` ("compute a backoff") or an explicit number of milliseconds. */
  datatype Delay = NoDelay | Backoff | Millis(ms: int)

  /** A request body handed to the transport. */
  datatype Payload = NoPayload | TextPayload(text: string) | BytesPayload(bytes: seq<Byte>)

  /** JavaScript truthiness of an optional number: undefined and 0 are falsy. */
  predicate Truthy(x: Option<int>) {
    x.Some? && x.value != 0
  }

  /** JavaScript `x || d` for an optional number. */
  function NumberOr(x: Option<int>, d: int): (r: int)
    ensures Truthy(x) ==> r == x.value
    ensures !Truthy(x) ==> r == d
  {
    if Truthy(x) then x.value else d
  }

  // ---------------------------------------------------------------------------
  // Decimal text (numbers concatenated into strings, and `+s` on digit strings)

  predicate IsDigit(c: char) {
    '0' <= c <= '9'
  }

  predicate AllDigits(s: string) {
    forall k :: 0 <= k < |s| ==> IsDigit(s[k])
  }

  function DigitChar(d: nat): (c: char)
    requires d < 10
    ensures IsDigit(c) && (c as int) - ('0' as int) == d
  {
    (('0' as int) + d) as char
  }

  /** The decimal text of a natural number, as JavaScript prints it. */
  function NatToString(n: nat): (s: string)
    ensures |s| >= 1 && AllDigits(s)
    decreases n
  {
    if n < 10 then [DigitChar(n)] else NatToString(n / 10) + [DigitChar(n % 10)]
  }

  /** The decimal text of an integer, with a leading '-' when negative. */
  function IntToString(i: int): string {
    if i < 0 then "-" + NatToString(-i) else NatToString(i)
  }

  /** The value of a string of decimal digits (leading zeros allowed). */
  function DigitsValue(s: string): nat
    requires AllDigits(s)
  {
    if s == [] then 0
    else DigitsValue(s[..|s| - 1]) * 10 + ((s[|s| - 1] as int) - ('0' as int))
  }

  /** Reading back the printed decimal text of n gives n. */
  lemma {:induction false} DigitsRoundTrip(n: nat)
    ensures DigitsValue(NatToString(n)) == n
    decreases n
  {
    var s := NatToString(n);
    if n >= 10 {
      assert s[..|s| - 1] == NatToString(n / 10);
      DigitsRoundTrip(n / 10);
    }
  }

  // ---------------------------------------------------------------------------
  // Sums and concatenation (JavaScript `reduce` and the body buffer)

  function Sum(xs: seq<int>): int {
    if xs == [] then 0 else Sum(xs[..|xs| - 1]) + xs[|xs| - 1]
  }

  lemma {:induction false} SumConcat(a: seq<int>, b: seq<int>)
    ensures Sum(a + b) == Sum(a) + Sum(b)
    decreases |b|
  {
    if b == [] {
      assert a + b == a;
    } else {
      assert (a + b)[..|a + b| - 1] == a + b[..|b| - 1];
      SumConcat(a, b[..|b| - 1]);
    }
  }

  /** A non-empty list has an element at or below its average: x * |xs| <= Sum(xs). */
  lemma {:induction false} SomeAtOrBelowAverage(xs: seq<int>) returns (i: nat)
    requires |xs| > 0
    ensures i < |xs| && xs[i] * |xs| <= Sum(xs)
  {
    i := MinIndex(xs);
    MinTimesLength(xs, xs[i]);
  }

  lemma {:induction false} MinIndex(xs: seq<int>) returns (i: nat)
    requires |xs| > 0
    ensures i < |xs| && forall j :: 0 <= j < |xs| ==> xs[i] <= xs[j]
    decreases |xs|
  {
    if |xs| == 1 {
      i := 0;
    } else {
      var k := MinIndex(xs[..|xs| - 1]);
      assert forall j :: 0 <= j < |xs| - 1 ==> xs[..|xs| - 1][j] == xs[j];
      i := if xs[k] <= xs[|xs| - 1] then k else |xs| - 1;
    }
  }

  lemma {:induction false} MinTimesLength(xs: seq<int>, m: int)
    requires forall j :: 0 <= j < |xs| ==> m <= xs[j]
    ensures m * |xs| <= Sum(xs)
    decreases |xs|
  {
    if xs != [] {
      var init := xs[..|xs| - 1];
      assert forall j :: 0 <= j < |init| ==> init[j] == xs[j];
      MinTimesLength(init, m);
      assert m * |xs| == m * |init| + m;
    }
  }

  /** The concatenation of a list of chunks, in order. */
  function Concat<T>(chunks: seq<seq<T>>): seq<T> {
    if chunks == [] then [] else Concat(chunks[..|chunks| - 1]) + chunks[|chunks| - 1]
  }

  // ---------------------------------------------------------------------------
  // Keys of a table in ascending order (the order Object.keys gives integer keys)

  /** A set is empty or has an element: the existence fact `Pick` needs
      before it can choose a witness with `:|`. */
  lemma EmptyOrInhabited(s: set<int>)
    ensures s == {} || exists x :: x in s
  {
    if forall y :: y !in s {
      assert s == {};
    }
  }

  /** Some element of a non-empty set. */
  lemma Pick(s: set<int>) returns (x: int)
    requires s != {}
    ensures x in s
  {
    EmptyOrInhabited(s);
    x :| x in s;
  }

  lemma {:induction false} MinExists(s: set<int>)
    requires s != {}
    ensures exists m :: m in s && forall k :: k in s ==> m <= k
    decreases |s|
  {
    var x := Pick(s);
    var rest := s - {x};
    if rest == {} {
      assert s == {x};
    } else {
      MinExists(rest);
      var m :| m in rest && forall k :: k in rest ==> m <= k;
      var least := if x < m then x else m;
      forall k | k in s
        ensures least <= k
      {
        if k != x {
          assert k in rest;
        }
      }
      assert least in s;
    }
  }

  /** The least element of a non-empty finite set of integers. */
  function Min(s: set<int>): (m: int)
    requires s != {}
    ensures m in s && forall k :: k in s ==> m <= k
  {
    MinExists(s);
    var m :| m in s && forall k :: k in s ==> m <= k;
    m
  }

  /** The elements of a finite set of integers, each once, in ascending order. */
  function SortedKeys(s: set<int>): (r: seq<int>)
    ensures |r| == |s|
    ensures forall x :: x in r <==> x in s
    ensures forall i, j :: 0 <= i < j < |r| ==> r[i] < r[j]
    decreases |s|
  {
    if s == {} then []
    else
      var m := Min(s);
      var rest := SortedKeys(s - {m});
      PrependMin(s, m, rest);
      [m] + rest
  }

  /** The least element followed by the others in ascending order lists the
      whole set in ascending order. */
  lemma PrependMin(s: set<int>, m: int, rest: seq<int>)
    requires m in s && forall k :: k in s ==> m <= k
    requires |rest| == |s - {m}|
    requires forall x :: x in rest <==> x in s - {m}
    requires forall i, j :: 0 <= i < j < |rest| ==> rest[i] < rest[j]
    ensures |[m] + rest| == |s|
    ensures forall x :: x in [m] + rest <==> x in s
    ensures forall i, j :: 0 <= i < j < |[m] + rest| ==> ([m] + rest)[i] < ([m] + rest)[j]
  {
    var r := [m] + rest;
    assert forall i :: 1 <= i < |r| ==> r[i] == rest[i - 1];
    forall i | 0 <= i < |rest|
      ensures m < rest[i]
    {
      assert rest[i] in rest;
      assert rest[i] in s - {m};
    }
  }
}
