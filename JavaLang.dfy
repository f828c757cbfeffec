/** The few pieces of the Java platform that the configuration records lean on:
    nullable references, java.util.Optional, the 32-bit and 64-bit integer
    ranges, exceptions thrown by expression evaluation, and the hash combiner
    behind java.util.Objects.hash. */
module JavaLang {

  /** A Java reference that may be null. Every field of reference type in the
      records (String, Duration, File, List, Integer) is one of these, because
      every public setter accepts null. */
  datatype Nullable<+T> = Null | NonNull(value: T)

  /** java.util.Optional. */
  datatype Optional<+T> = Empty | Present(value: T) {

    /** Optional.filter: keeps the value only when the predicate accepts it. */
    function Filter(p: T -> bool): (r: Optional<T>)
      ensures r.Present? <==> Present? && p(value)
      ensures r.Present? ==> r == this
    {
      match this
      case Empty => Empty
      case Present(v) => if p(v) then this else Empty
    }

    /** Optional.isPresent. */
    predicate IsPresent() {
      Present?
    }
  }

  /** Optional.ofNullable. */
  function OfNullable<T>(n: Nullable<T>): (r: Optional<T>)
    ensures r.Present? <==> n.NonNull?
    ensures r.Present? ==> r.value == n.value
  {
    match n
    case Null => Empty
    case NonNull(v) => Present(v)
  }

  /** Optional.ofNullable(x).filter(p).isPresent(), the idiom behind a
      "non-null and acceptable" test, holds exactly when x is non-null and p
      accepts it. */
  lemma OfNullableFilterIsPresent<T>(n: Nullable<T>, p: T -> bool)
    ensures OfNullable(n).Filter(p).IsPresent() <==> n.NonNull? && p(n.value)
  {
  }

  const INTEGER_MIN_VALUE: int := -0x8000_0000
  const INTEGER_MAX_VALUE: int := 0x7fff_ffff

  /** Java int (and the value of a non-null java.lang.Integer). */
  type Int32 = x: int | -0x8000_0000 <= x <= 0x7fff_ffff

  /** Java long. */
  type Int64 = x: int | -0x8000_0000_0000_0000 <= x <= 0x7fff_ffff_ffff_ffff

  /** The exceptions that evaluating a record's own expressions can raise. */
  datatype Exception = NullPointerException

  /** The outcome of evaluating a Java expression: a value, or a thrown exception. */
  datatype Outcome<+T> = Returns(value: T) | Throws(exception: Exception)

  /** Two's-complement truncation of an unbounded integer to a Java int, as
      Java's int arithmetic does on overflow. */
  function Wrap(x: int): (r: Int32)
    ensures INTEGER_MIN_VALUE <= x <= INTEGER_MAX_VALUE ==> r == x
    ensures (x - r) % 0x1_0000_0000 == 0
  {
    (x + 0x8000_0000) % 0x1_0000_0000 - 0x8000_0000
  }

  /** Wrapping a value and the value one modulus further gives the same int. */
  lemma WrapNext(x: int)
    ensures Wrap(x + 0x1_0000_0000) == Wrap(x)
  {
    var y := x + 0x8000_0000;
    assert (y + 0x1_0000_0000) % 0x1_0000_0000 == y % 0x1_0000_0000;
  }

  /** Wrapping forgets multiples of 2^32. */
  lemma {:induction false} WrapShift(x: int, k: int)
    ensures Wrap(x + k * 0x1_0000_0000) == Wrap(x)
    decreases if k < 0 then -k else k
  {
    if k > 0 {
      var y := x + (k - 1) * 0x1_0000_0000;
      WrapShift(x, k - 1);
      WrapNext(y);
      assert x + k * 0x1_0000_0000 == y + 0x1_0000_0000;
    } else if k < 0 {
      var y := x + k * 0x1_0000_0000;
      WrapShift(x, k + 1);
      WrapNext(y);
      assert x + (k + 1) * 0x1_0000_0000 == y + 0x1_0000_0000;
    }
  }

  /** One step of Java's hash combination may wrap early or late: the result
      is the same. */
  lemma WrapStep(x: int, h: int)
    ensures Wrap(31 * Wrap(x) + h) == Wrap(31 * x + h)
  {
    var k := (x - Wrap(x)) / 0x1_0000_0000;
    assert x == Wrap(x) + k * 0x1_0000_0000;
    assert 31 * x + h == (31 * Wrap(x) + h) + (31 * k) * 0x1_0000_0000;
    WrapShift(31 * Wrap(x) + h, 31 * k);
  }

  /** java.util.Arrays.hashCode over the element hashes, which is what
      java.util.Objects.hash computes: start from 1 and, element by element,
      multiply by 31 and add the element's hash, in int arithmetic. */
  function ObjectsHash(hashes: seq<Int32>): (r: Int32)
  {
    if |hashes| == 0 then 1
    else Wrap(31 * ObjectsHash(hashes[..|hashes| - 1]) + hashes[|hashes| - 1])
  }

  /** The same hash computed in unbounded arithmetic: 31^n plus the sum of
      hash[i] * 31^(n-1-i). */
  function HashPolynomial(hashes: seq<Int32>): (r: int)
  {
    if |hashes| == 0 then 1
    else 31 * HashPolynomial(hashes[..|hashes| - 1]) + hashes[|hashes| - 1]
  }

  /** Appending one element multiplies the polynomial by 31 and adds the
      element's hash. */
  lemma HashPolynomialSnoc(hashes: seq<Int32>, h: Int32)
    ensures HashPolynomial(hashes + [h]) == 31 * HashPolynomial(hashes) + h
  {
    assert (hashes + [h])[..|hashes|] == hashes;
  }

  /** The polynomial of five hashes, written out. */
  lemma HashPolynomialOfFive(h0: Int32, h1: Int32, h2: Int32, h3: Int32, h4: Int32)
    ensures HashPolynomial([h0, h1, h2, h3, h4]) ==
      31 * 31 * 31 * 31 * 31 + 31 * 31 * 31 * 31 * h0 + 31 * 31 * 31 * h1 + 31 * 31 * h2 + 31 * h3 + h4
  {
    HashPolynomialSnoc([], h0);
    assert [] + [h0] == [h0];
    HashPolynomialSnoc([h0], h1);
    assert [h0] + [h1] == [h0, h1];
    HashPolynomialSnoc([h0, h1], h2);
    assert [h0, h1] + [h2] == [h0, h1, h2];
    HashPolynomialSnoc([h0, h1, h2], h3);
    assert [h0, h1, h2] + [h3] == [h0, h1, h2, h3];
    HashPolynomialSnoc([h0, h1, h2, h3], h4);
    assert [h0, h1, h2, h3] + [h4] == [h0, h1, h2, h3, h4];
  }

  /** The wrapped combiner is the unbounded polynomial truncated once, at the
      end, to 32 bits. */
  lemma {:induction false} ObjectsHashIsWrappedPolynomial(hashes: seq<Int32>)
    ensures ObjectsHash(hashes) == Wrap(HashPolynomial(hashes))
  {
    if |hashes| > 0 {
      var init, last := hashes[..|hashes| - 1], hashes[|hashes| - 1];
      ObjectsHashIsWrappedPolynomial(init);
      WrapStep(HashPolynomial(init), last);
    }
  }

  /** The hash of a nullable element, as Objects.hash takes it: 0 for null. */
  function NullableHash<T>(n: Nullable<T>, hash: T -> Int32): (r: Int32)
    ensures n.Null? ==> r == 0
    ensures n.NonNull? ==> r == hash(n.value)
  {
    match n
    case Null => 0
    case NonNull(v) => hash(v)
  }
}
