/** The dataframe `Span`: a view of the contiguous elements between two
    pointers `b` (first element) and `e` (one past the last element).

    Pointers are modelled as element indices in one address space: the
    null pointer is address 0, and `e - b` is the pointer difference in
    units of the element type. `size()` casts that difference to a 64-bit
    `size_t`, so the cast is written out as a reduction modulo 2^64. */
module Dataframe {

  /** Number of distinct `size_t` values (a 64-bit target). */
  const SizeLimit: int := 0x1_0000_0000_0000_0000

  /** Address of the null pointer. */
  const Null: int := 0

  datatype Span = Span(b: int, e: int) {

    /** The default constructor: both endpoints are null. */
    static function Default(): (s: Span)
      ensures s.Begin() == Null && s.End() == Null
      ensures s.Empty() && s.Size() == 0
    {
      Span(Null, Null)
    }

    function Begin(): int { b }

    function End(): int { e }

    /** The span's endpoints are ordered and at most `SizeLimit - 1`
        elements apart, which the type assumes of every span it is given. */
    predicate WellFormed() { b <= e < b + SizeLimit }

    /** `static_cast<size_t>(e - b)`. */
    function Size(): (r: nat)
      ensures r < SizeLimit
      ensures WellFormed() ==> r == e - b
      ensures e < b && b - e < SizeLimit ==> r == SizeLimit - (b - e)
    {
      (e - b) % SizeLimit
    }

    predicate Empty() { b == e }

    /** The elements the span views in a memory `mem` indexed by address. */
    function Elements<T>(mem: seq<T>): seq<T>
      requires 0 <= b <= e <= |mem|
    {
      mem[b..e]
    }
  }

  /** The two-argument constructor keeps its endpoints, and `begin()` and
      `end()` give them back. */
  lemma ConstructorKeepsEndpoints(b: int, e: int)
    ensures Span(b, e).Begin() == b && Span(b, e).End() == e
    ensures Span(b, e).Empty() <==> b == e
  {
  }

  /** Under the ordering the type assumes, `empty()` and `size() == 0`
      agree. */
  lemma EmptyIffSizeZero(s: Span)
    requires s.WellFormed()
    ensures s.Empty() <==> s.Size() == 0
  {
  }

  /** Outside that assumption they disagree: a reversed span is not empty,
      and its size is the wrapped-around difference. */
  lemma ReversedSpanSize(s: Span)
    requires s.e < s.b && s.b - s.e < SizeLimit
    ensures !s.Empty() && s.Size() == SizeLimit - (s.b - s.e) && s.Size() > 0
  {
  }

  /** A well-formed span over a memory views exactly `size()` elements, and
      the i-th of them is the element at address `b + i`. */
  lemma ElementsCount<T>(s: Span, mem: seq<T>)
    requires 0 <= s.b <= s.e <= |mem| < SizeLimit
    ensures |s.Elements(mem)| == s.Size()
    ensures forall i :: 0 <= i < s.Size() ==> s.Elements(mem)[i] == mem[s.b + i]
    ensures s.Empty() <==> s.Elements(mem) == []
  {
  }
}
