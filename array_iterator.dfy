/** Model of `ArrayIterator`: an iterator over a private copy of an array
    (or of an offset/length slice of it), with a cursor that only moves forward. */
module ArrayIterate {
  import opened Wrappers

  /** The exceptions the iterator and its factories throw. */
  datatype IteratorError = NoSuchElement | UnsupportedOperation | IllegalArgument

  /** The argument check of the offset/length constructor: the slice
      `[ofs, ofs + len)` lies inside an array of `length` elements. */
  predicate IsArrayOfsLen(length: nat, ofs: int, len: int): (ok: bool)
    ensures ok ==> 0 <= ofs <= length && 0 <= len <= length - ofs
  {
    0 <= ofs && 0 <= len && ofs + len <= length
  }

  /** One `next()` call on the copy `elements` with the cursor at `index`:
      what the call returns and where the cursor is afterwards. */
  function NextStep<T>(elements: seq<T>, index: nat): (step: (Result<T, IteratorError>, nat))
    ensures step.0.Success? <==> index < |elements|
    ensures step.0.Success? ==> step.0.value == elements[index] && step.1 == index + 1
    ensures step.0.Failure? ==> step.0.error == NoSuchElement && step.1 == index
    ensures index <= |elements| ==> step.1 <= |elements|
  {
    if index < |elements| then (Success(elements[index]), index + 1)
    else (Failure(NoSuchElement), index)
  }

  /** `n` successive `next()` calls starting with the cursor at `index`:
      the results in call order and the final cursor. */
  function NextCalls<T>(elements: seq<T>, index: nat, n: nat): (calls: (seq<Result<T, IteratorError>>, nat))
    ensures |calls.0| == n
    ensures index <= |elements| ==> calls.1 == if index + n <= |elements| then index + n else |elements|
    decreases n
  {
    if n == 0 then ([], index)
    else
      var (r, i) := NextStep(elements, index);
      var (rest, j) := NextCalls(elements, i, n - 1);
      ([r] + rest, j)
  }

  /** Every element of `s`, each as a normal return of `next()`. */
  function Successes<T>(s: seq<T>): (r: seq<Result<T, IteratorError>>)
  {
    seq(|s|, i requires 0 <= i < |s| => Success(s[i]))
  }

  /** `n` calls that each throw `NoSuchElementException`. */
  function NoSuchElements<T>(n: nat): (r: seq<Result<T, IteratorError>>)
  {
    seq(n, _ => Failure(NoSuchElement))
  }

  /** Starting anywhere inside the copy, as many `next()` calls as there are
      elements left return exactly those elements in order and leave the
      cursor at the end, where `hasNext()` is false. */
  lemma {:induction false} DrainYieldsCopyInOrder<T>(elements: seq<T>, index: nat)
    requires index <= |elements|
    ensures NextCalls(elements, index, |elements| - index) == (Successes(elements[index..]), |elements|)
    decreases |elements| - index
  {
    if index < |elements| {
      DrainYieldsCopyInOrder(elements, index + 1);
      assert Successes(elements[index..]) == [Success(elements[index])] + Successes(elements[index + 1..]);
    } else {
      assert Successes(elements[index..]) == [];
    }
  }

  /** Once the cursor is at the end, every further `next()` call fails with
      `NoSuchElementException` and the cursor stays where it is. */
  lemma {:induction false} ExhaustedNextFails<T>(elements: seq<T>, n: nat)
    ensures NextCalls(elements, |elements|, n) == (NoSuchElements(n), |elements|)
  {
    if n > 0 {
      ExhaustedNextFails(elements, n - 1);
      assert NoSuchElements<T>(n) == [Failure(NoSuchElement)] + NoSuchElements(n - 1);
    } else {
      assert NoSuchElements<T>(n) == [];
    }
  }

  class ArrayIterator<T(==)> {
    /** The private copy taken at construction; never changed afterwards. */
    const elements: seq<T>
    /** The position of the next element to return. */
    var index: nat

    ghost predicate Valid()
      reads this
    {
      index <= |elements|
    }

    /** The public constructor: copies the whole array. */
    constructor (source: array<T>)
      ensures Valid()
      ensures elements == source[..] && index == 0
    {
      elements := source[..];
      index := 0;
    }

    /** The private constructor: copies the slice `[ofs, ofs + len)`. */
    constructor OfsLen(source: array<T>, ofs: int, len: int)
      requires IsArrayOfsLen(source.Length, ofs, len)
      ensures Valid()
      ensures elements == source[ofs..ofs + len] && index == 0
    {
      elements := source[ofs..ofs + len];
      index := 0;
    }

    method HasNext() returns (more: bool)
      ensures more <==> index < |elements|
    {
      more := index < |elements|;
    }

    method Next() returns (r: Result<T, IteratorError>)
      requires Valid()
      modifies this
      ensures Valid()
      ensures (r, index) == NextStep(elements, old(index))
    {
      var more := HasNext();
      if !more {
        return Failure(NoSuchElement);
      }
      r := Success(elements[index]);
      index := index + 1;
    }

    /** `remove()` is unsupported: it always throws and changes nothing. */
    method Remove() returns (r: Outcome<IteratorError>)
      ensures r == Fail(UnsupportedOperation)
    {
      r := Fail(UnsupportedOperation);
    }

    /** Two iterators are equal when their copies hold equal elements in the
        same order and their cursors are at the same position. */
    method Equals(other: ArrayIterator?<T>) returns (eq: bool)
      ensures eq <==> other != null && elements == other.elements && index == other.index
    {
      if other == this {
        return true;
      }
      if other == null {
        return false;
      }
      eq := elements == other.elements && index == other.index;
    }
  }

  method Create<T(==)>(source: array<T>) returns (it: ArrayIterator<T>)
    ensures fresh(it) && it.Valid()
    ensures it.elements == source[..] && it.index == 0
  {
    it := new ArrayIterator(source);
  }

  /** Rejects an offset/length pair outside the array with
      `IllegalArgumentException`; otherwise iterates over that slice. */
  method CreateOfsLen<T(==)>(source: array<T>, ofs: int, len: int) returns (r: Result<ArrayIterator<T>, IteratorError>)
    ensures r.Success? <==> IsArrayOfsLen(source.Length, ofs, len)
    ensures r.Failure? ==> r.error == IllegalArgument
    ensures r.Success? ==> fresh(r.value) && r.value.Valid()
    ensures r.Success? ==> r.value.elements == source[ofs..ofs + len] && r.value.index == 0
  {
    if !IsArrayOfsLen(source.Length, ofs, len) {
      return Failure(IllegalArgument);
    }
    var it := new ArrayIterator.OfsLen(source, ofs, len);
    r := Success(it);
  }

  /** A caller that invokes `next()` `n` times on `it`, collecting what each
      call returns. */
  method CallNext<T(==)>(it: ArrayIterator<T>, n: nat) returns (results: seq<Result<T, IteratorError>>)
    requires it.Valid()
    modifies it
    ensures it.Valid()
    ensures (results, it.index) == NextCalls(it.elements, old(it.index), n)
  {
    results := [];
    var k := 0;
    while k < n
      invariant 0 <= k <= n && it.Valid()
      invariant results + NextCalls(it.elements, it.index, n - k).0 == NextCalls(it.elements, old(it.index), n).0
      invariant NextCalls(it.elements, it.index, n - k).1 == NextCalls(it.elements, old(it.index), n).1
    {
      ghost var before := it.index;
      var r := it.Next();
      assert NextCalls(it.elements, before, n - k) == ([r] + NextCalls(it.elements, it.index, n - k - 1).0, NextCalls(it.elements, it.index, n - k - 1).1);
      results := results + [r];
      k := k + 1;
    }
    assert results + NextCalls(it.elements, it.index, 0).0 == results;
  }

  /** Iterating over a fresh iterator for `source` to the end returns the
      array's elements in order, after which `hasNext()` is false. */
  method IterateAll<T(==)>(source: array<T>) returns (results: seq<Result<T, IteratorError>>, more: bool)
    ensures results == Successes(source[..])
    ensures !more
  {
    var it := Create(source);
    results := CallNext(it, source.Length);
    DrainYieldsCopyInOrder(it.elements, 0);
    more := it.HasNext();
  }

  /** The iterator works on its own copy: overwriting every element of the
      source array after construction does not change what the iteration
      returns. */
  method CopyIsIndependent<T(==)>(xs: seq<T>, overwrite: T) returns (results: seq<Result<T, IteratorError>>)
    ensures results == Successes(xs)
  {
    var source := new T[|xs|](i requires 0 <= i < |xs| => xs[i]);
    var it := Create(source);
    forall i | 0 <= i < source.Length {
      source[i] := overwrite;
    }
    results := CallNext(it, |xs|);
    DrainYieldsCopyInOrder(it.elements, 0);
  }
}
