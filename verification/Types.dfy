/** Values shared by every part of the streaming detection pipeline. */
module Types {

  datatype Option<+T> = None | Some(value: T)

  datatype Result<+T, +E> = Ok(value: T) | Err(error: E)

  /** The four indices by which chunks are compared. */
  datatype ChunkKey = ChunkKey(inputStart: nat, inputEnd: nat, start: nat, end: nat)

  datatype Chunk = Chunk(inputStartIndex: nat, inputEndIndex: nat, start: nat, end: nat, text: string) {
    /** What equality, hashing and ordering of chunks look at: everything but the text. */
    function Key(): ChunkKey {
      ChunkKey(inputStartIndex, inputEndIndex, start, end)
    }
  }

  /** Lexicographic order on the four indices. */
  predicate ChunkLess(a: ChunkKey, b: ChunkKey) {
    || a.inputStart < b.inputStart
    || (a.inputStart == b.inputStart && a.inputEnd < b.inputEnd)
    || (a.inputStart == b.inputStart && a.inputEnd == b.inputEnd && a.start < b.start)
    || (a.inputStart == b.inputStart && a.inputEnd == b.inputEnd && a.start == b.start && a.end < b.end)
  }

  /** A key of the completion batcher's ordered map: the chunk comes first, then the choice. */
  datatype BatchKey = BatchKey(chunk: ChunkKey, choice: nat)

  predicate KeyLess(a: BatchKey, b: BatchKey) {
    ChunkLess(a.chunk, b.chunk) || (a.chunk == b.chunk && a.choice < b.choice)
  }

  /** The same orders spelled out, number by number: the first one that differs decides. */
  predicate ChunkEarlier(a: ChunkKey, b: ChunkKey) {
    if a.inputStart != b.inputStart then a.inputStart < b.inputStart
    else if a.inputEnd != b.inputEnd then a.inputEnd < b.inputEnd
    else if a.start != b.start then a.start < b.start
    else a.end < b.end
  }

  predicate Earlier(a: BatchKey, b: BatchKey) {
    if a.chunk.inputStart != b.chunk.inputStart then a.chunk.inputStart < b.chunk.inputStart
    else if a.chunk.inputEnd != b.chunk.inputEnd then a.chunk.inputEnd < b.chunk.inputEnd
    else if a.chunk.start != b.chunk.start then a.chunk.start < b.chunk.start
    else if a.chunk.end != b.chunk.end then a.chunk.end < b.chunk.end
    else a.choice < b.choice
  }

  datatype Detection = Detection(
    start: Option<nat>,
    end: Option<nat>,
    text: Option<string>,
    detectorId: Option<string>,
    detectionType: string,
    detection: string,
    score: real)

  datatype Batch = Batch(choice: nat, chunk: Chunk, detections: seq<Detection>)

  /** Concatenates a list of lists in order. */
  function Flatten<T>(lists: seq<seq<T>>): seq<T> {
    if lists == [] then [] else lists[0] + Flatten(lists[1..])
  }

  lemma {:induction false} FlattenAppend<T>(a: seq<seq<T>>, b: seq<seq<T>>)
    ensures Flatten(a + b) == Flatten(a) + Flatten(b)
  {
    if a == [] {
      assert a + b == b;
    } else {
      var ab := a + b;
      assert ab[0] == a[0] && ab[1..] == a[1..] + b;
      FlattenAppend(a[1..], b);
      calc {
        Flatten(ab);
        a[0] + (Flatten(a[1..]) + Flatten(b));
        (a[0] + Flatten(a[1..])) + Flatten(b);
      }
    }
  }

  lemma FlattenSingleton<T>(a: seq<T>)
    ensures Flatten([a]) == a
  {
    assert [a][1..] == [];
    assert Flatten<T>([]) == [];
  }

  /** A sequence without one of its elements. */
  lemma TakeOut<T>(s: seq<T>, j: nat)
    requires j < |s|
    ensures s == s[..j] + ([s[j]] + s[j + 1..])
    ensures multiset(s[..j] + s[j + 1..]) == multiset(s) - multiset{s[j]}
  {
    assert s == s[..j] + ([s[j]] + s[j + 1..]);
  }

  /** An element of a permuted sequence, and what is left of both without it. */
  lemma TakeOutOfBoth<T>(a: seq<T>, b: seq<T>, i: nat) returns (j: nat)
    requires multiset(a) == multiset(b) && i < |b|
    ensures j < |a| && a[j] == b[i] && a == a[..j] + ([a[j]] + a[j + 1..])
    ensures multiset(a[..j] + a[j + 1..]) == multiset(b[..i] + b[i + 1..])
  {
    assert b[i] in multiset(a);
    j :| j < |a| && a[j] == b[i];
    TakeOut(a, j);
    TakeOut(b, i);
  }

  lemma PermutedLength<T>(a: seq<T>, b: seq<T>)
    requires multiset(a) == multiset(b)
    ensures |a| == |b|
  {
    assert |multiset(a)| == |a| && |multiset(b)| == |b|;
  }

  /** The order of the lists does not matter for what their concatenation holds. */
  lemma {:induction false} FlattenPermuted<T>(a: seq<seq<T>>, b: seq<seq<T>>)
    requires multiset(a) == multiset(b)
    ensures multiset(Flatten(a)) == multiset(Flatten(b))
    decreases |b|
  {
    PermutedLength(a, b);
    if b != [] {
      var j := TakeOutOfBoth(a, b, 0);
      assert b[..0] + b[1..] == b[1..];
      FlattenPermuted(a[..j] + a[j + 1..], b[1..]);
      FlattenAround(a[..j], b[0], a[j + 1..]);
    }
  }

  lemma FlattenAround<T>(before: seq<seq<T>>, x: seq<T>, after: seq<seq<T>>)
    ensures multiset(Flatten(before + ([x] + after))) == multiset(Flatten(before + after)) + multiset(x)
  {
    FlattenAppend(before, [x] + after);
    FlattenAppend(before, after);
    FlattenAppend([x], after);
    FlattenSingleton(x);
  }
}
