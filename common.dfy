/** Small shared vocabulary: optional values, results of operations that can raise, bytes. */
module Common {

  datatype Option<+T> = None | Some(value: T)

  /** The outcome of an operation that, in the program, either returns a value or raises. */
  datatype Result<+T> = Ok(value: T) | Err

  /** A list put in front of the list an operation returns, the error passed on. */
  function Prepend<T>(xs: seq<T>, rest: Result<seq<T>>): Result<seq<T>>
  {
    match rest
    case Err => Err
    case Ok(more) => Ok(xs + more)
  }

  /** Prepending twice prepends the concatenation; prepending nothing changes nothing. */
  lemma PrependTwice<T>(a: seq<T>, b: seq<T>, rest: Result<seq<T>>)
    ensures Prepend(a, Prepend(b, rest)) == Prepend(a + b, rest)
    ensures Prepend([], rest) == rest
  {
    if rest.Ok? {
      assert a + (b + rest.value) == (a + b) + rest.value;
      assert [] + rest.value == rest.value;
    }
  }

  newtype uint8 = x: int | 0 <= x < 0x100

  /** The bytes of a streamed body, chunk after chunk. */
  function Flatten(chunks: seq<seq<uint8>>): seq<uint8>
  {
    if chunks == [] then [] else Flatten(chunks[..|chunks| - 1]) + chunks[|chunks| - 1]
  }

  /** The sum of the chunk lengths, as a progress bar advanced by `len(chunk)` per chunk counts it. */
  function TotalLength(chunks: seq<seq<uint8>>): int
  {
    if chunks == [] then 0 else TotalLength(chunks[..|chunks| - 1]) + |chunks[|chunks| - 1]|
  }

  /** Counting the chunk lengths counts exactly the bytes of their concatenation. */
  lemma {:induction false} TotalLengthIsFlattenedSize(chunks: seq<seq<uint8>>)
    ensures TotalLength(chunks) == |Flatten(chunks)|
  {
    if chunks != [] {
      TotalLengthIsFlattenedSize(chunks[..|chunks| - 1]);
    }
  }

  /** Flattening a longer prefix extends the flattening of a shorter one. */
  lemma {:induction false} FlattenPrefix(chunks: seq<seq<uint8>>, i: nat, j: nat)
    requires i <= j <= |chunks|
    ensures |Flatten(chunks[..i])| <= |Flatten(chunks[..j])|
    ensures Flatten(chunks[..j])[..|Flatten(chunks[..i])|] == Flatten(chunks[..i])
  {
    if i < j {
      FlattenPrefix(chunks, i, j - 1);
      assert chunks[..j][..j - 1] == chunks[..j - 1];
    }
  }
}
