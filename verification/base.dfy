/** Shared vocabulary of the model: bytes, identifiers, clock values and the
    error shapes the HTTP handlers raise. */
module Base {

  type Byte = bv8
  type Bytes = seq<Byte>

  /** A UUID, represented by its canonical string form (the form `str(uuid)`
      gives, which is also the form that appears in storage paths). */
  type Uuid = string

  /** An opaque clock value (`datetime.now(timezone.utc)`, `Date.now()`).
      The model never computes with it; it is only carried and compared. */
  type Timestamp = int

  /** A Python `float` (distance, fps, duration): carried, never computed on. */
  type Float = real

  datatype Option<+T> = None | Some(value: T)

  /** An `HTTPException(status, detail=...)` raised by a handler. */
  datatype HttpError = HttpError(status: int, detail: string)

  datatype Result<+T> = Ok(value: T) | Err(error: HttpError)

  function Max(a: int, b: int): int { if a < b then b else a }

  function Min(a: int, b: int): int { if a < b then a else b }

  /** `n` zero bytes: what a file reads as between its old end and a write
      that was seeked past that end. */
  function Zeros(n: nat): (z: Bytes)
    ensures |z| == n
    ensures forall i :: 0 <= i < n ==> z[i] == 0
  {
    seq(n, _ => 0)
  }
}
