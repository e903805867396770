/** The vocabulary of the Advanced Protocol frames: bytes, 64-bit words, frame flags,
    headers and the OpConnCopy frame itself. */
module Wire {

  newtype byte = x: int | 0 <= x < 256

  const TWO_63: nat := 0x8000_0000_0000_0000
  const TWO_64: nat := 0x1_0000_0000_0000_0000

  /** The largest int of the 64-bit platforms HQQ targets. */
  const MAX_INT: nat := TWO_63 - 1

  /** Addition and subtraction of uint64 values, which wrap around. */
  function Add64(a: nat, b: nat): (r: nat)
    ensures a + b < TWO_64 ==> r == a + b
    ensures r < TWO_64
  {
    (a + b) % TWO_64
  }

  function Sub64(a: nat, b: nat): (r: nat)
    ensures b <= a < TWO_64 ==> r == a - b
    ensures r < TWO_64
  {
    (a - b) % TWO_64
  }

  function Min(a: nat, b: nat): (r: nat)
    ensures r <= a && r <= b && (r == a || r == b)
  {
    if a <= b then a else b
  }

  function Pow2(k: nat): (r: nat)
    ensures r >= 1
  {
    if k == 0 then 1 else 2 * Pow2(k - 1)
  }

  lemma {:induction false} SubsetSize<T>(a: set<T>, b: set<T>)
    requires a <= b
    ensures |a| <= |b|
  {
    assert b == a + (b - a);
  }

  datatype Option<+T> = None | Some(value: T)

  datatype Error =
    | ErrProtocol
    | ErrInvalidSize
    | ErrBufferOverflow
    | ErrClosed
    | ErrSend

  datatype Result<+T> = Ok(value: T) | Err(error: Error)

  /** The flag word of a frame, one field per AdvFlag bit; `other` is the value of
      the bits above AdvFlagMeta. */
  datatype Flags = Flags(
    begin: bool, end: bool, abort: bool,
    request: bool, response: bool, error: bool, meta: bool, other: nat)

  /** advHeader. */
  datatype Header = Header(stream: nat, message: nat, flags: Flags, aux: nat)

  /** advancedMessageKey: the kind is the pair of the Request and Response bits. */
  datatype Key = Key(stream: nat, message: nat, request: bool, response: bool)

  /** One OpConnCopy packet together with the payload buffer of its ring slot. The
      chunk is buffer[..chunkSize]; the bytes behind it are left over from earlier
      uses of the slot. */
  datatype Frame = Frame(
    stream: nat, message: nat, total: nat, offset: nat, chunkSize: nat,
    flags: Flags, aux: nat, buffer: seq<byte>)
  {
    function MessageKey(): Key {
      Key(stream, message, flags.request, flags.response)
    }

    function FrameHeader(): Header {
      Header(stream, message, flags, aux)
    }

    function Chunk(): seq<byte> {
      if chunkSize <= |buffer| then buffer[..chunkSize] else []
    }
  }
}
