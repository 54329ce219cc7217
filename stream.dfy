/** The in-memory reader every stage reads from: `std::io::Cursor` with the
 *  `Read`/`Seek`/`byteorder` calls the source makes on it. */
module Stream {
  import opened Wrappers
  import opened Bytes

  const EOF_MESSAGE := "failed to fill whole buffer"

  /** A byte buffer that never changes and a position that reads advance and seeks
   *  set. A seek may go past the end; every read from there fails. */
  class Cursor {
    const data: seq<byte>
    var pos: nat

    constructor (data: seq<byte>)
      ensures this.data == data && pos == 0
    {
      this.data := data;
      pos := 0;
    }

    /** `Cursor::is_empty`: no bytes remain after the position. */
    predicate IsEmpty()
      reads this
    {
      pos >= |data|
    }

    /** `seek(SeekFrom::Start(p))`, which always succeeds on a cursor. */
    method Seek(p: nat)
      modifies this
      ensures pos == p
    {
      pos := p;
    }

    /** `read_exact` of `n` bytes. Fails when fewer than `n` bytes remain; the source
     *  unwraps every read, so a failure is a panic. */
    method ReadExact(n: nat) returns (r: Result<seq<byte>>)
      modifies this
      ensures old(pos) + n <= |data| ==> r == Ok(data[old(pos)..old(pos) + n]) && pos == old(pos) + n
      ensures n == 0 ==> r == Ok([]) && pos == old(pos)
      ensures n > 0 && old(pos) + n > |data| ==> r == Err(EOF_MESSAGE) && pos == old(pos)
    {
      if n == 0 {
        if pos <= |data| {
          assert data[pos..pos] == [];
        }
        r := Ok([]);
      } else if pos + n <= |data| {
        r := Ok(data[pos..pos + n]);
        pos := pos + n;
      } else {
        r := Err(EOF_MESSAGE);
      }
    }

    /** `read_u8`, `read_u16::<LittleEndian>`, … `read_u128::<LittleEndian>`: an `n`-byte
     *  little-endian unsigned integer. */
    method ReadUint(n: nat) returns (r: Result<nat>)
      requires n > 0
      modifies this
      ensures old(pos) + n <= |data| ==> r == Ok(LeValue(data[old(pos)..old(pos) + n])) && pos == old(pos) + n
      ensures old(pos) + n > |data| ==> r == Err(EOF_MESSAGE) && pos == old(pos)
    {
      var bytes := ReadExact(n);
      if bytes.Ok? {
        r := Ok(LeValue(bytes.value));
      } else {
        r := Err(bytes.msg);
      }
    }
  }
}
