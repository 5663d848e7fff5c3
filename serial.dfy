/**
 * The serial connection to the board, as the driver uses it.
 *
 * The real connection (a pyserial `Serial` object opened on a device with a
 * timeout) is replaced by two byte sequences: everything written so far, oldest
 * first, and the bytes the board will deliver, in order. A read that finds no
 * byte left stands for a read that timed out.
 */
module Serial {

  type byte = b: int | 0 <= b < 256

  /** ASCII line feed, which ends a line for `readline`. */
  const NEWLINE: byte := 10

  /**
   * The length of the first line of `incoming`: up to and including the first
   * line feed, or everything when there is none.
   */
  function LineLength(incoming: seq<byte>): (n: nat)
    ensures n <= |incoming|
    ensures forall i :: 0 <= i < n - 1 ==> incoming[i] != NEWLINE
    ensures incoming != [] ==> 0 < n
    ensures n < |incoming| ==> incoming[n - 1] == NEWLINE
  {
    if incoming == [] then 0
    else if incoming[0] == NEWLINE then 1
    else 1 + LineLength(incoming[1..])
  }

  class Driver {
    /** Every byte written to the board, oldest first. */
    var written: seq<byte>
    /** The bytes the board has sent and the driver has not read yet. */
    var incoming: seq<byte>

    constructor (incoming: seq<byte>)
      ensures written == [] && this.incoming == incoming
    {
      written := [];
      this.incoming := incoming;
    }

    /** Sends `data`, all of it, after everything sent before. */
    method Write(data: seq<byte>)
      modifies this
      ensures written == old(written) + data
      ensures incoming == old(incoming)
    {
      written := written + data;
    }

    /** Reads one byte; the result is empty when none arrives before the timeout. */
    method Read() returns (r: seq<byte>)
      modifies this
      ensures r == if old(incoming) == [] then [] else [old(incoming)[0]]
      ensures incoming == old(incoming)[|r|..]
      ensures written == old(written)
    {
      if incoming == [] {
        r := [];
      } else {
        r := [incoming[0]];
        incoming := incoming[1..];
      }
    }

    /** Reads up to and including the next line feed, or until the timeout. */
    method ReadLine() returns (line: seq<byte>)
      modifies this
      ensures line == old(incoming)[..LineLength(old(incoming))]
      ensures incoming == old(incoming)[LineLength(old(incoming))..]
      ensures written == old(written)
    {
      var n := LineLength(incoming);
      line := incoming[..n];
      incoming := incoming[n..];
    }
  }
}
