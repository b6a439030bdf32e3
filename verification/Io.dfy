/** Writers that may fail (Go's io.Writer). */
module Io {
  /** An io.Writer that may run out of room: it then takes what fits and reports an error. */
  class Sink {
    var out: string
    var room: nat

    constructor (room: nat)
      ensures out == "" && this.room == room
    {
      out, this.room := "", room;
    }

    method Write(p: string) returns (n: nat, ok: bool)
      modifies this
      ensures ok <==> |p| <= old(room)
      ensures n == (if ok then |p| else old(room)) <= |p|
      ensures out == old(out) + p[..n] && room == old(room) - n
    {
      ok := |p| <= room;
      n := if ok then |p| else room;
      out, room := out + p[..n], room - n;
    }
  }

  /** The first m characters of what is to be written have come out. */
  lemma PutPrefix(out: string, piece: string, m: nat, more: string)
    requires m <= |piece|
    ensures out + piece[..m] <= out + (piece + more)
    ensures m == |piece| ==> out + piece[..m] + more == out + (piece + more)
  {
    assert out + (piece + more) == out + piece[..m] + (piece[m..] + more);
    assert m == |piece| ==> piece[..m] == piece;
  }
}
