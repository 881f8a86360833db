/** An io.Reader and io.ReadFull. */
module Readers {
  import opened Base

  datatype ReadStatus = More | EndOfFile | Broken

  /** The bytes still to come, in the pieces the reader will hand out at most, and how it ends. */
  class Reader {
    var segments: seq<Bytes>
    const breaks: bool

    constructor (segments: seq<Bytes>, breaks: bool)
      ensures this.segments == segments && this.breaks == breaks
    {
      this.segments, this.breaks := segments, breaks;
    }

    ghost function Rest(): Bytes
      reads this
    {
      Concat(segments)
    }

    method Read(max: nat) returns (data: Bytes, status: ReadStatus)
      requires max > 0
      modifies this
      ensures old(Rest()) == data + Rest() && |data| <= max
      ensures status != More ==> old(segments) == [] && Rest() == [] && data == [] && (status == Broken <==> breaks)
      ensures status == More ==> |segments| < |old(segments)| || (|segments| == |old(segments)| && |data| == max)
    {
      if segments == [] {
        return [], if breaks then Broken else EndOfFile;
      }
      var head, tail := segments[0], segments[1..];
      assert segments == [head] + tail;
      ConcatAppend([head], tail);
      ConcatOne(head);
      if |head| <= max {
        segments := tail;
        return head, More;
      }
      segments := [head[max..]] + tail;
      ConcatAppend([head[max..]], tail);
      ConcatOne(head[max..]);
      assert head == head[..max] + head[max..];
      return head[..max], More;
    }
  }

  lemma ConcatOne(part: Bytes)
    ensures Concat([part]) == part
  {
    assert [part][..0] == [];
  }

  /** nil, io.ErrUnexpectedEOF, io.EOF, or the reader's own error. */
  datatype FullStatus = Full | Partial | Empty | Cut

  /** ReadFull: however the reader cuts the stream, a full buffer is its next size bytes. */
  method ReadFull(r: Reader, size: nat) returns (data: Bytes, status: FullStatus)
    requires size > 0
    modifies r
    ensures old(r.Rest()) == data + r.Rest() && |data| <= size
    ensures match status
      case Full => |data| == size
      case Partial => 0 < |data| < size && r.Rest() == [] && !r.breaks
      case Empty => data == [] && r.Rest() == [] && !r.breaks
      case Cut => |data| < size && r.Rest() == [] && r.breaks
  {
    hide Concat;
    data := [];
    ghost var all := r.Rest();
    while |data| < size
      invariant all == data + r.Rest() && |data| <= size
      decreases |r.segments|, size - |data|
    {
      var piece, read := r.Read(size - |data|);
      assert data + (piece + r.Rest()) == (data + piece) + r.Rest();
      data := data + piece;
      if read == Broken {
        return data, Cut;
      }
      if read == EndOfFile {
        return data, if data == [] then Empty else Partial;
      }
    }
    status := Full;
  }
}
