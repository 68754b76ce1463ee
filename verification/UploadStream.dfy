/** The client stream that carries an upload: split into chunks at the gateway, put together again at the server. */
module UploadStream {
  import opened Wrappers

  const CHUNK_SIZE: nat := 32 * 1024

  datatype Metadata = Metadata(title: string, description: string, kind: string, fileName: string)

  datatype Message = MetadataMsg(metadata: Metadata) | ChunkMsg(content: Bytes) | UnknownMsg

  /** How the server sees the stream end. */
  datatype StreamEnd = EndOfStream | ReceiveFailed

  datatype Verdict =
    | Accepted(metadata: Metadata, file: Bytes)
    | MissingMetadata
    | MissingContent
    | Aborted

  /** All chunk contents in order. */
  function Content(msgs: seq<Message>): Bytes
  {
    if msgs == [] then []
    else
      var last := msgs[|msgs| - 1];
      Content(msgs[..|msgs| - 1]) + if last.ChunkMsg? then last.content else []
  }

  function LastMetadata(msgs: seq<Message>): Option<Metadata>
  {
    if msgs == [] then None
    else
      var last := msgs[|msgs| - 1];
      if last.MetadataMsg? then Some(last.metadata) else LastMetadata(msgs[..|msgs| - 1])
  }

  /** The message at this position is the last to carry metadata, this one. */
  ghost predicate LastMetadataAt(msgs: seq<Message>, i: nat, metadata: Metadata)
  {
    && i < |msgs| && msgs[i] == MetadataMsg(metadata)
    && forall j :: i < j < |msgs| ==> !msgs[j].MetadataMsg?
  }

  lemma {:induction false} LastMetadataFound(msgs: seq<Message>)
    ensures LastMetadata(msgs).None? <==> forall i :: 0 <= i < |msgs| ==> !msgs[i].MetadataMsg?
    ensures LastMetadata(msgs).Some? ==> exists i :: LastMetadataAt(msgs, i, LastMetadata(msgs).value)
  {
    if msgs != [] {
      var front, last := msgs[..|msgs| - 1], msgs[|msgs| - 1];
      LastMetadataFound(front);
      if last.MetadataMsg? {
        assert LastMetadataAt(msgs, |msgs| - 1, last.metadata);
      } else if LastMetadata(front).Some? {
        var i :| LastMetadataAt(front, i, LastMetadata(front).value);
        assert LastMetadataAt(msgs, i, LastMetadata(msgs).value);
      }
    }
  }

  predicate Understood(msgs: seq<Message>)
  {
    forall i :: 0 <= i < |msgs| ==> !msgs[i].UnknownMsg?
  }

  /** The server's decision, from the last metadata and the concatenated chunks alone. */
  function Decide(msgs: seq<Message>, end: StreamEnd): Verdict
  {
    if !Understood(msgs) || end.ReceiveFailed? then Aborted
    else match LastMetadata(msgs)
      case None => MissingMetadata
      case Some(m) => if Content(msgs) == [] then MissingContent else Accepted(m, Content(msgs))
  }

  /** The server's receive loop. A chunk without content leaves its buffer unallocated. */
  method ReceiveUpload(msgs: seq<Message>, end: StreamEnd) returns (verdict: Verdict)
    ensures verdict == Decide(msgs, end)
    ensures verdict.Aborted? <==> end.ReceiveFailed? || exists i :: 0 <= i < |msgs| && msgs[i].UnknownMsg?
    ensures !verdict.Aborted? ==> (verdict.MissingMetadata? <==> forall i :: 0 <= i < |msgs| ==> !msgs[i].MetadataMsg?)
    ensures verdict.MissingContent? ==> Content(msgs) == []
    ensures verdict.Accepted? ==>
      && verdict.file == Content(msgs) != []
      && exists i :: LastMetadataAt(msgs, i, verdict.metadata)
  {
    LastMetadataFound(msgs);
    var metadata: Option<Metadata> := None;
    var fileBuffer: Bytes := [];
    var i := 0;
    while i < |msgs|
      invariant 0 <= i <= |msgs|
      invariant Understood(msgs[..i])
      invariant metadata == LastMetadata(msgs[..i])
      invariant fileBuffer == Content(msgs[..i])
    {
      assert msgs[..i + 1][..i] == msgs[..i];
      match msgs[i] {
        case MetadataMsg(m) =>
          metadata := Some(m);
        case ChunkMsg(content) =>
          fileBuffer := fileBuffer + content;
        case UnknownMsg =>
          return Aborted;
      }
      i := i + 1;
    }
    assert msgs[..i] == msgs;
    if end.ReceiveFailed? {
      return Aborted;
    }
    if metadata.None? {
      return MissingMetadata;
    }
    if fileBuffer == [] {
      return MissingContent;
    }
    return Accepted(metadata.value, fileBuffer);
  }

  /** An opened upload at the gateway, read front to back. */
  class FileReader {
    const data: Bytes
    var pos: nat

    ghost predicate Valid()
      reads this
    {
      pos <= |data|
    }

    constructor (data: Bytes)
      ensures Valid() && this.data == data && pos == 0
    {
      this.data := data;
      pos := 0;
    }

    /** Fills the front of `buf` with what comes next; at least one byte unless the data is at its end. */
    method Read(buf: array<byte>, size: nat) returns (n: nat)
      requires Valid() && 1 <= size && 1 <= buf.Length
      modifies this`pos, buf
      ensures Valid() && pos == old(pos) + n && n <= buf.Length
      ensures n == 0 <==> old(pos) == |data|
      ensures buf[..n] == data[old(pos)..pos]
    {
      n := |data| - pos;
      if size < n {
        n := size;
      }
      if buf.Length < n {
        n := buf.Length;
      }
      forall k | 0 <= k < n {
        buf[k] := data[pos + k];
      }
      pos := pos + n;
    }
  }

  /** One metadata message, then non-empty chunks of at most the buffer's size that spell out the data. */
  ghost predicate Carries(msgs: seq<Message>, metadata: Metadata, data: Bytes)
  {
    && |msgs| > 0 && msgs[0] == MetadataMsg(metadata)
    && (forall i :: 1 <= i < |msgs| ==> msgs[i].ChunkMsg? && 1 <= |msgs[i].content| <= CHUNK_SIZE)
    && Content(msgs) == data
  }

  /**
   * The gateway's read-and-send loop over one reused buffer. `sizes` is what the reads happen to deliver;
   * the read or send numbered by a fault fails, and the request ends there.
   */
  method SendUpload(metadata: Metadata, file: FileReader, sizes: seq<nat>, readFault: Option<nat>,
                    sendFault: Option<nat>)
    returns (sent: seq<Message>, completed: bool)
    requires file.Valid() && file.pos == 0
    requires forall i :: 0 <= i < |sizes| ==> 1 <= sizes[i]
    modifies file
    ensures completed ==> Carries(sent, metadata, file.data)
    ensures |Content(sent)| <= |file.data|
    ensures sent != [] ==> Carries(sent, metadata, file.data[..|Content(sent)|])
    ensures completed ==>
      && (readFault.Some? ==> readFault.value >= |sent|) && (sendFault.Some? ==> sendFault.value >= |sent|)
    ensures !completed ==> sendFault == Some(|sent|) || (sent != [] && readFault == Some(|sent| - 1))
  {
    sent := [];
    if sendFault == Some(0) {
      return sent, false;
    }
    sent := [MetadataMsg(metadata)];
    var buf := new byte[CHUNK_SIZE];
    var count := 0;
    assert sent[..0] == [];
    while true
      invariant file.Valid()
      invariant Carries(sent, metadata, file.data[..file.pos])
      invariant count == |sent| - 1
      invariant (readFault.Some? ==> readFault.value >= count) && (sendFault.Some? ==> sendFault.value > count)
      decreases |file.data| - file.pos
    {
      assert |Content(sent)| == file.pos;
      if readFault == Some(count) {
        return sent, false;
      }
      var n := file.Read(buf, if count < |sizes| then sizes[count] else CHUNK_SIZE);
      count := count + 1;
      if n == 0 {
        assert file.data[..file.pos] == file.data;
        return sent, true;
      }
      if sendFault == Some(count) {
        return sent, false;
      }
      var next := sent + [ChunkMsg(buf[..n])];
      assert next[..|next| - 1] == sent;
      sent := next;
    }
  }

  lemma {:induction false} MetadataOfCarried(msgs: seq<Message>, metadata: Metadata)
    requires |msgs| > 0 && msgs[0] == MetadataMsg(metadata)
    requires forall i :: 1 <= i < |msgs| ==> msgs[i].ChunkMsg?
    ensures LastMetadata(msgs) == Some(metadata)
  {
    if |msgs| > 1 {
      MetadataOfCarried(msgs[..|msgs| - 1], metadata);
    }
  }

  /** Whatever the gateway's reads were, the server accepts exactly the file; only an empty file is turned away. */
  lemma UploadRoundTrip(msgs: seq<Message>, metadata: Metadata, data: Bytes)
    requires Carries(msgs, metadata, data)
    ensures Decide(msgs, EndOfStream) == if data == [] then MissingContent else Accepted(metadata, data)
  {
    MetadataOfCarried(msgs, metadata);
  }

  lemma {:induction false} ContentOfConcat(a: seq<Message>, b: seq<Message>)
    ensures Content(a + b) == Content(a) + Content(b)
  {
    if b == [] {
      assert a + b == a;
    } else {
      ContentOfConcat(a, b[..|b| - 1]);
      assert (a + b)[..|a + b| - 1] == a + b[..|b| - 1];
    }
  }

  lemma ContentOfChunks(x: Bytes, y: Bytes)
    ensures Content([ChunkMsg(x + y)]) == x + y
    ensures Content([ChunkMsg(x), ChunkMsg(y)]) == x + y
  {
    var one, two := [ChunkMsg(x + y)], [ChunkMsg(x), ChunkMsg(y)];
    assert one[..0] == [] && two[..1] == [ChunkMsg(x)] && [ChunkMsg(x)][..0] == [];
    assert Content([ChunkMsg(x)]) == x;
  }

  lemma ContentBetween(before: seq<Message>, chunks: seq<Message>, after: seq<Message>)
    ensures Content(before + chunks + after) == Content(before) + Content(chunks) + Content(after)
  {
    ContentOfConcat(before + chunks, after);
    ContentOfConcat(before, chunks);
  }

  lemma UnderstoodBetween(before: seq<Message>, chunks: seq<Message>, after: seq<Message>)
    requires forall i :: 0 <= i < |chunks| ==> chunks[i].ChunkMsg?
    ensures Understood(before + chunks + after) <==> Understood(before) && Understood(after)
  {
    var all := before + chunks + after;
    assert forall i :: 0 <= i < |before| ==> all[i] == before[i];
    assert forall i :: 0 <= i < |chunks| ==> all[|before| + i] == chunks[i];
    assert forall i :: 0 <= i < |after| ==> all[|before| + |chunks| + i] == after[i];
  }

  /** Cutting one chunk in two at any point changes nothing the server decides. */
  lemma RechunkingIsInvisible(before: seq<Message>, x: Bytes, y: Bytes, after: seq<Message>, end: StreamEnd)
    ensures Decide(before + [ChunkMsg(x + y)] + after, end) == Decide(before + [ChunkMsg(x), ChunkMsg(y)] + after, end)
  {
    var one, two := [ChunkMsg(x + y)], [ChunkMsg(x), ChunkMsg(y)];
    ContentOfChunks(x, y);
    ContentBetween(before, one, after);
    ContentBetween(before, two, after);
    MetadataIgnoresChunks(before, one, after);
    MetadataIgnoresChunks(before, two, after);
    UnderstoodBetween(before, one, after);
    UnderstoodBetween(before, two, after);
  }

  lemma {:induction false} MetadataIgnoresChunks(before: seq<Message>, chunks: seq<Message>, after: seq<Message>)
    requires forall i :: 0 <= i < |chunks| ==> chunks[i].ChunkMsg?
    ensures LastMetadata(before + chunks + after) == LastMetadata(before + after)
    decreases |after|, |chunks|
  {
    if after != [] {
      var rest := after[..|after| - 1];
      MetadataIgnoresChunks(before, chunks, rest);
      assert (before + chunks + after)[..|before + chunks + after| - 1] == before + chunks + rest;
      assert (before + after)[..|before + after| - 1] == before + rest;
    } else if chunks != [] {
      var rest := chunks[..|chunks| - 1];
      MetadataIgnoresChunks(before, rest, after);
      assert before + chunks + after == before + chunks;
      assert (before + chunks)[..|before + chunks| - 1] == before + rest == before + rest + after;
    } else {
      assert before + chunks + after == before + after;
    }
  }
}
