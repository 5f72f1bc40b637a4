/** The log tail: the runner's diagnostic output, streamed in blocks while
    the job runs. The log file is a fixed snapshot of its contents, one
    character per byte: the file is read in text mode under Python 2, so a
    read counts bytes. */
module Logs {
  import opened Strings
  import opened JobStatus

  /** The block size, in bytes, of each read of the log file. */
  const ReadSize: nat := 4096

  /** What a log stream did: the blocks it yielded, whether it has ended,
      and how often it slept on an empty read. */
  datatype LogTail = LogTail(chunks: seq<string>, ended: bool, sleeps: nat)

  function Min(a: nat, b: nat): nat {
    if a <= b then a else b
  }

  /** One `read(4096)` on the log file positioned at `pos`. */
  function Read(content: string, pos: nat): (r: string)
    requires pos <= |content|
    ensures pos + |r| <= |content| && r == content[pos..pos + |r|]
    ensures |r| == Min(ReadSize, |content| - pos)
    ensures r == [] <==> pos == |content|
  {
    content[pos..Min(pos + ReadSize, |content|)]
  }

  /** The blocks in which the log's contents are read, from the start. */
  function Chunks(content: string): seq<string>
    decreases |content|
  {
    if content == [] then []
    else
      var n := Min(ReadSize, |content|);
      [content[..n]] + Chunks(content[n..])
  }

  /** The blocks are non-empty, at most one read long, all full except the
      last, and together they are exactly the contents. */
  lemma {:induction false} ChunksTile(content: string)
    ensures Concat(Chunks(content)) == content
    ensures forall k :: 0 <= k < |Chunks(content)| ==> 0 < |Chunks(content)[k]| <= ReadSize
    ensures forall k :: 0 <= k < |Chunks(content)| - 1 ==> |Chunks(content)[k]| == ReadSize
    decreases |content|
  {
    if content != [] {
      var n := Min(ReadSize, |content|);
      var rest := Chunks(content[n..]);
      ChunksTile(content[n..]);
      assert Chunks(content) == [content[..n]] + rest;
      assert ([content[..n]] + rest)[1..] == rest;
      assert content == content[..n] + content[n..];
    }
  }

  /** Reading a block off the front leaves the blocks of the rest. */
  lemma ChunksStep(content: string, pos: nat)
    requires pos < |content|
    ensures Chunks(content[pos..]) == [Read(content, pos)] + Chunks(content[pos + |Read(content, pos)|..])
  {
    var tail := content[pos..];
    var n := Min(ReadSize, |tail|);
    assert tail[..n] == Read(content, pos);
    assert tail[n..] == content[pos + n..];
  }

  /** `logspooler`: yield every non-empty block; on an empty read, stop if
      the job's state is no longer `Running`, otherwise sleep and read again.
      `observed` holds the state found at each empty read in turn (the job
      changes concurrently); when every observed state is `Running` the tail
      is still live after the last one, and `ended` is false. */
  method LogSpooler(content: string, observed: seq<State>) returns (chunks: seq<string>, ended: bool, sleeps: nat)
    ensures chunks == Chunks(content)
    ensures Concat(chunks) == content
    ensures forall k :: 0 <= k < |chunks| ==> 0 < |chunks[k]| <= ReadSize
    ensures sleeps <= |observed|
    ensures forall q :: 0 <= q < sleeps ==> observed[q] == Running
    ensures ended <==> sleeps < |observed|
    ensures ended ==> observed[sleeps] != Running
    ensures ended <==> exists q :: 0 <= q < |observed| && observed[q] != Running
  {
    var pos: nat := 0;
    chunks, ended, sleeps := [], false, 0;
    while true
      invariant pos <= |content| && sleeps <= |observed|
      invariant chunks + Chunks(content[pos..]) == Chunks(content)
      invariant forall q :: 0 <= q < sleeps ==> observed[q] == Running
      invariant sleeps > 0 ==> pos == |content|
      invariant !ended
      decreases |content| - pos, |observed| - sleeps
    {
      var r := Read(content, pos);
      if r != [] {
        ChunksStep(content, pos);
        assert (chunks + [r]) + Chunks(content[pos + |r|..]) == chunks + Chunks(content[pos..]);
        chunks := chunks + [r];
        pos := pos + |r|;
      } else if sleeps == |observed| {
        break;
      } else if observed[sleeps] != Running {
        ended := true;
        break;
      } else {
        sleeps := sleeps + 1;
      }
    }
    ChunksTile(content);
  }
}
