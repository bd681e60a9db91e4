/** One spawned agent process as both API handlers see it: the payload is
    written to its stdin, every `data` event on stdout and on stderr is
    appended to a string (`agentResult += data`, `agentError += data`), and the
    `close` event delivers the exit code. */
module AgentProcess {

  /** What the process did: the chunks it wrote, in arrival order, and its
      exit code. The process itself is not modelled. */
  datatype Run = Run(stdout: seq<string>, stderr: seq<string>, exitCode: int)

  /** The chunks joined in arrival order. */
  function Concat(chunks: seq<string>): string
  {
    if chunks == [] then "" else Concat(chunks[..|chunks| - 1]) + chunks[|chunks| - 1]
  }

  /** The `+=` accumulation done by the `data` handlers: the result is the
      chunks joined in arrival order. */
  method Accumulate(chunks: seq<string>) returns (text: string)
    ensures text == Concat(chunks)
  {
    text := "";
    var i := 0;
    while i < |chunks|
      invariant 0 <= i <= |chunks|
      invariant text == Concat(chunks[..i])
    {
      assert chunks[..i + 1][..i] == chunks[..i];
      text := text + chunks[i];
      i := i + 1;
    }
    assert chunks[..i] == chunks;
  }

  /** How the output was split into chunks does not matter: accumulating two
      runs of chunks gives the two texts one after the other. */
  lemma {:induction false} ConcatAppend(a: seq<string>, b: seq<string>)
    ensures Concat(a + b) == Concat(a) + Concat(b)
    decreases |b|
  {
    if b == [] {
      assert a + b == a;
    } else {
      var b' := b[..|b| - 1];
      assert (a + b)[..|a + b| - 1] == a + b';
      ConcatAppend(a, b');
    }
  }
}
