/**
  What the speech code consumes but does not define: the synthesis engine
  (its loaded handle, the chunks one call yields, the failure it may
  raise), the engine's constructor, and a flat directory of audio files.
  Each outcome is an input to the model rather than something it computes.
 */
module Externals {
  import opened Wrappers

  /** One audio sample; its numeric representation plays no part here. */
  type Sample(==)

  /** A loaded synthesis engine. */
  type Pipeline(==)

  /** An exception raised by foreign code or by a built-in operation: its
      class name and `str()`. */
  datatype Raised = Raised(typeName: string, text: string)

  /** What constructing the engine did. */
  datatype LoadOutcome = Loaded(pipeline: Pipeline) | LoadFailed(error: Raised)

  /** What one engine call did: the audio chunks it yielded, in order, and
      the exception that ended the iteration early, if any. */
  datatype EngineRun = EngineRun(chunks: seq<seq<Sample>>, failure: Option<Raised>)

  /** What writing an audio file did. A failed write may leave a partial
      file behind (`leftover`). */
  datatype WriteOutcome = Written | WriteFailed(error: Raised, leftover: Option<seq<Sample>>)

  /** Joining the chunks end to end, in order: the combined audio is as
      long as all chunks together. */
  function Concat(chunks: seq<seq<Sample>>): (r: seq<Sample>)
    ensures |r| == TotalLength(chunks)
  {
    if |chunks| == 0 then [] else Concat(chunks[..|chunks| - 1]) + chunks[|chunks| - 1]
  }

  function TotalLength(chunks: seq<seq<Sample>>): nat
  {
    if |chunks| == 0 then 0 else TotalLength(chunks[..|chunks| - 1]) + |chunks[|chunks| - 1]|
  }

  function Offset(chunks: seq<seq<Sample>>, i: nat): nat
    requires i <= |chunks|
  {
    TotalLength(chunks[..i])
  }

  /** Each chunk appears unchanged in the combined audio, at the offset of
      the chunks before it. */
  lemma {:induction false} ConcatAt(chunks: seq<seq<Sample>>, i: nat, k: nat)
    requires i < |chunks| && k < |chunks[i]|
    ensures Offset(chunks, i) + k < |Concat(chunks)|
    ensures Concat(chunks)[Offset(chunks, i) + k] == chunks[i][k]
  {
    var init := chunks[..|chunks| - 1];
    assert Concat(chunks) == Concat(init) + chunks[|chunks| - 1];
    if i < |chunks| - 1 {
      assert chunks[..i] == init[..i];
      ConcatAt(init, i, k);
    } else {
      assert chunks[..i] == init;
    }
  }

  /** A flat directory of audio files, by file name. */
  class Directory {
    var files: map<string, seq<Sample>>

    constructor(initial: map<string, seq<Sample>>)
      ensures files == initial
    {
      files := initial;
    }

    /** `path.exists()` */
    function Exists(name: string): (e: bool)
      reads this
      ensures e <==> name in files
    {
      name in files
    }

    /** `sf.write(path, audio, rate)`: a successful write leaves exactly
        `audio` under `name`; a failed one leaves what it left, if anything. */
    method Write(name: string, audio: seq<Sample>, outcome: WriteOutcome) returns (err: Option<Raised>)
      modifies this
      ensures err.None? <==> outcome.Written?
      ensures outcome.Written? ==> files == old(files)[name := audio]
      ensures outcome.WriteFailed? ==> err == Some(outcome.error)
      ensures outcome.WriteFailed? && outcome.leftover.Some? ==> files == old(files)[name := outcome.leftover.value]
      ensures outcome.WriteFailed? && outcome.leftover.None? ==> files == old(files)
    {
      match outcome {
        case Written =>
          files := files[name := audio];
          err := None;
        case WriteFailed(e, leftover) =>
          if leftover.Some? {
            files := files[name := leftover.value];
          }
          err := Some(e);
      }
    }

    /** `path.unlink()`, whose success is an input: on success the file is
        gone, on failure nothing changes. */
    method Unlink(name: string, succeeds: bool) returns (err: Option<Raised>)
      modifies this
      ensures err.None? <==> succeeds
      ensures succeeds ==> files == old(files) - {name}
      ensures !succeeds ==> files == old(files)
    {
      if succeeds {
        files := files - {name};
        err := None;
      } else {
        err := Some(Raised("OSError", "unlink failed"));
      }
    }
  }
}
