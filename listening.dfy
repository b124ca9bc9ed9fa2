/** The `listen` loop: read the microphone, hand each read to the recogniser,
    and return the first final result that is not empty once stripped and
    lowered. The stream and the recogniser are replaced by the sequence of
    what the recogniser reports after each read. */
module Listening {
  import opened Basics
  import opened Text

  /** The recogniser's report after one read: no final result yet
      (`AcceptWaveform` is false), or a final result whose JSON holds "text"
      or not. */
  datatype Chunk = Pending | Final(text: Option<string>)

  /** `text.strip().lower()`. */
  function Normalize(text: string): (r: string)
    ensures |r| <= |text|
  {
    Lower(Strip(text))
  }

  /** A command normalises to nothing exactly when it is all whitespace. */
  lemma NormalizeEmpty(text: string)
    ensures Normalize(text) == "" <==> forall i :: 0 <= i < |text| ==> IsSpace(text[i])
  {
    StripEmpty(text);
  }

  /** A normalised command is already normalised. */
  lemma NormalizeIdempotent(text: string)
    ensures Normalize(Normalize(text)) == Normalize(text)
  {
    var t := Strip(text);
    var u := Lower(t);
    StripEnds(text);
    if u != [] {
      LowerAt(t, 0);
      LowerAt(t, |t| - 1);
      LowerCharSpace(t[0]);
      LowerCharSpace(t[|t| - 1]);
    }
    StripUntrimmed(u);
    forall i | 0 <= i < |u|
      ensures Lower(u)[i] == u[i]
    {
      LowerAt(t, i);
      LowerAt(u, i);
      LowerCharIdempotent(t[i]);
    }
  }

  /** The command a chunk yields: `result.get("text", "").strip().lower()`,
      or nothing for a chunk without a final result. */
  function Heard(chunk: Chunk): (r: string)
    ensures chunk.Pending? ==> r == ""
    ensures chunk.Final? && chunk.text.None? ==> r == ""
  {
    match chunk
    case Pending => ""
    case Final(None) => Normalize("")
    case Final(Some(text)) => Normalize(text)
  }

  /** `listen`: the first non-empty command among the chunks, and how many
      chunks were read to reach it. When every chunk yields an empty command
      the source keeps reading; here the chunks run out and None is returned. */
  method Listen(chunks: seq<Chunk>) returns (command: Option<string>, consumed: nat)
    ensures consumed <= |chunks|
    ensures command.None? ==> consumed == |chunks| && forall j :: 0 <= j < |chunks| ==> Heard(chunks[j]) == ""
    ensures command.Some? ==> 0 < consumed && command.value != "" && command.value == Heard(chunks[consumed - 1])
    ensures command.Some? ==> forall j :: 0 <= j < consumed - 1 ==> Heard(chunks[j]) == ""
  {
    var i := 0;
    while i < |chunks|
      invariant i <= |chunks|
      invariant forall j :: 0 <= j < i ==> Heard(chunks[j]) == ""
    {
      if chunks[i].Final? {
        var heard := Heard(chunks[i]);
        if heard != "" {
          return Some(heard), i + 1;
        }
      }
      i := i + 1;
    }
    return None, |chunks|;
  }
}
