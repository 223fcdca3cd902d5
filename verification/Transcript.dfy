/** Transcript text normalisation of the UAP parsers (internal/uap/usecase/helpers_common.go). */
module Transcript {
  import opened Text

  function NormalizeTranscriptText(s: string): string {
    Join(Fields(TrimSpace(s)), " ")
  }

  /** Normalising keeps exactly the words of the text, in order. */
  lemma NormalizeKeepsWords(s: string)
    ensures Fields(NormalizeTranscriptText(s)) == Fields(s)
  {
    FieldsOfTrim(s);
    FieldsAreWords(s);
    FieldsOfJoin(Fields(s));
    FlattenOfWords(Fields(s));
  }

  lemma NormalizeIdempotent(s: string)
    ensures NormalizeTranscriptText(NormalizeTranscriptText(s)) == NormalizeTranscriptText(s)
  {
    NormalizeKeepsWords(s);
    FieldsOfTrim(s);
    FieldsOfTrim(NormalizeTranscriptText(s));
  }

  /** Two texts normalise to the same text exactly when they have the same words. */
  lemma NormalizeDecidesWords(s: string, t: string)
    ensures NormalizeTranscriptText(s) == NormalizeTranscriptText(t) <==> Fields(s) == Fields(t)
  {
    FieldsOfTrim(s);
    FieldsOfTrim(t);
    NormalizeKeepsWords(s);
    NormalizeKeepsWords(t);
  }

  /** `joinTranscriptSegments` drops blank segments, trims the others and joins them; the outcome is
      the single-space join of all words of all segments, in order. */
  method JoinTranscriptSegments(segments: seq<string>) returns (r: string)
    ensures r == Join(Flatten(segments), " ")
    ensures Fields(r) == Flatten(segments)
  {
    if |segments| == 0 {
      return "";
    }
    var parts: seq<string> := [];
    for i := 0 to |segments|
      invariant Flatten(parts) == Flatten(segments[..i])
    {
      var text := TrimSpace(segments[i]);
      FieldsOfTrim(segments[i]);
      FlattenAppend(segments[..i], [segments[i]]);
      assert segments[..i + 1] == segments[..i] + [segments[i]];
      assert Flatten([segments[i]]) == Fields(segments[i]) + Flatten([]);
      if text == "" {
        continue;
      }
      FlattenAppend(parts, [text]);
      assert Flatten([text]) == Fields(text) + Flatten([]);
      parts := parts + [text];
    }
    assert segments[..|segments|] == segments;
    if |parts| == 0 {
      return "";
    }
    var joined := Join(parts, " ");
    r := NormalizeTranscriptText(joined);
    FieldsOfTrim(joined);
    FieldsOfJoin(parts);
    NormalizeKeepsWords(joined);
  }
}
