/** Detection and unwrapping of messages that an IDE plugin wrapped in a
    fixed instruction: the prefix, the user's own text, then a quote and a
    "Context:" section. */
module Plugin {
  import opened Text
  import opened Json

  const PLUGIN_PREFIX: string :=
    "Determine if the following context is required to solve the task in the user's input in the chat session: \""
  const CONTEXT_MARKER: string := "\"\nContext:"

  /** A string that starts with `prefix` and in which `marker` occurs after
      the prefix, but not right where the prefix ends. */
  ghost predicate WrappedBy(s: string, prefix: string, marker: string) {
    && StartsWith(s, prefix)
    && !OccursAt(s, marker, |prefix|)
    && exists k :: |prefix| < k && OccursAt(s, marker, k)
  }

  /** A content value the plugin wrapped: a string wrapped by the plugin's
      prefix and marker (so there is a non-empty text to extract). */
  ghost predicate IsWrapped(content: Value) {
    content.Str? && WrappedBy(content.s, PLUGIN_PREFIX, CONTEXT_MARKER)
  }

  /** The detection and slicing of lines 104-112 for any prefix and marker:
      the text between the prefix and the first marker at or after its end. */
  function ExtractBetween(s: string, prefix: string, marker: string): (r: (bool, string))
    ensures r.0 <==> WrappedBy(s, prefix, marker)
    ensures !r.0 ==> r.1 == s
    ensures r.0 ==>
      && |r.1| > 0
      && |prefix| + |r.1| == Find(s, marker, |prefix|)
      && OccursAt(s, marker, |prefix| + |r.1|)
      && s == prefix + r.1 + s[|prefix| + |r.1|..]
      && !Contains(r.1, marker)
  {
    if StartsWith(s, prefix) && Contains(s, marker) then
      var start := |prefix|;
      var end := Find(s, marker, start);
      if end > start then
        var original := s[start..end];
        assert !Contains(original, marker) by {
          forall k | 0 <= k <= |original| - |marker|
            ensures !OccursAt(original, marker, k)
          {
            if OccursAt(original, marker, k) {
              OccursInSlice(s, start, end, marker, k);
            }
          }
        }
        assert s == s[..start] + original + s[end..];
        (true, original)
      else
        (false, s)
    else
      (false, s)
  }

  /** Returns (true, original message) for a wrapped message and
      (false, content) for anything else, including non-string content. The
      original message is the non-empty text between the prefix and the first
      marker after the prefix, and holds no marker itself. */
  function ExtractPluginWrappedMessage(content: Value): (r: (bool, Value))
    ensures r.0 <==> IsWrapped(content)
    ensures !r.0 ==> r.1 == content
    ensures r.0 ==>
      && r.1.Str?
      && |r.1.s| > 0
      && OccursAt(content.s, CONTEXT_MARKER, |PLUGIN_PREFIX| + |r.1.s|)
      && content.s == PLUGIN_PREFIX + r.1.s + content.s[|PLUGIN_PREFIX| + |r.1.s|..]
      && !Contains(r.1.s, CONTEXT_MARKER)
  {
    if !content.Str? then (false, content)
    else
      var (wrapped, original) := ExtractBetween(content.s, PLUGIN_PREFIX, CONTEXT_MARKER);
      if wrapped then (true, Str(original)) else (false, content)
  }

  /** The content that replaces a message's content: unwrapped if wrapped. */
  function Unwrap(content: Value): Value {
    ExtractPluginWrappedMessage(content).1
  }

  /** Unwrapping is idempotent: content already unwrapped is never detected
      as wrapped again, because the extracted text holds no marker. */
  lemma UnwrapIdempotent(content: Value)
    ensures ExtractPluginWrappedMessage(Unwrap(content)) == (false, Unwrap(content))
    ensures Unwrap(Unwrap(content)) == Unwrap(content)
  {
  }
}
