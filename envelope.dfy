/** The stream-data envelope returned by the generate and extend calls
    (`StreamData` of the mobile types), the dual-location lookup of its
    fields and the normalisation of the answer SDP. */
module Envelope {
  import opened Wrappers
  import opened Text

  /** The three fields a grant may carry, every one optional. */
  datatype Tokens = Tokens(
    answerSdp: Option<string>,
    streamToken: Option<string>,
    streamExtensionToken: Option<string>)

  /** `StreamData`: the fields at top level, and optionally once more
      nested under `results`. */
  datatype StreamData = StreamData(
    answerSdp: Option<string>,
    streamToken: Option<string>,
    streamExtensionToken: Option<string>,
    results: Option<Tokens>)

  datatype Field = AnswerSdp | StreamToken | StreamExtensionToken

  function Get(t: Tokens, f: Field): Option<string> {
    match f
    case AnswerSdp => t.answerSdp
    case StreamToken => t.streamToken
    case StreamExtensionToken => t.streamExtensionToken
  }

  /** The top-level fields of the envelope. */
  function TopLevel(d: StreamData): Tokens {
    Tokens(d.answerSdp, d.streamToken, d.streamExtensionToken)
  }

  /** `d.results?.f`. */
  function Nested(d: StreamData, f: Field): Option<string> {
    if d.results.Some? then Get(d.results.value, f) else None
  }

  /** `d.results?.f || d.f`: the nested value wins when it is truthy; an
      absent `results`, an absent nested field and an empty nested string
      all fall through to the top-level field. */
  function Lookup(d: StreamData, f: Field): (r: Option<string>)
    ensures Truthy(Nested(d, f)) ==> r == Nested(d, f)
    ensures !Truthy(Nested(d, f)) ==> r == Get(TopLevel(d), f)
    ensures Truthy(r) <==> Truthy(Nested(d, f)) || Truthy(Get(TopLevel(d), f))
  {
    OrElse(Nested(d, f), Get(TopLevel(d), f))
  }

  /** An envelope that holds nothing but `f` at top level yields exactly
      that value for `f` and nothing truthy for another field. */
  lemma LookupOfTopLevelOnly(v: string, f: Field, g: Field)
    requires v != ""
    ensures var d := StreamData(
              if f == AnswerSdp then Some(v) else None,
              if f == StreamToken then Some(v) else None,
              if f == StreamExtensionToken then Some(v) else None,
              None);
            Lookup(d, f) == Some(v) && (g != f ==> !Truthy(Lookup(d, g)))
  {
  }

  /** The envelope the mobile service builds when an extension fails:
      `{ streamExtensionToken: token }`. */
  function ExtensionOnly(token: string): (d: StreamData)
    ensures !Truthy(Lookup(d, StreamToken)) && !Truthy(Lookup(d, AnswerSdp))
    ensures token != "" ==> Lookup(d, StreamExtensionToken) == Some(token)
  {
    StreamData(None, None, Some(token), None)
  }

  predicate EndsWithNewline(s: string) {
    |s| > 0 && s[|s| - 1] == '\n'
  }

  /** The answer SDP as applied: a '\n' is appended exactly when the last
      character is not one (for the empty string, whose last character is
      `undefined`, too). */
  function NormalizeAnswer(sdp: string): (r: string)
    ensures EndsWithNewline(r)
    ensures r == sdp <==> EndsWithNewline(sdp)
    ensures r != sdp ==> r == sdp + "\n"
  {
    if EndsWithNewline(sdp) then sdp else sdp + "\n"
  }

  /** Normalising twice is normalising once. */
  lemma NormalizeAnswerIdempotent(sdp: string)
    ensures NormalizeAnswer(NormalizeAnswer(sdp)) == NormalizeAnswer(sdp)
  {
  }

  /** Normalisation only ever appends: the original answer is a prefix
      and at most one character is added. */
  lemma NormalizeAnswerExtends(sdp: string)
    ensures var r := NormalizeAnswer(sdp);
            |sdp| <= |r| <= |sdp| + 1 && r[..|sdp|] == sdp
  {
  }
}
