/** The relay's reply extraction: `outputs[0].outputs[0].results.message.text`
    read out of the decoded body of the flow service, with a fixed fallback. */
module Extraction {
  import opened Wrappers
  import opened Json

  /** The literal returned when no reply can be read. */
  const NoResponse: string := "No response found"
  const Fallback: Json := String(NoResponse)

  /** Where the reply sits in the flow service's answer. */
  const ReplyPath: seq<Step> :=
    [Member("outputs"), First, Member("outputs"), First, Member("results"), Member("message"), Member("text")]

  /** The lookup chain as written: each `.get` has its default (`[]`, `{}`,
      or the fallback text for `text`), each `[0]` indexes, and None stands
      for any exception the chain raises. */
  function Lookup(response: Json): Option<Json> {
    var outer :- Get(response, "outputs", Array([]));
    var run :- Index0(outer);
    var inner :- Get(run, "outputs", Array([]));
    var output :- Index0(inner);
    var results :- Get(output, "results", Object(map[]));
    var message :- Get(results, "message", Object(map[]));
    Get(message, "text", Fallback)
  }

  /** The defaults and the indexing of strings never yield anything but the
      fallback: where the strict path leads somewhere the chain returns that
      value, and otherwise it raises or returns the fallback text. */
  lemma LookupAgreesWithPath(response: Json)
    ensures Follow(response, ReplyPath).Some? ==> Lookup(response) == Follow(response, ReplyPath)
    ensures Follow(response, ReplyPath).None? ==> Lookup(response) in {None, Some(Fallback)}
  {
  }

  /** `extract_message`: total, and the reply is exactly the value at
      `outputs[0].outputs[0].results.message.text` when that path exists
      (returned unchanged, of whatever kind), and the fallback otherwise. */
  function ExtractMessage(response: Json): (r: Json)
    ensures r == Follow(response, ReplyPath).GetOr(Fallback)
  {
    Lookup(response).GetOr(Fallback)
  }
}

/** The cases of `extract_message`, each read off its characterisation. */
module ExtractionCases {
  import opened Wrappers
  import opened Json
  import opened Extraction

  /** A body of the expected shape (other members and further elements
      allowed) yields the value at `text`, unchanged. */
  lemma ReplyFound(top: map<string, Json>, runs: seq<Json>, run: map<string, Json>,
                   outputs: seq<Json>, output: map<string, Json>,
                   results: map<string, Json>, message: map<string, Json>)
    requires "outputs" in top && top["outputs"] == Array(runs) && |runs| > 0 && runs[0] == Object(run)
    requires "outputs" in run && run["outputs"] == Array(outputs) && |outputs| > 0 && outputs[0] == Object(output)
    requires "results" in output && output["results"] == Object(results)
    requires "message" in results && results["message"] == Object(message)
    requires "text" in message
    ensures ExtractMessage(Object(top)) == message["text"]
  {
  }

  /** The smallest body of the expected shape, carrying `text`. */
  function Envelope(text: Json): Json {
    var message := map["text" := text];
    var results := map["message" := Object(message)];
    var output := map["results" := Object(results)];
    var run := map["outputs" := Array([Object(output)])];
    Object(map["outputs" := Array([Object(run)])])
  }

  /** Reading the reply back out of an envelope gives the text put in. */
  lemma EnvelopeRoundTrip(text: Json)
    ensures ExtractMessage(Envelope(text)) == text
  {
  }

  /** A missing top-level `outputs`, or an empty one, gives the fallback:
      the default `[]` and `[][0]` raises. */
  lemma OuterOutputsMissingOrEmpty(top: map<string, Json>)
    requires "outputs" !in top || top["outputs"] == Array([])
    ensures Lookup(Object(top)) == None
    ensures ExtractMessage(Object(top)) == Fallback
  {
  }

  /** Likewise for the `outputs` of the first run: `[][0]` raises. */
  lemma InnerOutputsMissingOrEmpty(top: map<string, Json>, runs: seq<Json>, run: map<string, Json>)
    requires "outputs" in top && top["outputs"] == Array(runs) && |runs| > 0 && runs[0] == Object(run)
    requires "outputs" !in run || run["outputs"] == Array([])
    ensures Lookup(Object(top)) == None
    ensures ExtractMessage(Object(top)) == Fallback
  {
  }

  /** A missing `results` or `message` falls back to `{}`, and a `message`
      without `text` to the fallback text: no error, and the fallback. */
  lemma DefaultsGiveFallback(top: map<string, Json>, runs: seq<Json>, run: map<string, Json>,
                             outputs: seq<Json>, output: map<string, Json>)
    requires "outputs" in top && top["outputs"] == Array(runs) && |runs| > 0 && runs[0] == Object(run)
    requires "outputs" in run && run["outputs"] == Array(outputs) && |outputs| > 0 && outputs[0] == Object(output)
    requires || "results" !in output
             || (output["results"].Object? && "message" !in output["results"].members)
             || (output["results"].Object? && "message" in output["results"].members
                 && output["results"].members["message"].Object?
                 && "text" !in output["results"].members["message"].members)
    ensures Lookup(Object(top)) == Some(Fallback)
    ensures ExtractMessage(Object(top)) == Fallback
  {
  }

  /** Any value along the path that is not of the kind the next step needs
      (not an object where a member is read, not a non-empty array where
      `[0]` is taken) gives the fallback. */
  lemma ShapeMismatch(response: Json, k: nat, w: Json)
    requires k < |ReplyPath|
    requires Follow(response, ReplyPath[..k]) == Some(w)
    requires Walk(w, ReplyPath[k]) == None
    ensures ExtractMessage(response) == Fallback
  {
    FollowStuck(response, ReplyPath, k, w);
  }

  /** In particular a body that is not an object gives the fallback. */
  lemma NotAnObject(response: Json)
    requires !response.Object?
    ensures ExtractMessage(response) == Fallback
  {
  }
}

/** The reply as the text the relay declares it to be. */
module ReplyText {
  import opened Wrappers
  import opened Json
  import opened Extraction
  import opened ExtractionCases

  /** As written, the value at `text` is returned whatever its kind: a
      well-shaped body whose `text` is `null` makes `extract_message` return
      null, although it is declared to return a string. */
  lemma NullTextIsReturned()
    ensures ExtractMessage(Envelope(Null)) == Null
  {
  }

  /** The reply as evidently intended: always a string, the one at the path
      when there is one, and the fallback text otherwise. */
  function ExtractReply(response: Json): (r: string)
    ensures match Follow(response, ReplyPath)
            case Some(String(text)) => r == text
            case _ => r == NoResponse
    ensures ExtractMessage(response).String? ==> r == ExtractMessage(response).s
  {
    match ExtractMessage(response)
    case String(s) => s
    case _ => NoResponse
  }
}
