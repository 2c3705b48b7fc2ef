/** The request `run_flow` sends to the flow service: its URL and JSON body. */
module FlowRequest {
  import opened Wrappers
  import opened Json

  /** Where the flow service listens, and the flow the relay runs. */
  const BaseApiUrl: string := "http://35.176.125.157:7860"
  const FlowId: string := "e9aab95c-d25d-4036-93f2-bb39cc06b477"

  /** The route of a flow run, between the base URL and the endpoint. */
  const RunRoute: string := "/api/v1/run/"

  /** A POST to `url` whose JSON body is `payload`. */
  datatype Invocation = Invocation(url: string, payload: map<string, Json>)

  /** Python truthiness of an optional dict: None and `{}` are false. */
  predicate Truthy(tweaks: Option<map<string, Json>>) {
    tweaks.Some? && tweaks.value != map[]
  }

  /** The URL and body built by `run_flow`, with its defaults: the configured
      flow, `"chat"` for both types and no tweaks. */
  function BuildRequest(message: string, endpoint: string := FlowId,
                        outputType: string := "chat", inputType: string := "chat",
                        tweaks: Option<map<string, Json>> := None): (inv: Invocation)
    ensures |inv.url| == |BaseApiUrl| + |RunRoute| + |endpoint|
    ensures inv.url[..|BaseApiUrl|] == BaseApiUrl
    ensures inv.url[|BaseApiUrl|..|BaseApiUrl| + |RunRoute|] == RunRoute
    ensures inv.url[|BaseApiUrl| + |RunRoute|..] == endpoint
    ensures inv.payload.Keys == {"input_value", "output_type", "input_type"} + (if Truthy(tweaks) then {"tweaks"} else {})
    ensures inv.payload["input_value"] == String(message)
    ensures inv.payload["output_type"] == String(outputType)
    ensures inv.payload["input_type"] == String(inputType)
    ensures "tweaks" in inv.payload <==> Truthy(tweaks)
    ensures Truthy(tweaks) ==> inv.payload["tweaks"] == Object(tweaks.value)
  {
    var url := BaseApiUrl + RunRoute + endpoint;
    var payload := map["input_value" := String(message), "output_type" := String(outputType), "input_type" := String(inputType)];
    Invocation(url, if Truthy(tweaks) then payload["tweaks" := Object(tweaks.value)] else payload)
  }

  /** The URL names the endpoint: distinct endpoints are sent to distinct URLs. */
  lemma UrlDeterminesEndpoint(message1: string, endpoint1: string, outputType1: string, inputType1: string,
                              tweaks1: Option<map<string, Json>>,
                              message2: string, endpoint2: string, outputType2: string, inputType2: string,
                              tweaks2: Option<map<string, Json>>)
    requires BuildRequest(message1, endpoint1, outputType1, inputType1, tweaks1).url
          == BuildRequest(message2, endpoint2, outputType2, inputType2, tweaks2).url
    ensures endpoint1 == endpoint2
  {
  }

  /** The body determines every argument it carries: the message, both
      types, and the tweaks when they are sent. */
  lemma PayloadDeterminesArguments(message1: string, endpoint1: string, outputType1: string, inputType1: string,
                                   tweaks1: Option<map<string, Json>>,
                                   message2: string, endpoint2: string, outputType2: string, inputType2: string,
                                   tweaks2: Option<map<string, Json>>)
    requires BuildRequest(message1, endpoint1, outputType1, inputType1, tweaks1).payload
          == BuildRequest(message2, endpoint2, outputType2, inputType2, tweaks2).payload
    ensures message1 == message2 && outputType1 == outputType2 && inputType1 == inputType2
    ensures Truthy(tweaks1) == Truthy(tweaks2)
    ensures Truthy(tweaks1) ==> tweaks1 == tweaks2
  {
  }

  /** The request made with every default, as the `/chat` and WebSocket
      handlers call `run_flow`: the configured flow's URL and a body of
      exactly three members, without `tweaks`. */
  lemma DefaultRequest(message: string)
    ensures BuildRequest(message).url == BaseApiUrl + RunRoute + FlowId
    ensures BuildRequest(message).payload
         == map["input_value" := String(message), "output_type" := String("chat"), "input_type" := String("chat")]
  {
  }
}
