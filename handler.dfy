/** The entry points of `SAILLM`: a completion (the synchronous and the
    asynchronous one do the same work) and the emulated stream. */
module Handler {
  import opened Wrappers
  import opened Json
  import opened Messages
  import opened Request
  import opened Call
  import opened Streaming

  /** The completion handed back to the framework. */
  datatype ModelResponse = ModelResponse(text: string, finishReason: FinishReason, usage: Usage)

  /** `completion` and `acompletion`: prepare the messages (unwrapping them in
      place), take the last message's content as the prompt, and call SAI.
      `clock` gives the clock readings, `server` answers the requests; the
      requests sent are returned beside the response. */
  method Completion(cfg: Config, messages: array?<Element>, clock: nat -> int, server: HttpRequest -> Reply)
    returns (r: Result<(ModelResponse, seq<HttpRequest>), PrepareError>)
    modifies messages
    ensures messages == null ==> r == Failure(EmptyOrNotList)
    ensures messages != null ==>
      forall i :: 0 <= i < messages.Length ==> messages[i] == UnwrapElement(old(messages[i]))
    ensures messages != null && r.Failure? ==> Normalize(messages[..], clock) == Failure(r.error)
    ensures r.Success? <==> messages != null && Normalize(messages[..], clock).Success?
    ensures r.Success? ==>
      var (system, chatMessages) := Normalize(messages[..], clock).value;
      var payload := BuildPayload(system, messages[messages.Length - 1].fields["content"], chatMessages);
      var (response, headers) := FinalResponse(cfg, payload, server);
      && r.value.1 == Attempts(cfg, payload, server)
      && (r.value.0.text, r.value.0.finishReason, r.value.0.usage) == Translate(response, headers, |chatMessages|)
  {
    if messages == null || messages.Length == 0 {
      return Failure(EmptyOrNotList);
    }
    var prepared := PrepareMessages(messages, clock);
    if prepared.Failure? {
      return Failure(prepared.error);
    }
    var (system, chatMessages) := prepared.value;
    var prompt := messages[messages.Length - 1].fields["content"];
    var text, finishReason, usage, sent := CallSai(cfg, system, prompt, chatMessages, server);
    r := Success((ModelResponse(text, finishReason, usage), sent));
  }

  /** `astreaming`: the completion, then its text cut into chunks of
      `CHUNK_SIZE` characters, the finish reason on the last one. */
  method Stream(cfg: Config, messages: array?<Element>, clock: nat -> int, server: HttpRequest -> Reply)
    returns (r: Result<seq<Chunk>, PrepareError>)
    modifies messages
    ensures messages == null ==> r == Failure(EmptyOrNotList)
    ensures messages != null ==>
      forall i :: 0 <= i < messages.Length ==> messages[i] == UnwrapElement(old(messages[i]))
    ensures messages != null && r.Failure? ==> Normalize(messages[..], clock) == Failure(r.error)
    ensures r.Success? <==> messages != null && Normalize(messages[..], clock).Success?
    ensures r.Success? ==>
      var (system, chatMessages) := Normalize(messages[..], clock).value;
      var payload := BuildPayload(system, messages[messages.Length - 1].fields["content"], chatMessages);
      var (response, headers) := FinalResponse(cfg, payload, server);
      var (text, finishReason, usage) := Translate(response, headers, |chatMessages|);
      r.value == Chunks(text, CHUNK_SIZE, finishReason, usage)
  {
    var completion := Completion(cfg, messages, clock, server);
    if completion.Failure? {
      return Failure(completion.error);
    }
    var response := completion.value.0;
    var chunks := EmitChunks(response.text, CHUNK_SIZE, response.finishReason, response.usage);
    r := Success(chunks);
  }
}
