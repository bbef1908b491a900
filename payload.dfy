/** The body of the match request (src/App.jsx:250-256), as the JSON object
    it encodes: a map from key to string value. */
module Payload {
  import opened Values

  /** The keys of the request body; the group size travels as `group_size`. */
  const RequestKeys: set<string> := {"name", "schedule", "courses", "group_size", "difficulty"}

  /** The request body built from the current answers. Its keys are exactly
      `RequestKeys`, the group size sits under `group_size` and not under the
      component's own name `groupSize`, and every value is the answer itself. */
  function RequestPayload(form: Form): (body: map<string, string>)
    ensures body.Keys == RequestKeys
    ensures "groupSize" !in body
    ensures body["group_size"] == form.groupSize
    ensures body["name"] == form.name && body["schedule"] == form.schedule
    ensures body["courses"] == form.courses && body["difficulty"] == form.difficulty
  {
    map["name" := form.name, "schedule" := form.schedule, "courses" := form.courses,
        "group_size" := form.groupSize, "difficulty" := form.difficulty]
  }

  /** What a receiver reads back out of a body: the answers, when every key is present. */
  function DecodeForm(body: map<string, string>): (r: Option<Form>)
    ensures r.Some? <==> RequestKeys <= body.Keys
  {
    if RequestKeys <= body.Keys then
      Some(Form(body["name"], body["schedule"], body["courses"], body["group_size"], body["difficulty"]))
    else None
  }

  /** The body carries the whole form: reading it back gives the answers it was built from. */
  lemma DecodeRequestPayload(form: Form)
    ensures DecodeForm(RequestPayload(form)) == Some(form)
  {
  }

  /** Conversely, a body with exactly the request keys is the request body of what it decodes to. */
  lemma RequestPayloadOfDecoded(body: map<string, string>)
    requires body.Keys == RequestKeys
    ensures DecodeForm(body).Some? && RequestPayload(DecodeForm(body).value) == body
  {
  }
}
