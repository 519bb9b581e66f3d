/** backend/utils/llm.py: creating the model client. The client itself and
    every call made through it are foreign; a call is represented only by
    its outcome. */
module Llm {
  import opened Wrappers
  import opened Values

  /** The configured client: model name, temperature and key. */
  datatype ChatGroq = ChatGroq(model: string, temperature: int, apiKey: string)

  const MissingKeyMessage := "GROQ_API_KEY environment variable is not set"

  /** What one `chain.invoke` followed by `json.loads(response.content)`
      produced: the decoded reply, a `json.JSONDecodeError`, or any other
      exception with its text. */
  datatype Outcome = Parsed(reply: Value) | DecodeError | OtherError(message: string)

  /** `initialize_llm()`, given the value of the environment variable
      `GROQ_API_KEY` (None when unset). An unset or empty key raises
      `ValueError`; otherwise the client uses the fixed model at
      temperature 0. */
  function InitializeLlm(apiKey: Option<string>): (r: Result<ChatGroq, Error>)
    ensures r.Err? <==> apiKey == None || apiKey == Some("")
    ensures r.Err? ==> r.error == ValueError(MissingKeyMessage)
    ensures r.Ok? ==> r.value == ChatGroq("llama3-70b-8192", 0, apiKey.value)
  {
    if apiKey.None? || apiKey.value == "" then Err(ValueError(MissingKeyMessage))
    else Ok(ChatGroq("llama3-70b-8192", 0, apiKey.value))
  }
}
