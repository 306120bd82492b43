/** The session gate: the API key `initialize` stores, which every new
    builder requires. The program keeps the key in a process-wide
    variable; here it is an explicit value. */
module SessionGate {
  import opened Wrappers
  import opened Errors
  import opened Requests
  import opened Invariants

  datatype Session = Session(apiKey: Option<string>)

  /** The state before any `initialize`. */
  const Uninitialized := Session(None)

  /** JavaScript truthiness of the stored key: present and non-empty. */
  predicate HasKey(s: Session)
  {
    s.apiKey.Some? && s.apiKey.value != ""
  }

  /** `initialize`: an empty key is refused; any other key replaces the one
      stored before. */
  function Initialize(s: Session, apiKey: string): (r: Result<Session, Error>)
    ensures r.Err? <==> apiKey == ""
    ensures r.Err? ==> r.error == InvalidApiKey
    ensures r.Ok? ==> r.value.apiKey == Some(apiKey) && HasKey(r.value)
  {
    if apiKey == "" then Err(InvalidApiKey) else Ok(Session(Some(apiKey)))
  }

  /** `request(model)`, the builder constructor: refused without a stored
      key; otherwise a record holding the model, no messages and nothing
      else. */
  function NewRequest(s: Session, model: ChatModel): (r: Result<Request, Error>)
    ensures r.Err? <==> !HasKey(s)
    ensures r.Err? ==> r.error == NotInitialized
    ensures r.Ok? ==> r.value.model == model && r.value.messages == [] && NothingSet(r.value)
    ensures r.Ok? ==> WellFormed(r.value)
  {
    if !HasKey(s) then Err(NotInitialized) else Ok(Fresh(model))
  }

  /** Before `initialize`, no builder can be made; after a successful one,
      every model can be requested, whatever was stored before. */
  lemma GateOpensOnlyAfterInitialize(s: Session, key: string, model: ChatModel)
    ensures NewRequest(Uninitialized, model) == Err(NotInitialized)
    ensures key != "" ==> Initialize(s, key).Ok? && NewRequest(Initialize(s, key).value, model).Ok?
  {
  }

  /** Re-initializing replaces the key; a refused key leaves the caller's
      session as it was, since no new session is produced. */
  lemma InitializeOverwrites(s: Session, k1: string, k2: string)
    requires k1 != "" && k2 != ""
    ensures Initialize(Initialize(s, k1).value, k2) == Initialize(s, k2)
    ensures Initialize(s, k2).value.apiKey == Some(k2)
  {
  }
}
