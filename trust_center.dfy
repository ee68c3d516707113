/** The decision logic of TrustCenterRAGService: the keyword-based
    simulated answer, the query that falls back to it, and the start-up
    check that syncs the document index when it is empty. The HTTP calls
    (`queryDocuments`, `getStatus`, `syncDocuments`) are outside the model;
    each is represented by the Outcome it settles with. */
module TrustCenter {
  import opened Wrappers
  import opened Strings
  import opened JsValues

  const PrivacyAnswer: string := "I can help you with GDPR compliance. Our Privacy Policy is regularly updated and available in the Trust Center Documents. We process data in accordance with EU regulations and provide easy-to-use data subject rights management."
  const CertificationAnswer: string := "Our security certifications include ISO 27001, SOC 2 Type II, and PCI DSS compliance. These certificates are regularly audited and updated. You can find the latest versions in our Certifications section."
  const DefaultAnswer: string := "I understand you're looking for information about our trust and compliance practices. Could you be more specific? I can help with policies, certifications, audit reports, or compliance questions."

  predicate AsksAboutPrivacy(question: string) {
    Contains(Lower(question), "gdpr") || Contains(Lower(question), "privacy")
  }

  predicate AsksAboutSecurity(question: string) {
    Contains(Lower(question), "security") || Contains(Lower(question), "certificate")
  }

  /** `getSimulatedResponse(question)`: privacy keywords take precedence
      over security keywords; anything else gets the generic answer. */
  function SimulatedResponse(question: string): (r: string)
    ensures AsksAboutPrivacy(question) ==> r == PrivacyAnswer
    ensures !AsksAboutPrivacy(question) && AsksAboutSecurity(question) ==> r == CertificationAnswer
    ensures !AsksAboutPrivacy(question) && !AsksAboutSecurity(question) ==> r == DefaultAnswer
  {
    var lowerMessage := Lower(question);
    if Contains(lowerMessage, "gdpr") || Contains(lowerMessage, "privacy") then
      PrivacyAnswer
    else if Contains(lowerMessage, "security") || Contains(lowerMessage, "certificate") then
      CertificationAnswer
    else
      DefaultAnswer
  }

  /** Keyword matching ignores the case of the ASCII letters of the question. */
  lemma SimulatedResponseIgnoresCase(question: string)
    ensures SimulatedResponse(Lower(question)) == SimulatedResponse(question)
  {
    LowerIdempotent(question);
  }

  /** A privacy keyword anywhere in the question, in any case, selects
      the privacy answer; `prefix` and `suffix` stand for the rest of the
      question, whatever security keywords they hold. */
  lemma PrivacyKeywordAnywhere(prefix: string, keyword: string, suffix: string)
    requires Lower(keyword) == "gdpr" || Lower(keyword) == "privacy"
    ensures SimulatedResponse(prefix + keyword + suffix) == PrivacyAnswer
  {
    var q := prefix + keyword + suffix;
    LowerConcat(prefix + keyword, suffix);
    LowerConcat(prefix, keyword);
    assert Lower(q) == Lower(prefix) + Lower(keyword) + Lower(suffix);
    ContainsInfix(Lower(prefix), Lower(keyword), Lower(suffix));
  }

  /** A security keyword in a question without privacy keywords selects the
      certification answer. */
  lemma SecurityKeywordAnywhere(prefix: string, keyword: string, suffix: string)
    requires Lower(keyword) == "security" || Lower(keyword) == "certificate"
    requires !AsksAboutPrivacy(prefix + keyword + suffix)
    ensures SimulatedResponse(prefix + keyword + suffix) == CertificationAnswer
  {
    var q := prefix + keyword + suffix;
    LowerConcat(prefix + keyword, suffix);
    LowerConcat(prefix, keyword);
    assert Lower(q) == Lower(prefix) + Lower(keyword) + Lower(suffix);
    ContainsInfix(Lower(prefix), Lower(keyword), Lower(suffix));
  }

  /** `queryWithFallback(question, mode)`, given how `queryDocuments`
      settled: the RAG answer with `source` and `success` forced, or the
      simulated answer in the fallback shape with the error's message. */
  function QueryWithFallback(question: string, rag: Outcome<Value>): (r: Object)
    ensures rag.Resolved? ==> "source" in r && r["source"] == Str("rag") && "success" in r && r["success"] == Bool(true)
    ensures rag.Resolved? ==> forall k :: k in Spread(rag.value) && k != "source" && k != "success" ==> k in r && r[k] == Spread(rag.value)[k]
    ensures rag.Resolved? ==> r.Keys == Spread(rag.value).Keys + {"source", "success"}
    ensures rag.Rejected? ==> r.Keys == {"answer", "sources", "contexts", "source", "success", "error"}
    ensures rag.Rejected? ==> r["answer"] == Str(SimulatedResponse(question)) && r["contexts"] == Arr([r["answer"]])
    ensures rag.Rejected? ==> r["sources"] == Arr([Str("Simulated Response")]) && r["source"] == Str("fallback")
    ensures rag.Rejected? ==> r["success"] == Bool(false) && r["error"] == Str(rag.message)
  {
    match rag
    case Resolved(ragResponse) =>
      Spread(ragResponse) + map["source" := Str("rag"), "success" := Bool(true)]
    case Rejected(message) =>
      var fallbackResponse := SimulatedResponse(question);
      map[
        "answer" := Str(fallbackResponse),
        "sources" := Arr([Str("Simulated Response")]),
        "contexts" := Arr([Str(fallbackResponse)]),
        "source" := Str("fallback"),
        "success" := Bool(false),
        "error" := Str(message)]
  }

  /** The result reports success exactly when the RAG query resolved. */
  lemma QuerySuccessIffResolved(question: string, rag: Outcome<Value>)
    ensures QueryWithFallback(question, rag)["success"] == Bool(rag.Resolved?)
    ensures QueryWithFallback(question, rag)["source"] == Str(if rag.Resolved? then "rag" else "fallback")
  {
  }

  /** `status && status.indexed_file_count > 0`: the index already holds
      documents. Only a numeric count is compared. */
  function IndexedFileCount(status: Value): (count: Option<nat>)
    ensures count.Some? ==>
              && count.value > 0 && status.Obj? && "indexed_file_count" in status.fields
              && status.fields["indexed_file_count"] == Num(count.value)
    ensures count.None? ==>
              !(&& status.Obj? && "indexed_file_count" in status.fields
                && status.fields["indexed_file_count"].Num? && status.fields["indexed_file_count"].n > 0)
  {
    if status.Obj? && "indexed_file_count" in status.fields
       && status.fields["indexed_file_count"].Num? && status.fields["indexed_file_count"].n > 0
    then Some(status.fields["indexed_file_count"].n)
    else None
  }

  /** What `initializeTrustCenter` returns, and whether it asked the
      server to sync. */
  datatype InitResult = InitResult(result: Object, synced: bool)

  const FallbackMessage: string := "Trust Center running in fallback mode"
  const InitializedMessage: string := "Trust Center initialized successfully"

  const AlreadyInitializedPrefix: string := "Trust Center already initialized with "
  const DocumentsSuffix: string := " documents"

  /** The message names the count, which can be read back from it. */
  function AlreadyInitializedMessage(count: nat): (r: string)
    ensures |r| > |AlreadyInitializedPrefix| + |DocumentsSuffix|
    ensures r[..|AlreadyInitializedPrefix|] == AlreadyInitializedPrefix
    ensures r[|r| - |DocumentsSuffix|..] == DocumentsSuffix
    ensures var digits := r[|AlreadyInitializedPrefix|..|r| - |DocumentsSuffix|];
      IsDigits(digits) && DecimalValue(digits) == count
    ensures r != InitializedMessage && r != FallbackMessage
  {
    var digits := NatToString(count);
    DecimalOfNatToString(count);
    var r := AlreadyInitializedPrefix + digits + DocumentsSuffix;
    assert r[|AlreadyInitializedPrefix|..|r| - |DocumentsSuffix|] == digits;
    assert r[..|AlreadyInitializedPrefix|] == AlreadyInitializedPrefix;
    assert r[|r| - |DocumentsSuffix|..] == DocumentsSuffix;
    assert r[13] == 'a' != InitializedMessage[13];
    assert r[13] != FallbackMessage[13];
    r
  }

  function FallbackResult(message: string): (r: Object)
    ensures r.Keys == {"success", "message", "error", "fallback"}
    ensures r["success"] == Bool(false) && r["fallback"] == Bool(true)
    ensures r["message"] == Str(FallbackMessage) && r["error"] == Str(message)
  {
    map["success" := Bool(false), "message" := Str(FallbackMessage), "error" := Str(message), "fallback" := Bool(true)]
  }

  /** `initializeTrustCenter()`, given how `getStatus` and, when it is
      reached, `syncDocuments` settle. The server's own fields are spread
      after `success` and `message`, so a field of the same name in the
      server's answer takes their place. */
  function InitializeTrustCenter(status: Outcome<Value>, sync: Outcome<Value>): (r: InitResult)
    ensures r.synced <==> status.Resolved? && IndexedFileCount(status.value).None?
    ensures status.Rejected? ==> r.result == FallbackResult(status.message)
    ensures r.synced && sync.Rejected? ==> r.result == FallbackResult(sync.message)
    ensures r.synced && sync.Resolved? ==> r.result.Keys == Spread(sync.value).Keys + {"success", "message"}
    ensures status.Resolved? && !r.synced ==> r.result.Keys == Spread(status.value).Keys + {"success", "message"}
  {
    match status
    case Rejected(message) => InitResult(FallbackResult(message), false)
    case Resolved(s) =>
      match IndexedFileCount(s)
      case Some(count) =>
        InitResult(map["success" := Bool(true), "message" := Str(AlreadyInitializedMessage(count))] + Spread(s), false)
      case None =>
        match sync
        case Rejected(message) => InitResult(FallbackResult(message), true)
        case Resolved(result) =>
          InitResult(map["success" := Bool(true), "message" := Str(InitializedMessage)] + Spread(result), true)
  }

  /** An index that already holds documents is reported without syncing:
      how a sync would have settled makes no difference. */
  lemma NoSyncWhenIndexed(status: Value, sync1: Outcome<Value>, sync2: Outcome<Value>)
    requires IndexedFileCount(status).Some?
    ensures InitializeTrustCenter(Resolved(status), sync1) == InitializeTrustCenter(Resolved(status), sync2)
    ensures !InitializeTrustCenter(Resolved(status), sync1).synced
    ensures "success" !in Spread(status) ==> InitializeTrustCenter(Resolved(status), sync1).result["success"] == Bool(true)
  {
  }

  /** The fields the server contributed to the result: the status
      answer's when the index already held documents, else the sync's. */
  function ServerFields(status: Outcome<Value>, sync: Outcome<Value>): (r: Object) {
    if status.Resolved? && IndexedFileCount(status.value).Some? then Spread(status.value)
    else if status.Resolved? && sync.Resolved? then Spread(sync.value)
    else map[]
  }

  /** Every failure, of the status check or of the sync it leads to, ends in
      fallback mode; otherwise the result reports success and its message,
      unless the server's own fields replace them. */
  lemma InitializeOutcome(status: Outcome<Value>, sync: Outcome<Value>)
    ensures var r := InitializeTrustCenter(status, sync);
      var failed := status.Rejected? || (r.synced && sync.Rejected?);
      && (failed ==> r.result["success"] == Bool(false) && r.result["fallback"] == Bool(true)
                     && r.result["message"] == Str(FallbackMessage))
      && (!failed && "success" !in ServerFields(status, sync) ==> r.result["success"] == Bool(true))
      && (!failed && "message" !in ServerFields(status, sync) ==>
            r.result["message"] == Str(if r.synced then InitializedMessage
                                       else AlreadyInitializedMessage(IndexedFileCount(status.value).value)))
      && (!failed ==> forall k :: k in ServerFields(status, sync) ==> r.result[k] == ServerFields(status, sync)[k])
  {
  }
}
