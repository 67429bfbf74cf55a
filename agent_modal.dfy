/**
 * The "Add Agent" modal: the SOL-to-USD price preview, the remote check
 * started when the code field loses focus, the ordered checks of the submit
 * handler, the request it sends, and how a successful or failed request
 * changes the form.
 */
module AgentModal {
  import opened Optional
  import opened Text
  import opened Tags
  import opened Submission

  /**
   * What `validateAll()` did when the handler negated its value: it threw
   * (nothing catches this, so the handler ends with no toast and no change),
   * or it returned a value that is truthy or falsy.
   */
  datatype LocalCheck = Raised | ReturnedValue(truthy: bool)

  /** What the submit handler consults besides the form: the remote content check, the local validation and the eligibility query. */
  datatype Environment = Environment(remote: RemoteValidation, local: LocalCheck, eligibility: EligibilityQuery)

  /** The modal's state. */
  datatype AgentState = AgentState(
    agentName: string,
    description: string,
    agent: string,
    tags: string,
    language: string,
    categories: seq<string>,
    isLoading: bool,
    isFree: bool,
    price: string,
    walletAddress: string,
    isValidating: bool,
    usdPrice: Option<real>,
    isConvertingPrice: bool)

  /** The state of a fresh modal: empty fields, Python, and a free listing. */
  const InitialState: AgentState :=
    AgentState("", "", "", "", "python", [], false, true, "", "", false, None, false)

  const WaitToast: Toast := Destructive("Please wait for validation to complete", None)
  const FixErrorsToast: Toast := Destructive("Please fix the errors in the form", None)

  /** `if (!validation.validateAll())`: a falsy value stops the handler with a toast; a throw ends it silently. */
  function LocalGate(local: LocalCheck): (g: Gate)
    ensures g.Pass? <==> local.ReturnedValue? && local.truthy
  {
    match local
    case Raised => Block(None)
    case ReturnedValue(truthy) => if truthy then Pass else Block(Some(FixErrorsToast))
  }

  /** The waiting check and the local validation. */
  function EntryGates(s: AgentState, env: Environment): seq<Gate> {
    [ Check(s.isValidating || env.remote.isPending, WaitToast),
      LocalGate(env.local) ]
  }

  /** The remote verdict, the categories, and for a paid agent the eligibility checks. */
  function ContentGates(s: AgentState, env: Environment): seq<Gate> {
    ListingGates("Invalid Agent", env.remote, s.categories, s.isFree, env.eligibility)
  }

  /** All the checks of the submit handler, in the order it makes them. */
  function AgentGates(s: AgentState, env: Environment): seq<Gate> {
    EntryGates(s, env) + ContentGates(s, env)
  }

  /** The request `addAgent` is sent. The fixed placeholder use case and requirement are not modelled. */
  datatype AgentRequest = AgentRequest(
    name: string,
    agent: string,
    description: string,
    category: seq<string>,
    imageUrl: Option<string>,
    filePath: Option<string>,
    language: string,
    tags: string,
    isFree: bool,
    terms: PriceTerms)

  function AgentRequestOf(s: AgentState, imageUrl: string, filePath: string, parseFloat: string -> Option<real>): AgentRequest {
    AgentRequest(s.agentName, s.agent, s.description, s.categories,
                 if imageUrl != "" then Some(imageUrl) else None,
                 if imageUrl != "" && filePath != "" then Some(filePath) else None,
                 s.language, NormalizeTags(s.tags), s.isFree,
                 PriceTermsOf(s.isFree, s.price, s.walletAddress, parseFloat))
  }

  /** What the submit handler does with the state, given what it consults. */
  function AgentDecision(s: AgentState, env: Environment, imageUrl: string, filePath: string,
                         parseFloat: string -> Option<real>): Decision<AgentRequest> {
    Decide(AgentGates(s, env), AgentRequestOf(s, imageUrl, filePath, parseFloat))
  }

  /** Every condition the submit handler requires before it sends the agent. */
  predicate AgentAcceptable(s: AgentState, env: Environment) {
    && !s.isValidating && !env.remote.isPending
    && env.local.ReturnedValue? && env.local.truthy
    && !(env.remote.data.Some? && !env.remote.data.value.valid)
    && s.categories != []
    && (s.isFree || (!env.eligibility.isLoading && !env.eligibility.hasError
                     && (env.eligibility.data.None? || env.eligibility.data.value.isEligible)))
  }

  /** The agent is sent exactly when every condition holds. */
  lemma AgentProceedsIffAcceptable(s: AgentState, env: Environment, imageUrl: string, filePath: string,
                                   parseFloat: string -> Option<real>)
    ensures AgentDecision(s, env, imageUrl, filePath, parseFloat).Proceed? <==> AgentAcceptable(s, env)
  {
    var entry := EntryGates(s, env);
    AllPassAppend(entry, ContentGates(s, env));
    assert AllPass(entry) <==> entry[0].Pass? && entry[1].Pass?;
    ListingGatesPass("Invalid Agent", env.remote, s.categories, s.isFree, env.eligibility);
  }

  /**
   * A validation in progress, local or remote, is reported before anything
   * else; then a falsy value from the local validation stops the handler.
   */
  lemma EntryChecksComeFirst(s: AgentState, env: Environment, imageUrl: string, filePath: string,
                             parseFloat: string -> Option<real>)
    ensures s.isValidating || env.remote.isPending ==>
              AgentDecision(s, env, imageUrl, filePath, parseFloat) == Halt(Some(WaitToast))
    ensures !s.isValidating && !env.remote.isPending && env.local == ReturnedValue(false) ==>
              AgentDecision(s, env, imageUrl, filePath, parseFloat) == Halt(Some(FixErrorsToast))
    ensures !s.isValidating && !env.remote.isPending && env.local.Raised? ==>
              AgentDecision(s, env, imageUrl, filePath, parseFloat) == Halt(None)
  {
    var entry := EntryGates(s, env);
    if s.isValidating || env.remote.isPending {
      FirstBlockIsEarliest(entry, 0);
      FirstBlockBeforeRest(entry, ContentGates(s, env));
    } else if !(env.local.ReturnedValue? && env.local.truthy) {
      FirstBlockIsEarliest(entry, 1);
      FirstBlockBeforeRest(entry, ContentGates(s, env));
    }
  }

  /** A free agent is judged without the eligibility query: its state does not matter. */
  lemma FreeAgentIgnoresEligibility(s: AgentState, env: Environment, q: EligibilityQuery, imageUrl: string, filePath: string,
                                    parseFloat: string -> Option<real>)
    requires s.isFree
    ensures AgentDecision(s, env.(eligibility := q), imageUrl, filePath, parseFloat)
         == AgentDecision(s, env, imageUrl, filePath, parseFloat)
  {
    assert AgentGates(s, env.(eligibility := q)) == AgentGates(s, env);
  }

  /** An agent that is sent carries normalised tags, and a free agent goes at price 0 with no wallet. */
  lemma SentAgentShape(s: AgentState, env: Environment, imageUrl: string, filePath: string, parseFloat: string -> Option<real>)
    requires AgentDecision(s, env, imageUrl, filePath, parseFloat).Proceed?
    ensures var r := AgentDecision(s, env, imageUrl, filePath, parseFloat).request;
            && r.tags == NormalizeTags(s.tags)
            && TagEntries(r.tags) == TagEntries(s.tags)
            && (s.isFree ==> r.terms == PriceTerms(Some(0.0), ""))
            && (!s.isFree ==> r.terms == PriceTerms(parseFloat(s.price), s.walletAddress))
  {
    TagEntriesOfNormalized(s.tags);
  }

  /** Whether a rejection is blamed on the validation service: the phrases are tested in the handler's order. */
  function AgentApiFailure(m: string): bool {
    if Contains(m, "Fallback validation:") then true
    else if Contains(m, "Content quality score") then false
    else if Contains(m, "not eligible") then false
    else Contains(m, "API request failed") || Contains(m, "temporarily unavailable")
  }

  /**
   * A rejection is blamed on the service exactly when the message mentions
   * the fallback validator, or reports a failed or unavailable API without
   * mentioning a quality score or ineligibility.
   */
  lemma AgentApiFailureIff(m: string)
    ensures AgentApiFailure(m) <==>
              Contains(m, "Fallback validation:")
              || (!Contains(m, "Content quality score") && !Contains(m, "not eligible")
                  && (Contains(m, "API request failed") || Contains(m, "temporarily unavailable")))
  {
  }

  /**
   * How the handler reports a rejected request: the server's message, or a
   * generic one when there is none, under a title that says whether the
   * validation service failed.
   */
  function AgentFailureToast(message: Option<string>): (t: Toast)
    ensures t.destructive
    ensures t.description == Some(OrElse(message, "An error has occurred"))
    ensures t.title == "Validation Service Issue" <==> message.Some? && message.value != "" && AgentApiFailure(message.value)
    ensures t.title != "Validation Service Issue" ==> t.title == "Submission Failed"
  {
    if message.None? || message.value == "" then Destructive("Submission Failed", Some("An error has occurred"))
    else if AgentApiFailure(message.value) then Destructive("Validation Service Issue", Some(message.value))
    else Destructive("Submission Failed", Some(message.value))
  }

  /** The modal's state, field by field. */
  class AddAgentModal {
    var agentName: string
    var description: string
    var agent: string
    var tags: string
    var language: string
    var categories: seq<string>
    var isLoading: bool
    var isFree: bool
    var price: string
    var walletAddress: string
    var isValidating: bool
    var usdPrice: Option<real>
    var isConvertingPrice: bool

    function State(): AgentState
      reads this
    {
      AgentState(agentName, description, agent, tags, language, categories, isLoading, isFree, price,
                 walletAddress, isValidating, usdPrice, isConvertingPrice)
    }

    constructor()
      ensures State() == InitialState
    {
      agentName, description, agent, tags, language, categories := "", "", "", "", "python", [];
      isLoading, isFree, price, walletAddress := false, true, "", "";
      isValidating, usdPrice, isConvertingPrice := false, None, false;
    }

    /**
     * The submit handler: it halts with the toast of the first failing check,
     * or proceeds with the request and marks the modal as loading.
     */
    method Submit(env: Environment, imageUrl: string, filePath: string, parseFloat: string -> Option<real>)
      returns (d: Decision<AgentRequest>)
      modifies this
      ensures d == AgentDecision(old(State()), env, imageUrl, filePath, parseFloat)
      ensures State() == old(State()).(isLoading := d.Proceed? || old(isLoading))
    {
      var s := State();
      d := AgentDecision(s, env, imageUrl, filePath, parseFloat);
      if d.Proceed? {
        SetLoading();
      }
    }

    /** `setIsLoading(true)`. */
    method SetLoading()
      modifies this
      ensures State() == old(State()).(isLoading := true)
    {
      isLoading := true;
    }

    /** The request succeeded: a toast, and the name, code, description and tags are cleared; nothing else changes. */
    method AddSucceeded() returns (toast: Toast)
      modifies this
      ensures toast == Toast("Agent added successfully \U{1F389}", None, false)
      ensures State() == old(State()).(agentName := "", agent := "", description := "", tags := "")
    {
      toast := Toast("Agent added successfully \U{1F389}", None, false);
      agentName, agent, description, tags := "", "", "", "";
    }

    /** The request failed with the given message: the classified toast, and the modal is no longer loading. */
    method AddFailed(message: Option<string>) returns (toast: Toast)
      modifies this
      ensures toast == AgentFailureToast(message)
      ensures State() == old(State()).(isLoading := false)
    {
      toast := AgentFailureToast(message);
      isLoading := false;
    }

    /**
     * The start of `convertPriceToUsd`: with no number to convert the preview
     * is cleared and no lookup starts; otherwise the modal shows it is converting.
     */
    method BeginSolToUsd(solPrice: string, parseFloat: string -> Option<real>) returns (started: bool)
      modifies this
      ensures started <==> !NothingToConvert(solPrice, parseFloat)
      ensures !started ==> State() == old(State()).(usdPrice := None)
      ensures started ==> State() == old(State()).(isConvertingPrice := true)
    {
      if solPrice == "" || parseFloat(solPrice).None? {
        usdPrice := None;
        return false;
      }
      isConvertingPrice := true;
      started := true;
    }

    /**
     * The end of `convertPriceToUsd`, given the USD amount the oracle gave
     * (None when it failed): the preview shows it, or is cleared, and the
     * modal stops showing it is converting.
     */
    method FinishSolToUsd(usd: Option<real>)
      modifies this
      ensures State() == old(State()).(usdPrice := usd, isConvertingPrice := false)
    {
      usdPrice := usd;
      isConvertingPrice := false;
    }

    /** `convertPriceToUsd` from start to end: the busy flag is set only while a lookup runs. */
    method ConvertPriceToUsd(solPrice: string, parseFloat: string -> Option<real>, usd: Option<real>)
      modifies this
      ensures isConvertingPrice == (old(isConvertingPrice) && NothingToConvert(solPrice, parseFloat))
      ensures usdPrice == if NothingToConvert(solPrice, parseFloat) then None else usd
      ensures State() == old(State()).(usdPrice := usdPrice, isConvertingPrice := isConvertingPrice)
    {
      var started := BeginSolToUsd(solPrice, parseFloat);
      if started {
        FinishSolToUsd(usd);
      }
    }

    /**
     * The code field lost focus: code of at least five characters after
     * trimming is sent to the remote check, and the modal shows it is validating.
     */
    method BeginCodeValidation() returns (sent: Option<string>)
      modifies this
      ensures sent.Some? <==> |Trim(old(agent))| >= 5
      ensures sent.Some? ==> sent.value == old(agent) && State() == old(State()).(isValidating := true)
      ensures sent.None? ==> State() == old(State())
    {
      if |Trim(agent)| >= 5 {
        isValidating := true;
        sent := Some(agent);
      } else {
        sent := None;
      }
    }

    /** The remote check settled, with success or failure: the modal stops showing it is validating. */
    method FinishCodeValidation()
      modifies this
      ensures State() == old(State()).(isValidating := false)
    {
      isValidating := false;
    }

    /** The blur handler from start to end: only code long enough is checked, and the flag is cleared after it. */
    method CodeBlur() returns (sent: Option<string>)
      modifies this
      ensures sent.Some? <==> |Trim(old(agent))| >= 5
      ensures isValidating == (old(isValidating) && sent.None?)
      ensures State() == old(State()).(isValidating := isValidating)
    {
      sent := BeginCodeValidation();
      if sent.Some? {
        FinishCodeValidation();
      }
    }
  }
}
