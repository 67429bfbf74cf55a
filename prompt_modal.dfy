/**
 * The "Add Prompt" modal: the editable list of reference links, the
 * USD-to-SOL price preview, the ordered checks of the submit handler, the
 * request it sends, and how a successful or failed request changes the form.
 */
module PromptModal {
  import opened Optional
  import opened Text
  import opened Tags
  import opened Submission

  /** A reference link as the user entered it. */
  datatype LinkItem = LinkItem(name: string, url: string)

  /** Which part of a link an edit changes. */
  datatype LinkField = NameField | UrlField

  /** The verdict of the link validator on a list of links. */
  datatype LinkCheck = LinkCheck(isValid: bool, error: Option<string>)

  const EmptyLink: LinkItem := LinkItem("", "")

  /** `links.filter((_, i) => i !== index)`: every link but the one at `index`; an index out of range removes nothing. */
  function WithoutIndex(links: seq<LinkItem>, index: int): (r: seq<LinkItem>)
    ensures 0 <= index < |links| ==> r == links[..index] + links[index + 1..]
    ensures !(0 <= index < |links|) ==> r == links
  {
    if links == [] then []
    else
      var last := |links| - 1;
      var init := WithoutIndex(links[..last], index);
      if index == last then
        assert links[..index] == links[..last] && links[index + 1..] == [];
        init
      else
        assert 0 <= index < last ==> links[..last][..index] == links[..index];
        assert 0 <= index < last ==> links[..last][index + 1..] + [links[last]] == links[index + 1..];
        assert !(0 <= index < last) ==> links[..last] + [links[last]] == links;
        init + [links[last]]
  }

  /** A link whose trimmed name and trimmed url are both non-empty. */
  predicate Filled(link: LinkItem) {
    Trim(link.name) != [] && Trim(link.url) != []
  }

  /** `links.filter(link => link.name.trim() && link.url.trim())`: the filled links, in order. */
  function FilledLinks(links: seq<LinkItem>): (r: seq<LinkItem>)
    ensures |r| <= |links|
    ensures forall i :: 0 <= i < |r| ==> Filled(r[i])
    ensures forall link :: link in r <==> link in links && Filled(link)
  {
    if links == [] then []
    else
      var last := links[|links| - 1];
      var init := FilledLinks(links[..|links| - 1]);
      assert links == links[..|links| - 1] + [last];
      if Filled(last) then init + [last] else init
  }

  /** Filtering keeps a list of filled links as it is. */
  lemma {:induction false} FilledLinksOfFilled(links: seq<LinkItem>)
    requires forall i :: 0 <= i < |links| ==> Filled(links[i])
    ensures FilledLinks(links) == links
  {
    if links != [] {
      FilledLinksOfFilled(links[..|links| - 1]);
      assert links == links[..|links| - 1] + [links[|links| - 1]];
    }
  }

  /** The links that go to the server are filtered once: filtering again changes nothing. */
  lemma FilledLinksIdempotent(links: seq<LinkItem>)
    ensures FilledLinks(FilledLinks(links)) == FilledLinks(links)
  {
    FilledLinksOfFilled(FilledLinks(links));
  }

  /** A link with one of its parts replaced. */
  function Edited(link: LinkItem, field: LinkField, value: string): LinkItem {
    match field
    case NameField => link.(name := value)
    case UrlField => link.(url := value)
  }

  /**
   * The error shown after an edit: a non-blank url is checked on its own,
   * with the link's name, and a failure is reported with the link's 1-based
   * position and the validator's error ("undefined" when it gives none).
   */
  function EditError(index: nat, link: LinkItem, field: LinkField, value: string, check: seq<LinkItem> -> LinkCheck): string {
    if field == UrlField && Trim(value) != [] then
      var verdict := check([LinkItem(link.name, value)]);
      if verdict.isValid then "" else "Link " + NatToDecimal(index + 1) + ": " + verdict.error.GetOr("undefined")
    else ""
  }

  /** An edit either clears the error or reports a url check that failed for that link. */
  lemma EditErrorReports(index: nat, link: LinkItem, field: LinkField, value: string, check: seq<LinkItem> -> LinkCheck)
    ensures var e := EditError(index, link, field, value, check);
            e != "" <==> field == UrlField && !AllWhitespace(value) && !check([LinkItem(link.name, value)]).isValid
    ensures var e := EditError(index, link, field, value, check);
            e != "" ==> "Link " + NatToDecimal(index + 1) + ": " <= e
  {
  }

  /** The value `validateAll()` gave: it threw, or it returned a verdict with the field errors. */
  datatype FormCheck = Threw | Returned(isValid: bool, errors: seq<string>)

  /** What the submit handler consults besides the form: the remote content check, the form validation and the eligibility query. */
  datatype Environment = Environment(remote: RemoteValidation, formCheck: FormCheck, eligibility: EligibilityQuery)

  /** The form-validation check: a throw and a failed verdict each stop the handler, the latter with the first field error if it has one. */
  function FormGate(result: FormCheck): (g: Gate)
    ensures g.Pass? <==> result.Returned? && result.isValid
  {
    match result
    case Threw => Block(Some(Destructive("Validation Error", Some("Please check all fields and try again"))))
    case Returned(isValid, errors) =>
      if isValid then Pass
      else
        var first := if errors != [] then Some(errors[0]) else None;
        Block(Some(Destructive("Form Validation Error", Some(OrElse(first, "Please check all required fields")))))
  }

  /** The modal's state. */
  datatype PromptState = PromptState(
    promptName: string,
    description: string,
    prompt: string,
    tags: string,
    categories: seq<string>,
    isLoading: bool,
    isRedirecting: bool,
    isFree: bool,
    priceUsd: string,
    walletAddress: string,
    isValidating: bool,
    solPrice: Option<real>,
    isConvertingPrice: bool,
    links: seq<LinkItem>,
    linkErrors: string)

  /** The state of a fresh or reset modal: empty fields, a free listing and one empty link. */
  const InitialState: PromptState :=
    PromptState("", "", "", "", [], false, false, true, "", "", false, None, false, [EmptyLink], "")

  const WaitToast: Toast := Destructive("Please wait for validation to complete", None)

  /**
   * The checks made before the links, in order: a pending remote check stops
   * the handler silently; a pending check or the local validating flag asks
   * the user to wait; then the form validation.
   */
  function EntryGates(s: PromptState, env: Environment): seq<Gate> {
    [ if env.remote.isPending then Block(None) else Pass,
      Check(s.isValidating || env.remote.isPending, WaitToast),
      FormGate(env.formCheck) ]
  }

  /** The remote verdict, the categories, and for a paid prompt the eligibility checks. */
  function ContentGates(s: PromptState, env: Environment): seq<Gate> {
    ListingGates("Invalid Prompt", env.remote, s.categories, s.isFree, env.eligibility)
  }

  /** The link check: the filled links go to the validator, whose failure stops the handler. */
  function LinksGate(links: seq<LinkItem>, check: seq<LinkItem> -> LinkCheck): Gate {
    var verdict := check(FilledLinks(links));
    if verdict.isValid then Pass else Block(Some(Destructive("Invalid links", verdict.error)))
  }

  function PreLinkGates(s: PromptState, env: Environment): seq<Gate> {
    EntryGates(s, env) + ContentGates(s, env)
  }

  /** All the checks of the submit handler, in the order it makes them. */
  function PromptGates(s: PromptState, env: Environment, check: seq<LinkItem> -> LinkCheck): seq<Gate> {
    PreLinkGates(s, env) + [LinksGate(s.links, check)]
  }

  /** The request `addPrompt` is sent. The fixed placeholder use case is not modelled. */
  datatype PromptRequest = PromptRequest(
    name: string,
    prompt: string,
    description: string,
    category: seq<string>,
    imageUrl: Option<string>,
    filePath: Option<string>,
    tags: string,
    links: seq<LinkItem>,
    isFree: bool,
    terms: PriceTerms)

  function PromptRequestOf(s: PromptState, imageUrl: string, filePath: string, parseFloat: string -> Option<real>): PromptRequest {
    PromptRequest(s.promptName, s.prompt, s.description, s.categories,
                  if imageUrl != "" then Some(imageUrl) else None,
                  if imageUrl != "" && filePath != "" then Some(filePath) else None,
                  NormalizeTags(s.tags), FilledLinks(s.links), s.isFree,
                  PriceTermsOf(s.isFree, s.priceUsd, s.walletAddress, parseFloat))
  }

  /** What the submit handler does with the state, given what it consults. */
  function PromptDecision(s: PromptState, env: Environment, check: seq<LinkItem> -> LinkCheck,
                          imageUrl: string, filePath: string, parseFloat: string -> Option<real>): Decision<PromptRequest> {
    Decide(PromptGates(s, env, check), PromptRequestOf(s, imageUrl, filePath, parseFloat))
  }

  /** Every condition the submit handler requires before it sends the prompt. */
  predicate PromptAcceptable(s: PromptState, env: Environment, check: seq<LinkItem> -> LinkCheck) {
    && !env.remote.isPending
    && !s.isValidating
    && env.formCheck.Returned? && env.formCheck.isValid
    && !(env.remote.data.Some? && !env.remote.data.value.valid)
    && s.categories != []
    && (s.isFree || (!env.eligibility.isLoading && !env.eligibility.hasError
                     && (env.eligibility.data.None? || env.eligibility.data.value.isEligible)))
    && check(FilledLinks(s.links)).isValid
  }

  lemma EntryGatesPass(s: PromptState, env: Environment)
    ensures AllPass(EntryGates(s, env)) <==>
              !env.remote.isPending && !s.isValidating && env.formCheck.Returned? && env.formCheck.isValid
  {
    var g := EntryGates(s, env);
    assert AllPass(g) <==> g[0].Pass? && g[1].Pass? && g[2].Pass?;
  }

  /** The checks before the links pass exactly when every condition but the links' holds. */
  lemma PreLinkGatesPass(s: PromptState, env: Environment)
    ensures AllPass(PreLinkGates(s, env)) <==>
              && !env.remote.isPending
              && !s.isValidating
              && env.formCheck.Returned? && env.formCheck.isValid
              && !(env.remote.data.Some? && !env.remote.data.value.valid)
              && s.categories != []
              && (s.isFree || (!env.eligibility.isLoading && !env.eligibility.hasError
                               && (env.eligibility.data.None? || env.eligibility.data.value.isEligible)))
  {
    AllPassAppend(EntryGates(s, env), ContentGates(s, env));
    EntryGatesPass(s, env);
    ListingGatesPass("Invalid Prompt", env.remote, s.categories, s.isFree, env.eligibility);
  }

  /** The prompt is sent exactly when every condition holds. */
  lemma PromptProceedsIffAcceptable(s: PromptState, env: Environment, check: seq<LinkItem> -> LinkCheck,
                                    imageUrl: string, filePath: string, parseFloat: string -> Option<real>)
    ensures PromptDecision(s, env, check, imageUrl, filePath, parseFloat).Proceed? <==> PromptAcceptable(s, env, check)
  {
    var links := [LinksGate(s.links, check)];
    AllPassAppend(PreLinkGates(s, env), links);
    PreLinkGatesPass(s, env);
    assert AllPass(links) <==> links[0].Pass?;
  }

  /**
   * While the remote check is pending the handler returns without a word;
   * the "wait" toast is shown only for the local validating flag.
   */
  lemma WaitToastOnlyForLocalFlag(s: PromptState, env: Environment, check: seq<LinkItem> -> LinkCheck,
                                  imageUrl: string, filePath: string, parseFloat: string -> Option<real>)
    ensures env.remote.isPending ==> PromptDecision(s, env, check, imageUrl, filePath, parseFloat) == Halt(None)
    ensures !env.remote.isPending && s.isValidating ==>
              PromptDecision(s, env, check, imageUrl, filePath, parseFloat) == Halt(Some(WaitToast))
  {
    var entry := EntryGates(s, env);
    var rest := ContentGates(s, env) + [LinksGate(s.links, check)];
    assert PromptGates(s, env, check) == entry + rest;
    if env.remote.isPending {
      FirstBlockIsEarliest(entry, 0);
      FirstBlockBeforeRest(entry, rest);
    } else if s.isValidating {
      FirstBlockIsEarliest(entry, 1);
      FirstBlockBeforeRest(entry, rest);
    }
  }

  /** A free prompt is judged without the eligibility query: its state does not matter. */
  lemma FreePromptIgnoresEligibility(s: PromptState, env: Environment, q: EligibilityQuery, check: seq<LinkItem> -> LinkCheck,
                                     imageUrl: string, filePath: string, parseFloat: string -> Option<real>)
    requires s.isFree
    ensures PromptDecision(s, env.(eligibility := q), check, imageUrl, filePath, parseFloat)
         == PromptDecision(s, env, check, imageUrl, filePath, parseFloat)
  {
    assert PromptGates(s, env.(eligibility := q), check) == PromptGates(s, env, check);
  }

  /**
   * A prompt that is sent carries only filled links, which the validator
   * accepted, normalised tags, and a free prompt goes at price 0 with no wallet.
   */
  lemma SentPromptShape(s: PromptState, env: Environment, check: seq<LinkItem> -> LinkCheck,
                        imageUrl: string, filePath: string, parseFloat: string -> Option<real>)
    requires PromptDecision(s, env, check, imageUrl, filePath, parseFloat).Proceed?
    ensures var r := PromptDecision(s, env, check, imageUrl, filePath, parseFloat).request;
            && (forall i :: 0 <= i < |r.links| ==> Filled(r.links[i]))
            && check(r.links).isValid
            && r.tags == NormalizeTags(s.tags)
            && (s.isFree ==> r.terms == PriceTerms(Some(0.0), ""))
            && (!s.isFree ==> r.terms == PriceTerms(parseFloat(s.priceUsd), s.walletAddress))
  {
    PromptProceedsIffAcceptable(s, env, check, imageUrl, filePath, parseFloat);
  }

  /**
   * How the handler reports a rejected request, by the first phrase the
   * server's message contains: outages and content, marketplace and rate
   * rules show the message itself, price, wallet and duplicate rejections a
   * fixed hint, and anything else a generic one. Only an outage is titled
   * as such.
   */
  function PromptFailureToast(message: Option<string>): (t: Toast)
    ensures t.destructive && t.description.Some?
    ensures t.title == "Service Temporarily Unavailable" <==>
              message.Some? && message.value != ""
              && (Contains(message.value, "validation system") || Contains(message.value, "temporarily"))
    ensures t.title != "Service Temporarily Unavailable" ==> t.title == "Submission Failed"
  {
    if message.None? || message.value == "" then
      Destructive("Submission Failed", Some("Unable to submit your prompt. Please try again."))
    else
      var m := message.value;
      if Contains(m, "validation system") || Contains(m, "temporarily") then
        Destructive("Service Temporarily Unavailable", Some(m))
      else
        var description :=
          if Contains(m, "quality standards") || Contains(m, "needs improvement") then m
          else if Contains(m, "paid content") || Contains(m, "highly-rated items") then m
          else if Contains(m, "Daily limit") then m
          else if Contains(m, "Price must be") then "Please enter a valid price for paid prompts (minimum $0.01)."
          else if Contains(m, "Wallet address") then "Please enter a valid wallet address for paid prompts."
          else if Contains(m, "already exists") then "This prompt already exists. Please create something unique."
          else "Unable to submit your prompt. Please check your content and try again.";
        Destructive("Submission Failed", Some(description))
  }

  /** The server's own message is shown for outages and for content, marketplace and rate-limit rejections. */
  lemma FailureShowsServerMessage(m: string)
    requires m != ""
    requires Contains(m, "validation system") || Contains(m, "temporarily")
             || Contains(m, "quality standards") || Contains(m, "needs improvement")
             || Contains(m, "paid content") || Contains(m, "highly-rated items")
             || Contains(m, "Daily limit")
    ensures PromptFailureToast(Some(m)).description == Some(m)
  {
  }

  /** A price rejection that mentions no earlier phrase is replaced by the price hint. */
  lemma FailureHintsAtPrice(m: string)
    requires Contains(m, "Price must be")
    requires !(Contains(m, "validation system") || Contains(m, "temporarily")
               || Contains(m, "quality standards") || Contains(m, "needs improvement")
               || Contains(m, "paid content") || Contains(m, "highly-rated items")
               || Contains(m, "Daily limit"))
    ensures PromptFailureToast(Some(m)) ==
              Destructive("Submission Failed", Some("Please enter a valid price for paid prompts (minimum $0.01)."))
  {
    assert m != "" by {
      var i :| 0 <= i <= |m| && "Price must be" <= m[i..];
    }
  }

  /** A wallet rejection that mentions no earlier phrase is replaced by the wallet hint. */
  lemma FailureHintsAtWallet(m: string)
    requires Contains(m, "Wallet address")
    requires !(Contains(m, "validation system") || Contains(m, "temporarily")
               || Contains(m, "quality standards") || Contains(m, "needs improvement")
               || Contains(m, "paid content") || Contains(m, "highly-rated items")
               || Contains(m, "Daily limit") || Contains(m, "Price must be"))
    ensures PromptFailureToast(Some(m)) ==
              Destructive("Submission Failed", Some("Please enter a valid wallet address for paid prompts."))
  {
    assert m != "" by {
      var i :| 0 <= i <= |m| && "Wallet address" <= m[i..];
    }
  }

  /** A duplicate rejection that mentions no earlier phrase is replaced by the duplicate hint. */
  lemma FailureHintsAtDuplicate(m: string)
    requires Contains(m, "already exists")
    requires !(Contains(m, "validation system") || Contains(m, "temporarily")
               || Contains(m, "quality standards") || Contains(m, "needs improvement")
               || Contains(m, "paid content") || Contains(m, "highly-rated items")
               || Contains(m, "Daily limit") || Contains(m, "Price must be")
               || Contains(m, "Wallet address"))
    ensures PromptFailureToast(Some(m)) ==
              Destructive("Submission Failed", Some("This prompt already exists. Please create something unique."))
  {
    assert m != "" by {
      var i :| 0 <= i <= |m| && "already exists" <= m[i..];
    }
  }

  /** A missing message and a message that matches no phrase get two different generic texts. */
  lemma FailureDefaultsAreDistinct(m: string)
    requires m != ""
    requires !(Contains(m, "validation system") || Contains(m, "temporarily")
               || Contains(m, "quality standards") || Contains(m, "needs improvement")
               || Contains(m, "paid content") || Contains(m, "highly-rated items")
               || Contains(m, "Daily limit") || Contains(m, "Price must be")
               || Contains(m, "Wallet address") || Contains(m, "already exists"))
    ensures PromptFailureToast(None).description == Some("Unable to submit your prompt. Please try again.")
    ensures PromptFailureToast(Some(m)).description == Some("Unable to submit your prompt. Please check your content and try again.")
    ensures PromptFailureToast(None) != PromptFailureToast(Some(m))
  {
  }

  /**
   * The link error the submit handler leaves: untouched when an earlier check
   * stops it, otherwise cleared when the filled links pass and the
   * validator's error (or "Invalid links") when they do not.
   */
  function LinkErrorAfterSubmit(s: PromptState, env: Environment, check: seq<LinkItem> -> LinkCheck): string {
    if !AllPass(PreLinkGates(s, env)) then s.linkErrors
    else
      var verdict := check(FilledLinks(s.links));
      if verdict.isValid then "" else OrElse(verdict.error, "Invalid links")
  }

  /**
   * A prompt that is sent leaves no link error, and one stopped by the links
   * leaves a non-empty one.
   */
  lemma LinkErrorClearedIffLinksPass(s: PromptState, env: Environment, check: seq<LinkItem> -> LinkCheck,
                                     imageUrl: string, filePath: string, parseFloat: string -> Option<real>)
    ensures PromptDecision(s, env, check, imageUrl, filePath, parseFloat).Proceed? ==> LinkErrorAfterSubmit(s, env, check) == ""
    ensures AllPass(PreLinkGates(s, env)) ==>
              (LinkErrorAfterSubmit(s, env, check) == "" <==> PromptDecision(s, env, check, imageUrl, filePath, parseFloat).Proceed?)
  {
    PromptProceedsIffAcceptable(s, env, check, imageUrl, filePath, parseFloat);
    PreLinkGatesPass(s, env);
  }

  class AddPromptModal {
    var promptName: string
    var description: string
    var prompt: string
    var tags: string
    var categories: seq<string>
    var isLoading: bool
    var isRedirecting: bool
    var isFree: bool
    var priceUsd: string
    var walletAddress: string
    var isValidating: bool
    var solPrice: Option<real>
    var isConvertingPrice: bool
    var links: seq<LinkItem>
    var linkErrors: string

    function State(): PromptState
      reads this
    {
      PromptState(promptName, description, prompt, tags, categories, isLoading, isRedirecting, isFree,
                  priceUsd, walletAddress, isValidating, solPrice, isConvertingPrice, links, linkErrors)
    }

    /** The link list is never empty: the form always shows at least one link row. */
    predicate HasLinkRow()
      reads this
    {
      links != []
    }

    constructor()
      ensures State() == InitialState && HasLinkRow()
    {
      promptName, description, prompt, tags, categories := "", "", "", "", [];
      isLoading, isRedirecting, isFree, priceUsd, walletAddress := false, false, true, "", "";
      isValidating, solPrice, isConvertingPrice := false, None, false;
      links, linkErrors := [EmptyLink], "";
    }

    /** `resetForm`: every field back to its initial value. */
    method ResetForm()
      modifies this
      ensures State() == InitialState && HasLinkRow()
    {
      ClearContent();
      ClearProgress();
      ClearPricing();
      ClearLinks();
    }

    /** The first writes of `resetForm`: the name, the prompt, the description, the tags and the categories. */
    method ClearContent()
      modifies this
      ensures State() == old(State()).(promptName := "", prompt := "", description := "", tags := "", categories := [])
    {
      promptName, prompt, description, tags, categories := "", "", "", "", [];
    }

    /** `resetForm` clears the loading, redirecting and validating flags. */
    method ClearProgress()
      modifies this
      ensures State() == old(State()).(isLoading := false, isRedirecting := false, isValidating := false)
    {
      isLoading, isRedirecting, isValidating := false, false, false;
    }

    /** `resetForm` makes the listing free again and clears the price, the wallet and the SOL preview. */
    method ClearPricing()
      modifies this
      ensures State() == old(State()).(isFree := true, priceUsd := "", walletAddress := "", solPrice := None,
                                       isConvertingPrice := false)
    {
      isFree, priceUsd, walletAddress := true, "", "";
      solPrice, isConvertingPrice := None, false;
    }

    /** `resetForm` leaves one empty link and no link error. */
    method ClearLinks()
      modifies this
      ensures State() == old(State()).(links := [EmptyLink], linkErrors := "")
    {
      links, linkErrors := [EmptyLink], "";
    }

    /** `addLink`: one more empty link at the end. */
    method AddLink()
      modifies this
      ensures State() == old(State()).(links := old(links) + [EmptyLink])
      ensures HasLinkRow()
    {
      links := links + [EmptyLink];
    }

    /** `removeLink`: drops the link at `index`, unless it is the only one left. */
    method RemoveLink(index: int)
      requires HasLinkRow()
      modifies this
      ensures State() == old(State()).(links := if |old(links)| > 1 then WithoutIndex(old(links), index) else old(links))
      ensures HasLinkRow()
    {
      if |links| > 1 {
        links := WithoutIndex(links, index);
      }
    }

    /**
     * `updateLink`: the link at `index` takes the new value in place, any
     * shown link error is cleared, and a non-blank url is checked on its own.
     */
    method UpdateLink(index: nat, field: LinkField, value: string, check: seq<LinkItem> -> LinkCheck)
      requires index < |links|
      modifies this
      ensures links == old(links)[index := Edited(old(links)[index], field, value)]
      ensures linkErrors == EditError(index, old(links)[index], field, value, check)
      ensures State() == old(State()).(links := links, linkErrors := linkErrors)
      ensures HasLinkRow()
    {
      var newLinks := links[index := Edited(links[index], field, value)];
      SetLinks(newLinks);
      if linkErrors != "" {
        SetLinkErrors("");
      }
      if field == UrlField && Trim(value) != [] {
        var verdict := check([LinkItem(newLinks[index].name, value)]);
        if !verdict.isValid {
          SetLinkErrors("Link " + IntToString(index + 1) + ": " + verdict.error.GetOr("undefined"));
        }
      }
    }

    /** `setLinks(newLinks)`. */
    method SetLinks(newLinks: seq<LinkItem>)
      requires newLinks != []
      modifies this
      ensures State() == old(State()).(links := newLinks) && HasLinkRow()
    {
      links := newLinks;
    }

    /**
     * The start of `convertUsdToSol`: with no number to convert the preview
     * is cleared and no lookup starts; otherwise the modal shows it is converting.
     */
    method BeginUsdToSol(usdPrice: string, parseFloat: string -> Option<real>) returns (started: bool)
      modifies this
      ensures started <==> !NothingToConvert(usdPrice, parseFloat)
      ensures !started ==> State() == old(State()).(solPrice := None)
      ensures started ==> State() == old(State()).(isConvertingPrice := true)
    {
      if usdPrice == "" || parseFloat(usdPrice).None? {
        solPrice := None;
        return false;
      }
      isConvertingPrice := true;
      started := true;
    }

    /**
     * The end of `convertUsdToSol`, given the SOL quote in USD (None when the
     * lookup failed): the preview is the USD amount over the quote, or cleared,
     * and the modal stops showing it is converting.
     */
    method FinishUsdToSol(usdPrice: string, parseFloat: string -> Option<real>, quote: Option<real>)
      requires !NothingToConvert(usdPrice, parseFloat)
      requires quote.Some? ==> quote.value > 0.0
      modifies this
      ensures quote.Some? ==> solPrice.Some? && solPrice.value * quote.value == parseFloat(usdPrice).value
      ensures quote.None? ==> solPrice.None?
      ensures State() == old(State()).(solPrice := solPrice, isConvertingPrice := false)
    {
      if quote.Some? {
        solPrice := Some(parseFloat(usdPrice).value / quote.value);
      } else {
        solPrice := None;
      }
      isConvertingPrice := false;
    }

    /** `convertUsdToSol` from start to end: the busy flag is set only while a lookup runs. */
    method ConvertUsdToSol(usdPrice: string, parseFloat: string -> Option<real>, quote: Option<real>)
      requires quote.Some? ==> quote.value > 0.0
      modifies this
      ensures isConvertingPrice == (old(isConvertingPrice) && NothingToConvert(usdPrice, parseFloat))
      ensures NothingToConvert(usdPrice, parseFloat) || quote.None? ==> solPrice.None?
      ensures !NothingToConvert(usdPrice, parseFloat) && quote.Some? ==>
                solPrice.Some? && solPrice.value * quote.value == parseFloat(usdPrice).value
      ensures State() == old(State()).(solPrice := solPrice, isConvertingPrice := isConvertingPrice)
    {
      var started := BeginUsdToSol(usdPrice, parseFloat);
      if started {
        FinishUsdToSol(usdPrice, parseFloat, quote);
      }
    }

    /**
     * The submit handler: it halts with the toast of the first failing check
     * or proceeds with the request and marks the modal as loading. Once the
     * checks before the links pass, the link error shows the validator's error
     * or is cleared.
     */
    method Submit(env: Environment, check: seq<LinkItem> -> LinkCheck,
                  imageUrl: string, filePath: string, parseFloat: string -> Option<real>) returns (d: Decision<PromptRequest>)
      modifies this
      ensures d == PromptDecision(old(State()), env, check, imageUrl, filePath, parseFloat)
      ensures linkErrors == LinkErrorAfterSubmit(old(State()), env, check)
      ensures isLoading == (d.Proceed? || old(isLoading))
      ensures State() == old(State()).(linkErrors := linkErrors, isLoading := isLoading)
    {
      var s := State();
      d := PromptDecision(s, env, check, imageUrl, filePath, parseFloat);
      SetLinkErrors(LinkErrorAfterSubmit(s, env, check));
      if d.Proceed? {
        SetLoading();
      }
    }

    /** `setLinkErrors(e)`. */
    method SetLinkErrors(e: string)
      modifies this
      ensures State() == old(State()).(linkErrors := e)
    {
      linkErrors := e;
    }

    /** `setIsLoading(true)`. */
    method SetLoading()
      modifies this
      ensures State() == old(State()).(isLoading := true)
    {
      isLoading := true;
    }

    /**
     * The request succeeded. With the new prompt's id the modal shows it is
     * redirecting and navigates to the prompt's page; without one it resets.
     */
    method AddSucceeded(id: string) returns (toasts: seq<Toast>, navigateTo: Option<string>)
      modifies this
      ensures toasts != [] && toasts[0] == Toast("Prompt added successfully \U{1F389}", None, false)
      ensures id != "" ==> State() == old(State()).(isLoading := false, isRedirecting := true)
      ensures id != "" ==> navigateTo == Some("/prompt/" + id) && |toasts| == 2
      ensures id != "" ==> toasts[1] == Toast("Successfully added your prompt ✨ Redirecting to your prompt...",
                                              Some("This may take a moment. You can close this modal if it takes too long."), false)
      ensures id == "" ==> State() == InitialState && navigateTo.None? && |toasts| == 1
    {
      isLoading := false;
      toasts := [Toast("Prompt added successfully \U{1F389}", None, false)];
      if id != "" {
        isRedirecting := true;
        toasts := toasts + [Toast("Successfully added your prompt ✨ Redirecting to your prompt...",
                                  Some("This may take a moment. You can close this modal if it takes too long."), false)];
        navigateTo := Some("/prompt/" + id);
      } else {
        ResetForm();
        navigateTo := None;
      }
    }

    /** The redirect did not finish within its time: the modal stops showing it is redirecting. */
    method RedirectTimedOut() returns (toast: Toast)
      modifies this
      ensures State() == old(State()).(isRedirecting := false)
      ensures toast == Toast("Taking longer than expected?", Some("You can close this modal and navigate manually."), false)
    {
      isRedirecting := false;
      toast := Toast("Taking longer than expected?", Some("You can close this modal and navigate manually."), false);
    }

    /** The request failed with the given message: the classified toast, and the modal is neither loading nor redirecting. */
    method AddFailed(message: Option<string>) returns (toast: Toast)
      modifies this
      ensures toast == PromptFailureToast(message)
      ensures State() == old(State()).(isLoading := false, isRedirecting := false)
    {
      toast := PromptFailureToast(message);
      isLoading, isRedirecting := false, false;
    }
  }
}
