/**
 * The "Add Tool" modal: its form state, the ordered checks its submit
 * handler runs before sending the tool, the request it sends, and what a
 * successful or failed request does to the form.
 */
module ToolModal {
  import opened Optional
  import opened Text
  import opened Tags
  import opened Submission

  /**
   * The limits on one text field: the least length of its trimmed value, the
   * greatest length of its raw value, and the message for each failure.
   */
  datatype FieldRule = FieldRule(minTrimmed: nat, maxLength: nat, required: string, tooShort: string, tooLong: string)

  const NameRule: FieldRule := FieldRule(2, 100, "Tool name is required",
    "Tool name must be at least 2 characters long", "Tool name cannot exceed 100 characters")
  const DescriptionRule: FieldRule := FieldRule(10, 1000, "Description is required",
    "Description must be at least 10 characters long", "Description cannot exceed 1,000 characters")
  const CodeRule: FieldRule := FieldRule(5, 50000, "Tool code is required",
    "Tool code must be at least 5 characters long", "Tool code cannot exceed 50,000 characters")

  const MaxTags: nat := 10
  const MaxTagLength: nat := 50

  /** The destructive toast of a failed form check. */
  function FormError(message: string): Toast {
    Destructive("Form Validation Error", Some(message))
  }

  /** What the user has entered. */
  datatype ToolForm = ToolForm(
    toolName: string,
    description: string,
    tool: string,
    tags: string,
    language: string,
    categories: seq<string>)

  /** The request `addTool` is sent. The fixed placeholder use case and requirement are not modelled. */
  datatype ToolRequest = ToolRequest(
    name: string,
    tool: string,
    description: string,
    language: string,
    category: seq<string>,
    imageUrl: Option<string>,
    filePath: Option<string>,
    tags: string)

  /** The checks of one field, in order: blank, trimmed value too short, raw value too long. */
  function FieldGates(value: string, rule: FieldRule): seq<Gate> {
    [ Check(Trim(value) == [], FormError(rule.required)),
      Check(|Trim(value)| < rule.minTrimmed, FormError(rule.tooShort)),
      Check(|value| > rule.maxLength, FormError(rule.tooLong)) ]
  }

  /** A field is acceptable when its trimmed value is long enough and its raw value short enough. */
  predicate FieldAccepts(value: string, rule: FieldRule) {
    rule.minTrimmed <= |Trim(value)| && |value| <= rule.maxLength
  }

  /** The checks of a field with a positive minimum pass exactly when the field is acceptable. */
  lemma FieldGatesPass(value: string, rule: FieldRule)
    requires rule.minTrimmed >= 1
    ensures AllPass(FieldGates(value, rule)) <==> FieldAccepts(value, rule)
  {
    var g := FieldGates(value, rule);
    assert g[0].Pass? && g[1].Pass? && g[2].Pass? ==> FieldAccepts(value, rule);
  }

  /**
   * Which message a field reports: a blank value is "required", even when it
   * is also too long; a short trimmed value is "too short" before "too long".
   */
  lemma FieldGatesReport(value: string, rule: FieldRule)
    requires rule.minTrimmed >= 1
    ensures AllWhitespace(value) ==> FirstBlock(FieldGates(value, rule)) == Block(Some(FormError(rule.required)))
    ensures !AllWhitespace(value) && |Trim(value)| < rule.minTrimmed ==>
              FirstBlock(FieldGates(value, rule)) == Block(Some(FormError(rule.tooShort)))
    ensures rule.minTrimmed <= |Trim(value)| && |value| > rule.maxLength ==>
              FirstBlock(FieldGates(value, rule)) == Block(Some(FormError(rule.tooLong)))
  {
    var g := FieldGates(value, rule);
    if AllWhitespace(value) {
      FirstBlockIsEarliest(g, 0);
    } else if |Trim(value)| < rule.minTrimmed {
      FirstBlockIsEarliest(g, 1);
    } else if |value| > rule.maxLength {
      FirstBlockIsEarliest(g, 2);
    }
  }

  /** The two limits on the tag entries: at most ten of them, then none over fifty characters. */
  function LimitGates(entries: seq<string>): seq<Gate> {
    [ Check(|entries| > MaxTags, FormError("Maximum 10 tags allowed")),
      Check(exists i :: 0 <= i < |entries| && |entries[i]| > MaxTagLength,
            FormError("Each tag must be 50 characters or less")) ]
  }

  /** The tag checks, made only when the field is not blank. */
  function TagsGates(tags: string): seq<Gate> {
    if Trim(tags) == [] then [] else LimitGates(TagEntries(tags))
  }

  /** A tag list within the limits: at most ten entries, none longer than fifty characters. */
  predicate TagsWithinLimits(entries: seq<string>) {
    |entries| <= MaxTags && forall i :: 0 <= i < |entries| ==> |entries[i]| <= MaxTagLength
  }

  lemma LimitGatesPass(entries: seq<string>)
    ensures AllPass(LimitGates(entries)) <==> TagsWithinLimits(entries)
  {
    var g := LimitGates(entries);
    assert AllPass(g) <==> g[0].Pass? && g[1].Pass?;
  }

  /** The tag checks pass exactly when the entries of the field are within the limits (a blank field has none). */
  lemma TagsGatesPass(tags: string)
    ensures AllPass(TagsGates(tags)) <==> TagsWithinLimits(TagEntries(tags))
  {
    if Trim(tags) == [] {
      BlankTagsHaveNoEntries(tags);
    } else {
      LimitGatesPass(TagEntries(tags));
    }
  }

  /** The first check: a remote content check still in flight. */
  function PendingGates(remote: RemoteValidation): seq<Gate> {
    [Check(remote.isPending, Toast("Validating Tool", None, false))]
  }

  /** The checks of the name, the description and the code, in that order. */
  function FieldsGates(form: ToolForm): seq<Gate> {
    FieldGates(form.toolName, NameRule) + (FieldGates(form.description, DescriptionRule) + FieldGates(form.tool, CodeRule))
  }

  /** The remote verdict, then the categories. */
  function VerdictGates(form: ToolForm, remote: RemoteValidation): seq<Gate> {
    [ RemoteGate("Invalid Tool", remote),
      Check(form.categories == [], FormError("Please select at least one category")) ]
  }

  /** All the checks of the submit handler, in the order it makes them. */
  function ToolGates(form: ToolForm, remote: RemoteValidation): seq<Gate> {
    PendingGates(remote) + (FieldsGates(form) + (VerdictGates(form, remote) + TagsGates(form.tags)))
  }

  /**
   * The request of a form that passed: the tags normalised, the uploaded
   * image if there is one, and its storage path only alongside an image.
   * An empty `imageUrl` or `filePath` means none was uploaded.
   */
  function ToolRequestOf(form: ToolForm, imageUrl: string, filePath: string): ToolRequest {
    ToolRequest(form.toolName, form.tool, form.description, form.language, form.categories,
                if imageUrl != "" then Some(imageUrl) else None,
                if imageUrl != "" && filePath != "" then Some(filePath) else None,
                NormalizeTags(form.tags))
  }

  /** What the submit handler does with a form, given the state of the remote content check. */
  function ToolDecision(form: ToolForm, remote: RemoteValidation, imageUrl: string, filePath: string): Decision<ToolRequest> {
    Decide(ToolGates(form, remote), ToolRequestOf(form, imageUrl, filePath))
  }

  /** The three text fields are acceptable. */
  predicate FieldsAcceptable(form: ToolForm) {
    && FieldAccepts(form.toolName, NameRule)
    && FieldAccepts(form.description, DescriptionRule)
    && FieldAccepts(form.tool, CodeRule)
  }

  lemma FieldsGatesPass(form: ToolForm)
    ensures AllPass(FieldsGates(form)) <==> FieldsAcceptable(form)
  {
    var name, desc, code := FieldGates(form.toolName, NameRule), FieldGates(form.description, DescriptionRule), FieldGates(form.tool, CodeRule);
    AllPassAppend(name, desc + code);
    AllPassAppend(desc, code);
    FieldGatesPass(form.toolName, NameRule);
    FieldGatesPass(form.description, DescriptionRule);
    FieldGatesPass(form.tool, CodeRule);
  }

  /** Every condition the submit handler requires of the form before it sends the tool. */
  predicate ToolAcceptable(form: ToolForm, remote: RemoteValidation) {
    && !remote.isPending
    && FieldsAcceptable(form)
    && !(remote.data.Some? && !remote.data.value.valid)
    && form.categories != []
    && TagsWithinLimits(TagEntries(form.tags))
  }

  lemma VerdictGatesPass(form: ToolForm, remote: RemoteValidation)
    ensures AllPass(VerdictGates(form, remote)) <==> !(remote.data.Some? && !remote.data.value.valid) && form.categories != []
  {
    var v := VerdictGates(form, remote);
    assert AllPass(v) <==> v[0].Pass? && v[1].Pass?;
  }

  /** The checks all pass exactly when every condition holds. */
  lemma ToolGatesPass(form: ToolForm, remote: RemoteValidation)
    ensures AllPass(ToolGates(form, remote)) <==> ToolAcceptable(form, remote)
  {
    var pending, fields, verdict, tagGates := PendingGates(remote), FieldsGates(form), VerdictGates(form, remote), TagsGates(form.tags);
    AllPassAppend(pending, fields + (verdict + tagGates));
    AllPassAppend(fields, verdict + tagGates);
    AllPassAppend(verdict, tagGates);
    assert AllPass(pending) <==> pending[0].Pass?;
    FieldsGatesPass(form);
    VerdictGatesPass(form, remote);
    TagsGatesPass(form.tags);
  }

  /** The tool is sent exactly when every condition holds, and then with the form's values. */
  lemma ToolProceedsIffAcceptable(form: ToolForm, remote: RemoteValidation, imageUrl: string, filePath: string)
    ensures ToolDecision(form, remote, imageUrl, filePath).Proceed? <==> ToolAcceptable(form, remote)
    ensures ToolDecision(form, remote, imageUrl, filePath).Proceed? ==>
              ToolDecision(form, remote, imageUrl, filePath).request == ToolRequestOf(form, imageUrl, filePath)
  {
    ToolGatesPass(form, remote);
  }

  /** While the remote check is in flight the handler only says so, whatever the form holds. */
  lemma PendingCheckComesFirst(form: ToolForm, remote: RemoteValidation, imageUrl: string, filePath: string)
    requires remote.isPending
    ensures ToolDecision(form, remote, imageUrl, filePath) == Halt(Some(Toast("Validating Tool", None, false)))
  {
    FirstBlockBeforeRest(PendingGates(remote), FieldsGates(form) + (VerdictGates(form, remote) + TagsGates(form.tags)));
  }

  /** A blank name is reported before anything else the fields hold. */
  lemma BlankNameReportedFirst(form: ToolForm)
    requires AllWhitespace(form.toolName)
    ensures FirstBlock(FieldsGates(form)) == Block(Some(FormError("Tool name is required")))
  {
    FieldGatesReport(form.toolName, NameRule);
    FirstBlockBeforeRest(FieldGates(form.toolName, NameRule), FieldGates(form.description, DescriptionRule) + FieldGates(form.tool, CodeRule));
  }

  /** After a successful add the name is empty, so submitting again reports that a name is required. */
  lemma ClearedFormNeedsName(form: ToolForm, remote: RemoteValidation, imageUrl: string, filePath: string)
    requires !remote.isPending && AllWhitespace(form.toolName)
    ensures ToolDecision(form, remote, imageUrl, filePath) == Halt(Some(FormError("Tool name is required")))
  {
    var rest := VerdictGates(form, remote) + TagsGates(form.tags);
    BlankNameReportedFirst(form);
    FirstBlockBeforeRest(FieldsGates(form), rest);
    assert AllPass(PendingGates(remote)) by {
      assert PendingGates(remote)[0].Pass?;
    }
    FirstBlockAfterPasses(PendingGates(remote), FieldsGates(form) + rest);
  }

  /**
   * The remote verdict is consulted only once the three fields pass: then an
   * invalid verdict stops the handler with its error.
   */
  lemma RemoteVerdictAfterFields(form: ToolForm, remote: RemoteValidation, imageUrl: string, filePath: string)
    requires !remote.isPending && FieldsAcceptable(form)
    requires remote.data.Some? && !remote.data.value.valid
    ensures ToolDecision(form, remote, imageUrl, filePath) == Halt(Some(Destructive("Invalid Tool", remote.data.value.error)))
  {
    var pending, fields := PendingGates(remote), FieldsGates(form);
    var rest := VerdictGates(form, remote) + TagsGates(form.tags);
    var gates := ToolGates(form, remote);
    assert gates == pending + (fields + rest);
    FieldsGatesPass(form);
    assert AllPass(pending) by {
      assert pending[0].Pass?;
    }
    FirstBlockAfterPasses(pending, fields + rest);
    FirstBlockAfterPasses(fields, rest);
    assert rest[0] == RemoteGate("Invalid Tool", remote);
    FirstBlockIsEarliest(rest, 0);
    FirstBlockPassesIffAllPass(gates);
  }

  /** A tool that is sent carries a normalised tags value whose entries are within the limits. */
  lemma SentTagsWithinLimits(form: ToolForm, remote: RemoteValidation, imageUrl: string, filePath: string)
    requires ToolDecision(form, remote, imageUrl, filePath).Proceed?
    ensures var tags := ToolDecision(form, remote, imageUrl, filePath).request.tags;
            && tags == NormalizeTags(form.tags)
            && NormalizeTags(tags) == tags
            && TagsWithinLimits(TagEntries(tags))
  {
    ToolProceedsIffAcceptable(form, remote, imageUrl, filePath);
    TagEntriesOfNormalized(form.tags);
    NormalizeTagsIdempotent(form.tags);
  }

  /** The modal's state. */
  class AddToolModal {
    var toolName: string
    var description: string
    var tool: string
    var tags: string
    var language: string
    var categories: seq<string>
    var isLoading: bool

    /** An empty form with Python as the language. */
    constructor()
      ensures Form() == ToolForm("", "", "", "", "python", []) && !isLoading
    {
      toolName, description, tool, tags := "", "", "", "";
      language, categories, isLoading := "python", [], false;
    }

    function Form(): ToolForm
      reads this
    {
      ToolForm(toolName, description, tool, tags, language, categories)
    }

    /**
     * The submit handler: it halts with the toast of the first failing check,
     * or marks the modal as loading and returns the request to send.
     */
    method Submit(remote: RemoteValidation, imageUrl: string, filePath: string) returns (d: Decision<ToolRequest>)
      modifies this
      ensures d == ToolDecision(old(Form()), remote, imageUrl, filePath)
      ensures Form() == old(Form())
      ensures isLoading == (d.Proceed? || old(isLoading))
    {
      var form := Form();
      d := ToolDecision(form, remote, imageUrl, filePath);
      if d.Proceed? {
        SetLoading();
      }
    }

    /** `setIsLoading(true)`. */
    method SetLoading()
      modifies this
      ensures Form() == old(Form()) && isLoading
    {
      isLoading := true;
    }

    /** The request succeeded: a toast, and the name, code, description and tags are cleared; the loading flag stays set. */
    method AddSucceeded() returns (toast: Toast)
      modifies this
      ensures toast == Toast("Tool added successfully \U{1F389}", None, false)
      ensures Form() == ToolForm("", "", "", "", old(language), old(categories))
      ensures isLoading == old(isLoading)
    {
      toast := Toast("Tool added successfully \U{1F389}", None, false);
      toolName, tool, description, tags := "", "", "", "";
    }

    /** The request failed: a toast, and the modal is no longer loading; the form is kept. */
    method AddFailed() returns (toast: Toast)
      modifies this
      ensures toast == Toast("An error has occurred", None, false)
      ensures Form() == old(Form()) && !isLoading
    {
      toast := Toast("An error has occurred", None, false);
      isLoading := false;
    }
  }
}
