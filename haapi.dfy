/**
 * The hypermedia documents the client reads: step documents, actions, fields,
 * links, messages and problem documents, already parsed from JSON.
 *
 * A JSON string member that may be absent is a `string` whose empty value stands
 * for "absent". Most reads of such a member in the client are `x || default`,
 * which treat the two alike; a raw read of an absent member would show the text
 * `undefined` instead, which the model does not follow. The open string tags
 * the client dispatches on (`type`, `template`, `kind`, `model.name`) are
 * closed datatypes with one variant per tag the client recognises and one that
 * carries any other string.
 */
module Haapi {
  import opened Wrappers

  // ---------------------------------------------------------------------------
  // Tags
  // ---------------------------------------------------------------------------

  /** The `type` member of a step document. */
  datatype StepType =
    | AuthenticationStep
    | RegistrationStep
    | RedirectionStep
    | UserConsentStep
    | ConsentorStep
    | AuthorizationResponse
    | PollingStep
    | ContinueSameStep
    | MissingType             // absent or empty: falsy in the client
    | OtherType(name: string)

  function StepTypeName(t: StepType): string {
    match t
    case AuthenticationStep => "authentication-step"
    case RegistrationStep => "registration-step"
    case RedirectionStep => "redirection-step"
    case UserConsentStep => "user-consent-step"
    case ConsentorStep => "consentor-step"
    case AuthorizationResponse => "oauth-authorization-response"
    case PollingStep => "polling-step"
    case ContinueSameStep => "continue-same-step"
    case MissingType => ""
    case OtherType(s) => s
  }

  /** Reads the `type` member; decoding never loses the string. */
  function ParseStepType(s: string): (t: StepType)
    ensures StepTypeName(t) == s
    ensures t.OtherType? <==> s != "" && forall u: StepType :: !u.OtherType? ==> StepTypeName(u) != s
  {
    if s == "authentication-step" then AuthenticationStep
    else if s == "registration-step" then RegistrationStep
    else if s == "redirection-step" then RedirectionStep
    else if s == "user-consent-step" then UserConsentStep
    else if s == "consentor-step" then ConsentorStep
    else if s == "oauth-authorization-response" then AuthorizationResponse
    else if s == "polling-step" then PollingStep
    else if s == "continue-same-step" then ContinueSameStep
    else if s == "" then MissingType
    else OtherType(s)
  }

  /** The `kind` member of an action. */
  datatype Kind = RedirectKind | CancelKind | OtherKind(name: string)

  function KindName(k: Kind): string {
    match k
    case RedirectKind => "redirect"
    case CancelKind => "cancel"
    case OtherKind(s) => s
  }

  function ParseKind(s: string): (k: Kind)
    ensures KindName(k) == s
    ensures k.OtherKind? <==> s != "redirect" && s != "cancel"
  {
    if s == "redirect" then RedirectKind
    else if s == "cancel" then CancelKind
    else OtherKind(s)
  }

  /** The `template` member of an action. */
  datatype Template = FormTemplate | SelectorTemplate | ClientOperationTemplate | OtherTemplate(name: string)

  function TemplateName(t: Template): string {
    match t
    case FormTemplate => "form"
    case SelectorTemplate => "selector"
    case ClientOperationTemplate => "client-operation"
    case OtherTemplate(s) => s
  }

  function ParseTemplate(s: string): (t: Template)
    ensures TemplateName(t) == s
    ensures t.OtherTemplate? <==> s != "form" && s != "selector" && s != "client-operation"
  {
    if s == "form" then FormTemplate
    else if s == "selector" then SelectorTemplate
    else if s == "client-operation" then ClientOperationTemplate
    else OtherTemplate(s)
  }

  /** The `model.name` member of a client-operation action. */
  datatype OperationName = ExternalBrowserFlow | BankId | OtherOperation(name: string)

  function OperationNameText(n: OperationName): string {
    match n
    case ExternalBrowserFlow => "external-browser-flow"
    case BankId => "bankid"
    case OtherOperation(s) => s
  }

  function ParseOperationName(s: string): (n: OperationName)
    ensures OperationNameText(n) == s
    ensures n.OtherOperation? <==> s != "external-browser-flow" && s != "bankid"
  {
    if s == "external-browser-flow" then ExternalBrowserFlow
    else if s == "bankid" then BankId
    else OtherOperation(s)
  }

  /** A tag value is canonical when it is what decoding its own string gives. */
  lemma {:induction false} CanonicalTags(t: StepType, k: Kind, tm: Template, n: OperationName)
    requires t.OtherType? ==> ParseStepType(t.name).OtherType?
    requires k.OtherKind? ==> ParseKind(k.name).OtherKind?
    requires tm.OtherTemplate? ==> ParseTemplate(tm.name).OtherTemplate?
    requires n.OtherOperation? ==> ParseOperationName(n.name).OtherOperation?
    ensures ParseStepType(StepTypeName(t)) == t
    ensures ParseKind(KindName(k)) == k
    ensures ParseTemplate(TemplateName(tm)) == tm
    ensures ParseOperationName(OperationNameText(n)) == n
  {
  }

  // ---------------------------------------------------------------------------
  // Documents
  // ---------------------------------------------------------------------------

  const CheckboxType := "checkbox"
  const ContextType := "context"
  const HiddenType := "hidden"

  /** A form field. `value` is "" when absent; `checked` is false when absent. */
  datatype Field = Field(name: string, fieldType: string, value: string, checked: bool)

  /** A message: its CSS-like class list and its text. */
  datatype Message = Message(classList: seq<string>, text: string)

  /** A navigational link of a step. */
  datatype Link = Link(rel: string, href: string, title: string, mediaType: string)

  /** An optional JSON array of actions (`actions`, `options`, `continueActions`). */
  datatype ActionList = Absent | Present(items: seq<Action>)

  /** The `model` of an action: the members the client reads, for every template. */
  datatype ActionModel = ActionModel(
    href: string,                  // form
    httpMethod: string,            // form; "" when absent
    fields: Option<seq<Field>>,    // form; None when absent or not an array
    actionTitle: string,           // form
    options: ActionList,           // selector
    name: OperationName,           // client-operation
    argumentsHref: string,         // client-operation: arguments.href
    continueActions: ActionList)   // client-operation, and any action the server continues

  datatype Action = Action(template: Template, kind: Kind, title: string, model: ActionModel)

  /** A step document. `actions` may be absent; absent messages and links are empty. */
  datatype Step = Step(
    stepType: StepType,
    messages: seq<Message>,
    actions: ActionList,
    links: seq<Link>,
    properties: map<string, string>)

  datatype InvalidField = InvalidField(name: string, detail: string)

  /** A problem document (content type `application/problem+json`). */
  datatype Problem = Problem(
    problemType: string,
    title: string,
    messages: seq<Message>,
    invalidFields: Option<seq<InvalidField>>)

  /** The unit of navigation history: the step shown, the raw response text, the status. */
  datatype Snapshot = Snapshot(model: Step, text: string, status: int)

  /** The elements of an optional action array (`json.actions || []`). */
  function Items(l: ActionList): seq<Action> {
    match l
    case Absent => []
    case Present(xs) => xs
  }
}
