/**
 * The step interpreter and the action dispatcher as pure functions.
 *
 * A step becomes a sequence of presentation intents: its messages, one block
 * chosen by the step's type, then its links. Each action of a step becomes one
 * intent, wrapped in a disclosure when the fold policy says so. Rendering also
 * has effects on the session, listed in order as `RenderEffect`s: arming the
 * resume slot for an external browser flow, and scheduling the automatic
 * submission of a lone redirect action. The session applies them (module Flow)
 * and its rendering methods are proved to produce exactly these intents and
 * effects.
 */
module Interpreter {
  import opened Wrappers
  import opened Haapi

  /** What the dispatcher reads besides the document: the session's
      `followRedirects` flag and whether the enhanced views are in use. */
  datatype ViewConfig = ViewConfig(followRedirects: bool, enhanced: bool)

  /** Colours of a polling status banner. */
  datatype Alert = ErrorAlert | SuccessAlert | PrimaryAlert

  /** An insertable piece of the page, standing for the DOM element a view builds. */
  datatype Intent =
    | MessageView(message: Message)
    | ErrorMessage(text: string)
    | Ruler
    | ImageLink(link: Link)
    | LinkButton(link: Link)
    | Busy(autoSubmit: Action)                          // spinner while a redirect is auto-submitted
    | ActionForm(action: Action, hideTitle: bool)
    | SelectorView(action: Action, hideTitle: bool, options: seq<Intent>)
    | AuthenticatorSelector(action: Action, hideTitle: bool)
    | LaunchButton(action: Action, disabled: bool)      // external browser flow
    | LaunchUrl(href: string, action: Action, autoFollow: bool)
    | Foldable(title: string, content: Intent)
    | CallbackResult(step: Step)                        // what the token callback returns
    | PollingStatus(status: Option<string>, alert: Alert)

  /** Session effects of rendering, in the order the source performs them. */
  datatype RenderEffect =
    | ArmResume(action: Action, autoFollow: bool)       // launchExternalBrowserFlow
    | AutoSubmit(action: Action)                        // setTimeout(apiRequestForFormAction)

  const AuthenticatorSelectorKind := "authenticator-selector"
  const RedirectDefaultTitle := "API redirect, should be followed automatically by the client"
  const MissingTypeText := "Cannot render response missing a type"

  function StartsWith(s: string, prefix: string): bool {
    |prefix| <= |s| && s[..|prefix|] == prefix
  }

  /** Concatenation of a sequence of sequences. */
  function Flatten<T>(xss: seq<seq<T>>): seq<T> {
    if xss == [] then [] else xss[0] + Flatten(xss[1..])
  }

  lemma {:induction false} FlattenSnoc<T>(xss: seq<seq<T>>, ys: seq<T>)
    ensures Flatten(xss + [ys]) == Flatten(xss) + ys
  {
    if xss != [] {
      assert (xss + [ys])[1..] == xss[1..] + [ys];
      FlattenSnoc(xss[1..], ys);
    }
  }

  lemma {:induction false} FlattenMember<T>(xss: seq<seq<T>>, x: T)
    requires x in Flatten(xss)
    ensures exists i :: 0 <= i < |xss| && x in xss[i]
  {
    if x !in xss[0] {
      FlattenMember(xss[1..], x);
      var i :| 0 <= i < |xss[1..]| && x in xss[1..][i];
      assert x in xss[i + 1];
    }
  }

  // ---------------------------------------------------------------------------
  // Messages and links
  // ---------------------------------------------------------------------------

  function MessageIntents(step: Step): seq<Intent> {
    seq(|step.messages|, i requires 0 <= i < |step.messages| => MessageView(step.messages[i]))
  }

  /** A link shown as an image: an `image/` media type (an absent type is "" and
      cannot match) or a `data:image` URI. */
  predicate IsImageLink(l: Link) {
    StartsWith(l.mediaType, "image/") || StartsWith(l.href, "data:image")
  }

  function LinkIntent(l: Link): Intent {
    if IsImageLink(l) then ImageLink(l) else LinkButton(l)
  }

  function LinkIntents(step: Step): seq<Intent> {
    if |step.links| == 0 then []
    else [Ruler] + seq(|step.links|, i requires 0 <= i < |step.links| => LinkIntent(step.links[i]))
  }

  // ---------------------------------------------------------------------------
  // Actions
  // ---------------------------------------------------------------------------

  /** How many actions are not of kind `cancel`. */
  function NonCancelCount(actions: seq<Action>): nat {
    if actions == [] then 0
    else (if actions[0].kind != CancelKind then 1 else 0) + NonCancelCount(actions[1..])
  }

  /** Folding is on when more than one action is not a cancel action. */
  predicate FoldEnabled(actions: seq<Action>) {
    NonCancelCount(actions) > 1
  }

  /** The auto-redirect shortcut tests the session flag, never the caller's
      auto-follow argument. */
  predicate ShortcutApplies(actions: seq<Action>, cfg: ViewConfig) {
    cfg.followRedirects && |actions| == 1 && actions[0].kind == RedirectKind
  }

  /** Whether an action may be wrapped in a disclosure when folding is on. */
  predicate MayFold(a: Action) {
    match a.template
    case SelectorTemplate => true
    case FormTemplate =>
      a.kind != RedirectKind && a.kind != CancelKind
      && a.model.fields.Some? && |a.model.fields.value| > 0
    case _ => false
  }

  /** The disclosure's label: the title, or the kind when there is none. */
  function TitleOf(a: Action): string {
    if a.title != "" then a.title else KindName(a.kind)
  }

  function Wrap(a: Action, element: Intent, fold: bool): Intent {
    if fold && MayFold(a) then Foldable(TitleOf(a), element) else element
  }

  /** The redirect view gives an untitled redirect action a default title. */
  function WithRedirectTitle(a: Action): Action {
    if a.title == "" then a.(title := RedirectDefaultTitle) else a
  }

  predicate IsAuthenticatorSelector(a: Action, cfg: ViewConfig) {
    cfg.enhanced && KindName(a.kind) == AuthenticatorSelectorKind
  }

  /** The intent one action is realised as. A selector's options are rendered
      by the dispatcher again, without the caller's auto-follow argument. */
  function RealizeAction(a: Action, fold: bool, autoFollow: bool, cfg: ViewConfig): (r: Intent)
    ensures a.template.FormTemplate? ==>
      r.ActionForm? && r.action.model == a.model && r.action.kind == a.kind && r.action.template == a.template
    ensures a.template.SelectorTemplate? ==>
      (r.AuthenticatorSelector? <==> IsAuthenticatorSelector(a, cfg))
      && (!IsAuthenticatorSelector(a, cfg) ==> r.SelectorView? && r.action == a && |r.options| == |Items(a.model.options)|)
    ensures a.template.ClientOperationTemplate? && a.model.name == ExternalBrowserFlow ==>
      r == LaunchButton(a, autoFollow)
    ensures a.template.OtherTemplate? ==> r.ErrorMessage?
    decreases a, 0
  {
    match a.template
    case SelectorTemplate =>
      if IsAuthenticatorSelector(a, cfg) then AuthenticatorSelector(a, fold)
      else SelectorView(a, fold, ActionIntents(a.model.options, false, cfg))
    case FormTemplate =>
      if a.kind == RedirectKind then ActionForm(WithRedirectTitle(a), fold)
      else ActionForm(a, fold && MayFold(a))
    case ClientOperationTemplate =>
      (match a.model.name
       case ExternalBrowserFlow => LaunchButton(a, autoFollow)
       case BankId => LaunchUrl(a.model.argumentsHref, a, autoFollow)
       case OtherOperation(n) => ErrorMessage("Unsupported client operation '" + n + "'"))
    case OtherTemplate(t) => ErrorMessage("Cannot render template '" + t + "'")
  }

  /** The intents of an action list (`generateActions`). */
  function ActionIntents(l: ActionList, autoFollow: bool, cfg: ViewConfig): (r: seq<Intent>)
    ensures |r| == |Items(l)|
    decreases l, 1
  {
    match l
    case Absent => []
    case Present(items) =>
      if ShortcutApplies(items, cfg) then [Busy(items[0])]
      else
        var fold := FoldEnabled(items);
        seq(|items|, i requires 0 <= i < |items| =>
          Wrap(items[i], RealizeAction(items[i], fold, autoFollow, cfg), fold))
  }

  /** The session effects of realising one action. */
  function RealizeEffects(a: Action, autoFollow: bool, cfg: ViewConfig): seq<RenderEffect>
    decreases a, 0
  {
    match a.template
    case SelectorTemplate =>
      if IsAuthenticatorSelector(a, cfg) then [] else ActionEffects(a.model.options, false, cfg)
    case ClientOperationTemplate =>
      if a.model.name == ExternalBrowserFlow then [ArmResume(a, autoFollow)] else []
    case _ => []
  }

  /** The session effects of rendering an action list, in order. */
  function ActionEffects(l: ActionList, autoFollow: bool, cfg: ViewConfig): (r: seq<RenderEffect>)
    ensures l.Absent? ==> r == []
    ensures l.Present? && ShortcutApplies(l.items, cfg) ==> r == [AutoSubmit(l.items[0])]
    ensures l.Present? && !ShortcutApplies(l.items, cfg) ==> r == Flatten(EffectLists(l.items, autoFollow, cfg))
    decreases l, 1
  {
    match l
    case Absent => []
    case Present(items) =>
      if ShortcutApplies(items, cfg) then [AutoSubmit(items[0])]
      else Flatten(seq(|items|, i requires 0 <= i < |items| => RealizeEffects(items[i], autoFollow, cfg)))
  }

  /** The per-action effect lists of a list that is not short-cut. */
  function EffectLists(items: seq<Action>, autoFollow: bool, cfg: ViewConfig): seq<seq<RenderEffect>> {
    seq(|items|, i requires 0 <= i < |items| => RealizeEffects(items[i], autoFollow, cfg))
  }

  // ---------------------------------------------------------------------------
  // Steps
  // ---------------------------------------------------------------------------

  /** The five step types whose actions are rendered directly. */
  predicate RendersActions(t: StepType) {
    t.AuthenticationStep? || t.RegistrationStep? || t.RedirectionStep?
    || t.UserConsentStep? || t.ConsentorStep?
  }

  function PollingStatusOf(step: Step): Option<string> {
    if "status" in step.properties then Some(step.properties["status"]) else None
  }

  /** The banner colour of a polling status. */
  function PollingAlert(status: Option<string>): (a: Alert)
    ensures a == ErrorAlert <==> status == Some("failed")
    ensures a == SuccessAlert <==> status == Some("done")
    ensures a == PrimaryAlert <==> status != Some("failed") && status != Some("done")
  {
    if status == Some("failed") then ErrorAlert
    else if status == Some("done") then SuccessAlert
    else PrimaryAlert
  }

  /** The block chosen by the step's type. */
  function TypeBlock(step: Step, autoFollow: bool, cfg: ViewConfig): (r: seq<Intent>)
    ensures |r| == if RendersActions(step.stepType) then |Items(step.actions)|
                   else if step.stepType == PollingStep then |Items(step.actions)| + 1
                   else 1
  {
    if RendersActions(step.stepType) then ActionIntents(step.actions, autoFollow, cfg)
    else match step.stepType
      case AuthorizationResponse => [CallbackResult(step)]
      case PollingStep =>
        var s := PollingStatusOf(step);
        ActionIntents(step.actions, autoFollow, cfg) + [PollingStatus(s, PollingAlert(s))]
      case MissingType => [ErrorMessage(MissingTypeText)]
      case _ => [ErrorMessage("Cannot render type " + StepTypeName(step.stepType))]
  }

  /** The page of a step (`generatePage`). */
  function PageIntents(step: Step, autoFollow: bool, cfg: ViewConfig): (r: seq<Intent>)
    ensures |r| == |step.messages| + |TypeBlock(step, autoFollow, cfg)|
                   + (if |step.links| == 0 then 0 else |step.links| + 1)
  {
    MessageIntents(step) + TypeBlock(step, autoFollow, cfg) + LinkIntents(step)
  }

  /** The session effects of rendering a step: those of its actions, when its
      type renders actions. */
  function PageEffects(step: Step, autoFollow: bool, cfg: ViewConfig): seq<RenderEffect> {
    if RendersActions(step.stepType) || step.stepType == PollingStep
    then ActionEffects(step.actions, autoFollow, cfg)
    else []
  }

  /** The alert colour of a message, from its first class; none without one. */
  function MessageColor(m: Message): (c: Option<string>)
    ensures c.None? <==> |m.classList| == 0
    ensures |m.classList| > 0 && m.classList[0] == "warn" ==> c == Some("warning")
    ensures |m.classList| > 0 && m.classList[0] !in {"warn", "info"} ==> c == Some(m.classList[0])
    ensures c == Some("primary") <==> |m.classList| > 0 && m.classList[0] in {"info", "primary"}
  {
    if |m.classList| == 0 then None
    else if m.classList[0] == "warn" then Some("warning")
    else if m.classList[0] == "info" then Some("primary")
    else Some(m.classList[0])
  }

  /** The label of a form's submit button: the model's action title, or "Submit". */
  function SubmitLabel(a: Action): (s: string)
    ensures s != ""
    ensures a.model.actionTitle != "" ==> s == a.model.actionTitle
    ensures a.model.actionTitle == "" ==> s == "Submit"
  {
    if a.model.actionTitle != "" then a.model.actionTitle else "Submit"
  }

  /** The colour of a form's submit button: a warning for cancel actions. */
  function SubmitColor(a: Action): (c: string)
    ensures c == "warning" <==> a.kind == CancelKind
    ensures c == "success" <==> a.kind != CancelKind
  {
    if a.kind == CancelKind then "warning" else "success"
  }

  // ---------------------------------------------------------------------------
  // Properties
  // ---------------------------------------------------------------------------

  /** A page is the step's messages in order, the block chosen by the type,
      then (only when there are links) a ruler and one intent per link. */
  lemma {:induction false} PageLayout(step: Step, autoFollow: bool, cfg: ViewConfig)
    ensures
      var r := PageIntents(step, autoFollow, cfg);
      var m := |step.messages|;
      var block := TypeBlock(step, autoFollow, cfg);
      var b := |block|;
      var n := |step.links|;
      && |r| == m + b + (if n == 0 then 0 else n + 1)
      && (forall i :: 0 <= i < m ==> r[i] == MessageView(step.messages[i]))
      && r[m..m + b] == block
      && (n > 0 ==> r[m + b] == Ruler)
      && (forall j :: 0 <= j < n ==>
            r[m + b + 1 + j] == (if IsImageLink(step.links[j]) then ImageLink(step.links[j])
                                 else LinkButton(step.links[j])))
  {
    var msgs := MessageIntents(step);
    var block := TypeBlock(step, autoFollow, cfg);
    var links := LinkIntents(step);
    var r := msgs + block + links;
    Sections(msgs, block, links);
    forall i | 0 <= i < |msgs|
      ensures r[i] == MessageView(step.messages[i])
    {
      assert r[i] == msgs[i];
    }
    forall j | 0 <= j < |step.links|
      ensures r[|msgs| + |block| + 1 + j] == LinkIntent(step.links[j])
    {
      assert r[|msgs| + |block| + 1 + j] == links[1 + j];
    }
  }

  /** Where the three sections of a page sit in the whole. */
  lemma Sections(msgs: seq<Intent>, block: seq<Intent>, links: seq<Intent>)
    ensures var r := msgs + block + links;
      && |r| == |msgs| + |block| + |links|
      && r[..|msgs|] == msgs
      && r[|msgs|..|msgs| + |block|] == block
      && r[|msgs| + |block|..] == links
  {
    var r := msgs + block + links;
    assert r[..|msgs|] == msgs;
    assert r[|msgs|..|msgs| + |block|] == block;
    assert r[|msgs| + |block|..] == links;
  }

  /** Exactly one block per step type: the actions for the five action-rendering
      types, the callback's result for an authorization response, the actions
      and a status banner for a polling step, and an error otherwise. */
  lemma BlockByType(step: Step, autoFollow: bool, cfg: ViewConfig)
    ensures
      var block := TypeBlock(step, autoFollow, cfg);
      var t := step.stepType;
      && (RendersActions(t) ==> block == ActionIntents(step.actions, autoFollow, cfg))
      && (t == AuthorizationResponse ==> block == [CallbackResult(step)])
      && (t == PollingStep ==>
            block == ActionIntents(step.actions, autoFollow, cfg)
                     + [PollingStatus(PollingStatusOf(step), PollingAlert(PollingStatusOf(step)))])
      && (t == MissingType ==> block == [ErrorMessage(MissingTypeText)])
      && (!RendersActions(t) && t !in {AuthorizationResponse, PollingStep, MissingType} ==>
            block == [ErrorMessage("Cannot render type " + StepTypeName(t))])
  {
  }

  /** No realised action is itself a disclosure or a busy indicator. */
  lemma {:induction false} RealizeShape(a: Action, fold: bool, autoFollow: bool, cfg: ViewConfig)
    ensures !RealizeAction(a, fold, autoFollow, cfg).Foldable?
    ensures !RealizeAction(a, fold, autoFollow, cfg).Busy?
  {
  }

  function Unfolded(x: Intent): Intent {
    if x.Foldable? then x.content else x
  }

  /** Without the shortcut, action i becomes intent i; it is a disclosure titled
      `title || kind` exactly when folding is on and the action may fold. */
  lemma {:induction false} FoldPolicy(items: seq<Action>, autoFollow: bool, cfg: ViewConfig)
    requires !ShortcutApplies(items, cfg)
    ensures
      var r := ActionIntents(Present(items), autoFollow, cfg);
      && |r| == |items|
      && forall i :: 0 <= i < |items| ==>
           && (r[i].Foldable? <==> FoldEnabled(items) && MayFold(items[i]))
           && (r[i].Foldable? ==> r[i].title == TitleOf(items[i]))
           && Unfolded(r[i]) == RealizeAction(items[i], FoldEnabled(items), autoFollow, cfg)
  {
    var r := ActionIntents(Present(items), autoFollow, cfg);
    forall i | 0 <= i < |items|
      ensures r[i].Foldable? <==> FoldEnabled(items) && MayFold(items[i])
      ensures Unfolded(r[i]) == RealizeAction(items[i], FoldEnabled(items), autoFollow, cfg)
    {
      RealizeShape(items[i], FoldEnabled(items), autoFollow, cfg);
    }
  }

  /** Folding is on exactly when two different actions are not cancel actions. */
  lemma {:induction false} FoldEnabledIff(items: seq<Action>)
    ensures FoldEnabled(items) <==>
      exists i, j :: 0 <= i < j < |items| && items[i].kind != CancelKind && items[j].kind != CancelKind
  {
    TwoNonCancel(items);
  }

  /** One action is counted exactly when some action is not a cancel action. */
  lemma {:induction false} OneNonCancel(items: seq<Action>)
    ensures NonCancelCount(items) > 0 <==> exists i :: 0 <= i < |items| && items[i].kind != CancelKind
  {
    if items != [] {
      var tail := items[1..];
      OneNonCancel(tail);
      if exists i :: 0 <= i < |tail| && tail[i].kind != CancelKind {
        var i :| 0 <= i < |tail| && tail[i].kind != CancelKind;
        assert items[i + 1] == tail[i];
      }
      if exists i :: 0 <= i < |items| && items[i].kind != CancelKind {
        var i :| 0 <= i < |items| && items[i].kind != CancelKind;
        if i > 0 { assert tail[i - 1] == items[i]; }
      }
    }
  }

  /** Two actions are counted exactly when two different actions are not
      cancel actions. */
  lemma {:induction false} TwoNonCancel(items: seq<Action>)
    ensures NonCancelCount(items) > 1 <==>
      exists i, j :: 0 <= i < j < |items| && items[i].kind != CancelKind && items[j].kind != CancelKind
  {
    if items != [] {
      var tail := items[1..];
      TwoNonCancel(tail);
      OneNonCancel(tail);
      if NonCancelCount(items) > 1 {
        if NonCancelCount(tail) > 1 {
          var i, j :| 0 <= i < j < |tail| && tail[i].kind != CancelKind && tail[j].kind != CancelKind;
          assert items[i + 1] == tail[i] && items[j + 1] == tail[j];
        } else {
          var j :| 0 <= j < |tail| && tail[j].kind != CancelKind;
          assert items[j + 1] == tail[j];
        }
      }
      if exists i, j :: 0 <= i < j < |items| && items[i].kind != CancelKind && items[j].kind != CancelKind {
        var i, j :| 0 <= i < j < |items| && items[i].kind != CancelKind && items[j].kind != CancelKind;
        assert tail[j - 1] == items[j];
        if i > 0 { assert tail[i - 1] == items[i]; }
      }
    }
  }

  /** An action list renders as a lone busy indicator exactly when the
      auto-redirect shortcut applies; the auto-follow argument plays no part. */
  lemma {:induction false} RedirectShortcut(items: seq<Action>, autoFollow: bool, cfg: ViewConfig)
    ensures
      var r := ActionIntents(Present(items), autoFollow, cfg);
      |r| == 1 && r[0].Busy? <==> ShortcutApplies(items, cfg)
    ensures ShortcutApplies(items, cfg) ==>
      && ActionIntents(Present(items), autoFollow, cfg) == [Busy(items[0])]
      && ActionIntents(Present(items), !autoFollow, cfg) == [Busy(items[0])]
      && ActionEffects(Present(items), autoFollow, cfg) == [AutoSubmit(items[0])]
  {
    if !ShortcutApplies(items, cfg) && |items| == 1 {
      var r := ActionIntents(Present(items), autoFollow, cfg);
      RealizeShape(items[0], FoldEnabled(items), autoFollow, cfg);
      assert !r[0].Busy?;
    }
  }

  /** Rendering arms the resume slot only for external-browser-flow actions,
      opens a window only for those at the top of the list and only when the
      caller auto-follows, and schedules a submission only for a redirect under
      the session's follow-redirects flag. */
  lemma {:induction false} ActionEffectsShape(l: ActionList, autoFollow: bool, cfg: ViewConfig)
    ensures forall e :: e in ActionEffects(l, autoFollow, cfg) && e.ArmResume? ==>
      e.action.template == ClientOperationTemplate && e.action.model.name == ExternalBrowserFlow
    ensures forall e :: e in ActionEffects(l, autoFollow, cfg) && e.ArmResume? && e.autoFollow ==>
      autoFollow && e.action in Items(l)
    ensures forall e :: e in ActionEffects(l, autoFollow, cfg) && e.AutoSubmit? ==>
      cfg.followRedirects && e.action.kind == RedirectKind
    decreases l, 1
  {
    match l
    case Absent =>
    case Present(items) =>
      if !ShortcutApplies(items, cfg) {
        var lists := seq(|items|, i requires 0 <= i < |items| => RealizeEffects(items[i], autoFollow, cfg));
        forall e | e in ActionEffects(l, autoFollow, cfg)
          ensures e.ArmResume? ==>
            e.action.template == ClientOperationTemplate && e.action.model.name == ExternalBrowserFlow
          ensures e.ArmResume? && e.autoFollow ==> autoFollow && e.action in items
          ensures e.AutoSubmit? ==> cfg.followRedirects && e.action.kind == RedirectKind
        {
          FlattenMember(lists, e);
          var i :| 0 <= i < |lists| && e in lists[i];
          RealizeEffectsShape(items[i], autoFollow, cfg);
        }
      }
  }

  lemma {:induction false} RealizeEffectsShape(a: Action, autoFollow: bool, cfg: ViewConfig)
    ensures forall e :: e in RealizeEffects(a, autoFollow, cfg) && e.ArmResume? ==>
      e.action.template == ClientOperationTemplate && e.action.model.name == ExternalBrowserFlow
    ensures forall e :: e in RealizeEffects(a, autoFollow, cfg) && e.ArmResume? && e.autoFollow ==>
      autoFollow && e.action == a
    ensures forall e :: e in RealizeEffects(a, autoFollow, cfg) && e.AutoSubmit? ==>
      cfg.followRedirects && e.action.kind == RedirectKind
    decreases a, 0
  {
    if a.template == SelectorTemplate && !IsAuthenticatorSelector(a, cfg) {
      ActionEffectsShape(a.model.options, false, cfg);
    }
  }
}
