/**
 * The session's transitions as pure functions over a `View` of its state:
 * the view configuration, the flow state, the display, the current page data
 * and the pushed history. The `Session` class performs each transition in
 * place and is proved to match these functions.
 */
module Driver {
  import opened Wrappers
  import opened Haapi
  import opened Interpreter
  import opened Requests
  import opened Resume
  import opened Flow
  import opened Screen

  datatype View = View(
    config: ViewConfig,
    flow: FlowState,
    display: Display,
    current: Option<Snapshot>,
    history: seq<Snapshot>)

  /** A transition that may throw part-way: the state reached, and whether it
      completed. */
  datatype Attempt = Attempt(view: View, ok: bool)

  /** The form action a request was made for, and whether it carries an
      invalid-input handler. */
  datatype Source = Source(action: Action, hasHandler: bool)

  function InvalidResponsePage(): Display {
    Page([ErrorMessage(InvalidResponseText)], 0)
  }

  function NothingToDisplayPage(status: int): Display {
    Page([ErrorMessage(NothingToDisplayText)], status)
  }

  /** The current page data and every saved snapshot are settled, and window
      identities are handed out once. */
  ghost predicate ViewValid(v: View) {
    && FlowValid(v.flow)
    && (v.current.Some? ==> Settled(v.current.value))
    && (forall s :: s in v.history ==> Settled(s))
  }

  // ---------------------------------------------------------------------------
  // Transitions
  // ---------------------------------------------------------------------------

  /** `showGeneratedPage(generatePage(step, autoFollow), status)`. */
  function Render(v: View, step: Step, autoFollow: bool, status: int): (w: View)
    ensures w.current == v.current && w.history == v.history && w.config == v.config
    ensures w.display.Page? && w.display.status == status
  {
    v.(display := Page(PageIntents(step, autoFollow, v.config), status),
       flow := ApplyEffects(v.flow, PageEffects(step, autoFollow, v.config)))
  }

  /** `savePage`: the snapshot becomes the current page data and is pushed. */
  function Saved(v: View, s: Snapshot): View {
    v.(current := Some(s), history := v.history + [s])
  }

  /** The nested actions of an optional action (`action && action.model.continueActions`). */
  function NestedActions(a: Option<Action>): seq<Action> {
    if a.Some? then Items(a.value.model.continueActions) else []
  }

  /** `continueToNestedActions`: render and save a copy of the current page
      data whose actions are the nested ones. Without current page data the
      copy throws. */
  function Continued(v: View, a: Option<Action>, autoFollow: bool): (run: Attempt)
    ensures !run.ok ==> run.view == v
    ensures run.view.config == v.config
    ensures run.view.history == v.history
         || (run.view.current.Some? && run.view.history == v.history + [run.view.current.value])
    ensures |NestedActions(a)| > 0 && v.current.Some? ==>
      && run.ok && run.view.current.Some?
      && run.view.current.value.model.actions == Present(NestedActions(a))
      && run.view.history == v.history + [run.view.current.value]
    ensures |v.flow.log| <= |run.view.flow.log| && run.view.flow.log[..|v.flow.log|] == v.flow.log
  {
    var next := NestedActions(a);
    if |next| == 0 then Attempt(v.(display := NoActionsPage()), true)
    else if v.current.None? then Attempt(v, false)
    else
      var c := v.current.value;
      var model := c.model.(actions := Present(next));
      ApplyEffectsExtends(v.flow, PageEffects(model, autoFollow, v.config));
      Attempt(Saved(Render(v, model, autoFollow, c.status), Snapshot(model, c.text, c.status)), true)
  }

  /** `continueToNestedActions` as written, where the no-actions branch hands
      a single element to `showGeneratedPage`. */
  function ContinuedAsWritten(v: View, a: Option<Action>, autoFollow: bool): (run: Attempt)
    ensures |NestedActions(a)| > 0 ==> run == Continued(v, a, autoFollow)
    ensures |NestedActions(a)| == 0 ==> run.view == v.(display := Page([], -1))
  {
    if |NestedActions(a)| == 0 then
      var shown := NoActionsAsWritten();
      Attempt(v.(display := shown.display), !shown.threw)
    else Continued(v, a, autoFollow)
  }

  /** The resume closure: write the nonce into the continuation actions, then
      continue with them. An absent `continueActions` throws. */
  function Resumed(v: View, r: ResumeAction, nonce: string): (run: Attempt)
    ensures r.action.model.continueActions.Absent? ==> !run.ok && run.view == v
    ensures r.action.model.continueActions.Present? ==>
      run == Continued(v, Some(r.action.(model := r.action.model.(continueActions :=
        Present(NonceInjected(r.action.model.continueActions.items, nonce))))), r.autoFollow)
  {
    match r.action.model.continueActions
    case Absent => Attempt(v, false)
    case Present(items) =>
      var a := r.action.(model := r.action.model.(continueActions := Present(NonceInjected(items, nonce))));
      Continued(v, Some(a), r.autoFollow)
  }

  /** The message listener. A string from the tracked window while a resume
      action is armed runs it; only when it completes is the slot emptied and
      the tracked window forgotten and scheduled to close. */
  function Delivered(v: View, s: Sender, d: MessageData): (w: View)
    ensures !Accepts(v.flow, s, d) ==> w == v
    ensures w.config == v.config
    ensures Accepts(v.flow, s, d) && !Resumed(v, v.flow.resume.value, d.text).ok ==> w == v
  {
    if !Accepts(v.flow, s, d) then v
    else
      var run := Resumed(v, v.flow.resume.value, d.text);
      if run.ok then run.view.(flow := Disarmed(run.view.flow)) else run.view
  }

  /** The request is sent. */
  function Requested(v: View, r: Request): View {
    v.(flow := v.flow.(log := v.flow.log + [Fetch(r)]))
  }

  /** The reaction of `apiRequest` to what the fetch gave. */
  function Responded(v: View, src: Option<Source>, f: Fetched): (w: View)
    ensures w.config == v.config
    ensures Classify(f).Failure? ==> w == v.(display := InvalidResponsePage())
    ensures Classify(f).NothingToDisplay? ==> w == v.(display := NothingToDisplayPage(f.response.status))
  {
    match Classify(f)
    case Failure => v.(display := InvalidResponsePage())
    case NothingToDisplay(status) => v.(display := NothingToDisplayPage(status))
    case ProblemOutcome(p, status) =>
      if RoutesToHandler(p, src.Some? && src.value.hasHandler) then
        if p.invalidFields.Some? then v else v.(display := InvalidResponsePage())
      else v.(display := Page(ProblemIntents(p), status))
    case ContinueOutcome =>
      var run := Continued(v, if src.Some? then Some(src.value.action) else None, true);
      if run.ok then run.view else run.view.(display := InvalidResponsePage())
    case StepOutcome(snap) => Saved(Render(v, snap.model, true, snap.status), snap)
  }

  /** `apiRequest(link, method, data, source)`. */
  function ApiRequested(v: View, link: string, httpMethod: string, data: Option<seq<Pair>>,
                        src: Option<Source>, f: Fetched): View {
    Responded(Requested(v, RequestFor(link, httpMethod, data)), src, f)
  }

  /** `apiRequestForFormAction(action, onInvalidInput)`. */
  function Submitted(v: View, a: Action, hasHandler: bool, f: Fetched): View {
    ApiRequested(v, a.model.href, a.model.httpMethod, Some(FormPairs(a.model.fields.GetOr([]))),
                 Some(Source(a, hasHandler)), f)
  }

  /** `refreshCurrentPage`: render the current page data again, without
      auto-following. */
  function Refreshed(v: View): (w: View)
    ensures w.current == v.current && w.history == v.history && w.config == v.config
    ensures v.current.None? ==> w == v
    ensures v.current.Some? ==> w.display.Page? && w.display.status == v.current.value.status
  {
    if v.current.Some? then Render(v, v.current.value.model, false, v.current.value.status) else v
  }

  /** `tryRestorePageFromHistory`: a popped state becomes the current page
      data and is shown again; no state reloads the page. */
  function Restored(v: View, state: Option<Snapshot>): (w: View)
    ensures w.history == v.history && w.config == v.config
    ensures state.Some? ==> w.current == state
    ensures state.None? ==> w.current == v.current && w.display == v.display
  {
    match state
    case Some(s) => Refreshed(v.(current := Some(s)))
    case None => v.(flow := v.flow.(log := v.flow.log + [Reloaded]))
  }

  function EnhancedModeSet(v: View, enabled: bool): View {
    Refreshed(v.(config := v.config.(enhanced := enabled)))
  }

  function FollowRedirectsSet(v: View, follow: bool): View {
    v.(config := v.config.(followRedirects := follow))
  }

  /** The launch button of an external browser flow; a disabled button
      ignores the click. */
  function LaunchClicked(v: View, a: Action, disabled: bool): (w: View)
    ensures disabled ==> w == v
    ensures w.display == v.display && w.current == v.current && w.history == v.history
    ensures w.flow.resume == v.flow.resume
    ensures !disabled ==> w.flow == OpenOrReuse(v.flow, ExternalLaunchUrl(a, v.flow.origin))
    ensures !disabled ==>
      var url := ExternalLaunchUrl(a, v.flow.origin);
      && |w.flow.log| == |v.flow.log| + 1 && w.flow.log[..|v.flow.log|] == v.flow.log
      && (w.flow.log[|v.flow.log|] == PopupBlockedAlert
          || (w.flow.tracked.Ref? && w.flow.log[|v.flow.log|] in
                {WindowNavigated(w.flow.tracked.id, url), WindowOpened(w.flow.tracked.id, url)}))
  {
    if disabled then v else v.(flow := OpenOrReuse(v.flow, ExternalLaunchUrl(a, v.flow.origin)))
  }

  /** The launch button of a `bankid` operation: open its URL in place, then
      continue with its nested actions. */
  function LaunchUrlClicked(v: View, href: string, a: Action, autoFollow: bool): (w: View)
    ensures w.config == v.config
    ensures |w.flow.log| > |v.flow.log| && w.flow.log[..|v.flow.log|] == v.flow.log
    ensures w.flow.log[|v.flow.log|] == OpenedInPlace(href)
    ensures |NestedActions(Some(a))| == 0 ==>
      w.flow.log == v.flow.log + [OpenedInPlace(href)] && w.display == NoActionsPage()
    ensures |NestedActions(Some(a))| > 0 && v.current.Some? ==>
      && w.current.Some?
      && w.current.value.model.actions == Present(NestedActions(Some(a)))
      && w.history == v.history + [w.current.value]
  {
    var u := v.(flow := v.flow.(log := v.flow.log + [OpenedInPlace(href)]));
    var w := Continued(u, Some(a), autoFollow).view;
    assert w.flow.log[..|u.flow.log|] == u.flow.log;
    assert w.flow.log[..|v.flow.log|] == u.flow.log[..|v.flow.log|];
    assert w.flow.log[|v.flow.log|] == u.flow.log[|v.flow.log|];
    w
  }

  /** A link button: a `launch` link opens in a new tab, any other is requested. */
  function LinkClicked(v: View, l: Link, f: Fetched): (w: View)
    ensures l.rel == "launch" ==>
      w == v.(flow := v.flow.(log := v.flow.log + [OpenedInNewTab(l.href)]))
    ensures w.config == v.config
  {
    if l.rel == "launch" then v.(flow := v.flow.(log := v.flow.log + [OpenedInNewTab(l.href)]))
    else ApiRequested(v, l.href, "", None, None, f)
  }

  // ---------------------------------------------------------------------------
  // Properties
  // ---------------------------------------------------------------------------

  /** Rendering preserves validity, sends nothing and keeps the saved pages. */
  lemma RenderSafe(v: View, step: Step, autoFollow: bool, status: int)
    requires ViewValid(v)
    ensures var w := Render(v, step, autoFollow, status);
      && ViewValid(w)
      && w.current == v.current && w.history == v.history && w.config == v.config
      && |v.flow.log| <= |w.flow.log| && w.flow.log[..|v.flow.log|] == v.flow.log
      && forall k :: |v.flow.log| <= k < |w.flow.log| ==> !w.flow.log[k].Fetch?
  {
    RenderEffectsSafe(v.flow, PageEffects(step, autoFollow, v.config));
  }

  /** A page rendered without auto-follow opens and navigates no window and
      sends no request. It only logs the redirect submissions it schedules, and
      only while the session follows redirects. */
  lemma {:induction false} QuietRenderKeepsWindows(v: View, step: Step, status: int)
    ensures Render(v, step, false, status).flow.tracked == v.flow.tracked
    ensures Render(v, step, false, status).flow.browser == v.flow.browser
    ensures var log := Render(v, step, false, status).flow.log;
      && |v.flow.log| <= |log| && log[..|v.flow.log|] == v.flow.log
      && forall k :: |v.flow.log| <= k < |log| ==>
           && log[k].SubmitScheduled? && log[k].action.kind == RedirectKind
           && v.config.followRedirects
    ensures !v.config.followRedirects ==> Render(v, step, false, status).flow.log == v.flow.log
  {
    var es := PageEffects(step, false, v.config);
    if RendersActions(step.stepType) || step.stepType == PollingStep {
      ActionEffectsShape(step.actions, false, v.config);
    }
    WindowsNeedAutoFollow(v.flow, es);
    if !v.config.followRedirects {
      assert forall e :: e in es ==> e.ArmResume?;
    }
  }

  /** The redirect shortcut schedules exactly one submission, of the lone
      redirect, and leaves the rest of the session as it was. */
  lemma ShortcutRenderSchedules(v: View, step: Step, autoFollow: bool, status: int)
    requires RendersActions(step.stepType) || step.stepType == PollingStep
    requires step.actions.Present? && ShortcutApplies(step.actions.items, v.config)
    ensures Render(v, step, autoFollow, status).flow
         == v.flow.(log := v.flow.log + [SubmitScheduled(step.actions.items[0])])
  {
    var e := AutoSubmit(step.actions.items[0]);
    assert PageEffects(step, autoFollow, v.config) == [e];
    assert ApplyEffects(v.flow, [e]) == ApplyEffects(ApplyEffect(v.flow, e), []);
  }

  /** The continuation replaces only the actions of the current page data and
      keeps its text and status; with no nested actions it shows the
      no-actions page and saves nothing. */
  lemma ContinuedCopiesModel(v: View, a: Option<Action>, autoFollow: bool)
    ensures var run := Continued(v, a, autoFollow); var next := NestedActions(a);
      && (|next| == 0 ==>
            run.ok && run.view == v.(display := Page([ErrorMessage(NoActionsText)], -1)))
      && (|next| > 0 && v.current.None? ==> !run.ok && run.view == v)
      && (|next| > 0 && v.current.Some? ==>
            var c := v.current.value;
            var s := Snapshot(c.model.(actions := Present(next)), c.text, c.status);
            && run.ok
            && run.view.current == Some(s)
            && run.view.history == v.history + [s]
            && run.view.display == Page(PageIntents(s.model, autoFollow, v.config), c.status)
            && s.model.stepType == c.model.stepType && s.model.messages == c.model.messages
            && s.model.links == c.model.links && s.model.properties == c.model.properties)
  {
  }

  /** As written, the no-actions continuation throws with an empty page; as
      intended it completes and shows the message. */
  lemma NoActionsFinding(v: View, a: Option<Action>, autoFollow: bool)
    requires |NestedActions(a)| == 0
    ensures !ContinuedAsWritten(v, a, autoFollow).ok
    ensures ContinuedAsWritten(v, a, autoFollow).view.display == Page([], -1)
    ensures Continued(v, a, autoFollow).ok
    ensures Continued(v, a, autoFollow).view.display == Page([ErrorMessage(NoActionsText)], -1)
  {
  }

  /** A message the listener does not accept changes nothing. */
  lemma DeliveryIgnored(v: View, s: Sender, d: MessageData)
    requires !SameSource(s, v.flow.tracked) || d.OtherData? || v.flow.resume.None?
    ensures Delivered(v, s, d) == v
  {
  }

  /** An accepted message writes the nonce into the continuation actions,
      continues with them over a copy of the current page data, then empties
      the slot (even of an action the continuation armed) and closes the
      window tracked at that point. A flow action without continuation
      actions throws, and the slot stays armed. */
  lemma DeliveryResumes(v: View, s: Sender, d: MessageData)
    requires Accepts(v.flow, s, d)
    ensures var r := v.flow.resume.value; var w := Delivered(v, s, d); var ca := r.action.model.continueActions;
      && (ca.Absent? ==> w == v)
      && (ca.Present? && |ca.items| > 0 && v.current.None? ==> w == v)
      && (ca.Present? && (|ca.items| == 0 || v.current.Some?) ==>
            && w.flow.resume.None? && w.flow.tracked == NullRef
            && |w.flow.log| > 0
            && w.flow.log[|w.flow.log| - 1] == CloseScheduled(Resumed(v, r, d.text).view.flow.tracked))
      && (ca.Present? && |ca.items| > 0 && v.current.Some? ==>
            var c := v.current.value;
            var s := Snapshot(c.model.(actions := Present(NonceInjected(ca.items, d.text))), c.text, c.status);
            w.current == Some(s) && w.history == v.history + [s])
  {
  }

  /** A flow armed without auto-follow continues without opening a window, so
      the window closed after the resume is the one tracked when the message
      arrived. */
  lemma QuietResumeClosesTracked(v: View, s: Sender, d: MessageData)
    requires Accepts(v.flow, s, d) && !v.flow.resume.value.autoFollow
    requires var ca := v.flow.resume.value.action.model.continueActions;
      ca.Present? && (|ca.items| == 0 || v.current.Some?)
    ensures var w := Delivered(v, s, d);
      |w.flow.log| > 0 && w.flow.log[|w.flow.log| - 1] == CloseScheduled(v.flow.tracked)
  {
    var r := v.flow.resume.value;
    var items := NonceInjected(r.action.model.continueActions.items, d.text);
    if |items| > 0 {
      var c := v.current.value;
      QuietRenderKeepsWindows(v, c.model.(actions := Present(items)), c.status);
    }
  }

  /** Only a settled step response is saved, as received; a continue-same-step
      response saves a copy of the current page data; nothing else saves. */
  lemma ResponseSaving(v: View, src: Option<Source>, f: Fetched)
    ensures var w := Responded(v, src, f);
      match Classify(f)
      case StepOutcome(snap) =>
        && w.current == Some(snap) && w.history == v.history + [snap]
        && w.display == Page(PageIntents(snap.model, true, v.config), snap.status)
      case ContinueOutcome =>
        (w.current == v.current && w.history == v.history)
        || (v.current.Some? && w.current.Some? && w.history == v.history + [w.current.value]
            && w.current.value == v.current.value.(model := v.current.value.model.(actions := w.current.value.model.actions)))
      case _ => w.current == v.current && w.history == v.history && w.flow == v.flow
  {
  }

  /** A routed invalid-input problem leaves the page as it was when its
      invalid fields are listed; a problem that is not routed shows its title
      and messages with the response status. */
  lemma ProblemRouting(v: View, src: Option<Source>, f: Fetched)
    requires Classify(f).ProblemOutcome?
    ensures var p := Classify(f).problem; var w := Responded(v, src, f);
      && (RoutesToHandler(p, src.Some? && src.value.hasHandler) && p.invalidFields.Some? ==> w == v)
      && (RoutesToHandler(p, src.Some? && src.value.hasHandler) && p.invalidFields.None? ==>
            w.display == InvalidResponsePage())
      && (!RoutesToHandler(p, src.Some? && src.value.hasHandler) ==>
            w.display == Page(ProblemIntents(p), f.response.status))
  {
  }

  /** A response never sends a further request itself. */
  lemma {:induction false} RespondedSendsNothing(v: View, src: Option<Source>, f: Fetched)
    requires ViewValid(v)
    ensures var w := Responded(v, src, f);
      && |v.flow.log| <= |w.flow.log| && w.flow.log[..|v.flow.log|] == v.flow.log
      && forall k :: |v.flow.log| <= k < |w.flow.log| ==> !w.flow.log[k].Fetch?
  {
    match Classify(f)
    case StepOutcome(snap) => RenderSafe(v, snap.model, true, snap.status);
    case ContinueOutcome =>
      var a := if src.Some? then Some(src.value.action) else None;
      if |NestedActions(a)| > 0 && v.current.Some? {
        var c := v.current.value;
        RenderSafe(v, c.model.(actions := Present(NestedActions(a))), true, c.status);
      }
    case _ =>
  }

  /** A form submission sends exactly one request: the form's. */
  lemma {:induction false} SubmissionSendsForm(v: View, a: Action, hasHandler: bool, f: Fetched)
    requires ViewValid(v)
    ensures var w := Submitted(v, a, hasHandler, f); var n := |v.flow.log|;
      && |w.flow.log| > n && w.flow.log[..n] == v.flow.log
      && w.flow.log[n] == Fetch(FormRequest(a))
      && forall k :: n < k < |w.flow.log| ==> !w.flow.log[k].Fetch?
  {
    var r := FormRequest(a);
    var u := Requested(v, r);
    assert ViewValid(u);
    RespondedSendsNothing(u, Some(Source(a, hasHandler)), f);
    var w := Responded(u, Some(Source(a, hasHandler)), f);
    assert w == Submitted(v, a, hasHandler, f);
    LogExtendsAfter(v.flow.log, Fetch(r), w.flow.log);
  }

  /** A log that extends `before + [e]` extends `before`, with `e` next. */
  lemma LogExtendsAfter(before: seq<Effect>, e: Effect, after: seq<Effect>)
    requires |before| + 1 <= |after| && after[..|before| + 1] == before + [e]
    ensures after[..|before|] == before && after[|before|] == e
  {
    assert after[..|before|] == after[..|before| + 1][..|before|];
    assert after[|before|] == after[..|before| + 1][|before|];
  }

  /** Restoring a popped state shows it again without a request and without
      touching the history or the windows. The one thing it may log is the
      redirect submission of a page whose lone action is a redirect, while the
      session follows redirects. No state reloads the page. */
  lemma {:induction false} RestoreMakesNoRequest(v: View, state: Option<Snapshot>)
    ensures var w := Restored(v, state);
      && w.history == v.history
      && (state.None? ==> w == v.(flow := v.flow.(log := v.flow.log + [Reloaded])))
      && (state.Some? ==>
            && w.current == state
            && w.display == Page(PageIntents(state.value.model, false, v.config), state.value.status)
            && w.flow.tracked == v.flow.tracked && w.flow.browser == v.flow.browser
            && |v.flow.log| <= |w.flow.log| && w.flow.log[..|v.flow.log|] == v.flow.log
            && (forall k :: |v.flow.log| <= k < |w.flow.log| ==>
                  w.flow.log[k].SubmitScheduled? && w.flow.log[k].action.kind == RedirectKind)
            && (!v.config.followRedirects ==> w.flow.log == v.flow.log))
    ensures (&& state.Some?
             && (RendersActions(state.value.model.stepType) || state.value.model.stepType == PollingStep)
             && state.value.model.actions.Present?
             && ShortcutApplies(state.value.model.actions.items, v.config)) ==>
      Restored(v, state).flow.log == v.flow.log + [SubmitScheduled(state.value.model.actions.items[0])]
  {
    if state.Some? {
      var u := v.(current := state);
      var step := state.value.model;
      QuietRenderKeepsWindows(u, step, state.value.status);
      if (RendersActions(step.stepType) || step.stepType == PollingStep)
         && step.actions.Present? && ShortcutApplies(step.actions.items, v.config) {
        ShortcutRenderSchedules(u, step, false, state.value.status);
      }
    }
  }

  // ---------------------------------------------------------------------------
  // The invariant
  // ---------------------------------------------------------------------------

  lemma {:induction false} ContinuedValid(v: View, a: Option<Action>, autoFollow: bool)
    requires ViewValid(v)
    ensures ViewValid(Continued(v, a, autoFollow).view)
  {
    var next := NestedActions(a);
    if |next| > 0 && v.current.Some? {
      var c := v.current.value;
      var model := c.model.(actions := Present(next));
      RenderSafe(v, model, autoFollow, c.status);
      assert Settled(c);
    }
  }

  lemma {:induction false} DeliveredValid(v: View, s: Sender, d: MessageData)
    requires ViewValid(v)
    ensures ViewValid(Delivered(v, s, d))
  {
    if Accepts(v.flow, s, d) {
      var r := v.flow.resume.value;
      if r.action.model.continueActions.Present? {
        var a := r.action.(model := r.action.model.(continueActions :=
          Present(NonceInjected(r.action.model.continueActions.items, d.text))));
        ContinuedValid(v, Some(a), r.autoFollow);
      }
    }
  }

  lemma {:induction false} RespondedValid(v: View, src: Option<Source>, f: Fetched)
    requires ViewValid(v)
    ensures ViewValid(Responded(v, src, f))
  {
    match Classify(f)
    case StepOutcome(snap) =>
      ClassifySnapshot(f);
      RenderSafe(v, snap.model, true, snap.status);
    case ContinueOutcome =>
      ContinuedValid(v, if src.Some? then Some(src.value.action) else None, true);
    case _ =>
  }

  lemma {:induction false} RestoredValid(v: View, state: Option<Snapshot>)
    requires ViewValid(v)
    requires state.Some? ==> Settled(state.value)
    ensures ViewValid(Restored(v, state))
  {
    if state.Some? {
      RenderSafe(v.(current := state), state.value.model, false, state.value.status);
    }
  }

  lemma {:induction false} RefreshedValid(v: View)
    requires ViewValid(v)
    ensures ViewValid(Refreshed(v))
    ensures Refreshed(v).current == v.current && Refreshed(v).history == v.history
  {
    if v.current.Some? {
      RenderSafe(v, v.current.value.model, false, v.current.value.status);
    }
  }

  lemma {:induction false} ClicksValid(v: View, a: Action, disabled: bool, href: string, autoFollow: bool,
                                       l: Link, f: Fetched, hasHandler: bool)
    requires ViewValid(v)
    ensures ViewValid(LaunchClicked(v, a, disabled))
    ensures ViewValid(LaunchUrlClicked(v, href, a, autoFollow))
    ensures ViewValid(LinkClicked(v, l, f))
    ensures ViewValid(Submitted(v, a, hasHandler, f))
  {
    LaunchUrlClickedValid(v, href, a, autoFollow);
    LinkClickedValid(v, l, f);
    SubmittedValid(v, a, hasHandler, f);
  }

  lemma {:induction false} LaunchUrlClickedValid(v: View, href: string, a: Action, autoFollow: bool)
    requires ViewValid(v)
    ensures ViewValid(LaunchUrlClicked(v, href, a, autoFollow))
  {
    ContinuedValid(v.(flow := v.flow.(log := v.flow.log + [OpenedInPlace(href)])), Some(a), autoFollow);
  }

  lemma {:induction false} LinkClickedValid(v: View, l: Link, f: Fetched)
    requires ViewValid(v)
    ensures ViewValid(LinkClicked(v, l, f))
  {
    RespondedValid(Requested(v, RequestFor(l.href, "", None)), None, f);
  }

  lemma {:induction false} SubmittedValid(v: View, a: Action, hasHandler: bool, f: Fetched)
    requires ViewValid(v)
    ensures ViewValid(Submitted(v, a, hasHandler, f))
  {
    RespondedValid(Requested(v, FormRequest(a)), Some(Source(a, hasHandler)), f);
  }
}
