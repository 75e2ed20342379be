/**
 * The client session: the closure state of the client and the operations that
 * update it in place. Every method is proved to leave the session in the state
 * the matching `Driver` transition computes from the old state, so the lemmas
 * about those transitions hold of the session.
 */
module Session {
  import opened Wrappers
  import opened Haapi
  import opened Interpreter
  import opened Requests
  import opened Resume
  import opened Flow
  import opened Screen
  import opened Driver
  import opened FieldErrors

  /** The source of a form request: the action and its rendered form's
      invalid-input handler, when it has one. */
  datatype RequestSource = RequestSource(action: Action, handler: Option<FormView>)

  function HandlerOf(src: Option<RequestSource>): Option<FormView> {
    if src.Some? then src.value.handler else None
  }

  function HandlerFrame(src: Option<RequestSource>): set<object> {
    if HandlerOf(src).Some? then {HandlerOf(src).value} else {}
  }

  function SourceOf(src: Option<RequestSource>): Option<Source> {
    if src.Some? then Some(Source(src.value.action, src.value.handler.Some?)) else None
  }

  /** Whether a response is an invalid-input problem that goes to the handler. */
  predicate RoutedProblem(src: Option<Source>, f: Fetched) {
    Classify(f).ProblemOutcome?
    && RoutesToHandler(Classify(f).problem, src.Some? && src.value.hasHandler)
  }

  /** The handler's error texts after a routed problem. */
  function HandlerErrors(fields: seq<Field>, invalid: Option<seq<InvalidField>>): seq<Option<string>> {
    if invalid.Some? then Annotated(fields, invalid.value) else NoErrors(|fields|)
  }

  class Session {
    const origin: string
    var followRedirects: bool
    var enhanced: bool
    var resume: Option<ResumeAction>
    var tracked: WindowRef
    var browser: Browser
    var log: seq<Effect>
    var current: Option<Snapshot>
    var history: seq<Snapshot>
    var display: Display

    function Config(): ViewConfig
      reads this
    {
      ViewConfig(followRedirects, enhanced)
    }

    function CurrentFlow(): FlowState
      reads this
    {
      FlowState(origin, resume, tracked, browser, log)
    }

    ghost function State(): View
      reads this
    {
      View(Config(), CurrentFlow(), display, current, history)
    }

    ghost predicate Valid()
      reads this
    {
      ViewValid(State())
    }

    /** A new session: redirects are not followed, the enhanced views are in
        use, nothing is armed or tracked and nothing is shown. */
    constructor(origin: string, browser: Browser)
      requires forall id :: id in browser.open ==> id < browser.nextId
      ensures Valid()
      ensures State() == View(ViewConfig(false, true), FlowState(origin, None, Unset, browser, []), Blank, None, [])
    {
      this.origin := origin;
      followRedirects := false;
      enhanced := true;
      resume := None;
      tracked := Unset;
      this.browser := browser;
      log := [];
      current := None;
      history := [];
      display := Blank;
    }

    // -------------------------------------------------------------------------
    // Settings
    // -------------------------------------------------------------------------

    method SetFollowRedirects(follow: bool)
      modifies this
      ensures State() == FollowRedirectsSet(old(State()), follow)
    {
      followRedirects := follow;
    }

    method EnableEnhancedMode(enabled: bool)
      requires Valid()
      modifies this
      ensures Valid()
      ensures State() == EnhancedModeSet(old(State()), enabled)
    {
      enhanced := enabled;
      RefreshCurrentPage();
    }

    // -------------------------------------------------------------------------
    // The external browser flow
    // -------------------------------------------------------------------------

    /** `launchExternalWindow`. */
    method LaunchExternalWindow(url: string)
      modifies this
      ensures State() == old(State()).(flow := OpenOrReuse(old(CurrentFlow()), url))
    {
      if tracked.Ref? && tracked.id in browser.open {
        log := log + [WindowNavigated(tracked.id, url)];
      } else if browser.popupsBlocked {
        tracked := NullRef;
        log := log + [PopupBlockedAlert];
      } else {
        var id := browser.nextId;
        browser := browser.(open := browser.open + {id}, nextId := id + 1);
        tracked := Ref(id);
        log := log + [WindowOpened(id, url)];
      }
    }

    /** `launchExternalBrowserFlow`: arm the resume slot, open the window when
        auto-following, and give a launch button disabled in that case. */
    method LaunchExternalBrowserFlow(a: Action, autoFollow: bool) returns (button: Intent)
      modifies this
      ensures button == LaunchButton(a, autoFollow)
      ensures State() == old(State()).(flow := ApplyEffect(old(CurrentFlow()), ArmResume(a, autoFollow)))
    {
      var launchUrl := ExternalLaunchUrl(a, origin);
      resume := Some(ResumeAction(a, autoFollow));
      if autoFollow {
        LaunchExternalWindow(launchUrl);
      }
      button := LaunchButton(a, autoFollow);
    }

    /** The launch button of an external browser flow. */
    method ClickLaunchButton(a: Action, disabled: bool)
      requires Valid()
      modifies this
      ensures Valid()
      ensures State() == LaunchClicked(old(State()), a, disabled)
    {
      if !disabled {
        LaunchExternalWindow(ExternalLaunchUrl(a, origin));
      }
    }

    /** The resume closure. */
    method RunResume(r: ResumeAction, nonce: string) returns (ok: bool)
      modifies this
      ensures Attempt(State(), ok) == Resumed(old(State()), r, nonce)
    {
      match r.action.model.continueActions
      case Absent =>
        ok := false;
      case Present(items) =>
        var updated, found := InjectNonce(items, nonce);
        var a := r.action.(model := r.action.model.(continueActions := Present(updated)));
        ok := ContinueToNestedActions(Some(a), r.autoFollow);
    }

    /** The message listener. */
    method OnMessage(sender: Sender, data: MessageData)
      requires Valid()
      modifies this
      ensures Valid()
      ensures State() == Delivered(old(State()), sender, data)
    {
      DeliveredValid(State(), sender, data);
      if !SameSource(sender, tracked) {
        return;
      }
      if data.StringData? && resume.Some? {
        var ok := RunResume(resume.value, data.text);
        if ok {
          resume := None;
          var w := tracked;
          tracked := NullRef;
          log := log + [CloseScheduled(w)];
        }
      }
    }

    /** The browser or the timer closes a window. */
    method CloseWindow(id: nat)
      requires Valid()
      modifies this
      ensures Valid()
      ensures State() == old(State()).(flow := WindowClosed(old(CurrentFlow()), id))
    {
      browser := browser.(open := browser.open - {id});
    }

    method SetPopupsBlocked(blocked: bool)
      requires Valid()
      modifies this
      ensures Valid()
      ensures State() == old(State()).(flow := old(CurrentFlow()).(browser := old(browser).(popupsBlocked := blocked)))
    {
      browser := browser.(popupsBlocked := blocked);
    }

    // -------------------------------------------------------------------------
    // Rendering
    // -------------------------------------------------------------------------

    /** One action of `generateActions`' map: its element, with its effects. */
    method Realize(a: Action, fold: bool, autoFollow: bool) returns (element: Intent)
      modifies this
      ensures element == RealizeAction(a, fold, autoFollow, old(Config()))
      ensures State() == old(State()).(flow := ApplyEffects(old(CurrentFlow()), RealizeEffects(a, autoFollow, old(Config()))))
      decreases a, 0
    {
      match a.template
      case SelectorTemplate =>
        if enhanced && KindName(a.kind) == AuthenticatorSelectorKind {
          element := AuthenticatorSelector(a, fold);
        } else {
          var options := GenerateActions(a.model.options, false);
          element := SelectorView(a, fold, options);
        }
      case FormTemplate =>
        if a.kind == RedirectKind {
          element := ActionForm(WithRedirectTitle(a), fold);
        } else {
          var mayFold := a.kind != CancelKind && a.model.fields.Some? && |a.model.fields.value| > 0;
          element := ActionForm(a, fold && mayFold);
        }
      case ClientOperationTemplate =>
        match a.model.name {
          case ExternalBrowserFlow =>
            element := LaunchExternalBrowserFlow(a, autoFollow);
            assert [ArmResume(a, autoFollow)][1..] == [];
          case BankId =>
            element := LaunchUrl(a.model.argumentsHref, a, autoFollow);
          case OtherOperation(n) =>
            element := ErrorMessage("Unsupported client operation '" + n + "'");
        }
      case OtherTemplate(t) =>
        element := ErrorMessage("Cannot render template '" + t + "'");
    }

    /** `generateActions`: the redirect shortcut, or every action realised in
        order and then wrapped by the fold policy. */
    method GenerateActions(l: ActionList, autoFollow: bool) returns (components: seq<Intent>)
      modifies this
      ensures components == ActionIntents(l, autoFollow, old(Config()))
      ensures State() == old(State()).(flow := ApplyEffects(old(CurrentFlow()), ActionEffects(l, autoFollow, old(Config()))))
      decreases l, 2
    {
      components := [];
      match l
      case Absent =>
      case Present(actions) =>
        if followRedirects && |actions| == 1 && actions[0].kind == RedirectKind {
          log := log + [SubmitScheduled(actions[0])];
          components := [Busy(actions[0])];
          return;
        }
        var foldActions := NonCancelCount(actions) > 1;
        var elements, mayFold := RealizeAll(l, foldActions, autoFollow);
        components := WrapAll(actions, elements, mayFold, foldActions);
    }

    /** The map of `generateActions`: each action's element and whether it may
        fold, in order, with the effects of realising them one after another. */
    method RealizeAll(l: ActionList, fold: bool, autoFollow: bool) returns (elements: seq<Intent>, mayFold: seq<bool>)
      requires l.Present?
      modifies this
      ensures elements == seq(|l.items|, k requires 0 <= k < |l.items| => RealizeAction(l.items[k], fold, autoFollow, old(Config())))
      ensures mayFold == seq(|l.items|, k requires 0 <= k < |l.items| => MayFold(l.items[k]))
      ensures State() == old(State()).(flow := ApplyEffects(old(CurrentFlow()),
        Flatten(EffectLists(l.items, autoFollow, old(Config())))))
      decreases l, 1
    {
      var actions := l.items;
      ghost var s0 := State();
      ghost var cfg := s0.config;
      ghost var expected := seq(|l.items|, k requires 0 <= k < |l.items| => RealizeAction(l.items[k], fold, autoFollow, cfg));
      elements := [];
      var i := 0;
      while i < |actions|
        invariant 0 <= i <= |actions|
        invariant elements == expected[..i]
        invariant Config() == cfg && display == s0.display && current == s0.current && history == s0.history
        invariant CurrentFlow() == ApplyEffects(s0.flow, Flatten(EffectLists(actions[..i], autoFollow, cfg)))
      {
        var element := RealizeNext(l, i, fold, autoFollow, s0);
        assert expected[..i + 1] == expected[..i] + [element];
        elements := elements + [element];
        i := i + 1;
      }
      assert actions[..i] == actions;
      assert expected[..i] == expected;
      mayFold := seq(|l.items|, k requires 0 <= k < |l.items| => MayFold(l.items[k]));
    }

    /** One step of the map: the next action is realised after the earlier ones. */
    method RealizeNext(l: ActionList, i: nat, fold: bool, autoFollow: bool, ghost s0: View) returns (element: Intent)
      requires l.Present? && i < |l.items|
      requires State() == s0.(flow := ApplyEffects(s0.flow, Flatten(EffectLists(l.items[..i], autoFollow, s0.config))))
      modifies this
      ensures element == RealizeAction(l.items[i], fold, autoFollow, s0.config)
      ensures State() == s0.(flow := ApplyEffects(s0.flow, Flatten(EffectLists(l.items[..i + 1], autoFollow, s0.config))))
      decreases l, 0
    {
      element := Realize(l.items[i], fold, autoFollow);
      EffectsSnoc(s0.flow, l.items, i, autoFollow, s0.config);
    }

    /** The `forEach` of `generateActions`: wrap each element that may fold
        when folding is on. */
    method WrapAll(actions: seq<Action>, elements: seq<Intent>, mayFold: seq<bool>, fold: bool)
      returns (components: seq<Intent>)
      requires |elements| == |actions| && |mayFold| == |actions|
      requires forall k :: 0 <= k < |actions| ==> mayFold[k] == MayFold(actions[k])
      ensures |components| == |actions|
      ensures forall k :: 0 <= k < |actions| ==>
        components[k] == (if fold && MayFold(actions[k]) then Foldable(TitleOf(actions[k]), elements[k]) else elements[k])
    {
      components := [];
      var j := 0;
      while j < |actions|
        invariant 0 <= j <= |actions|
        invariant |components| == j
        invariant forall k :: 0 <= k < j ==>
          components[k] == (if fold && MayFold(actions[k]) then Foldable(TitleOf(actions[k]), elements[k]) else elements[k])
      {
        if fold && mayFold[j] {
          components := components + [Foldable(TitleOf(actions[j]), elements[j])];
        } else {
          components := components + [elements[j]];
        }
        j := j + 1;
      }
    }

    /** `generatePage`. */
    method GeneratePage(step: Step, autoFollow: bool) returns (components: seq<Intent>)
      modifies this
      ensures components == PageIntents(step, autoFollow, old(Config()))
      ensures State() == old(State()).(flow := ApplyEffects(old(CurrentFlow()), PageEffects(step, autoFollow, old(Config()))))
    {
      var block: seq<Intent>;
      var t := step.stepType;
      if t == AuthenticationStep || t == RegistrationStep || t == RedirectionStep
         || t == UserConsentStep || t == ConsentorStep {
        block := GenerateActions(step.actions, autoFollow);
      } else if t == AuthorizationResponse {
        block := [CallbackResult(step)];
      } else if t == PollingStep {
        var actions := GenerateActions(step.actions, autoFollow);
        var status := PollingStatusOf(step);
        block := actions + [PollingStatus(status, PollingAlert(status))];
      } else if t == MissingType {
        block := [ErrorMessage(MissingTypeText)];
      } else {
        block := [ErrorMessage("Cannot render type " + StepTypeName(t))];
      }
      components := MessageIntents(step) + block + LinkIntents(step);
    }

    /** `showGeneratedPage` with a list of components. */
    method ShowGeneratedPage(components: seq<Intent>, status: int)
      modifies this
      ensures State() == old(State()).(display := Page(components, status))
    {
      display := Page(components, status);
    }

    /** `savePage`. */
    method SavePage(s: Snapshot)
      modifies this
      ensures State() == Saved(old(State()), s)
    {
      current := Some(s);
      history := history + [s];
    }

    /** `refreshCurrentPage`. */
    method RefreshCurrentPage()
      requires Valid()
      modifies this
      ensures Valid()
      ensures State() == Refreshed(old(State()))
    {
      RefreshedValid(State());
      if current.Some? {
        var c := current.value;
        var page := GeneratePage(c.model, false);
        ShowGeneratedPage(page, c.status);
      }
    }

    /** `tryRestorePageFromHistory`: the browser pops a state that this or an
        earlier instance of the client pushed (every such state is a saved,
        settled snapshot), or none for the initial page. */
    method TryRestorePageFromHistory(state: Option<Snapshot>)
      requires Valid()
      requires state.Some? ==> Settled(state.value)
      modifies this
      ensures Valid()
      ensures State() == Restored(old(State()), state)
    {
      RestoredValid(State(), state);
      if state.Some? {
        current := state;
        RefreshCurrentPage();
      } else {
        log := log + [Reloaded];
      }
    }

    /** `continueToNestedActions`. */
    method ContinueToNestedActions(a: Option<Action>, autoFollow: bool) returns (ok: bool)
      modifies this
      ensures Attempt(State(), ok) == Continued(old(State()), a, autoFollow)
    {
      var next := if a.Some? then Items(a.value.model.continueActions) else [];
      if |next| > 0 {
        if current.None? {
          return false;
        }
        var c := current.value;
        var newModel := c.model.(actions := Present(next));
        var page := GeneratePage(newModel, autoFollow);
        ShowGeneratedPage(page, c.status);
        SavePage(Snapshot(newModel, c.text, c.status));
        ok := true;
      } else {
        ShowGeneratedPage([ErrorMessage(NoActionsText)], -1);
        ok := true;
      }
    }

    /** The launch button of a `bankid` operation. */
    method ClickLaunchUrl(href: string, a: Action, autoFollow: bool)
      requires Valid()
      modifies this
      ensures Valid()
      ensures State() == LaunchUrlClicked(old(State()), href, a, autoFollow)
    {
      ClicksValid(State(), a, false, href, autoFollow, Link("", "", "", ""), NetworkError, false);
      log := log + [OpenedInPlace(href)];
      var ok := ContinueToNestedActions(Some(a), autoFollow);
    }

    // -------------------------------------------------------------------------
    // Requests
    // -------------------------------------------------------------------------

    /** `showProblem`: an invalid-input problem goes to the handler when there
        is one; any other problem is shown. */
    method ShowProblem(p: Problem, status: int, handler: Option<FormView>) returns (ok: bool)
      requires handler.Some? ==> handler.value.Valid()
      modifies this, if handler.Some? then {handler.value} else {}
      ensures RoutesToHandler(p, handler.Some?) ==>
        && State() == old(State())
        && ok == p.invalidFields.Some?
        && handler.value.Valid()
        && handler.value.errors == HandlerErrors(handler.value.fields, p.invalidFields)
      ensures !RoutesToHandler(p, handler.Some?) ==>
        && ok
        && State() == old(State()).(display := Page(ProblemIntents(p), status))
        && (handler.Some? ==> unchanged(handler.value))
    {
      if p.problemType == InvalidInputType && handler.Some? {
        ok := handler.value.OnInvalidInput(p.invalidFields);
        return;
      }
      var components := ProblemComponents(p);
      ShowGeneratedPage(components, status);
      ok := true;
    }

    /** The components of a problem page: the title, then each message. */
    static method ProblemComponents(p: Problem) returns (components: seq<Intent>)
      ensures components == ProblemIntents(p)
    {
      components := [ErrorMessage(if p.title != "" then p.title else p.problemType)];
      var i := 0;
      while i < |p.messages|
        invariant 0 <= i <= |p.messages|
        invariant |components| == i + 1
        invariant components[0] == ErrorMessage(if p.title != "" then p.title else p.problemType)
        invariant forall k :: 0 <= k < i ==> components[k + 1] == ErrorMessage(p.messages[k].text)
      {
        components := components + [ErrorMessage(p.messages[i].text)];
        i := i + 1;
      }
    }

    /** `apiRequest`: the fetch result is what the server and the network gave. */
    method ApiRequest(link: string, httpMethod: string, data: Option<seq<Pair>>,
                      src: Option<RequestSource>, answer: Fetched)
      requires Valid()
      requires HandlerOf(src).Some? ==> HandlerOf(src).value.Valid()
      modifies this, HandlerFrame(src)
      ensures Valid()
      ensures State() == ApiRequested(old(State()), link, httpMethod, data, SourceOf(src), answer)
      ensures HandlerOf(src).Some? && RoutedProblem(SourceOf(src), answer) ==>
        var h := HandlerOf(src).value;
        h.Valid() && h.errors == HandlerErrors(h.fields, Classify(answer).problem.invalidFields)
      ensures HandlerOf(src).Some? && !RoutedProblem(SourceOf(src), answer) ==> unchanged(HandlerOf(src).value)
    {
      RespondedValid(Requested(State(), RequestFor(link, httpMethod, data)), SourceOf(src), answer);
      var r := PrepareRequest(link, httpMethod, data);
      log := log + [Fetch(r)];
      HandleResponse(src, answer);
    }

    /** The reaction of `apiRequest` once the request is sent. */
    method HandleResponse(src: Option<RequestSource>, answer: Fetched)
      requires HandlerOf(src).Some? ==> HandlerOf(src).value.Valid()
      modifies this, HandlerFrame(src)
      ensures State() == Responded(old(State()), SourceOf(src), answer)
      ensures HandlerOf(src).Some? && RoutedProblem(SourceOf(src), answer) ==>
        var h := HandlerOf(src).value;
        h.Valid() && h.errors == HandlerErrors(h.fields, Classify(answer).problem.invalidFields)
      ensures HandlerOf(src).Some? && !RoutedProblem(SourceOf(src), answer) ==> unchanged(HandlerOf(src).value)
    {
      match answer
      case NetworkError =>
        ShowGeneratedPage([ErrorMessage(InvalidResponseText)], 0);
      case Received(response) =>
        var status := response.status;
        if status == 204 || status < 200 || (300 <= status && status < 400) {
          ShowGeneratedPage([ErrorMessage(NothingToDisplayText)], status);
          return;
        }
        match response.body
        case Unparsable =>
          ShowGeneratedPage([ErrorMessage(InvalidResponseText)], 0);
        case Json(json, problem) =>
          if response.contentType == ProblemContentType {
            var ok := ShowProblem(problem, status, HandlerOf(src));
            if !ok {
              ShowGeneratedPage([ErrorMessage(InvalidResponseText)], 0);
            }
          } else {
            HandleStep(src, json, response.text, status);
          }
    }

    /** A parsed step that is not a problem: continue on the same step, or
        render and save it. */
    method HandleStep(src: Option<RequestSource>, json: Step, text: string, status: int)
      modifies this
      ensures json.stepType == ContinueSameStep ==>
        var run := Continued(old(State()), if src.Some? then Some(src.value.action) else None, true);
        State() == if run.ok then run.view else run.view.(display := InvalidResponsePage())
      ensures json.stepType != ContinueSameStep ==>
        State() == Saved(Render(old(State()), json, true, status), Snapshot(json, text, status))
    {
      if json.stepType == ContinueSameStep {
        var ok := ContinueToNestedActions(if src.Some? then Some(src.value.action) else None, true);
        if !ok {
          ShowGeneratedPage([ErrorMessage(InvalidResponseText)], 0);
        }
      } else {
        var page := GeneratePage(json, true);
        ShowGeneratedPage(page, status);
        SavePage(Snapshot(json, text, status));
      }
    }

    /** `apiRequestForFormAction`: send the form's fields to its href. */
    method SubmitForm(a: Action, handler: Option<FormView>, answer: Fetched)
      requires Valid()
      requires handler.Some? ==> handler.value.Valid()
      requires handler.Some? ==> handler.value.fields == a.model.fields.GetOr([])
      modifies this, if handler.Some? then {handler.value} else {}
      ensures Valid()
      ensures State() == Submitted(old(State()), a, handler.Some?, answer)
      ensures handler.Some? && RoutedProblem(Some(Source(a, true)), answer) ==>
        handler.value.Valid()
        && handler.value.errors == HandlerErrors(a.model.fields.GetOr([]), Classify(answer).problem.invalidFields)
      ensures handler.Some? && !RoutedProblem(Some(Source(a, true)), answer) ==> unchanged(handler.value)
    {
      var formBody := SerializeForm(a.model.fields.GetOr([]));
      ApiRequest(a.model.href, a.model.httpMethod, Some(formBody), Some(RequestSource(a, handler)), answer);
    }

    /** `authorizeUser` and `goTo`: a plain request for a URL. */
    method GoTo(url: string, answer: Fetched)
      requires Valid()
      modifies this
      ensures Valid()
      ensures State() == ApiRequested(old(State()), url, "", None, None, answer)
    {
      ApiRequest(url, "", None, None, answer);
    }

    /** A link button. */
    method ClickLink(l: Link, answer: Fetched)
      requires Valid()
      modifies this
      ensures Valid()
      ensures State() == LinkClicked(old(State()), l, answer)
    {
      if l.rel == "launch" {
        log := log + [OpenedInNewTab(l.href)];
      } else {
        ApiRequest(l.href, "", None, None, answer);
      }
    }
  }
}
