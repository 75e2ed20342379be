/**
 * The state of the external browser flow and the browser around it.
 *
 * The session holds one resume slot (the action to resume once the other window
 * posts back a nonce) and the window it tracks. The browser is part of the
 * model: which windows are open, the next window identity it hands out, and
 * whether it blocks pop-ups (then `window.open` returns null). Outward actions
 * that the model does not follow further (requests sent, windows opened,
 * alerts, timers, reloads) are appended to a log.
 */
module Flow {
  import opened Wrappers
  import opened Haapi
  import opened Interpreter
  import opened Requests

  /** The tracked window: never set (undefined), null, or a window. */
  datatype WindowRef = Unset | NullRef | Ref(id: nat)

  /** The source of a posted message: a window, or null. */
  datatype Sender = NullSender | WindowSender(id: nat)

  /** The data of a posted message. */
  datatype MessageData = StringData(text: string) | OtherData

  datatype Browser = Browser(open: set<nat>, nextId: nat, popupsBlocked: bool)

  /** What the resume closure captures: the flow action and the auto-follow
      argument it was rendered with. */
  datatype ResumeAction = ResumeAction(action: Action, autoFollow: bool)

  /** Outward actions, in the order they happen. */
  datatype Effect =
    | Fetch(request: Request)
    | WindowOpened(id: nat, url: string)
    | WindowNavigated(id: nat, url: string)
    | PopupBlockedAlert
    | CloseScheduled(window: WindowRef)
    | SubmitScheduled(action: Action)
    | OpenedInPlace(url: string)
    | OpenedInNewTab(url: string)
    | Reloaded

  datatype FlowState = FlowState(
    origin: string,
    resume: Option<ResumeAction>,
    tracked: WindowRef,
    browser: Browser,
    log: seq<Effect>)

  /** Window identities are handed out once. */
  predicate FlowValid(f: FlowState) {
    && (forall id :: id in f.browser.open ==> id < f.browser.nextId)
    && (f.tracked.Ref? ==> f.tracked.id < f.browser.nextId)
  }

  /** The URL the external flow opens. The parameter is always appended with
      `&`; the origin is taken as already encoded. */
  function ExternalLaunchUrl(a: Action, origin: string): (u: string)
    ensures |u| == |a.model.argumentsHref| + |ForOriginParam| + |origin|
    ensures u[..|a.model.argumentsHref|] == a.model.argumentsHref
    ensures u[|a.model.argumentsHref|..|u| - |origin|] == ForOriginParam
    ensures u[|u| - |origin|..] == origin
  {
    a.model.argumentsHref + ForOriginParam + origin
  }

  const ForOriginParam := "&for_origin="


  predicate TrackedIsOpen(f: FlowState) {
    f.tracked.Ref? && f.tracked.id in f.browser.open
  }

  /** `launchExternalWindow`: navigate the tracked window while it is open,
      otherwise open a new one; a blocked pop-up leaves null and an alert. */
  function OpenOrReuse(f: FlowState, url: string): (g: FlowState)
    ensures TrackedIsOpen(f) ==> g.tracked == f.tracked && g.browser == f.browser
    ensures TrackedIsOpen(f) ==> g.log == f.log + [WindowNavigated(f.tracked.id, url)]
    ensures !TrackedIsOpen(f) && f.browser.popupsBlocked ==>
      g.browser == f.browser && g.log == f.log + [PopupBlockedAlert]
    ensures !TrackedIsOpen(f) && !f.browser.popupsBlocked ==>
      && g.tracked.Ref?
      && g.browser.open == f.browser.open + {g.tracked.id}
      && g.log == f.log + [WindowOpened(g.tracked.id, url)]
    ensures g.tracked.Ref? ==> g.tracked.id in g.browser.open
    ensures g.tracked.NullRef? <==> !TrackedIsOpen(f) && f.browser.popupsBlocked
    ensures g.browser.open == f.browser.open || (g.tracked.Ref? && g.browser.open == f.browser.open + {g.tracked.id})
    ensures FlowValid(f) ==> FlowValid(g) && (g.tracked.Ref? && !TrackedIsOpen(f) ==> g.tracked.id !in f.browser.open)
    ensures g.resume == f.resume && g.origin == f.origin && g.browser.popupsBlocked == f.browser.popupsBlocked
    ensures |g.log| == |f.log| + 1 && g.log[..|f.log|] == f.log
  {
    if TrackedIsOpen(f) then
      f.(log := f.log + [WindowNavigated(f.tracked.id, url)])
    else if f.browser.popupsBlocked then
      f.(tracked := NullRef, log := f.log + [PopupBlockedAlert])
    else
      var id := f.browser.nextId;
      f.(tracked := Ref(id),
         browser := f.browser.(open := f.browser.open + {id}, nextId := id + 1),
         log := f.log + [WindowOpened(id, url)])
  }

  /** One rendering effect applied to the flow state. Arming comes first, then
      the window is opened when the caller auto-follows. */
  function ApplyEffect(f: FlowState, e: RenderEffect): (g: FlowState)
    ensures g.origin == f.origin && g.browser.popupsBlocked == f.browser.popupsBlocked
    ensures e.ArmResume? ==> g.resume == Some(ResumeAction(e.action, e.autoFollow))
    ensures e.ArmResume? && !e.autoFollow ==>
      g.tracked == f.tracked && g.browser == f.browser && g.log == f.log
    ensures e.ArmResume? && e.autoFollow ==>
      var url := ExternalLaunchUrl(e.action, f.origin);
      && |g.log| == |f.log| + 1 && g.log[..|f.log|] == f.log
      && (g.log[|f.log|] == PopupBlockedAlert
          || (g.tracked.Ref? && g.log[|f.log|] in {WindowNavigated(g.tracked.id, url), WindowOpened(g.tracked.id, url)}))
    ensures e.AutoSubmit? ==> g == f.(log := f.log + [SubmitScheduled(e.action)])
  {
    match e
    case ArmResume(a, autoFollow) =>
      var armed := f.(resume := Some(ResumeAction(a, autoFollow)));
      if autoFollow then OpenOrReuse(armed, ExternalLaunchUrl(a, f.origin)) else armed
    case AutoSubmit(a) => f.(log := f.log + [SubmitScheduled(a)])
  }

  function ApplyEffects(f: FlowState, es: seq<RenderEffect>): FlowState
    decreases es
  {
    if es == [] then f else ApplyEffects(ApplyEffect(f, es[0]), es[1..])
  }

  lemma {:induction false} ApplyEffectsAppend(f: FlowState, a: seq<RenderEffect>, b: seq<RenderEffect>)
    ensures ApplyEffects(f, a + b) == ApplyEffects(ApplyEffects(f, a), b)
    decreases a
  {
    if a == [] {
      assert a + b == b;
    } else {
      assert (a + b)[0] == a[0];
      assert (a + b)[1..] == a[1..] + b;
      ApplyEffectsAppend(ApplyEffect(f, a[0]), a[1..], b);
    }
  }

  /** Effects only ever append to the log. */
  lemma {:induction false} ApplyEffectsExtends(f: FlowState, es: seq<RenderEffect>)
    ensures var g := ApplyEffects(f, es); |f.log| <= |g.log| && g.log[..|f.log|] == f.log
    decreases es
  {
    if es != [] {
      var f1 := ApplyEffect(f, es[0]);
      ApplyEffectsExtends(f1, es[1..]);
      var g := ApplyEffects(f, es);
      assert g.log[..|f1.log|] == f1.log;
      assert g.log[..|f.log|] == g.log[..|f1.log|][..|f.log|];
    }
  }

  /** Realising one more action applies its effects after the earlier ones. */
  lemma EffectsSnoc(f: FlowState, items: seq<Action>, i: nat, autoFollow: bool, cfg: ViewConfig)
    requires i < |items|
    ensures ApplyEffects(f, Flatten(EffectLists(items[..i + 1], autoFollow, cfg)))
         == ApplyEffects(ApplyEffects(f, Flatten(EffectLists(items[..i], autoFollow, cfg))),
                         RealizeEffects(items[i], autoFollow, cfg))
  {
    var before := EffectLists(items[..i], autoFollow, cfg);
    var last := RealizeEffects(items[i], autoFollow, cfg);
    assert EffectLists(items[..i + 1], autoFollow, cfg) == before + [last];
    FlattenSnoc(before, last);
    ApplyEffectsAppend(f, Flatten(before), last);
  }

  /** The last arming among some effects. */
  function LastArm(es: seq<RenderEffect>): Option<ResumeAction> {
    if es == [] then None
    else
      var e := es[|es| - 1];
      if e.ArmResume? then Some(ResumeAction(e.action, e.autoFollow)) else LastArm(es[..|es| - 1])
  }

  /** Arming always overwrites: after rendering, the slot holds the last armed
      action, or what it held before when nothing was armed. */
  lemma {:induction false} LastArmWins(f: FlowState, es: seq<RenderEffect>)
    ensures ApplyEffects(f, es).resume == if LastArm(es).Some? then LastArm(es) else f.resume
  {
    if es != [] {
      var n := |es| - 1;
      assert es == es[..n] + [es[n]];
      ApplyEffectsAppend(f, es[..n], [es[n]]);
      LastArmWins(f, es[..n]);
    }
  }

  /** Rendering keeps the flow state valid, never sends a request, never closes
      a window and keeps the session's origin and the browser's pop-up policy. */
  lemma {:induction false} RenderEffectsSafe(f: FlowState, es: seq<RenderEffect>)
    requires FlowValid(f)
    ensures var g := ApplyEffects(f, es);
      && FlowValid(g)
      && g.origin == f.origin
      && g.browser.popupsBlocked == f.browser.popupsBlocked
      && f.browser.open <= g.browser.open
      && |f.log| <= |g.log| && g.log[..|f.log|] == f.log
      && forall k :: |f.log| <= k < |g.log| ==> !g.log[k].Fetch?
    decreases es
  {
    if es != [] {
      var f1 := ApplyEffect(f, es[0]);
      RenderEffectsSafe(f1, es[1..]);
      var g := ApplyEffects(f, es);
      assert g.log[..|f1.log|] == f1.log;
      assert f1.log[..|f.log|] == f.log;
      forall k | |f.log| <= k < |g.log|
        ensures !g.log[k].Fetch?
      {
        if k < |f1.log| {
          assert g.log[k] == f1.log[k];
        }
      }
    }
  }

  /** A window is opened or navigated only by an auto-followed arming: without
      one, rendering keeps the browser and the tracked window and logs nothing
      but the redirect submissions it schedules. */
  lemma {:induction false} WindowsNeedAutoFollow(f: FlowState, es: seq<RenderEffect>)
    requires forall e :: e in es && e.ArmResume? ==> !e.autoFollow
    ensures ApplyEffects(f, es).tracked == f.tracked
    ensures ApplyEffects(f, es).browser == f.browser
    ensures var g := ApplyEffects(f, es);
      && |f.log| <= |g.log| && g.log[..|f.log|] == f.log
      && forall k :: |f.log| <= k < |g.log| ==>
           g.log[k].SubmitScheduled? && AutoSubmit(g.log[k].action) in es
    ensures (forall e :: e in es ==> e.ArmResume?) ==> ApplyEffects(f, es).log == f.log
    decreases es
  {
    if es != [] {
      assert es[0] in es;
      assert forall e :: e in es[1..] ==> e in es;
      var f1 := ApplyEffect(f, es[0]);
      WindowsNeedAutoFollow(f1, es[1..]);
      var g := ApplyEffects(f, es);
      assert g.log[..|f1.log|] == f1.log;
      assert f1.log == f.log || (es[0].AutoSubmit? && f1.log == f.log + [SubmitScheduled(es[0].action)]);
      forall k | |f.log| <= k < |g.log|
        ensures g.log[k].SubmitScheduled? && AutoSubmit(g.log[k].action) in es
      {
        if k < |f1.log| {
          assert g.log[k] == f1.log[k];
        }
      }
    }
  }

  /** `event.source === externalWindow`. A window never tracked (undefined)
      matches no sender; a null tracked window matches a null sender. */
  predicate SameSource(s: Sender, t: WindowRef) {
    (s.NullSender? && t.NullRef?) || (s.WindowSender? && t == Ref(s.id))
  }

  /** Whether a message runs the armed resume action. */
  predicate Accepts(f: FlowState, s: Sender, d: MessageData) {
    SameSource(s, f.tracked) && d.StringData? && f.resume.Some?
  }

  /** After a resume: the slot is emptied, the tracked window forgotten and
      closed two seconds later. */
  function Disarmed(f: FlowState): (g: FlowState)
    ensures g.resume.None? && g.tracked == NullRef
    ensures g.log == f.log + [CloseScheduled(f.tracked)]
    ensures g.browser == f.browser && g.origin == f.origin
  {
    f.(resume := None, tracked := NullRef, log := f.log + [CloseScheduled(f.tracked)])
  }

  /** Before any launch no message is accepted; after a blocked pop-up a
      message without a source is. */
  lemma SourceMatching(f: FlowState, s: Sender, d: MessageData)
    ensures f.tracked.Unset? ==> !Accepts(f, s, d)
    ensures f.tracked.NullRef? && f.resume.Some? && d.StringData? ==> (Accepts(f, s, d) <==> s.NullSender?)
    ensures f.tracked.Ref? && f.resume.Some? && d.StringData? ==>
      (Accepts(f, s, d) <==> s == WindowSender(f.tracked.id))
    ensures d.OtherData? ==> !Accepts(f, s, d)
  {
  }

  /** The user or the timer closes a window. */
  function WindowClosed(f: FlowState, id: nat): (g: FlowState)
    ensures id !in g.browser.open && g.browser.open == f.browser.open - {id}
    ensures FlowValid(f) ==> FlowValid(g)
  {
    f.(browser := f.browser.(open := f.browser.open - {id}))
  }
}
