/**
 * What the views element shows: nothing yet, or a page of intents under a
 * status button. `showGeneratedPage` expects a list of components; the
 * no-actions branch of `continueToNestedActions` hands it a single element
 * instead, which the list walk cannot iterate.
 */
module Screen {
  import opened Interpreter

  datatype Display = Blank | Page(components: seq<Intent>, status: int)

  const NoActionsText := "No actions to follow after launch"

  /** What `showGeneratedPage` is handed: a list of components or one element. */
  datatype Components = ComponentList(items: seq<Intent>) | SingleComponent(item: Intent)

  /** The display after `showGeneratedPage`, and whether it threw. */
  datatype Shown = Shown(display: Display, threw: bool)

  /** The page is cleared and the status button drawn before the components
      are walked; walking a single element throws and appends nothing. */
  function ShowGeneratedPage(c: Components, status: int): (s: Shown)
    ensures s.display.Page? && s.display.status == status
    ensures s.threw <==> c.SingleComponent?
    ensures c.ComponentList? ==> s.display.components == c.items
    ensures c.SingleComponent? ==> s.display.components == []
  {
    match c
    case ComponentList(items) => Shown(Page(items, status), false)
    case SingleComponent(_) => Shown(Page([], status), true)
  }

  /** The no-actions branch as written: one element, not a list. */
  function NoActionsAsWritten(): Shown {
    ShowGeneratedPage(SingleComponent(ErrorMessage(NoActionsText)), -1)
  }

  /** The no-actions page as intended: the message alone, status -1. */
  function NoActionsPage(): (d: Display)
    ensures d == Page([ErrorMessage(NoActionsText)], -1)
  {
    ShowGeneratedPage(ComponentList([ErrorMessage(NoActionsText)]), -1).display
  }

  /** As written, the message never reaches the page and the call throws. */
  lemma NoActionsMessageLost()
    ensures NoActionsAsWritten().threw
    ensures NoActionsAsWritten().display == Page([], -1)
    ensures ErrorMessage(NoActionsText) !in NoActionsAsWritten().display.components
    ensures ErrorMessage(NoActionsText) in NoActionsPage().components
  {
  }
}
