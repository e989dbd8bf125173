/**
 * popup/scripts/starter.js: the background script. It registers one handler on the four
 * bookmark events and switches those registrations on and off on request of the extension's
 * own pages.
 */
module Starter {
  import opened Wrappers

  /** The id `sender.id` must have for a message to be obeyed. */
  const ExtensionId: string := "gittyfox@watier.ca"
  const BookmarkEvtType: string := "bookmark"
  const DisableActionId: string := "bookmark_evt_disable"
  const ChangedActionId: string := "bookmark_evt_changed"

  /** The browser.bookmarks events the handler `bookmarkEvent` is registered on. */
  datatype BookmarkEvent = OnChanged | OnMoved | OnCreated | OnRemoved

  const AllEvents: set<BookmarkEvent> := {OnChanged, OnMoved, OnCreated, OnRemoved}

  /** Every set of events lies within the four events `bookmarkEvent` is registered on. */
  lemma EventsAreAllEvents(s: set<BookmarkEvent>)
    ensures s <= AllEvents
  {
    forall e | e in s
      ensures e in AllEvents
    {
      match e
      case OnChanged =>
      case OnMoved =>
      case OnCreated =>
      case OnRemoved =>
    }
  }

  /** `message.action`; `value` is the JavaScript truthiness of `action.value`. */
  datatype Action = Action(id: string, value: bool)

  /** A runtime message; `evtType` is "" when absent and `action` is `None` when absent. */
  datatype Message = Message(evtType: string, action: Option<Action>)

  /**
   * What the `onMessage` listener does: nothing, switch the listeners off, switch them on, or
   * throw a TypeError reading `id` of a missing `action` (which changes nothing).
   */
  datatype Decision = Ignore | Disable | Enable | Fault

  /** The routing rule of the `onMessage` listener. */
  function Route(senderId: string, m: Message): (d: Decision)
    ensures senderId != ExtensionId ==> d == Ignore
    ensures m.evtType != BookmarkEvtType ==> d == Ignore
    ensures d == Disable <==>
      senderId == ExtensionId && m.evtType == BookmarkEvtType && m.action.Some?
      && m.action.value.id == DisableActionId && m.action.value.value
    ensures d == Enable <==>
      senderId == ExtensionId && m.evtType == BookmarkEvtType && m.action.Some?
      && !(m.action.value.id == DisableActionId && m.action.value.value)
    ensures d == Fault <==> senderId == ExtensionId && m.evtType == BookmarkEvtType && m.action.None?
  {
    if senderId != ExtensionId then Ignore
    else if m.evtType != BookmarkEvtType then Ignore
    else match m.action
      case None => Fault
      case Some(a) => if a.id == DisableActionId && a.value then Disable else Enable
  }

  /** The message `bookmarkEvent` sends on every bookmark change (its `value` is absent). */
  function ChangeNotification(): (m: Message)
    ensures m.evtType == BookmarkEvtType
    ensures m.action == Some(Action(ChangedActionId, false))
  {
    Message(BookmarkEvtType, Some(Action(ChangedActionId, false)))
  }

  /** A change notification coming back from the extension switches the listeners on. */
  lemma ChangeNotificationEnables()
    ensures Route(ExtensionId, ChangeNotification()) == Enable
  {
  }

  /** Only one exact message switches the listeners off; a falsy value switches them on. */
  lemma DisableNeedsTruthyValue(senderId: string, id: string)
    ensures Route(senderId, Message(BookmarkEvtType, Some(Action(id, false)))) != Disable
    ensures senderId == ExtensionId ==> Route(senderId, Message(BookmarkEvtType, Some(Action(id, false)))) == Enable
  {
  }

  /** The registrations of `bookmarkEvent` on the browser's bookmark events. */
  class BookmarkListeners {
    var registered: set<BookmarkEvent>

    /** Listeners are either all registered or none of them. */
    ghost predicate Valid()
      reads this
    {
      registered == {} || registered == AllEvents
    }

    predicate Enabled()
      reads this
    {
      registered == AllEvents
    }

    /** The script's start: `enableBookmarkListeners()` runs once. */
    constructor ()
      ensures Valid() && Enabled()
    {
      registered := {};
      new;
      EnableBookmarkListeners();
    }

    /** `enableBookmarkListeners`: addListener on each of the four events. */
    method EnableBookmarkListeners()
      modifies this
      ensures registered == old(registered) + AllEvents
      ensures Valid() && Enabled()
    {
      registered := registered + {OnChanged};
      registered := registered + {OnMoved};
      registered := registered + {OnCreated};
      registered := registered + {OnRemoved};
      EventsAreAllEvents(old(registered));
    }

    /** `disableBookmarkListeners`: removeListener on the same four events. */
    method DisableBookmarkListeners()
      modifies this
      ensures registered == old(registered) - AllEvents
      ensures Valid() && !Enabled()
    {
      registered := registered - {OnChanged};
      registered := registered - {OnMoved};
      registered := registered - {OnCreated};
      registered := registered - {OnRemoved};
      EventsAreAllEvents(old(registered));
      assert registered == {};
    }

    /** The `onMessage` listener. */
    method OnMessage(senderId: string, m: Message)
      modifies this
      ensures registered ==
        match Route(senderId, m)
        case Disable => {}
        case Enable => AllEvents
        case _ => old(registered)
      ensures old(Valid()) ==> Valid()
    {
      if senderId == ExtensionId {
        if m.evtType == BookmarkEvtType {
          if m.action.None? {
            return;
          }
          var obj := m.action.value;
          if obj.id == DisableActionId && obj.value {
            DisableBookmarkListeners();
          } else {
            EnableBookmarkListeners();
          }
        }
      }
    }
  }
}
