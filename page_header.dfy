/**
 * The page header: the greeting name and the notification panel, whose list
 * is marked read, emptied or opened one entry at a time.
 */
module PageHeader {
  import opened Common

  datatype Notification = Notification(id: int, title: string, message: string, time: string, unread: bool)

  /** The badge number: how many entries are unread. */
  function UnreadCount(ns: seq<Notification>): (r: nat)
    ensures r <= |ns|
    ensures r == 0 <==> forall i :: 0 <= i < |ns| ==> !ns[i].unread
  {
    if ns == [] then 0 else (if ns[0].unread then 1 else 0) + UnreadCount(ns[1..])
  }

  /** The list with every entry read and nothing else changed. */
  function MarkAllRead(ns: seq<Notification>): (r: seq<Notification>)
    ensures |r| == |ns|
    ensures forall i :: 0 <= i < |ns| ==> !r[i].unread && r[i] == ns[i].(unread := false)
  {
    seq(|ns|, i requires 0 <= i < |ns| => ns[i].(unread := false))
  }

  /** The list with the entries of one id read and every other entry unchanged. */
  function MarkRead(ns: seq<Notification>, id: int): (r: seq<Notification>)
    ensures |r| == |ns|
    ensures forall i :: 0 <= i < |ns| && ns[i].id != id ==> r[i] == ns[i]
    ensures forall i :: 0 <= i < |ns| && ns[i].id == id ==> r[i] == ns[i].(unread := false)
  {
    seq(|ns|, i requires 0 <= i < |ns| => if ns[i].id == id then ns[i].(unread := false) else ns[i])
  }

  /** How many unread entries carry `id`. */
  function UnreadWithId(ns: seq<Notification>, id: int): nat
  {
    if ns == [] then 0 else (if ns[0].unread && ns[0].id == id then 1 else 0) + UnreadWithId(ns[1..], id)
  }

  /** Opening an entry lowers the badge by exactly the unread entries with its id. */
  lemma {:induction false} OpenLowersBadge(ns: seq<Notification>, id: int)
    ensures UnreadCount(MarkRead(ns, id)) == UnreadCount(ns) - UnreadWithId(ns, id)
  {
    if ns != [] {
      OpenLowersBadge(ns[1..], id);
      assert MarkRead(ns, id)[1..] == MarkRead(ns[1..], id);
    }
  }

  /** The text of `s` before its first '@' (all of it when there is none). */
  function BeforeAt(s: string): (r: string)
    ensures |r| <= |s| && r == s[..|r|]
    ensures '@' !in r
    ensures |r| < |s| ==> s[|r|] == '@'
  {
    if s == [] || s[0] == '@' then [] else [s[0]] + BeforeAt(s[1..])
  }

  /** The greeting name: the account's full name, else the email's local part, else the current name. */
  function DisplayName(fullName: Option<string>, email: Option<string>, current: string): string
  {
    if Truthy(fullName) then fullName.value
    else if email.Some? && BeforeAt(email.value) != "" then BeforeAt(email.value)
    else current
  }

  /** The greeting is never empty, and without a full name it never shows an '@'. */
  lemma DisplayNameIsClean(fullName: Option<string>, email: Option<string>, current: string)
    requires current != "" && '@' !in current
    ensures DisplayName(fullName, email, current) != ""
    ensures !Truthy(fullName) ==> '@' !in DisplayName(fullName, email, current)
  {
  }

  class Header {
    var open: bool
    var selected: Option<Notification>
    var fullName: string
    var notifications: seq<Notification>

    /** A mounted header with the given list, greeting "there". */
    constructor (seeded: seq<Notification>)
      ensures !open && selected == None && fullName == "there" && notifications == seeded
    {
      open, selected, fullName, notifications := false, None, "there", seeded;
    }

    method LoadUser(metaFullName: Option<string>, email: Option<string>)
      modifies this`fullName
      ensures fullName == DisplayName(metaFullName, email, old(fullName))
    {
      fullName := DisplayName(metaFullName, email, fullName);
    }

    method MarkAll()
      modifies this`notifications
      ensures notifications == MarkAllRead(old(notifications))
      ensures UnreadCount(notifications) == 0
    {
      notifications := MarkAllRead(notifications);
    }

    method DeleteAll()
      modifies this`notifications, this`open
      ensures notifications == [] && !open
    {
      notifications := [];
      open := false;
    }

    method OpenNotification(n: Notification)
      modifies this`notifications, this`selected
      ensures notifications == MarkRead(old(notifications), n.id)
      ensures selected == Some(n)
      ensures UnreadCount(notifications) == UnreadCount(old(notifications)) - UnreadWithId(old(notifications), n.id)
    {
      OpenLowersBadge(notifications, n.id);
      notifications := MarkRead(notifications, n.id);
      selected := Some(n);
    }

    /** The keydown listener: Escape closes the panel and the open entry; other keys do nothing. */
    method OnKeyDown(key: string)
      modifies this`open, this`selected
      ensures key == "Escape" ==> !open && selected == None
      ensures key != "Escape" ==> open == old(open) && selected == old(selected)
    {
      if key == "Escape" {
        open := false;
        selected := None;
      }
    }

    method TogglePanel()
      modifies this`open
      ensures open == !old(open)
    {
      open := !open;
    }
  }
}
