// One notification card (components/NotificationWidget/NotificationWidget.jsx): the message
// with the subject's username substituted for its placeholder, and the read flag a click sets.
module NotificationWidget {
  import opened Strings

  const Placeholder := "%subject_username%"

  /** `message.replaceAll("%subject_username%", subject.username)` */
  function Displayed(message: string, username: string): string
  {
    ReplaceAll(message, Placeholder, username)
  }

  /** Every occurrence is replaced: for a username without "$", the text shown is the
      message cut at each placeholder and glued back together with the username. */
  lemma DisplayedIsSplitJoin(message: string, username: string)
    requires '$' !in username
    ensures Displayed(message, username) == Join(SplitOn(message, Placeholder), username)
  {
    ReplaceAllIsSplitJoin(message, Placeholder, username);
  }

  /** A message without the placeholder is shown as it is. */
  lemma PlainMessageShownAsIs(message: string, username: string)
    requires !Contains(message, Placeholder)
    ensures Displayed(message, username) == message
  {
    ReplaceAllAbsent(message, Placeholder, username);
  }

  /** A message opening with the placeholder opens with the username, when the username
      holds no "$". */
  lemma LeadingPlaceholder(rest: string, username: string)
    requires !Contains(rest, Placeholder) && '$' !in username
    ensures Displayed(Placeholder + rest, username) == username + rest
  {
    ReplaceAllLeading(Placeholder, rest, username);
    ReplaceAllAbsent(rest, Placeholder, username);
  }

  /** A username's "$" patterns are expanded: "$$" shows as one "$", and "$&" as the
      placeholder itself. */
  lemma DollarPatternsInUsername()
    ensures Displayed(Placeholder, "a$$b") == "a$b"
    ensures Displayed(Placeholder, "$&!") == Placeholder + "!"
  {
    var m := Placeholder;
    assert m[..0] == [] && m[|m|..] == [];
    assert ReplaceAllFrom(m, m, "a$$b", |m|) == [];
    assert Substitution("a$$b", m, [], []) == "a$b" by {
      assert "a$$b"[1..][2..] == "b";
      assert Substitution("b", m, [], []) == "b";
    }
    assert Substitution("$&!", m, [], []) == m + "!" by {
      assert "$&!"[2..] == "!";
      assert Substitution("!", m, [], []) == "!";
    }
  }

  /** The card's background: "dark.6" marks an unread card, in the popover and on the page. */
  function Background(isRead: bool, isInPopover: bool): (bg: string)
    ensures bg == "dark.6" <==> !isRead
  {
    if isInPopover then (if isRead then "dark.8" else "dark.6")
    else (if isRead then "dark.7" else "dark.6")
  }

  /** A card and the `read` column of its row in the `notifications` table. */
  class Card {
    const id: string
    const isInPopover: bool
    var isRead: bool
    var storedRead: bool

    /** `useState(read)`: the card starts as the stored flag says. */
    constructor (id: string, read: bool, isInPopover: bool)
      ensures this.id == id && this.isInPopover == isInPopover
      ensures isRead == read && storedRead == read
    {
      this.id := id;
      this.isInPopover := isInPopover;
      isRead := read;
      storedRead := read;
    }

    /** `handleMarkAsRead`: the row is updated to read; the card shows as read whether or not
        the update went through (the error is only logged). */
    method MarkAsRead(updateFails: bool)
      modifies this
      ensures isRead && Background(isRead, isInPopover) != "dark.6"
      ensures storedRead == (old(storedRead) || !updateFails)
    {
      if !updateFails {
        storedRead := true;
      }
      isRead := true;
    }
  }

  /** A failed update leaves the row unread while the card shows it as read. */
  method FailedReadDiverges(id: string) returns (shown: bool, stored: bool)
    ensures shown && !stored
  {
    var card := new Card(id, false, true);
    card.MarkAsRead(true);
    shown, stored := card.isRead, card.storedRead;
  }
}
