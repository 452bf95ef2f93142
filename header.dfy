/**
 * The header's notification list and avatar initials (`Header.tsx`): the
 * unread badge, "mark all as read", "mark as read" and "clear read", and the
 * initials drawn from the user's name.
 */
module Header {
  import opened Types
  import opened Seqs
  import opened Text

  /** The notification is still unread. */
  function UnreadTest(): Notification -> bool
  {
    (n: Notification) => !n.read
  }

  /** `unreadCount`: how many notifications are unread. */
  function UnreadCount(ns: seq<Notification>): (r: nat)
    ensures r <= |ns|
  {
    Count(ns, UnreadTest())
  }

  /** The badge shows zero exactly when every notification is read. */
  lemma NoUnreadIffAllRead(ns: seq<Notification>)
    ensures UnreadCount(ns) == 0 <==> forall i :: 0 <= i < |ns| ==> ns[i].read
  {
    FilterMembers(ns, UnreadTest());
    if forall i :: 0 <= i < |ns| ==> ns[i].read {
      FilterNone(ns, UnreadTest());
    }
  }

  /** The list after "mark all as read": every notification, now read. */
  function AllRead(ns: seq<Notification>): (r: seq<Notification>)
    ensures |r| == |ns|
    ensures forall i :: 0 <= i < |ns| ==> r[i].read && r[i] == ns[i].(read := true)
  {
    Map(ns, (n: Notification) => n.(read := true))
  }

  /** The list after "mark as read" on `id`: the notifications with that id read, the others as they were. */
  function MarkedRead(ns: seq<Notification>, id: int): (r: seq<Notification>)
    ensures |r| == |ns|
    ensures forall i :: 0 <= i < |ns| && ns[i].id == id ==> r[i] == ns[i].(read := true)
    ensures forall i :: 0 <= i < |ns| && ns[i].id != id ==> r[i] == ns[i]
  {
    Map(ns, (n: Notification) => if n.id == id then n.(read := true) else n)
  }

  /** The list after "clear read": the unread notifications, in order. */
  function Cleared(ns: seq<Notification>): (r: seq<Notification>)
    ensures forall i :: 0 <= i < |r| ==> !r[i].read
  {
    Filter(ns, UnreadTest())
  }

  /** After "mark all as read" nothing is unread. */
  lemma MarkAllLeavesNoneUnread(ns: seq<Notification>)
    ensures UnreadCount(AllRead(ns)) == 0
  {
    NoUnreadIffAllRead(AllRead(ns));
  }

  /** Marking the same notification twice is marking it once. */
  lemma MarkAsReadIdempotent(ns: seq<Notification>, id: int)
    ensures MarkedRead(MarkedRead(ns, id), id) == MarkedRead(ns, id)
  {
  }

  /** "Clear read" keeps exactly the unread notifications, in order, so the badge does not change. */
  lemma ClearReadKeepsUnread(ns: seq<Notification>)
    ensures UnreadCount(Cleared(ns)) == UnreadCount(ns)
    ensures IsSubsequence(Cleared(ns), ns)
    ensures forall i :: 0 <= i < |ns| && !ns[i].read ==> ns[i] in Cleared(ns)
  {
    FilterAll(Cleared(ns), UnreadTest());
    FilterIsSubsequence(ns, UnreadTest());
    FilterMembers(ns, UnreadTest());
  }

  /** The four notifications the header starts with, two of them unread. */
  const SEED_NOTIFICATIONS: seq<Notification> := [
    Notification(1, "comment", false, "Aram Miquel ha comentado tu post.", "hace 5 min"),
    Notification(2, "like", false, "A 15 personas más les ha gustado tu post sobre IA.", "hace 2 horas"),
    Notification(3, "system", true, "¡Bienvenido a Kolink! Completa tu perfil para empezar.", "hace 1 día"),
    Notification(4, "like", true, "Tu post ha superado las 100 recomendaciones.", "hace 2 días")
  ]

  lemma SeedHasTwoUnread()
    ensures UnreadCount(SEED_NOTIFICATIONS) == 2
  {
    var ns := SEED_NOTIFICATIONS;
    assert ns[1..][1..][1..][1..] == [];
    assert Cleared(ns) == [ns[0], ns[1]];
  }

  /** The header's notification state. */
  class NotificationCenter {
    var notifications: seq<Notification>

    constructor()
      ensures notifications == SEED_NOTIFICATIONS
    {
      notifications := SEED_NOTIFICATIONS;
    }

    method MarkAllAsRead()
      modifies this
      ensures notifications == AllRead(old(notifications))
    {
      notifications := AllRead(notifications);
    }

    method MarkAsRead(id: int)
      modifies this
      ensures notifications == MarkedRead(old(notifications), id)
    {
      notifications := MarkedRead(notifications, id);
    }

    method ClearRead()
      modifies this
      ensures notifications == Cleared(old(notifications))
    {
      notifications := Cleared(notifications);
    }
  }

  /** A part's first letter; an empty part gives none. */
  function FirstLetter(part: string): (r: string)
    ensures part == "" ==> r == ""
    ensures part != "" ==> r == [part[0]]
  {
    if part == "" then "" else part[..1]
  }

  /**
   * `getInitials`: `''` for an empty name; otherwise the first letters of the
   * first two space-separated parts, upper-cased.
   */
  function Initials(name: string): (r: string)
    ensures name == "" ==> r == ""
    ensures |r| <= 2
  {
    if name == "" then ""
    else
      var parts := Split(name, ' ');
      var firsts := Map(parts, FirstLetter)[..if |parts| < 2 then |parts| else 2];
      JoinedLettersLength(firsts);
      Upper(Join(firsts, ""))
  }

  /** Joining letters, each at most one character, gives at most one character per letter. */
  lemma {:induction false} JoinedLettersLength(letters: seq<string>)
    requires forall i :: 0 <= i < |letters| ==> |letters[i]| <= 1
    ensures |Join(letters, "")| <= |letters|
    decreases |letters|
  {
    if |letters| > 1 {
      JoinedLettersLength(letters[1..]);
    }
  }

  /** What the initials are made of, once the first letters are known. */
  lemma InitialsOfLetters(name: string, letters: seq<string>)
    requires name != ""
    requires var parts := Split(name, ' ');
      letters == Map(parts, FirstLetter)[..if |parts| < 2 then |parts| else 2]
    ensures Initials(name) == Upper(Join(letters, ""))
  {
  }

  /** A one-word name gives its first letter. */
  lemma OneWordInitial(w: string)
    requires w != "" && ' ' !in w
    ensures Initials(w) == [UpperChar(w[0])]
  {
    SplitWithout(w, ' ');
    var letters := [[w[0]]];
    InitialsOfLetters(w, letters);
  }

  /** The first part of a string that does not open with the separator starts with its first character. */
  lemma FirstPartStart(s: string, c: char)
    requires s != "" && s[0] != c
    ensures Split(s, c)[0] != "" && Split(s, c)[0][0] == s[0]
  {
  }

  /** A name of two or more words gives the first letters of the first two; the rest is ignored. */
  lemma TwoWordInitials(first: string, rest: string)
    requires first != "" && ' ' !in first
    requires rest != "" && rest[0] != ' '
    ensures Initials(first + " " + rest) == [UpperChar(first[0]), UpperChar(rest[0])]
  {
    var name := first + " " + rest;
    SplitAfterWord(first, ' ', rest);
    assert name == first + [' '] + rest;
    FirstPartStart(rest, ' ');
    var parts := Split(name, ' ');
    assert parts[0] == first && parts[1] == Split(rest, ' ')[0];
    var letters := [[first[0]], [rest[0]]];
    assert Map(parts, FirstLetter)[..2] == letters;
    InitialsOfLetters(name, letters);
    assert Join(letters, "") == [first[0], rest[0]];
  }

  /** An empty part, as before a leading space, contributes no letter. */
  lemma EmptyPartSkipped(rest: string)
    requires rest != "" && rest[0] != ' '
    ensures Initials(" " + rest) == [UpperChar(rest[0])]
  {
    var name := " " + rest;
    SplitAfterWord("", ' ', rest);
    assert name == "" + [' '] + rest;
    FirstPartStart(rest, ' ');
    var parts := Split(name, ' ');
    assert parts[0] == "" && parts[1] == Split(rest, ' ')[0];
    var letters := ["", [rest[0]]];
    assert Map(parts, FirstLetter)[..2] == letters;
    InitialsOfLetters(name, letters);
    assert Join(letters, "") == [rest[0]];
  }
}
