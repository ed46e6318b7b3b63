/** The page header: the user's display name and avatar initials, the unread badge, the two
    dropdowns and signing out. */
module Header {
  import opened Wrappers
  import opened Text
  import opened Helpers
  import Api

  /** The stored user's fields the header reads. */
  datatype User = User(name: Option<string>, firstName: Option<string>, lastName: Option<string>,
                       username: Option<string>, role: Option<string>, email: Option<string>)

  const DemoUser := User(Some("Demo User"), None, None, Some("demo"), Some("INVESTIGATOR"), Some("demo@alertsystem.com"))

  /** `getCurrentUserFromStorage() || demo`. */
  function CurrentUser(stored: Option<User>): User {
    stored.GetOr(DemoUser)
  }

  function OrEmpty(s: Option<string>): string {
    if s.Some? then s.value else ""
  }

  function Truthy(s: Option<string>): bool {
    s.Some? && s.value != ""
  }

  /** `name || "first last".trim() || username || 'User'`. */
  function DisplayName(u: User): (r: string)
    ensures r != ""
    ensures Truthy(u.name) ==> r == u.name.value
    ensures !Truthy(u.name) && Trim(OrEmpty(u.firstName) + " " + OrEmpty(u.lastName)) != "" ==>
      r == Trim(OrEmpty(u.firstName) + " " + OrEmpty(u.lastName))
    ensures !Truthy(u.name) && Trim(OrEmpty(u.firstName) + " " + OrEmpty(u.lastName)) == "" && Truthy(u.username) ==>
      r == u.username.value
    ensures !Truthy(u.name) && Trim(OrEmpty(u.firstName) + " " + OrEmpty(u.lastName)) == "" && !Truthy(u.username) ==>
      r == "User"
  {
    if Truthy(u.name) then u.name.value
    else
      var full := Trim(OrEmpty(u.firstName) + " " + OrEmpty(u.lastName));
      if full != "" then full
      else if Truthy(u.username) then u.username.value
      else "User"
  }

  /** The fallback is reached only when there is no name, the first and last names are
      blank, and there is no username. */
  lemma DisplayNameFallback(u: User)
    ensures DisplayName(u) == "User" <==>
      (Truthy(u.name) && u.name.value == "User") ||
      (!Truthy(u.name) && Trim(OrEmpty(u.firstName) + " " + OrEmpty(u.lastName)) == "User") ||
      (!Truthy(u.name) && AllSpace(OrEmpty(u.firstName) + " " + OrEmpty(u.lastName)) &&
        (!Truthy(u.username) || u.username.value == "User"))
  {
    TrimEmpty(OrEmpty(u.firstName) + " " + OrEmpty(u.lastName));
  }

  /** `s.replace('_', ' ')` with a string pattern: only the first underscore is replaced. */
  function ReplaceFirstUnderscore(s: string): (r: string)
    ensures |r| == |s|
    ensures '_' !in s ==> r == s
    ensures '_' in s ==> r == s[..IndexOf(s, '_')] + " " + s[IndexOf(s, '_') + 1..]
  {
    if '_' in s then s[..IndexOf(s, '_')] + " " + s[IndexOf(s, '_') + 1..] else s
  }

  /** The role line under the name: `(role || 'USER').replace('_', ' ')`. */
  function RoleLabel(u: User): string {
    ReplaceFirstUnderscore(if Truthy(u.role) then u.role.value else "USER")
  }

  /** The demo user shows its role as stored, and no role shows "USER". */
  lemma RoleLabelExamples()
    ensures RoleLabel(DemoUser) == "INVESTIGATOR"
    ensures RoleLabel(DemoUser.(role := None)) == "USER"
  {
    var a, b := "INVESTIGATOR", "USER";
    assert forall i :: 0 <= i < |a| ==> a[i] != '_';
    assert forall i :: 0 <= i < |b| ==> b[i] != '_';
  }

  /** Only the first underscore of a role becomes a space: `CASE_TEAM_LEAD` shows as
      `CASE TEAM_LEAD`. */
  lemma RoleLabelFirstUnderscore(u: User, head: string, rest: string)
    requires '_' !in head && u.role == Some(head + "_" + rest)
    ensures RoleLabel(u) == head + " " + rest
  {
    var s := head + "_" + rest;
    IndexOfJoined(head, '_', rest);
    assert s[..|head|] == head && s[|head| + 1..] == rest;
  }

  /** The profile menu's e-mail line: the stored e-mail, or one made from the username
      (an absent username prints as `undefined`). */
  function ProfileEmail(u: User): (r: string)
    ensures r != ""
    ensures Truthy(u.email) ==> r == u.email.value
    ensures !Truthy(u.email) ==> |r| >= |EmailDomain| && r[|r| - |EmailDomain|..] == EmailDomain
    ensures !Truthy(u.email) && u.username.Some? ==> r[..|r| - |EmailDomain|] == u.username.value
  {
    if Truthy(u.email) then u.email.value
    else (if u.username.Some? then u.username.value else "undefined") + EmailDomain
  }

  const EmailDomain := "@alertsystem.com"

  /** The demo user shows its stored e-mail; a user with an empty e-mail falls back to the
      username, and one without a username to the text `undefined`. */
  lemma ProfileEmailExamples(name: string)
    ensures ProfileEmail(CurrentUser(None)) == "demo@alertsystem.com"
    ensures ProfileEmail(DemoUser.(email := Some(""))) == "demo@alertsystem.com"
    ensures ProfileEmail(DemoUser.(email := None, username := None)) == "undefined@alertsystem.com"
    ensures ProfileEmail(DemoUser.(email := None, username := Some(name))) == name + "@alertsystem.com"
  {
    assert CurrentUser(None) == DemoUser && Truthy(DemoUser.email);
    assert !Truthy(DemoUser.(email := Some("")).email);
    assert "demo" + EmailDomain == "demo@alertsystem.com";
    assert "undefined" + EmailDomain == "undefined@alertsystem.com";
  }

  /** The avatar text: `split(' ').map(n => n[0]).join('').substring(0, 2).toUpperCase()`;
      an empty word contributes nothing. */
  function AvatarInitials(displayName: string): string {
    var firsts := FirstChars(Split(displayName, ' '));
    ToUpper(firsts[..if |firsts| < 2 then |firsts| else 2])
  }

  function FirstChars(parts: seq<string>): (r: string)
    ensures |r| <= |parts|
  {
    if parts == [] then "" else (if parts[0] == "" then "" else [parts[0][0]]) + FirstChars(parts[1..])
  }

  lemma {:induction false} UpperFirstChars(parts: seq<string>)
    ensures ToUpper(FirstChars(parts)) == FirstUppers(parts)
    decreases |parts|
  {
    if parts != [] {
      UpperFirstChars(parts[1..]);
      var head := if parts[0] == "" then "" else [parts[0][0]];
      assert FirstChars(parts) == head + FirstChars(parts[1..]);
      assert ToUpper(head + FirstChars(parts[1..])) == ToUpper(head) + ToUpper(FirstChars(parts[1..]));
    }
  }

  /** The avatar shows the same initials as `getInitials` would. */
  lemma AvatarIsInitials(displayName: string)
    ensures AvatarInitials(displayName) == GetInitials(displayName)
  {
    var parts := Split(displayName, ' ');
    UpperFirstChars(parts);
    var firsts := FirstChars(parts);
    var n := if |firsts| < 2 then |firsts| else 2;
    assert ToUpper(firsts[..n]) == ToUpper(firsts)[..n];
  }

  lemma DemoUserName()
    ensures DisplayName(CurrentUser(None)) == "Demo User"
  {
  }

  /** The demo user's avatar reads "DU". */
  lemma DemoUserAvatar()
    ensures AvatarInitials("Demo User") == "DU"
  {
    DemoUserWords();
    var words := ["Demo", "User"];
    assert words[1..] == ["User"];
    assert FirstChars(["User"]) == "U";
    assert FirstChars(words) == "DU";
  }

  lemma DemoUserWords()
    ensures Split("Demo User", ' ') == ["Demo", "User"]
  {
    var words := ["Demo", "User"];
    assert Join(words, " ") == "Demo User";
    assert forall i :: 0 <= i < |words| ==> ' ' !in words[i];
    SplitJoin(words, ' ');
  }

  datatype Notification = Notification(id: string, kind: string, unread: bool)

  const Notifications := [
    Notification("1", "urgent", true),
    Notification("2", "info", true),
    Notification("3", "warning", false)]

  /** `notifications.filter(n => n.unread).length`. */
  function UnreadCount(ns: seq<Notification>): (c: nat)
    ensures c <= |ns|
  {
    if ns == [] then 0 else (if ns[0].unread then 1 else 0) + UnreadCount(ns[1..])
  }

  lemma {:induction false} UnreadCountSpec(ns: seq<Notification>)
    ensures UnreadCount(ns) == |ns| <==> forall i :: 0 <= i < |ns| ==> ns[i].unread
    ensures UnreadCount(ns) == 0 <==> forall i :: 0 <= i < |ns| ==> !ns[i].unread
    decreases |ns|
  {
    if ns != [] {
      UnreadCountSpec(ns[1..]);
      assert forall i :: 1 <= i < |ns| ==> ns[i] == ns[1..][i - 1];
    }
  }

  lemma BadgeShowsTwo()
    ensures UnreadCount(Notifications) == 2
  {
  }

  /** The header's state fields. */
  class HeaderState {
    var isProfileOpen: bool
    var isNotificationsOpen: bool

    constructor ()
      ensures !isProfileOpen && !isNotificationsOpen
    {
      isProfileOpen := false;
      isNotificationsOpen := false;
    }

    method ToggleNotifications()
      modifies this
      ensures isNotificationsOpen == !old(isNotificationsOpen) && isProfileOpen == old(isProfileOpen)
    {
      isNotificationsOpen := !isNotificationsOpen;
    }

    method ToggleProfile()
      modifies this
      ensures isProfileOpen == !old(isProfileOpen) && isNotificationsOpen == old(isNotificationsOpen)
    {
      isProfileOpen := !isProfileOpen;
    }

    /** The Profile and Settings links close the profile menu. */
    method CloseProfile()
      modifies this
      ensures !isProfileOpen && isNotificationsOpen == old(isNotificationsOpen)
    {
      isProfileOpen := false;
    }

    /** The "View all notifications" link closes the notification menu. */
    method CloseNotifications()
      modifies this
      ensures !isNotificationsOpen && isProfileOpen == old(isProfileOpen)
    {
      isNotificationsOpen := false;
    }

    /** The backdrop, present while either menu is open, closes both. */
    method BackdropClick()
      requires isProfileOpen || isNotificationsOpen
      modifies this
      ensures !isProfileOpen && !isNotificationsOpen
    {
      isProfileOpen := false;
      isNotificationsOpen := false;
    }

    /** Sign out: ends the stored session (the redirect is not modelled). */
    method HandleLogout(session: Api.SessionStore)
      modifies session
      ensures session.storage == old(session.storage) - {Api.TokenKey, Api.UserKey}
    {
      session.Logout();
    }
  }
}
