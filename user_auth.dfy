/** The in-memory account and session store of the chat front end
    (user_auth_with_conversations.py): registration with its validation order, login by
    username or e-mail, logout, the session queries, the conversation counter and the
    saved-message history capped at 100.  The JSON file it is persisted to is left out;
    the password hash, the session id and the clock are parameters.  Store and the
    functions over it are the specification; class UserManager is the object, whose
    methods are proved to follow them. */
module UserAuth {
  import opened Base

  datatype Conversation = Conversation(timestamp: string, userMessage: string, botResponse: string)

  datatype User = User(username: string, email: string, passwordHash: string, ageRange: string,
                       createdAt: string, totalConversations: int, lastLogin: Option<string>,
                       preferredName: string, conversations: seq<Conversation>)

  datatype Session = Session(username: string, loginTime: string, active: bool,
                             lastActivity: Option<string>)

  /** The two dictionaries; `order` lists the user names in insertion order, the order in
      which a Python dict is iterated. */
  datatype Store = Store(users: map<string, User>, order: seq<string>, sessions: map<string, Session>)

  ghost predicate Valid(st: Store) {
    Distinct(st.order) && (set u | u in st.order) == st.users.Keys
  }

  /** No two accounts share an e-mail address. */
  ghost predicate EmailsUnique(st: Store) {
    forall u, v | u in st.users && v in st.users && u != v :: st.users[u].email != st.users[v].email
  }

  /** UserManager() before any file is read. */
  function Empty(): (st: Store)
    ensures Valid(st) && EmailsUnique(st) && st.users == map[] && st.sessions == map[]
  {
    Store(map[], [], map[])
  }

  // ------------------------------------------------------------ register_user

  datatype RegisterOutcome =
    | ShortUsername | InvalidEmail | ShortPassword | PasswordMismatch
    | UsernameTaken | EmailTaken | Registered

  function RegisterText(o: RegisterOutcome, username: string): string {
    match o
    case ShortUsername => "Username must be at least 3 characters"
    case InvalidEmail => "Please enter a valid email address"
    case ShortPassword => "Password must be at least 6 characters"
    case PasswordMismatch => "Passwords do not match"
    case UsernameTaken => "Username already exists"
    case EmailTaken => "Email already registered"
    case Registered => "User " + username + " registered successfully!"
  }

  /** The first user, in dict order, whose e-mail is `email`. */
  function FirstWithEmail(users: map<string, User>, order: seq<string>, email: string): (r: Option<string>)
    ensures r.Some? ==> r.value in order && r.value in users && users[r.value].email == email
  {
    if order == [] then None
    else if order[0] in users && users[order[0]].email == email then Some(order[0])
    else FirstWithEmail(users, order[1..], email)
  }

  function NewUser(username: string, email: string, passwordHash: string, ageRange: string,
                   now: string): User {
    User(username, email, passwordHash, ageRange, now, 0, None, username, [])
  }

  function Register(st: Store, hash: string -> string, username: string, email: string,
                    password: string, confirmPassword: string, ageRange: string, now: string)
    : (Store, RegisterOutcome)
  {
    if |username| < 3 then (st, ShortUsername)
    else if '@' !in email then (st, InvalidEmail)
    else if |password| < 6 then (st, ShortPassword)
    else if password != confirmPassword then (st, PasswordMismatch)
    else if username in st.users then (st, UsernameTaken)
    else if FirstWithEmail(st.users, st.order, email).Some? then (st, EmailTaken)
    else (st.(users := st.users[username := NewUser(username, email, hash(password), ageRange, now)],
              order := st.order + [username]),
          Registered)
  }

  lemma {:induction false} FirstWithEmailFinds(users: map<string, User>, order: seq<string>, email: string)
    ensures FirstWithEmail(users, order, email).None? <==>
      forall k | 0 <= k < |order| :: order[k] !in users || users[order[k]].email != email
  {
    if order != [] {
      FirstWithEmailFinds(users, order[1..], email);
      assert forall k | 1 <= k < |order| :: order[k] == order[1..][k - 1];
    }
  }

  /** The checks run in order and each failure is reported by the first check that fails;
      a duplicate name or e-mail is refused. */
  lemma RegisterValidation(st: Store, hash: string -> string, username: string, email: string,
                           password: string, confirmPassword: string, ageRange: string, now: string)
    requires Valid(st)
    ensures var (st', o) := Register(st, hash, username, email, password, confirmPassword, ageRange, now);
      (o == ShortUsername <==> |username| < 3) &&
      (o == InvalidEmail <==> |username| >= 3 && '@' !in email) &&
      (o == ShortPassword <==> |username| >= 3 && '@' in email && |password| < 6) &&
      (o == PasswordMismatch <==> |username| >= 3 && '@' in email && |password| >= 6 &&
                                  password != confirmPassword) &&
      (o == UsernameTaken ==> username in st.users) &&
      (o == EmailTaken ==> exists u | u in st.users :: st.users[u].email == email) &&
      (o == Registered <==>
         (|username| >= 3 && '@' in email && |password| >= 6 && password == confirmPassword &&
          username !in st.users && forall u | u in st.users :: st.users[u].email != email)) &&
      (o != Registered ==> st' == st)
  {
    FirstWithEmailFinds(st.users, st.order, email);
    forall u | u in st.users ensures u in st.order {
      assert u in (set v | v in st.order);
    }
  }

  /** A registration inserts exactly one user, keyed by its name, with the hashed password,
      no conversations yet and its name as preferred name; nothing else changes. */
  lemma RegisterInsertsOne(st: Store, hash: string -> string, username: string, email: string,
                           password: string, confirmPassword: string, ageRange: string, now: string)
    requires Valid(st)
    ensures var (st', o) := Register(st, hash, username, email, password, confirmPassword, ageRange, now);
      o == Registered ==>
        username !in st.users && st'.users.Keys == st.users.Keys + {username} &&
        (forall u | u in st.users :: st'.users[u] == st.users[u]) &&
        st'.users[username].passwordHash == hash(password) &&
        st'.users[username].totalConversations == 0 && st'.users[username].conversations == [] &&
        st'.users[username].preferredName == username && st'.sessions == st.sessions
  {
  }

  /** Registration keeps the store well formed and keeps e-mail addresses unique. */
  lemma RegisterPreservesValid(st: Store, hash: string -> string, username: string, email: string,
                               password: string, confirmPassword: string, ageRange: string, now: string)
    requires Valid(st) && EmailsUnique(st)
    ensures var st' := Register(st, hash, username, email, password, confirmPassword, ageRange, now).0;
      Valid(st') && EmailsUnique(st')
  {
    var (st', o) := Register(st, hash, username, email, password, confirmPassword, ageRange, now);
    if o == Registered {
      RegisterValidation(st, hash, username, email, password, confirmPassword, ageRange, now);
      assert username in st.order ==> username in (set u | u in st.order);
      assert (set u | u in st'.order) == (set u | u in st.order) + {username};
    }
  }

  // ------------------------------------------------------------ login_user

  datatype LoginOutcome =
    | LoginFailed
    | LoggedIn(username: string, preferredName: string, sessionId: string)

  function LoginText(o: LoginOutcome): string {
    match o
    case LoginFailed => "Incorrect username or password"
    case LoggedIn(_, name, _) => "Welcome back, " + name + "!"
  }

  /** The account a login name resolves to: the user of that name, or else the first user
      with that e-mail (an empty name found that way counts as none). */
  function Resolve(st: Store, login: string): (r: Option<string>)
    ensures r.Some? ==> r.value in st.users
  {
    if login in st.users then Some(login)
    else match FirstWithEmail(st.users, st.order, login)
      case Some(u) => if u != "" then Some(u) else None
      case None => None
  }

  function Login(st: Store, hash: string -> string, login: string, password: string,
                 sessionId: string, now: string): (Store, LoginOutcome)
  {
    match Resolve(st, login)
    case None => (st, LoginFailed)
    case Some(u) =>
      var user := st.users[u];
      if user.passwordHash != hash(password) then (st, LoginFailed)
      else (st.(users := st.users[u := user.(lastLogin := Some(now))],
                sessions := st.sessions[sessionId := Session(u, now, true, None)]),
            LoggedIn(u, user.preferredName, sessionId))
  }

  /** A login fails, with one message for both causes and no session, iff no account is
      found or the password does not hash to the stored hash; a success maps the new
      session id to the account's name and records the login time. */
  lemma LoginSpec(st: Store, hash: string -> string, login: string, password: string,
                  sessionId: string, now: string)
    ensures var (st', o) := Login(st, hash, login, password, sessionId, now);
      var r := Resolve(st, login);
      (o == LoginFailed <==> r.None? || st.users[r.value].passwordHash != hash(password)) &&
      (o == LoginFailed ==> st' == st && LoginText(o) == "Incorrect username or password") &&
      (o.LoggedIn? ==>
        o.username == r.value && o.sessionId == sessionId &&
        st'.sessions == st.sessions[sessionId := Session(r.value, now, true, None)] &&
        st'.users.Keys == st.users.Keys && st'.order == st.order &&
        st'.users[r.value].lastLogin == Some(now) &&
        forall u | u in st.users && u != r.value :: st'.users[u] == st.users[u])
  {
  }

  /** With unique e-mail addresses, logging in with an e-mail reaches the one account that
      has it (unless that account's name is empty). */
  lemma LoginByEmail(st: Store, login: string, u: string)
    requires Valid(st) && EmailsUnique(st)
    requires login !in st.users && u in st.users && st.users[u].email == login && u != ""
    ensures Resolve(st, login) == Some(u)
  {
    FirstWithEmailFinds(st.users, st.order, login);
    assert u in (set v | v in st.order);
    var k :| 0 <= k < |st.order| && st.order[k] == u;
  }

  // ------------------------------------------------------------ sessions

  datatype LogoutOutcome = LoggedOut | InvalidSession

  function Logout(st: Store, sessionId: string): (Store, LogoutOutcome) {
    if sessionId in st.sessions then (st.(sessions := st.sessions - {sessionId}), LoggedOut)
    else (st, InvalidSession)
  }

  lemma LogoutSpec(st: Store, sessionId: string)
    ensures var (st', o) := Logout(st, sessionId);
      (o == LoggedOut <==> sessionId in st.sessions) &&
      st'.sessions.Keys == st.sessions.Keys - {sessionId} &&
      (forall s | s in st'.sessions :: st'.sessions[s] == st.sessions[s]) &&
      st'.users == st.users && !IsLoggedIn(st', sessionId)
  {
  }

  predicate IsLoggedIn(st: Store, sessionId: string) {
    sessionId in st.sessions && st.sessions[sessionId].active
  }

  function GetUsername(st: Store, sessionId: string): Option<string> {
    if sessionId in st.sessions then Some(st.sessions[sessionId].username) else None
  }

  /** `username and username in self.users`: the account behind a session. */
  function SessionUser(st: Store, sessionId: string): (r: Option<string>)
    ensures r.Some? <==> GetUsername(st, sessionId).Some? && GetUsername(st, sessionId).value != "" &&
                         GetUsername(st, sessionId).value in st.users
    ensures r.Some? ==> r == GetUsername(st, sessionId)
  {
    match GetUsername(st, sessionId)
    case Some(u) => if u != "" && u in st.users then Some(u) else None
    case None => None
  }

  function GetUserInfo(st: Store, sessionId: string): Option<User> {
    match SessionUser(st, sessionId)
    case Some(u) => Some(st.users[u])
    case None => None
  }

  /** A freshly logged-in session is logged in and belongs to the account. */
  lemma LoginOpensSession(st: Store, hash: string -> string, login: string, password: string,
                          sessionId: string, now: string)
    ensures var (st', o) := Login(st, hash, login, password, sessionId, now);
      o.LoggedIn? ==> IsLoggedIn(st', sessionId) && GetUsername(st', sessionId) == Some(o.username) &&
                      o.username in st'.users
  {
  }

  function UpdateUserActivity(st: Store, sessionId: string, now: string): Store {
    if sessionId in st.sessions
    then st.(sessions := st.sessions[sessionId := st.sessions[sessionId].(lastActivity := Some(now))])
    else st
  }

  function IncrementConversationCount(st: Store, sessionId: string): Store {
    match SessionUser(st, sessionId)
    case Some(u) =>
      st.(users := st.users[u := st.users[u].(totalConversations := st.users[u].totalConversations + 1)])
    case None => st
  }

  /** The counter of the session's account goes up by one and nothing else changes; without
      such an account nothing changes at all. */
  lemma IncrementSpec(st: Store, sessionId: string)
    ensures var st' := IncrementConversationCount(st, sessionId);
      st'.sessions == st.sessions && st'.order == st.order && st'.users.Keys == st.users.Keys &&
      (forall u | u in st.users ::
        st'.users[u].totalConversations ==
          st.users[u].totalConversations + (if SessionUser(st, sessionId) == Some(u) then 1 else 0) &&
        st'.users[u] == st.users[u].(totalConversations := st'.users[u].totalConversations))
  {
  }

  // ------------------------------------------------------------ save_message

  const HistoryLimit := 100

  /** `conversations[-100:]` when there are more than 100. */
  function KeepLatest(conversations: seq<Conversation>): (r: seq<Conversation>)
    ensures |r| == if |conversations| > HistoryLimit then HistoryLimit else |conversations|
    ensures r == conversations[|conversations| - |r|..]
  {
    if |conversations| > HistoryLimit then conversations[|conversations| - HistoryLimit..] else conversations
  }

  function SaveMessage(st: Store, sessionId: string, userMessage: string, botResponse: string,
                       now: string): (Store, bool)
  {
    match SessionUser(st, sessionId)
    case Some(u) =>
      var user := st.users[u];
      var conversations := KeepLatest(user.conversations + [Conversation(now, userMessage, botResponse)]);
      (st.(users := st.users[u := user.(conversations := conversations)]), true)
    case None => (st, false)
  }

  /** A saved message is the newest entry of the account's history, which then holds the
      at most 100 latest entries; other accounts and the sessions are untouched. */
  lemma SaveMessageSpec(st: Store, sessionId: string, userMessage: string, botResponse: string,
                        now: string)
    ensures var (st', saved) := SaveMessage(st, sessionId, userMessage, botResponse, now);
      (saved <==> SessionUser(st, sessionId).Some?) &&
      (!saved ==> st' == st) &&
      (saved ==>
        var u := SessionUser(st, sessionId).value;
        var before := st.users[u].conversations;
        var after := st'.users[u].conversations;
        |after| == (if |before| + 1 > HistoryLimit then HistoryLimit else |before| + 1) &&
        after[|after| - 1] == Conversation(now, userMessage, botResponse) &&
        after[..|after| - 1] == before[|before| + 1 - |after|..] &&
        st'.sessions == st.sessions && st'.users.Keys == st.users.Keys &&
        forall v | v in st.users && v != u :: st'.users[v] == st.users[v])
  {
    var (st', saved) := SaveMessage(st, sessionId, userMessage, botResponse, now);
    if saved {
      var u := SessionUser(st, sessionId).value;
      var before := st.users[u].conversations;
      var all := before + [Conversation(now, userMessage, botResponse)];
      var after := st'.users[u].conversations;
      assert after == all[|all| - |after|..];
      assert after[..|after| - 1] == all[|all| - |after|..|all| - 1];
    }
  }

  // ------------------------------------------------------------ get_user_stats

  function ActiveSessions(st: Store): set<string> {
    set s | s in st.sessions && st.sessions[s].active
  }

  /** (total_users, active_sessions) */
  function GetUserStats(st: Store): (r: (nat, nat))
    ensures r.1 <= |st.sessions|
  {
    assert ActiveSessions(st) <= st.sessions.Keys;
    SubsetCard(ActiveSessions(st), st.sessions.Keys);
    (|st.users|, |ActiveSessions(st)|)
  }

  lemma SubsetCard(a: set<string>, b: set<string>)
    requires a <= b
    ensures |a| <= |b|
  {
    if a != {} {
      var x :| x in a;
      SubsetCard(a - {x}, b - {x});
    }
  }

  /** Logging in adds one active session to the count when the id is new. */
  lemma LoginCountsSession(st: Store, hash: string -> string, login: string, password: string,
                           sessionId: string, now: string)
    requires sessionId !in st.sessions
    ensures var (st', o) := Login(st, hash, login, password, sessionId, now);
      o.LoggedIn? ==> GetUserStats(st') == (|st.users|, |ActiveSessions(st)| + 1)
  {
    var r := Resolve(st, login);
    if r.Some? && st.users[r.value].passwordHash == hash(password) {
      var u := r.value;
      var st1 := st.(users := st.users[u := st.users[u].(lastLogin := Some(now))]);
      assert Login(st, hash, login, password, sessionId, now).0 ==
        st1.(sessions := st1.sessions[sessionId := Session(u, now, true, None)]);
      AddActiveSession(st1, sessionId, Session(u, now, true, None));
      assert st1.users.Keys == st.users.Keys;
      assert |st1.users| == |st1.users.Keys|;
    }
  }

  lemma AddActiveSession(st: Store, sessionId: string, session: Session)
    requires sessionId !in st.sessions && session.active
    ensures ActiveSessions(st.(sessions := st.sessions[sessionId := session])) ==
      ActiveSessions(st) + {sessionId}
  {
  }

  // ------------------------------------------------------------ the object

  class UserManager {
    var users: map<string, User>
    var order: seq<string>
    var sessions: map<string, Session>
    const hash: string -> string

    function Snapshot(): Store
      reads this
    {
      Store(users, order, sessions)
    }

    /** UserManager(): empty dictionaries (the file is not read in this model). */
    constructor(hash: string -> string)
      ensures Snapshot() == Empty() && this.hash == hash
    {
      users := map[];
      order := [];
      sessions := map[];
      this.hash := hash;
    }

    /** The loop over users.values() looking for the e-mail. */
    method EmailRegistered(email: string) returns (taken: bool)
      ensures taken == FirstWithEmail(users, order, email).Some?
    {
      var k := 0;
      while k < |order|
        invariant 0 <= k <= |order|
        invariant FirstWithEmail(users, order[k..], email) == FirstWithEmail(users, order, email)
      {
        assert order[k..][1..] == order[k + 1..];
        if order[k] in users && users[order[k]].email == email {
          return true;
        }
        k := k + 1;
      }
      return false;
    }

    method RegisterUser(username: string, email: string, password: string,
                        confirmPassword: string, ageRange: string, now: string)
      returns (ok: bool, message: string)
      modifies this
      ensures var (st, o) := Register(old(Snapshot()), hash, username, email, password,
                                      confirmPassword, ageRange, now);
        Snapshot() == st && ok == (o == Registered) && message == RegisterText(o, username)
    {
      var o: RegisterOutcome;
      if |username| < 3 {
        o := ShortUsername;
      } else if '@' !in email {
        o := InvalidEmail;
      } else if |password| < 6 {
        o := ShortPassword;
      } else if password != confirmPassword {
        o := PasswordMismatch;
      } else if username in users {
        o := UsernameTaken;
      } else {
        var taken := EmailRegistered(email);
        if taken {
          o := EmailTaken;
        } else {
          users := users[username := NewUser(username, email, hash(password), ageRange, now)];
          order := order + [username];
          o := Registered;
        }
      }
      ok := o == Registered;
      message := RegisterText(o, username);
    }

    /** The loop over users.items() that stops at the first matching e-mail. */
    method FindByEmail(email: string) returns (found: Option<string>)
      ensures found == FirstWithEmail(users, order, email)
    {
      var k := 0;
      while k < |order|
        invariant 0 <= k <= |order|
        invariant FirstWithEmail(users, order[k..], email) == FirstWithEmail(users, order, email)
      {
        assert order[k..][1..] == order[k + 1..];
        if order[k] in users && users[order[k]].email == email {
          return Some(order[k]);
        }
        k := k + 1;
      }
      return None;
    }

    method LoginUser(login: string, password: string, sessionId: string, now: string)
      returns (ok: bool, message: string, session: Option<string>)
      modifies this
      ensures var (st, o) := Login(old(Snapshot()), hash, login, password, sessionId, now);
        Snapshot() == st && ok == o.LoggedIn? && message == LoginText(o) &&
        session == (if o.LoggedIn? then Some(sessionId) else None)
    {
      var username := login;
      if login !in users {
        var found := FindByEmail(login);
        if found.Some? && found.value != "" {
          username := found.value;
        } else {
          return false, LoginText(LoginFailed), None;
        }
      }
      var user := users[username];
      if user.passwordHash != hash(password) {
        return false, LoginText(LoginFailed), None;
      }
      sessions := sessions[sessionId := Session(username, now, true, None)];
      users := users[username := user.(lastLogin := Some(now))];
      return true, LoginText(LoggedIn(username, user.preferredName, sessionId)), Some(sessionId);
    }

    method LogoutUser(sessionId: string) returns (ok: bool, message: string)
      modifies this
      ensures var (st, o) := Logout(old(Snapshot()), sessionId);
        Snapshot() == st && ok == (o == LoggedOut) &&
        message == (if o == LoggedOut then "Logout successful" else "Invalid session")
    {
      if sessionId in sessions {
        sessions := sessions - {sessionId};
        return true, "Logout successful";
      }
      return false, "Invalid session";
    }

    method UpdateActivity(sessionId: string, now: string)
      modifies this
      ensures Snapshot() == UpdateUserActivity(old(Snapshot()), sessionId, now)
    {
      if sessionId in sessions {
        sessions := sessions[sessionId := sessions[sessionId].(lastActivity := Some(now))];
      }
    }

    method IncrementCount(sessionId: string)
      modifies this
      ensures Snapshot() == IncrementConversationCount(old(Snapshot()), sessionId)
    {
      var username := GetUsername(Snapshot(), sessionId);
      if username.Some? && username.value != "" && username.value in users {
        var u := username.value;
        users := users[u := users[u].(totalConversations := users[u].totalConversations + 1)];
      }
    }

    method SaveMessageM(sessionId: string, userMessage: string, botResponse: string, now: string)
      returns (saved: bool)
      modifies this
      ensures (Snapshot(), saved) == SaveMessage(old(Snapshot()), sessionId, userMessage, botResponse, now)
    {
      var username := GetUsername(Snapshot(), sessionId);
      if username.Some? && username.value != "" && username.value in users {
        var u := username.value;
        var conversations := users[u].conversations + [Conversation(now, userMessage, botResponse)];
        if |conversations| > HistoryLimit {
          conversations := conversations[|conversations| - HistoryLimit..];
        }
        users := users[u := users[u].(conversations := conversations)];
        return true;
      }
      return false;
    }
  }
}
