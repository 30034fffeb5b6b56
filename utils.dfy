/** The helpers of utils.py: session-id truncation for logs, message validation, nested
    dictionary lookup with a default, the standard error texts, the platform statistics
    line, and the SystemStatus object whose four availability flags are updated by
    keyword. */
module Utils {
  import opened Base

  /** truncate_session_id; None and "" are the falsy ids. */
  function TruncateSessionId(sessionId: Option<string>, length: int): string {
    if sessionId.None? || sessionId.value == "" then "None" else PyPrefix(sessionId.value, length)
  }

  /** A present id is shortened to its first `length` characters (the whole id when it is
      shorter); a falsy one is shown as "None". */
  lemma TruncateSessionIdSpec(sessionId: Option<string>, length: nat)
    ensures var r := TruncateSessionId(sessionId, length);
      (sessionId.None? || sessionId.value == "" ==> r == "None") &&
      (sessionId.Some? && sessionId.value != "" ==>
         r <= sessionId.value && |r| == (if length < |sessionId.value| then length else |sessionId.value|))
  {
  }

  /** validate_message_input: `message and message.strip()`. */
  predicate ValidateMessageInput(message: Option<string>) {
    message.Some? && message.value != "" && Strip(message.value) != ""
  }

  /** A message is valid exactly when it is present and not blank. */
  lemma ValidateMessageInputSpec(message: Option<string>)
    ensures ValidateMessageInput(message) <==> message.Some? && !IsBlank(message.value)
  {
    if message.Some? {
      StripEmptyIffBlank(message.value);
    }
  }

  // ------------------------------------------------------------ safe_get_nested_value

  /** A value of a nested dictionary: a dict with string keys, or anything else (which
      raises TypeError when indexed). */
  datatype Value = Scalar(text: string) | Dict(fields: map<string, Value>)

  /** `value[key]`, or None where Python raises KeyError or TypeError. */
  function Index(v: Value, key: string): Option<Value> {
    if v.Dict? && key in v.fields then Some(v.fields[key]) else None
  }

  /** Following the keys one after another from `data`. */
  function Lookup(data: Value, keys: seq<string>): Option<Value> {
    if keys == [] then Some(data)
    else match Lookup(data, keys[..|keys| - 1])
      case Some(v) => Index(v, keys[|keys| - 1])
      case None => None
  }

  /** safe_get_nested_value */
  method SafeGetNestedValue(data: Value, keys: seq<string>, default: Value) returns (r: Value)
    ensures r == Lookup(data, keys).GetOr(default)
  {
    var value := data;
    var k := 0;
    while k < |keys|
      invariant 0 <= k <= |keys|
      invariant Lookup(data, keys[..k]) == Some(value)
    {
      assert keys[..k + 1][..k] == keys[..k];
      if !(value.Dict? && keys[k] in value.fields) {
        LookupFailurePersists(data, keys[..k + 1], keys[k + 1..]);
        assert keys[..k + 1] + keys[k + 1..] == keys;
        return default;
      }
      value := value.fields[keys[k]];
      k := k + 1;
    }
    assert keys[..k] == keys;
    return value;
  }

  /** Once a lookup fails, no longer path succeeds. */
  lemma {:induction false} LookupFailurePersists(data: Value, keys: seq<string>, more: seq<string>)
    requires Lookup(data, keys).None?
    ensures Lookup(data, keys + more).None?
  {
    if more != [] {
      var init := more[..|more| - 1];
      LookupFailurePersists(data, keys, init);
      assert (keys + more)[..|keys + more| - 1] == keys + init;
    } else {
      assert keys + more == keys;
    }
  }

  /** Following a path in two steps is following it in one: the lookup of `a + b` is the
      lookup of `b` from where `a` leads. */
  lemma {:induction false} LookupConcat(data: Value, a: seq<string>, b: seq<string>)
    ensures Lookup(data, a + b) ==
      match Lookup(data, a)
      case Some(v) => Lookup(v, b)
      case None => None
  {
    if b == [] {
      assert a + b == a;
    } else {
      var init := b[..|b| - 1];
      LookupConcat(data, a, init);
      assert (a + b)[..|a + b| - 1] == a + init;
    }
  }

  /** The value at a one-key path is the entry of the dictionary. */
  lemma LookupOne(data: Value, key: string)
    ensures Lookup(data, [key]).Some? <==> data.Dict? && key in data.fields
    ensures Lookup(data, [key]).Some? ==> Lookup(data, [key]).value == data.fields[key]
  {
    assert [key][..0] == [];
  }

  // ------------------------------------------------------------ create_error_response

  datatype ErrorType = AuthError | SessionError | ProcessingError | SystemError | OtherError(name: string)

  function ErrorTypeOf(errorType: string): ErrorType {
    if errorType == "auth_error" then AuthError
    else if errorType == "session_error" then SessionError
    else if errorType == "processing_error" then ProcessingError
    else if errorType == "system_error" then SystemError
    else OtherError(errorType)
  }

  function BaseMessage(e: ErrorType): string {
    match e
    case AuthError => "Authentication system is currently unavailable."
    case SessionError => "Your session has expired. Please log in again."
    case ProcessingError => "I encountered an error processing your request. Please try again."
    case SystemError => "System temporarily unavailable. Please try again later."
    case OtherError(_) => "An unexpected error occurred."
  }

  /** create_error_response */
  function CreateErrorResponse(errorType: string, details: string): string {
    var baseMessage := BaseMessage(ErrorTypeOf(errorType));
    if details != "" then baseMessage + " Details: " + details else baseMessage
  }

  /** The four known types are recognised by their keys, and every other type falls
      through to the generic text. */
  lemma BaseMessageKnown(errorType: string)
    ensures var e := ErrorTypeOf(errorType);
      (e.OtherError? <==> errorType != "auth_error" && errorType != "session_error" &&
                          errorType != "processing_error" && errorType != "system_error") &&
      (e.OtherError? ==> e.name == errorType && BaseMessage(e) == BaseMessage(OtherError(""))) &&
      (!e.OtherError? ==> ErrorTypeOf(Key(e)) == e && Key(e) == errorType)
  {
  }

  /** The error_messages key of a known type. */
  function Key(e: ErrorType): string {
    match e
    case AuthError => "auth_error"
    case SessionError => "session_error"
    case ProcessingError => "processing_error"
    case SystemError => "system_error"
    case OtherError(name) => name
  }

  /** The details are appended, after " Details: ", exactly when there are any. */
  lemma CreateErrorResponseDetails(errorType: string, details: string)
    ensures var r := CreateErrorResponse(errorType, details);
      var baseMessage := BaseMessage(ErrorTypeOf(errorType));
      baseMessage <= r &&
      (r == baseMessage <==> details == "") &&
      (details != "" ==> r[|baseMessage|..] == " Details: " + details)
  {
    var baseMessage := BaseMessage(ErrorTypeOf(errorType));
    var r := CreateErrorResponse(errorType, details);
    if details != "" {
      assert r == baseMessage + (" Details: " + details);
      assert |r| > |baseMessage|;
    }
  }

  // ------------------------------------------------------------ format_system_stats

  const StatsPrefix := "\U{1F4CA} Platform stats: "

  /** stats.get(key, 0) */
  function Count(stats: map<string, int>, key: string): int {
    if key in stats then stats[key] else 0
  }

  /** format_system_stats */
  function FormatSystemStats(stats: map<string, int>): string {
    StatsPrefix + (IntToString(Count(stats, "total_users")) + (" total users, " +
    (IntToString(Count(stats, "active_sessions")) + " active sessions")))
  }

  /** A missing count is printed as 0, whatever the other count holds. */
  lemma FormatSystemStatsDefaults(stats: map<string, int>)
    ensures "total_users" !in stats ==>
      FormatSystemStats(stats) == FormatSystemStats(stats["total_users" := 0])
    ensures "active_sessions" !in stats ==>
      FormatSystemStats(stats) == FormatSystemStats(stats["active_sessions" := 0])
  {
    var t, a := stats["total_users" := 0], stats["active_sessions" := 0];
    assert Count(t, "total_users") == 0 && Count(t, "active_sessions") == Count(stats, "active_sessions");
    assert Count(a, "active_sessions") == 0 && Count(a, "total_users") == Count(stats, "total_users");
  }

  // ------------------------------------------------------------ SystemStatus

  /** The four flags of a SystemStatus, in the order get_status_summary lists them. */
  const FlagNames: seq<string> :=
    ["auth_available", "main_router_available", "rag_available", "user_manager_available"]

  datatype Flags = Flags(authAvailable: bool, mainRouterAvailable: bool, ragAvailable: bool,
                         userManagerAvailable: bool)

  /** getattr(status, name) for a flag name. */
  function Get(f: Flags, name: string): bool
    requires name in FlagNames
  {
    if name == "auth_available" then f.authAvailable
    else if name == "main_router_available" then f.mainRouterAvailable
    else if name == "rag_available" then f.ragAvailable
    else f.userManagerAvailable
  }

  /** One keyword argument of update_status: set when the attribute exists, else ignored. */
  function SetFlag(f: Flags, name: string, value: bool): Flags {
    if name == "auth_available" then f.(authAvailable := value)
    else if name == "main_router_available" then f.(mainRouterAvailable := value)
    else if name == "rag_available" then f.(ragAvailable := value)
    else if name == "user_manager_available" then f.(userManagerAvailable := value)
    else f
  }

  /** update_status(**kwargs), the arguments in the order given. */
  function Update(f: Flags, kwargs: seq<(string, bool)>): Flags {
    if kwargs == [] then f
    else SetFlag(Update(f, kwargs[..|kwargs| - 1]), kwargs[|kwargs| - 1].0, kwargs[|kwargs| - 1].1)
  }

  /** The value the last argument named `name` carries, if any. */
  function LastValue(kwargs: seq<(string, bool)>, name: string): Option<bool> {
    if kwargs == [] then None
    else if kwargs[|kwargs| - 1].0 == name then Some(kwargs[|kwargs| - 1].1)
    else LastValue(kwargs[..|kwargs| - 1], name)
  }

  /** After update_status each flag holds the value of the last argument that names it,
      and keeps its value when none does; other names change nothing. */
  lemma {:induction false} UpdateLastWins(f: Flags, kwargs: seq<(string, bool)>, name: string)
    requires name in FlagNames
    ensures Get(Update(f, kwargs), name) == LastValue(kwargs, name).GetOr(Get(f, name))
  {
    if kwargs != [] {
      UpdateLastWins(f, kwargs[..|kwargs| - 1], name);
    }
  }

  /** get_status_summary: exactly the four flags, by name. */
  function StatusSummary(f: Flags): (r: seq<(string, bool)>)
    ensures |r| == |FlagNames| &&
      forall i | 0 <= i < |r| :: r[i].0 == FlagNames[i] && r[i].1 == Get(f, FlagNames[i])
  {
    [("auth_available", f.authAvailable), ("main_router_available", f.mainRouterAvailable),
     ("rag_available", f.ragAvailable), ("user_manager_available", f.userManagerAvailable)]
  }

  /** Passing the summary back to update_status restores the flags it was taken from,
      whatever they were before. */
  lemma SummaryRestores(f: Flags, g: Flags)
    ensures Update(g, StatusSummary(f)) == f
  {
    var s := StatusSummary(f);
    assert s[..1][..0] == [] && s[..2][..1] == s[..1] && s[..3][..2] == s[..2] && s[..4][..3] == s[..3];
    assert Update(g, s[..1]) == g.(authAvailable := f.authAvailable);
    assert Update(g, s[..2]) == g.(authAvailable := f.authAvailable, mainRouterAvailable := f.mainRouterAvailable);
    assert Update(g, s[..3]) == f.(userManagerAvailable := g.userManagerAvailable);
    assert s[..4] == s;
  }

  class SystemStatus {
    var authAvailable: bool
    var mainRouterAvailable: bool
    var ragAvailable: bool
    var userManagerAvailable: bool

    function Current(): Flags
      reads this
    {
      Flags(authAvailable, mainRouterAvailable, ragAvailable, userManagerAvailable)
    }

    /** Every flag starts False. */
    constructor()
      ensures Current() == Flags(false, false, false, false)
    {
      authAvailable, mainRouterAvailable, ragAvailable, userManagerAvailable := false, false, false, false;
    }

    /** update_status: the loop over the keyword arguments with hasattr/setattr. */
    method UpdateStatus(kwargs: seq<(string, bool)>)
      modifies this
      ensures Current() == Update(old(Current()), kwargs)
    {
      var k := 0;
      while k < |kwargs|
        invariant 0 <= k <= |kwargs|
        invariant Current() == Update(old(Current()), kwargs[..k])
      {
        assert kwargs[..k + 1][..k] == kwargs[..k];
        var (key, value) := kwargs[k];
        if key == "auth_available" {
          authAvailable := value;
        } else if key == "main_router_available" {
          mainRouterAvailable := value;
        } else if key == "rag_available" {
          ragAvailable := value;
        } else if key == "user_manager_available" {
          userManagerAvailable := value;
        }
        k := k + 1;
      }
      assert kwargs[..k] == kwargs;
    }

    method GetStatusSummary() returns (summary: seq<(string, bool)>)
      ensures summary == StatusSummary(Current())
    {
      summary := [("auth_available", authAvailable), ("main_router_available", mainRouterAvailable),
                  ("rag_available", ragAvailable), ("user_manager_available", userManagerAvailable)];
    }
  }
}
