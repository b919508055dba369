/**
 * The connection manager: a cached `isConnected` flag in front of the database driver,
 * with single-attempt, idempotent connect and disconnect.
 */
module Database {
  import opened Wrappers

  /** The driver's ready state, folded to the two values the manager looks at. */
  datatype DriverState = Connected | Disconnected | Other

  /** What a driver call does: it succeeds or fails with a message, and leaves the driver in some state. */
  datatype DriverReply = Succeeded(after: DriverState) | Failed(message: string, after: DriverState)

  /** The calls the manager makes into the driver, in order. */
  datatype DriverCall = SetStrictQuery(on: bool) | Connect(url: string) | Disconnect

  /** The cached flag, the driver's ready state and the calls made so far. */
  datatype DbState = DbState(isConnected: bool, driver: DriverState, calls: seq<DriverCall>)

  /** The state at startup: the flag is false. */
  function InitialDbState(driver: DriverState): (s: DbState)
    ensures !s.isConnected && s.calls == []
  {
    DbState(false, driver, [])
  }

  /** The result of one operation: the new state and success or the error's message. */
  datatype DbStep = DbStep(state: DbState, outcome: Outcome<string>)

  const MongoUri := "MONGODB_URI"

  /** `requireEnv`: an unset or empty variable is an error naming it; otherwise its value. */
  function RequireEnv(name: string, value: Option<string>): (r: Result<string, string>)
    ensures r.Ok? <==> value.Some? && value.value != ""
    ensures r.Ok? ==> r.value == value.value
    ensures r.Err? ==> r.error == "Missing env var: " + name
  {
    if value.None? || value.value == "" then Err("Missing env var: " + name) else Ok(value.value)
  }

  /**
   * `connectDatabase`. When the cached flag or the driver says connected, no driver call is made
   * and the flag is true. Otherwise a missing `MONGODB_URI` fails before any driver call; with it,
   * strict query mode is set and one connect is attempted, after which the flag is whether the
   * driver is connected. A failure is reported with its own message; nothing is retried.
   */
  function ConnectStep(s: DbState, uri: Option<string>, reply: DriverReply): (r: DbStep)
    ensures s.isConnected || s.driver == Connected ==>
      r == DbStep(s.(isConnected := true), Pass)
    ensures !s.isConnected && s.driver != Connected && (uri.None? || uri.value == "") ==>
      r == DbStep(s, Fail("Missing env var: MONGODB_URI"))
    ensures !s.isConnected && s.driver != Connected && uri.Some? && uri.value != "" ==>
      r.state.calls == s.calls + [SetStrictQuery(true), Connect(uri.value)] &&
      r.state.driver == reply.after &&
      (reply.Succeeded? ==> r.outcome.Pass? && r.state.isConnected == (reply.after == Connected)) &&
      (reply.Failed? ==> r.outcome == Fail(reply.message) && r.state.isConnected == s.isConnected)
  {
    assert "Missing env var: " + MongoUri == "Missing env var: MONGODB_URI";
    if s.isConnected || s.driver == Connected then
      DbStep(s.(isConnected := true), Pass)
    else
      match RequireEnv(MongoUri, uri)
      case Err(msg) => DbStep(s, Fail(msg))
      case Ok(url) =>
        var calls := s.calls + [SetStrictQuery(true), Connect(url)];
        match reply
        case Succeeded(after) => DbStep(DbState(after == Connected, after, calls), Pass)
        case Failed(msg, after) => DbStep(DbState(s.isConnected, after, calls), Fail(msg))
  }

  /**
   * `disconnectDatabase`. When the driver says disconnected, no driver call is made and the flag
   * is left as it was. Otherwise one disconnect is attempted; on success the flag is false, on
   * failure the error's message is reported and the flag is left as it was.
   */
  function DisconnectStep(s: DbState, reply: DriverReply): (r: DbStep)
    ensures s.driver == Disconnected ==> r == DbStep(s, Pass)
    ensures s.driver != Disconnected ==>
      r.state.calls == s.calls + [Disconnect] && r.state.driver == reply.after &&
      (reply.Succeeded? ==> r.outcome.Pass? && !r.state.isConnected) &&
      (reply.Failed? ==> r.outcome == Fail(reply.message) && r.state.isConnected == s.isConnected)
  {
    if s.driver == Disconnected then DbStep(s, Pass)
    else
      var calls := s.calls + [Disconnect];
      match reply
      case Succeeded(after) => DbStep(DbState(false, after, calls), Pass)
      case Failed(msg, after) => DbStep(DbState(s.isConnected, after, calls), Fail(msg))
  }

  /** The number of connect attempts in a list of driver calls. */
  function ConnectAttempts(calls: seq<DriverCall>): (n: nat)
    ensures n <= |calls|
  {
    if calls == [] then 0
    else ConnectAttempts(calls[..|calls| - 1]) + (if calls[|calls| - 1].Connect? then 1 else 0)
  }

  lemma {:induction false} ConnectAttemptsAppend(a: seq<DriverCall>, b: seq<DriverCall>)
    ensures ConnectAttempts(a + b) == ConnectAttempts(a) + ConnectAttempts(b)
    decreases |b|
  {
    if b == [] {
      assert a + b == a;
    } else {
      assert (a + b)[..|a + b| - 1] == a + b[..|b| - 1];
      ConnectAttemptsAppend(a, b[..|b| - 1]);
    }
  }

  /**
   * Connecting twice in a row makes at most one connection attempt: after a first connect the
   * driver reports connected, the second connect makes no driver call at all.
   */
  lemma ConnectTwiceAttemptsOnce(s: DbState, uri: Option<string>, first: DriverReply, second: DriverReply)
    requires first.Succeeded? && first.after == Connected
    ensures var s1 := ConnectStep(s, uri, first).state;
      ConnectStep(s1, uri, second).state.calls == s1.calls
    ensures var s2 := ConnectStep(ConnectStep(s, uri, first).state, uri, second).state;
      ConnectAttempts(s2.calls) <= ConnectAttempts(s.calls) + 1
  {
    var s1 := ConnectStep(s, uri, first).state;
    if !(s.isConnected || s.driver == Connected) && uri.Some? && uri.value != "" {
      ConnectAttemptsAppend(s.calls, [SetStrictQuery(true), Connect(uri.value)]);
      assert ConnectAttempts([SetStrictQuery(true), Connect(uri.value)]) == 1 by {
        assert [SetStrictQuery(true), Connect(uri.value)][..1] == [SetStrictQuery(true)];
        assert [SetStrictQuery(true)][..0] == [];
      }
    }
  }

  /**
   * From a driver that is not disconnected, a successful disconnect clears the flag, and when it
   * leaves the driver disconnected a second disconnect makes no driver call and changes nothing.
   */
  lemma DisconnectIdempotent(s: DbState, first: DriverReply, second: DriverReply)
    requires s.driver != Disconnected
    requires first.Succeeded? && first.after == Disconnected
    ensures var s1 := DisconnectStep(s, first).state;
      DisconnectStep(s1, second) == DbStep(s1, Pass) && !s1.isConnected
  {
  }

  /**
   * The disconnect short-circuit keeps a stale flag: when the driver has dropped to disconnected
   * on its own while the flag is still true, a disconnect leaves the flag true and a later connect
   * then trusts it and makes no driver call, although the driver stays disconnected.
   */
  lemma StaleFlagSkipsReconnect(s: DbState, uri: Option<string>, d: DriverReply, c: DriverReply)
    requires s.isConnected && s.driver == Disconnected
    ensures var s1 := DisconnectStep(s, d).state;
      var s2 := ConnectStep(s1, uri, c);
      s1.isConnected && s2.outcome.Pass? && s2.state.calls == s.calls && s2.state.driver == Disconnected
  {
  }

  /** The module-level state of the connection manager, changed in place by its two operations. */
  class ConnectionManager {
    var isConnected: bool
    var driver: DriverState
    var calls: seq<DriverCall>

    function State(): DbState
      reads this
    {
      DbState(isConnected, driver, calls)
    }

    constructor (driver: DriverState)
      ensures State() == InitialDbState(driver)
    {
      isConnected := false;
      this.driver := driver;
      calls := [];
    }

    /** `connectDatabase`, step by step. */
    method ConnectDatabase(uri: Option<string>, reply: DriverReply) returns (outcome: Outcome<string>)
      modifies this
      ensures DbStep(State(), outcome) == ConnectStep(old(State()), uri, reply)
    {
      if isConnected || driver == Connected {
        isConnected := true;
        return Pass;
      }
      var url := RequireEnv(MongoUri, uri);
      if url.Err? {
        return Fail(url.error);
      }
      calls := calls + [SetStrictQuery(true)];
      calls := calls + [Connect(url.value)];
      driver := reply.after;
      if reply.Failed? {
        return Fail(reply.message);
      }
      isConnected := driver == Connected;
      return Pass;
    }

    /** `disconnectDatabase`, step by step. */
    method DisconnectDatabase(reply: DriverReply) returns (outcome: Outcome<string>)
      modifies this
      ensures DbStep(State(), outcome) == DisconnectStep(old(State()), reply)
    {
      if driver == Disconnected {
        return Pass;
      }
      calls := calls + [Disconnect];
      driver := reply.after;
      if reply.Failed? {
        return Fail(reply.message);
      }
      isConnected := false;
      return Pass;
    }
  }
}
