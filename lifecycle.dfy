/**
 * The process lifecycle of the HTTP service: connect then listen at startup, and a guarded,
 * at-most-once graceful shutdown that every termination trigger goes through.
 */
module Lifecycle {
  import opened Wrappers
  import opened JsText
  import opened Database

  /** A listening HTTP server, on the port read from `PORT` (`None`: text whose `Number` value is not modelled). */
  datatype HttpServer = HttpServer(port: Option<int>)

  /** The observable steps of the process, in order. */
  datatype Event =
    | Listen(port: Option<int>)
    | ShutdownBegun(signal: string)
    | CloseServer
    | DisconnectDb
    | SetExitCode(code: int)
    | FlushStdout
    | Wait(ms: nat)
    | Exit(code: int)

  /** What triggers a shutdown. */
  datatype Trigger = Sigterm | Sigint | UncaughtException(message: string) | UnhandledRejection(reason: string)

  /** The name each handler passes to the shutdown routine. */
  function SignalName(t: Trigger): (name: string)
    ensures name == "SIGTERM" <==> t.Sigterm?
    ensures name == "SIGINT" <==> t.Sigint?
    ensures name == "uncaughtException" <==> t.UncaughtException?
    ensures name == "unhandledRejection" <==> t.UnhandledRejection?
  {
    match t
    case Sigterm => "SIGTERM"
    case Sigint => "SIGINT"
    case UncaughtException(_) => "uncaughtException"
    case UnhandledRejection(_) => "unhandledRejection"
  }

  const DefaultPort := 3000
  const ShutdownGraceMs: nat := 50

  /**
   * `Number(process.env.PORT || 3000)` for the inputs modelled: an unset or empty variable gives
   * 3000, text that trims to nothing gives 0, text that trims to decimal digits gives their value,
   * and anything else (signs, fractions, exponents, NaN) is not modelled (`None`).
   */
  function PortFromEnv(env: Option<string>): (r: Option<int>)
    ensures env.None? || env == Some("") ==> r == Some(DefaultPort)
    ensures r.Some? ==> r.value >= 0
  {
    if env.None? || env.value == "" then Some(DefaultPort)
    else
      var t := Trim(env.value);
      if AllDigits(t) then Some(DigitsValue(t)) else None
  }

  /** A port written in decimal, with surrounding whitespace or not, is read back as that port. */
  lemma PortFromDecimal(w1: string, n: nat, w2: string)
    requires AllWhitespace(w1) && AllWhitespace(w2)
    ensures PortFromEnv(Some(w1 + NatToDecimal(n) + w2)) == Some(n)
  {
    var d := NatToDecimal(n);
    assert IsAsciiDigit(d[0]) && IsAsciiDigit(d[|d| - 1]);
    TrimPadded(w1, d, w2);
  }

  /** The process-wide state: the shutdown flag, the server, the exit code, an exit that happened, the trace and the database. */
  datatype ProcState = ProcState(
    shuttingDown: bool,
    server: Option<HttpServer>,
    exitCode: Option<int>,
    exitStatus: Option<int>,
    trace: seq<Event>,
    db: DbState)

  /** The largest port `app.listen` accepts; a larger one, or none, makes it throw before opening a socket. */
  const MaxPort := 65535

  /** Whether `app.listen` accepts the port rather than throwing a bad-port error. */
  predicate LegalPort(port: Option<int>) {
    port.Some? && 0 <= port.value <= MaxPort
  }

  /**
   * Startup: connect to the database, and only when that succeeds start listening. A failed
   * connect, or a port `app.listen` refuses, is caught and exits the process with code 1.
   */
  function StartupStep(p: ProcState, uri: Option<string>, reply: DriverReply, portEnv: Option<string>): (r: ProcState)
    ensures r.db == ConnectStep(p.db, uri, reply).state
    ensures ConnectStep(p.db, uri, reply).outcome.Pass? && LegalPort(PortFromEnv(portEnv)) ==>
      r.server == Some(HttpServer(PortFromEnv(portEnv))) && r.trace == p.trace + [Listen(PortFromEnv(portEnv))] &&
      r.exitStatus == p.exitStatus
    ensures ConnectStep(p.db, uri, reply).outcome.Fail? || !LegalPort(PortFromEnv(portEnv)) ==>
      r.server == p.server && r.exitStatus == Some(1) && r.trace == p.trace + [Exit(1)]
    ensures r.shuttingDown == p.shuttingDown && r.exitCode == p.exitCode
  {
    var c := ConnectStep(p.db, uri, reply);
    var port := PortFromEnv(portEnv);
    if c.outcome.Pass? && LegalPort(port) then
      p.(db := c.state, server := Some(HttpServer(port)), trace := p.trace + [Listen(port)])
    else
      p.(db := c.state, exitStatus := Some(1), trace := p.trace + [Exit(1)])
  }

  /** A `PORT` above 65535 makes a startup whose connect succeeded exit with code 1, connected but never listening. */
  lemma StartupPortOutOfRange(p: ProcState, uri: Option<string>, reply: DriverReply, w1: string, n: nat, w2: string)
    requires AllWhitespace(w1) && AllWhitespace(w2) && n > MaxPort
    requires ConnectStep(p.db, uri, reply).outcome.Pass?
    ensures var r := StartupStep(p, uri, reply, Some(w1 + NatToDecimal(n) + w2));
      r.exitStatus == Some(1) && r.server == p.server && r.db == ConnectStep(p.db, uri, reply).state &&
      forall e :: e in r.trace[|p.trace|..] ==> !e.Listen?
  {
    PortFromDecimal(w1, n, w2);
    var r := StartupStep(p, uri, reply, Some(w1 + NatToDecimal(n) + w2));
    assert r.trace[|p.trace|..] == [Exit(1)];
  }

  /** Starting with `MONGODB_URI` unset exits with code 1 before any driver call and never listens. */
  lemma StartupWithoutUri(p: ProcState, reply: DriverReply, portEnv: Option<string>)
    requires !p.db.isConnected && p.db.driver != Connected
    ensures var r := StartupStep(p, None, reply, portEnv);
      r.exitStatus == Some(1) && r.db.calls == p.db.calls && forall e :: e in r.trace[|p.trace|..] ==> !e.Listen?
  {
    var r := StartupStep(p, None, reply, portEnv);
    assert r.trace[|p.trace|..] == [Exit(1)];
  }

  /** With `PORT` unset or empty, a successful startup listens on port 3000. */
  lemma StartupDefaultPort(p: ProcState, uri: Option<string>, reply: DriverReply, portEnv: Option<string>)
    requires portEnv.None? || portEnv == Some("")
    requires ConnectStep(p.db, uri, reply).outcome.Pass?
    ensures StartupStep(p, uri, reply, portEnv).server == Some(HttpServer(Some(3000)))
  {
  }

  /** The end of every shutdown path: set the exit code, flush standard output, wait the grace period. */
  function Finish(p: ProcState, code: int): (r: ProcState)
    ensures r.exitCode == Some(code)
    ensures r.trace == p.trace + [SetExitCode(code), FlushStdout, Wait(ShutdownGraceMs)]
  {
    p.(exitCode := Some(code), trace := p.trace + [SetExitCode(code), FlushStdout, Wait(ShutdownGraceMs)])
  }

  /** Whether a shutdown with these step outcomes succeeds: the server closes (or there is none) and the database disconnects. */
  predicate ShutdownSucceeds(p: ProcState, close: Outcome<string>, reply: DriverReply) {
    (p.server.None? || close.Pass?) && DisconnectStep(p.db, reply).outcome.Pass?
  }

  /**
   * `gracefulShutdown`. When a shutdown has begun, nothing happens. Otherwise the flag is set,
   * the server (if any) is closed, then the database is disconnected unless the close failed,
   * and the exit code is 0 when both steps succeeded and 1 otherwise.
   */
  function ShutdownStep(p: ProcState, signal: string, close: Outcome<string>, reply: DriverReply): (r: ProcState)
    ensures p.shuttingDown ==> r == p
    ensures !p.shuttingDown ==> r.shuttingDown && r.server == p.server && r.exitStatus == p.exitStatus
    ensures !p.shuttingDown ==> r.exitCode == Some(if ShutdownSucceeds(p, close, reply) then 0 else 1)
    ensures !p.shuttingDown && p.server.Some? && close.Fail? ==> r.db == p.db
    ensures !p.shuttingDown && (p.server.None? || close.Pass?) ==> r.db == DisconnectStep(p.db, reply).state
    ensures |r.trace| >= |p.trace| && r.trace[..|p.trace|] == p.trace
  {
    if p.shuttingDown then p
    else
      var begun := p.(shuttingDown := true, trace := p.trace + [ShutdownBegun(signal)]);
      var closed := if p.server.Some? then begun.(trace := begun.trace + [CloseServer]) else begun;
      if p.server.Some? && close.Fail? then Finish(closed, 1)
      else
        var d := DisconnectStep(closed.db, reply);
        var disconnected := closed.(db := d.state, trace := closed.trace + [DisconnectDb]);
        Finish(disconnected, if d.outcome.Pass? then 0 else 1)
  }

  /** `a` occurs in `s` before `b` does. */
  ghost predicate Before(s: seq<Event>, a: Event, b: Event) {
    exists i, j :: 0 <= i < j < |s| && s[i] == a && s[j] == b
  }

  /**
   * The order of a shutdown: it begins with the trigger's name; the server is closed exactly when
   * there is one, and before the database disconnect; the disconnect is skipped exactly when the
   * close failed; and it ends by setting the exit code, flushing, then waiting.
   */
  lemma ShutdownOrder(p: ProcState, signal: string, close: Outcome<string>, reply: DriverReply)
    requires !p.shuttingDown
    ensures var r := ShutdownStep(p, signal, close, reply);
      var added := r.trace[|p.trace|..];
      var code := if ShutdownSucceeds(p, close, reply) then 0 else 1;
      |added| >= 4 && added[0] == ShutdownBegun(signal) &&
      (CloseServer in added <==> p.server.Some?) &&
      (DisconnectDb in added <==> p.server.None? || close.Pass?) &&
      (p.server.Some? && close.Pass? ==> Before(added, CloseServer, DisconnectDb)) &&
      added[|added| - 3..] == [SetExitCode(code), FlushStdout, Wait(ShutdownGraceMs)]
  {
    var r := ShutdownStep(p, signal, close, reply);
    var added := r.trace[|p.trace|..];
    var code := if ShutdownSucceeds(p, close, reply) then 0 else 1;
    var tail := [SetExitCode(code), FlushStdout, Wait(ShutdownGraceMs)];
    if p.server.Some? {
      if close.Fail? {
        assert added == [ShutdownBegun(signal), CloseServer] + tail;
      } else {
        assert added == [ShutdownBegun(signal), CloseServer, DisconnectDb] + tail;
        assert added[1] == CloseServer && added[2] == DisconnectDb;
      }
    } else {
      assert added == [ShutdownBegun(signal), DisconnectDb] + tail;
    }
  }

  /** One trigger together with the outcomes its shutdown steps would have. */
  datatype TriggerCall = TriggerCall(trigger: Trigger, close: Outcome<string>, reply: DriverReply)

  /**
   * Triggers arriving one after another, each handled by the shared shutdown routine. The trace
   * only grows, and the process is shutting down afterwards exactly when it was before or some
   * trigger arrived.
   */
  function RunTriggers(p: ProcState, calls: seq<TriggerCall>): (r: ProcState)
    ensures |r.trace| >= |p.trace| && r.trace[..|p.trace|] == p.trace
    ensures r.shuttingDown <==> p.shuttingDown || calls != []
    ensures r.server == p.server && r.exitStatus == p.exitStatus
    decreases |calls|
  {
    if calls == [] then p
    else
      var c := calls[0];
      RunTriggers(ShutdownStep(p, SignalName(c.trigger), c.close, c.reply), calls[1..])
  }

  /** Once a shutdown has begun, any number of further triggers change nothing. */
  lemma {:induction false} TriggersAfterShutdownIgnored(p: ProcState, calls: seq<TriggerCall>)
    requires p.shuttingDown
    ensures RunTriggers(p, calls) == p
    decreases |calls|
  {
    if calls != [] {
      TriggersAfterShutdownIgnored(p, calls[1..]);
    }
  }

  /**
   * At most once: whatever triggers arrive, and in whatever order, the outcome is that of the first
   * trigger's shutdown alone.
   */
  lemma ShutdownAtMostOnce(p: ProcState, calls: seq<TriggerCall>)
    requires calls != []
    ensures var c := calls[0];
      RunTriggers(p, calls) == ShutdownStep(p, SignalName(c.trigger), c.close, c.reply)
  {
    var c := calls[0];
    var first := ShutdownStep(p, SignalName(c.trigger), c.close, c.reply);
    TriggersAfterShutdownIgnored(first, calls[1..]);
  }

  /** The module-level state of the server process, changed in place by startup and shutdown. */
  class Process {
    var shuttingDown: bool
    var server: Option<HttpServer>
    var exitCode: Option<int>
    var exitStatus: Option<int>
    var trace: seq<Event>
    const db: ConnectionManager
    /** The `PORT` variable as it was when the module loaded. */
    const portEnv: Option<string>

    function Snapshot(): ProcState
      reads this, db
    {
      ProcState(shuttingDown, server, exitCode, exitStatus, trace, db.State())
    }

    constructor (db: ConnectionManager, portEnv: Option<string>)
      ensures this.db == db && this.portEnv == portEnv
      ensures !shuttingDown && server.None? && exitCode.None? && exitStatus.None? && trace == []
    {
      shuttingDown := false;
      server := None;
      exitCode := None;
      exitStatus := None;
      trace := [];
      this.db := db;
      this.portEnv := portEnv;
    }

    /** The startup block: connect, then listen; when either throws, exit with code 1. */
    method Startup(uri: Option<string>, reply: DriverReply)
      modifies this, db
      ensures Snapshot() == StartupStep(old(Snapshot()), uri, reply, portEnv)
    {
      ghost var before := Snapshot();
      var port := PortFromEnv(portEnv);
      var connected := db.ConnectDatabase(uri, reply);
      ghost var c := ConnectStep(before.db, uri, reply);
      assert db.State() == c.state && connected == c.outcome;
      if connected.Fail? || !LegalPort(port) {
        exitStatus := Some(1);
        trace := trace + [Exit(1)];
        assert Snapshot() == before.(db := c.state, exitStatus := Some(1), trace := before.trace + [Exit(1)]);
        return;
      }
      server := Some(HttpServer(port));
      trace := trace + [Listen(port)];
      assert Snapshot() == before.(db := c.state, server := Some(HttpServer(port)), trace := before.trace + [Listen(port)]);
    }

    /** `gracefulShutdown`: the guard is tested and set before any step that could suspend. */
    method GracefulShutdown(signal: string, close: Outcome<string>, reply: DriverReply)
      modifies this, db
      ensures Snapshot() == ShutdownStep(old(Snapshot()), signal, close, reply)
    {
      if shuttingDown {
        return;
      }
      shuttingDown := true;
      trace := trace + [ShutdownBegun(signal)];
      if server.Some? {
        trace := trace + [CloseServer];
        if close.Fail? {
          exitCode := Some(1);
          trace := trace + [SetExitCode(1), FlushStdout, Wait(ShutdownGraceMs)];
          return;
        }
      }
      trace := trace + [DisconnectDb];
      var disconnected := db.DisconnectDatabase(reply);
      var code := if disconnected.Pass? then 0 else 1;
      exitCode := Some(code);
      trace := trace + [SetExitCode(code)];
      trace := trace + [FlushStdout];
      trace := trace + [Wait(ShutdownGraceMs)];
    }

    /** The SIGTERM, SIGINT, uncaughtException and unhandledRejection handlers all call the same shutdown. */
    method OnTrigger(t: Trigger, close: Outcome<string>, reply: DriverReply)
      modifies this, db
      ensures Snapshot() == ShutdownStep(old(Snapshot()), SignalName(t), close, reply)
    {
      GracefulShutdown(SignalName(t), close, reply);
    }
  }
}
