/** The admin client: the settings its command line leaves in its static fields, and the
    shutdown request it sends when its session with the server starts.

    Parsing the command line itself is not modelled: a parsed command line is the set of
    options present, with their raw values. */
module Admin {
  import opened Common
  import opened JavaText

  /** The three shutdown events the admin can ask for. */
  datatype ShutdownKind = ShutdownServer | ForceShutdownServer | VaderShutdownServer

  /** One `endpoint.emit(event, password)`. */
  datatype ShutdownRequest = ShutdownRequest(to: Conn, kind: ShutdownKind, password: string)

  /** The settings the client runs with. */
  datatype Settings = Settings(port: int, host: string, password: string, shutdown: bool, vader: bool, force: bool)

  /** The options present on the command line, with the raw text of those that take a
      value. */
  datatype CommandLine = CommandLine(
    port: Option<string>, host: Option<string>, password: Option<string>,
    shutdown: bool, vader: bool, force: bool)

  /** The settings before any option is read: the default server address, an empty
      password and every shutdown flag off. */
  function Defaults(serverPort: int, serverHost: string): (s: Settings)
    ensures s.password == "" && !s.shutdown && !s.vader && !s.force
    ensures s.port == serverPort && s.host == serverHost
  {
    Settings(serverPort, serverHost, "", false, false, false)
  }

  /** The option handling of `main`: `None` when the port does not parse, where the client
      prints its help and exits. The three flags can only be switched on. */
  function Configure(s: Settings, cmd: CommandLine): (r: Option<Settings>)
    ensures r.None? <==> cmd.port.Some? && ParseInteger(cmd.port.value, IntMax).None?
    ensures r.Some? ==> r.value.shutdown == (s.shutdown || cmd.shutdown)
    ensures r.Some? ==> r.value.vader == (s.vader || cmd.vader)
    ensures r.Some? ==> r.value.force == (s.force || cmd.force)
    ensures r.Some? ==> r.value.password == (if cmd.password.Some? then cmd.password.value else s.password)
    ensures r.Some? ==> r.value.host == (if cmd.host.Some? then cmd.host.value else s.host)
    ensures r.Some? && cmd.port.Some? ==> Some(r.value.port) == ParseInteger(cmd.port.value, IntMax)
    ensures r.Some? && cmd.port.None? ==> r.value.port == s.port
  {
    var port := if cmd.port.Some? then ParseInteger(cmd.port.value, IntMax) else Some(s.port);
    if port.None? then None
    else Some(Settings(
      port.value,
      if cmd.host.Some? then cmd.host.value else s.host,
      if cmd.password.Some? then cmd.password.value else s.password,
      s.shutdown || cmd.shutdown, s.vader || cmd.vader, s.force || cmd.force))
  }

  /** The `sessionStarted` handler: three separate tests on the flags, each of which may
      emit its event with the password. */
  function SessionStartedRequests(to: Conn, s: Settings): (r: seq<ShutdownRequest>)
    ensures |r| <= 1
    ensures r != [] <==> s.shutdown && !(s.vader && s.force)
    ensures forall i :: 0 <= i < |r| ==> r[i].to == to && r[i].password == s.password
    ensures r == [ShutdownRequest(to, ShutdownServer, s.password)] <==> s.shutdown && !s.vader && !s.force
    ensures r == [ShutdownRequest(to, ForceShutdownServer, s.password)] <==> s.shutdown && !s.vader && s.force
    ensures r == [ShutdownRequest(to, VaderShutdownServer, s.password)] <==> s.shutdown && s.vader && !s.force
  {
    var plain := if s.shutdown && !s.vader && !s.force then [ShutdownRequest(to, ShutdownServer, s.password)] else [];
    var forced := if s.shutdown && !s.vader && s.force then [ShutdownRequest(to, ForceShutdownServer, s.password)] else [];
    var vader := if s.shutdown && s.vader && !s.force then [ShutdownRequest(to, VaderShutdownServer, s.password)] else [];
    assert forced == [] && vader == [] ==> plain + forced + vader == plain;
    assert plain == [] && vader == [] ==> plain + forced + vader == forced;
    assert plain == [] && forced == [] ==> plain + forced + vader == vader;
    plain + forced + vader
  }

  /** Run without options, the client connects and sends nothing. */
  lemma BareRunSendsNothing(serverPort: int, serverHost: string, to: Conn)
    ensures var s := Configure(Defaults(serverPort, serverHost), CommandLine(None, None, None, false, false, false));
      s.Some? && SessionStartedRequests(to, s.value) == []
  {
  }

  /** Starting from the defaults, the request sent is decided by the three options alone,
      and it carries the password given on the command line (empty when there is none). */
  lemma RequestFollowsOptions(serverPort: int, serverHost: string, cmd: CommandLine, to: Conn)
    requires cmd.port.None? || ParseInteger(cmd.port.value, IntMax).Some?
    ensures var s := Configure(Defaults(serverPort, serverHost), cmd);
      && s.Some?
      && SessionStartedRequests(to, s.value) ==
        (if !cmd.shutdown || (cmd.vader && cmd.force) then []
         else [ShutdownRequest(to,
                 if cmd.vader then VaderShutdownServer else if cmd.force then ForceShutdownServer else ShutdownServer,
                 if cmd.password.Some? then cmd.password.value else "")])
  {
  }

  class AdminClient {
    var port: int
    var host: string
    var password: string
    var shutdown: bool
    var vader: bool
    var force: bool
    /** Every shutdown request emitted so far, oldest first. */
    var sent: seq<ShutdownRequest>

    function Current(): Settings
      reads this
    {
      Settings(port, host, password, shutdown, vader, force)
    }

    /** The static fields' initial values. */
    constructor (serverPort: int, serverHost: string)
      ensures Current() == Defaults(serverPort, serverHost) && sent == []
    {
      port := serverPort;
      host := serverHost;
      password := "";
      shutdown, vader, force := false, false, false;
      sent := [];
    }

    /** `main`'s option handling, field by field; `exited` when the port does not parse,
        after which nothing else is read. */
    method ApplyOptions(cmd: CommandLine) returns (exited: bool)
      modifies this
      ensures exited <==> Configure(old(Current()), cmd).None?
      ensures !exited ==> Current() == Configure(old(Current()), cmd).value
      ensures exited ==> Current() == old(Current())
      ensures sent == old(sent)
    {
      if cmd.port.Some? {
        var parsed := ParseInteger(cmd.port.value, IntMax);
        if parsed.None? {
          return true;
        }
        port := parsed.value;
      }
      if cmd.host.Some? {
        host := cmd.host.value;
      }
      if cmd.password.Some? {
        password := cmd.password.value;
      }
      if cmd.shutdown {
        shutdown := true;
      }
      if cmd.vader {
        vader := true;
      }
      if cmd.force {
        force := true;
      }
      exited := false;
    }

    /** The `sessionStarted` handler. */
    method OnSessionStarted(endpoint: Conn)
      modifies this
      ensures sent == old(sent) + SessionStartedRequests(endpoint, Current())
      ensures Current() == old(Current())
    {
      if shutdown && !vader && !force {
        sent := sent + [ShutdownRequest(endpoint, ShutdownServer, password)];
      }
      if shutdown && !vader && force {
        sent := sent + [ShutdownRequest(endpoint, ForceShutdownServer, password)];
      }
      if shutdown && vader && !force {
        sent := sent + [ShutdownRequest(endpoint, VaderShutdownServer, password)];
      }
    }
  }
}
