/** The container command of the pod and the driver's command-line flags. */
module DriverFlags {
  import opened Options
  import opened Text
  import opened CommandLine
  import PodManifest

  datatype Name = Copy | JobNamespace | JobName | GrpcService | GrpcPort | OutputPathFlag

  function NameText(name: Name): string {
    match name
    case Copy => "copy"
    case JobNamespace => "job-namespace"
    case JobName => "job-name"
    case GrpcService => "grpc-service"
    case GrpcPort => "grpc-port"
    case OutputPathFlag => "output-path"
  }

  datatype Settings = Settings(copy: string, jobNamespace: string, jobName: string,
                               grpcService: string, grpcPort: int, outputPath: string)

  const DEFAULTS := Settings("", "", "", "", 8082, OUTPUT_PATH)
  const DRIVER_PATH := "/opt/app-root/src/bin/driver"

  predicate Int64(n: int) {
    -0x8000_0000_0000_0000 <= n < 0x8000_0000_0000_0000
  }

  /** generateCmd. */
  function GenerateCmd(namespace: string, name: string, service: string, serviceNamespace: string, port: int)
    : seq<string>
  {
    [DRIVER_PATH,
     "--job-namespace", namespace,
     "--job-name", name,
     "--grpc-service", service + "." + serviceNamespace + ".svc",
     "--grpc-port", Itoa(port),
     "--output-path", "/opt/app-root/src/output",
     "--"]
  }

  function NameOf(s: string): Option<Name> {
    if s == NameText(Copy) then Some(Copy)
    else if s == NameText(JobNamespace) then Some(JobNamespace)
    else if s == NameText(JobName) then Some(JobName)
    else if s == NameText(GrpcService) then Some(GrpcService)
    else if s == NameText(GrpcPort) then Some(GrpcPort)
    else if s == NameText(OutputPathFlag) then Some(OutputPathFlag)
    else None
  }

  /** The value of an int flag; a leading 0 would select another base. */
  function IntValue(s: string): Option<int> {
    var digits := if s != "" && (s[0] == '-' || s[0] == '+') then s[1..] else s;
    var n := ParseDecimal(s);
    if n.None? || !Int64(n.value) || (|digits| > 1 && digits[0] == '0') then None else n
  }

  function Set(settings: Settings, name: Name, value: string): Option<Settings> {
    match name
    case Copy => Some(settings.(copy := value))
    case JobNamespace => Some(settings.(jobNamespace := value))
    case JobName => Some(settings.(jobName := value))
    case GrpcService => Some(settings.(grpcService := value))
    case GrpcPort => if IntValue(value).None? then None else Some(settings.(grpcPort := IntValue(value).value))
    case OutputPathFlag => Some(settings.(outputPath := value))
  }

  /** The settings and the arguments left over, or an error. */
  datatype Parsed = Parsed(settings: Settings, rest: seq<string>) | Rejected

  /** flag.Parse: one flag, then the others; "--" and the first argument that is
      not a flag end it. */
  function Parse(args: seq<string>, settings: Settings): Parsed
    decreases |args|, 0
  {
    if args == [] then Parsed(settings, [])
    else
      var a := args[0];
      if |a| < 2 || a[0] != '-' then Parsed(settings, args)
      else if a == "--" then Parsed(settings, args[1..])
      else
        var body := if a[1] == '-' then a[2..] else a[1..];
        if body == "" || body[0] == '-' || body[0] == '=' then Rejected
        else
          var n := Cut(body, '=');
          var name := NameOf(body[..n]);
          if name.None? then Rejected
          else if n < |body| then ParseValue(settings, name.value, body[n + 1..], args[1..])
          else if |args| < 2 then Rejected
          else ParseValue(settings, name.value, args[1], args[2..])
  }

  function ParseValue(settings: Settings, name: Name, value: string, rest: seq<string>): Parsed
    decreases |rest|, 1
  {
    var s := Set(settings, name, value);
    if s.None? then Rejected else Parse(rest, s.value)
  }

  lemma NameReads(name: Name)
    ensures NameOf(NameText(name)) == Some(name)
    ensures NameText(name) != "" && NameText(name)[0] != '-' && Free(NameText(name), '=')
  {}

  lemma CutNothing(s: string, c: char)
    requires Free(s, c)
    ensures Cut(s, c) == |s|
  {}

  /** A flag takes the argument after it, whatever that looks like. */
  lemma ParsesFlag(name: Name, value: string, rest: seq<string>, settings: Settings)
    ensures Parse(["--" + NameText(name), value] + rest, settings) == ParseValue(settings, name, value, rest)
  {
    var args := ["--" + NameText(name), value] + rest;
    var a := args[0];
    NameReads(name);
    CutNothing(NameText(name), '=');
    assert a[..2] == "--" && a[2..] == NameText(name) && a[1] == '-';
    assert NameText(name)[..|NameText(name)|] == NameText(name);
    assert args[2..] == rest && a != "--";
  }

  lemma PortReads(port: int)
    requires Int64(port)
    ensures IntValue(Itoa(port)) == Some(port)
  {
    ParseItoa(port);
    var m: nat := if port < 0 then -port else port;
    LeadingDigit(m);
    if port < 0 {
      assert Itoa(port)[1..] == Digits(m);
    }
  }

  function Flagged(name: Name, value: string, rest: seq<string>): seq<string> {
    ["--" + NameText(name), value] + rest
  }

  lemma Dashed()
    ensures "--" + NameText(Copy) == "--copy"
    ensures "--" + NameText(JobNamespace) == "--job-namespace"
    ensures "--" + NameText(JobName) == "--job-name"
    ensures "--" + NameText(GrpcService) == "--grpc-service"
    ensures "--" + NameText(GrpcPort) == "--grpc-port"
    ensures "--" + NameText(OutputPathFlag) == "--output-path"
  {}

  lemma CmdIsFlagged(namespace: string, name: string, service: string, serviceNamespace: string, port: int,
                     args: seq<string>)
    ensures (GenerateCmd(namespace, name, service, serviceNamespace, port) + args)[1..]
            == Flagged(JobNamespace, namespace,
                 Flagged(JobName, name,
                   Flagged(GrpcService, service + "." + serviceNamespace + ".svc",
                     Flagged(GrpcPort, Itoa(port),
                       Flagged(OutputPathFlag, OUTPUT_PATH, ["--"] + args)))))
  {
    Dashed();
  }

  /** The flags the controller writes into the pod are the settings the driver
      reads, and the driver runs exactly the command meant for it, for every
      namespace, name, service and command, also with leading dashes. */
  lemma FlagRoundTrip(namespace: string, name: string, service: string, serviceNamespace: string, port: int,
                      args: seq<string>)
    requires Int64(port)
    ensures Parse((GenerateCmd(namespace, name, service, serviceNamespace, port) + args)[1..], DEFAULTS)
            == Parsed(Settings("", namespace, name, service + "." + serviceNamespace + ".svc", port, "/opt/app-root/src/output"), args)
  {
    var address := service + "." + serviceNamespace + ".svc";
    var r5 := ["--"] + args;
    var r4 := Flagged(OutputPathFlag, OUTPUT_PATH, r5);
    var r3 := Flagged(GrpcPort, Itoa(port), r4);
    var r2 := Flagged(GrpcService, address, r3);
    var r1 := Flagged(JobName, name, r2);
    CmdIsFlagged(namespace, name, service, serviceNamespace, port, args);
    var s1 := DEFAULTS.(jobNamespace := namespace);
    var s2 := s1.(jobName := name);
    var s3 := s2.(grpcService := address);
    var s4 := s3.(grpcPort := port);
    ParsesFlag(JobNamespace, namespace, r1, DEFAULTS);
    ParsesFlag(JobName, name, r2, s1);
    ParsesFlag(GrpcService, address, r3, s2);
    ParsesFlag(GrpcPort, Itoa(port), r4, s3);
    PortReads(port);
    ParsesFlag(OutputPathFlag, OUTPUT_PATH, r5, s4);
    assert r5[1..] == args;
  }

  /** What main does with its arguments. */
  datatype Action = BadUsage | CopySelf(destination: string) | NoProgram | Drive(settings: Settings, program: seq<string>)

  function MainAction(args: seq<string>): Action {
    match Parse(args, DEFAULTS)
    case Rejected => BadUsage
    case Parsed(settings, rest) =>
      if settings.copy != "" then CopySelf(settings.copy)
      else if rest == [] then NoProgram
      else Drive(settings, rest)
  }

  /** In the pod's main container the driver runs the evaluation command of the
      job it reports on; in the init container it copies itself where the main
      container's command finds it. */
  lemma PodRunsTheJob(namespace: string, name: string, service: string, serviceNamespace: string, port: int, spec: Spec)
    requires Int64(port)
    ensures MainAction((GenerateCmd(namespace, name, service, serviceNamespace, port) + ["sh", "-ec", Line(spec)])[1..])
            == Drive(Settings("", namespace, name, service + "." + serviceNamespace + ".svc", port, "/opt/app-root/src/output"),
                     ["sh", "-ec", Line(spec)])
    ensures MainAction(["--copy", DRIVER_PATH])
            == CopySelf(GenerateCmd(namespace, name, service, serviceNamespace, port)[0])
  {
    FlagRoundTrip(namespace, name, service, serviceNamespace, port, ["sh", "-ec", Line(spec)]);
    ParsesFlag(Copy, DRIVER_PATH, [], DEFAULTS);
    Dashed();
    assert ["--copy", DRIVER_PATH] == ["--" + NameText(Copy), DRIVER_PATH] + [];
  }

  /** Without a program after the flags the driver runs nothing. */
  lemma NothingToRun(namespace: string, name: string, service: string, serviceNamespace: string, port: int)
    requires Int64(port)
    ensures MainAction(GenerateCmd(namespace, name, service, serviceNamespace, port)[1..]) == NoProgram
  {
    var cmd := GenerateCmd(namespace, name, service, serviceNamespace, port);
    FlagRoundTrip(namespace, name, service, serviceNamespace, port, []);
    assert cmd + [] == cmd;
  }

  /** The init container copies the driver into the volume that the main container
      runs it from. */
  lemma DriverIsShared()
    ensures DRIVER_PATH == PodManifest.SHARED_MOUNT.mountPath + "/driver"
  {}
}
