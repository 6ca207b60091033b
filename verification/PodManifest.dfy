/** The parts of a job's pod that depend on its secrets and on the TLS mode: the
    environment, the volumes and the mounts of the main container. */
module PodManifest {
  import opened Options
  import opened Text

  datatype TLSMode = TLSNone | TLSServer | TLSMutual

  datatype SecretKey = SecretKey(name: string, key: string)

  /** `secret` is plain text, `secretRef` the key of a secret object. */
  datatype EnvSecret = EnvSecret(env: string, secretRef: Option<SecretKey>, secret: Option<string>)

  datatype SecretSource = SecretSource(secretName: string, items: seq<string>)

  datatype FileSecret = FileSecret(secretRef: SecretSource, mountPath: string)

  datatype EnvValue = Plain(text: string) | FromSecret(ref: SecretKey)

  datatype EnvVar = EnvVar(name: string, value: EnvValue)

  datatype VolumeSource = EmptyDir | Secret(source: SecretSource)

  datatype Volume = Volume(name: string, source: VolumeSource)

  datatype VolumeMount = VolumeMount(name: string, mountPath: string, readOnly: bool)

  const GRPC_CLIENT_KEY := "GRPC_CLIENT_KEY"
  const GRPC_CLIENT_CERT := "GRPC_CLIENT_CERT"
  const GRPC_SERVER_CA := "GRPC_SERVER_CA"

  const CLIENT_CERTS := "/tmp/k8s-grpc-client/certs"
  const SERVER_CERTS := "/tmp/k8s-grpc-server/certs"

  class ServiceOptions {
    var grpcServerSecret: string
    var grpcClientSecret: string
    var grpcTLSMode: TLSMode

    constructor (server: string, client: string)
      ensures grpcServerSecret == server && grpcClientSecret == client && grpcTLSMode == TLSNone
    {
      grpcServerSecret, grpcClientSecret, grpcTLSMode := server, client, TLSNone;
    }
  }

  // The environment

  function SecretEnv(s: EnvSecret): seq<EnvVar> {
    if s.secret.Some? then [EnvVar(s.env, Plain(s.secret.value))]
    else if s.secretRef.Some? then [EnvVar(s.env, FromSecret(s.secretRef.value))]
    else []
  }

  function SecretEnvs(secrets: seq<EnvSecret>): seq<EnvVar> {
    if secrets == [] then []
    else SecretEnvs(secrets[..|secrets| - 1]) + SecretEnv(secrets[|secrets| - 1])
  }

  predicate HasSource(s: EnvSecret) {
    s.secret.Some? || s.secretRef.Some?
  }

  /** How many of the first k secrets have a source. */
  function SourcesBefore(secrets: seq<EnvSecret>, k: nat): (n: nat)
    requires k <= |secrets|
    ensures n <= k
  {
    if k == 0 then 0 else SourcesBefore(secrets, k - 1) + if HasSource(secrets[k - 1]) then 1 else 0
  }

  lemma {:induction false} SourcesOfPrefix(secrets: seq<EnvSecret>, n: nat, k: nat)
    requires k <= n <= |secrets|
    ensures SourcesBefore(secrets[..n], k) == SourcesBefore(secrets, k)
  {
    if k > 0 {
      SourcesOfPrefix(secrets, n, k - 1);
    }
  }

  /** A secret with a source has one variable, at its turn: a plain text one holds
      it, even if there is a reference, too; a secret without a source has none. */
  lemma {:induction false} EnvAt(secrets: seq<EnvSecret>, k: nat)
    requires k < |secrets|
    ensures |SecretEnvs(secrets)| == SourcesBefore(secrets, |secrets|)
    ensures HasSource(secrets[k]) ==>
              && SourcesBefore(secrets, k) < |SecretEnvs(secrets)|
              && var env := SecretEnvs(secrets)[SourcesBefore(secrets, k)];
                 && env.name == secrets[k].env
                 && (secrets[k].secret.Some? ==> env.value == Plain(secrets[k].secret.value))
                 && (secrets[k].secret.None? ==> env.value == FromSecret(secrets[k].secretRef.value))
  {
    var n := |secrets| - 1;
    SourcesOfPrefix(secrets, n, n);
    if k < n {
      EnvAt(secrets[..n], k);
      SourcesOfPrefix(secrets, n, k);
    } else if n > 0 {
      EnvAt(secrets[..n], 0);
    }
  }

  method GenerateEnvs(secrets: seq<EnvSecret>) returns (envs: seq<EnvVar>)
    ensures envs == SecretEnvs(secrets)
  {
    envs := [];
    for i := 0 to |secrets|
      invariant envs == SecretEnvs(secrets[..i])
    {
      var secret := secrets[i];
      assert secrets[..i + 1][..i] == secrets[..i];
      if secret.secret.Some? {
        envs := envs + [EnvVar(secret.env, Plain(secret.secret.value))];
      } else if secret.secretRef.Some? {
        envs := envs + [EnvVar(secret.env, FromSecret(secret.secretRef.value))];
      }
    }
    assert secrets[..|secrets|] == secrets;
  }

  function TLSEnvs(mode: TLSMode): seq<EnvVar> {
    match mode
    case TLSNone => []
    case TLSServer => [EnvVar(GRPC_SERVER_CA, Plain("/tmp/k8s-grpc-server/certs/ca.crt"))]
    case TLSMutual =>
      [EnvVar(GRPC_CLIENT_KEY, Plain("/tmp/k8s-grpc-client/certs/tls.key")),
       EnvVar(GRPC_CLIENT_CERT, Plain("/tmp/k8s-grpc-client/certs/tls.crt")),
       EnvVar(GRPC_SERVER_CA, Plain("/tmp/k8s-grpc-server/certs/ca.crt"))]
  }

  // Volumes and mounts

  function TLSVolumes(mode: TLSMode, server: string, client: string): seq<Volume> {
    match mode
    case TLSNone => []
    case TLSServer => [Volume("server-cert", Secret(SecretSource(server, ["ca.crt"])))]
    case TLSMutual =>
      [Volume("client-cert", Secret(SecretSource(client, []))),
       Volume("server-cert", Secret(SecretSource(server, ["ca.crt"])))]
  }

  function TLSMounts(mode: TLSMode): seq<VolumeMount> {
    match mode
    case TLSNone => []
    case TLSServer => [VolumeMount("server-cert", SERVER_CERTS, false)]
    case TLSMutual => [VolumeMount("client-cert", CLIENT_CERTS, true), VolumeMount("server-cert", SERVER_CERTS, true)]
  }

  /** patch4GrpcTLS. */
  method PatchGrpcTLS(envs: seq<EnvVar>, volumes: seq<Volume>, mounts: seq<VolumeMount>, options: ServiceOptions)
    returns (envs': seq<EnvVar>, volumes': seq<Volume>, mounts': seq<VolumeMount>)
    ensures envs' == envs + TLSEnvs(options.grpcTLSMode)
    ensures volumes' == volumes + TLSVolumes(options.grpcTLSMode, options.grpcServerSecret, options.grpcClientSecret)
    ensures mounts' == mounts + TLSMounts(options.grpcTLSMode)
  {
    envs', volumes', mounts' := envs, volumes, mounts;
    if options.grpcTLSMode == TLSMutual {
      envs' := envs' + [EnvVar(GRPC_CLIENT_KEY, Plain("/tmp/k8s-grpc-client/certs/tls.key")),
                        EnvVar(GRPC_CLIENT_CERT, Plain("/tmp/k8s-grpc-client/certs/tls.crt")),
                        EnvVar(GRPC_SERVER_CA, Plain("/tmp/k8s-grpc-server/certs/ca.crt"))];
      mounts' := mounts' + [VolumeMount("client-cert", CLIENT_CERTS, true),
                            VolumeMount("server-cert", SERVER_CERTS, true)];
      volumes' := volumes' + [Volume("client-cert", Secret(SecretSource(options.grpcClientSecret, []))),
                              Volume("server-cert", Secret(SecretSource(options.grpcServerSecret, ["ca.crt"])))];
    } else if options.grpcTLSMode == TLSServer {
      envs' := envs' + [EnvVar(GRPC_SERVER_CA, Plain("/tmp/k8s-grpc-server/certs/ca.crt"))];
      mounts' := mounts' + [VolumeMount("server-cert", SERVER_CERTS, false)];
      volumes' := volumes' + [Volume("server-cert", Secret(SecretSource(options.grpcServerSecret, ["ca.crt"])))];
    }
  }

  function SecretVolumeName(counter: nat): string {
    "secVol" + Digits(counter)
  }

  function FileVolumes(secrets: seq<FileSecret>): (volumes: seq<Volume>)
    ensures |volumes| == |secrets|
  {
    seq(|secrets|, i requires 0 <= i < |secrets| => Volume(SecretVolumeName(i + 1), Secret(secrets[i].secretRef)))
  }

  function FileMounts(secrets: seq<FileSecret>): (mounts: seq<VolumeMount>)
    ensures |mounts| == |secrets|
  {
    seq(|secrets|, i requires 0 <= i < |secrets| => VolumeMount(SecretVolumeName(i + 1), secrets[i].mountPath, true))
  }

  /** patch4FileSecrets. */
  method PatchFileSecrets(volumes: seq<Volume>, mounts: seq<VolumeMount>, secrets: seq<FileSecret>)
    returns (volumes': seq<Volume>, mounts': seq<VolumeMount>)
    ensures volumes' == volumes + FileVolumes(secrets)
    ensures mounts' == mounts + FileMounts(secrets)
  {
    volumes', mounts' := volumes, mounts;
    var counter := 1;
    for i := 0 to |secrets|
      invariant counter == i + 1
      invariant volumes' == volumes + FileVolumes(secrets)[..i]
      invariant mounts' == mounts + FileMounts(secrets)[..i]
    {
      var secret := secrets[i];
      volumes' := volumes' + [Volume("secVol" + Digits(counter), Secret(secret.secretRef))];
      mounts' := mounts' + [VolumeMount("secVol" + Digits(counter), secret.mountPath, true)];
      counter := counter + 1;
    }
    assert FileVolumes(secrets)[..|secrets|] == FileVolumes(secrets);
    assert FileMounts(secrets)[..|secrets|] == FileMounts(secrets);
  }

  const SHARED_VOLUME := Volume("shared", EmptyDir)
  const SHARED_MOUNT := VolumeMount("shared", "/opt/app-root/src/bin", false)

  function PodEnvs(secrets: seq<EnvSecret>, mode: TLSMode): seq<EnvVar> {
    SecretEnvs(secrets) + TLSEnvs(mode)
  }

  function PodVolumes(mode: TLSMode, server: string, client: string, files: seq<FileSecret>): seq<Volume> {
    [SHARED_VOLUME] + TLSVolumes(mode, server, client) + FileVolumes(files)
  }

  function PodMounts(mode: TLSMode, files: seq<FileSecret>): seq<VolumeMount> {
    [SHARED_MOUNT] + TLSMounts(mode) + FileMounts(files)
  }

  /** createPod, as far as it depends on secrets and the TLS mode. */
  method CreatePod(envSecrets: seq<EnvSecret>, fileSecrets: seq<FileSecret>, options: ServiceOptions)
    returns (envs: seq<EnvVar>, volumes: seq<Volume>, mounts: seq<VolumeMount>)
    ensures envs == PodEnvs(envSecrets, options.grpcTLSMode)
    ensures volumes
            == PodVolumes(options.grpcTLSMode, options.grpcServerSecret, options.grpcClientSecret, fileSecrets)
    ensures mounts == PodMounts(options.grpcTLSMode, fileSecrets)
  {
    envs := GenerateEnvs(envSecrets);
    mounts := [VolumeMount("shared", "/opt/app-root/src/bin", false)];
    volumes := [Volume("shared", EmptyDir)];
    envs, volumes, mounts := PatchGrpcTLS(envs, volumes, mounts, options);
    volumes, mounts := PatchFileSecrets(volumes, mounts, fileSecrets);
  }

  // Consistency of volumes and mounts

  lemma SecretNamesDiffer(i: nat, j: nat)
    requires i != j
    ensures SecretVolumeName(i) != SecretVolumeName(j)
  {
    if SecretVolumeName(i) == SecretVolumeName(j) {
      assert SecretVolumeName(i)[6..] == Digits(i) && SecretVolumeName(j)[6..] == Digits(j);
      DigitsInjective(i, j);
    }
  }

  lemma SecretNamesAreOwn(i: nat)
    ensures SecretVolumeName(i) !in ["shared", "client-cert", "server-cert"]
  {
    assert SecretVolumeName(i)[..6] == "secVol";
    assert SecretVolumeName(i)[2] == 'c' && SecretVolumeName(i)[3] == 'V';
    assert "shared"[2] == 'a' && "client-cert"[2] == 'i' && "server-cert"[2] == 'r';
  }

  lemma NamesAreDistinct(mode: TLSMode, server: string, client: string, files: seq<FileSecret>, i: nat, j: nat)
    requires i < j < |PodVolumes(mode, server, client, files)|
    ensures PodVolumes(mode, server, client, files)[i].name != PodVolumes(mode, server, client, files)[j].name
  {
    var volumes := PodVolumes(mode, server, client, files);
    var fixed := 1 + |TLSVolumes(mode, server, client)|;
    if fixed <= j {
      assert volumes[j].name == SecretVolumeName(j - fixed + 1);
      SecretNamesAreOwn(j - fixed + 1);
      if fixed <= i {
        assert volumes[i].name == SecretVolumeName(i - fixed + 1);
        SecretNamesDiffer(i - fixed + 1, j - fixed + 1);
      }
    }
  }

  lemma MountsMatch(mode: TLSMode, server: string, client: string, files: seq<FileSecret>, i: nat)
    requires i < |PodVolumes(mode, server, client, files)|
    ensures |PodMounts(mode, files)| == |PodVolumes(mode, server, client, files)|
    ensures PodMounts(mode, files)[i].name == PodVolumes(mode, server, client, files)[i].name
  {
    var fixed := 1 + |TLSVolumes(mode, server, client)|;
    if fixed <= i {
      assert PodVolumes(mode, server, client, files)[i] == FileVolumes(files)[i - fixed];
      assert PodMounts(mode, files)[i] == FileMounts(files)[i - fixed];
    }
  }

  /** The k-th file secret has a volume of its own, mounted at its path. */
  predicate Serves(volumes: seq<Volume>, mounts: seq<VolumeMount>, files: seq<FileSecret>, k: nat)
    requires k < |files| <= |volumes| == |mounts|
  {
    var i := |volumes| - |files| + k;
    volumes[i].source == Secret(files[k].secretRef) && mounts[i].mountPath == files[k].mountPath && mounts[i].readOnly
  }

  lemma SecretIsServed(mode: TLSMode, server: string, client: string, files: seq<FileSecret>, k: nat)
    requires k < |files|
    ensures var volumes, mounts := PodVolumes(mode, server, client, files), PodMounts(mode, files);
            |files| <= |volumes| == |mounts| && Serves(volumes, mounts, files, k)
  {
    var fixed := 1 + |TLSVolumes(mode, server, client)|;
    assert PodVolumes(mode, server, client, files)[fixed + k] == FileVolumes(files)[k];
    assert PodMounts(mode, files)[fixed + k] == FileMounts(files)[k];
  }

  predicate Matched(volumes: seq<Volume>, mounts: seq<VolumeMount>) {
    |volumes| == |mounts| && forall i :: 0 <= i < |volumes| ==> mounts[i].name == volumes[i].name
  }

  predicate Distinct(volumes: seq<Volume>) {
    forall i, j :: 0 <= i < j < |volumes| ==> volumes[i].name != volumes[j].name
  }

  lemma AllMatched(mode: TLSMode, server: string, client: string, files: seq<FileSecret>)
    ensures Matched(PodVolumes(mode, server, client, files), PodMounts(mode, files))
  {
    MountsMatch(mode, server, client, files, 0);
    forall i | 0 <= i < |PodVolumes(mode, server, client, files)|
      ensures PodMounts(mode, files)[i].name == PodVolumes(mode, server, client, files)[i].name
    {
      MountsMatch(mode, server, client, files, i);
    }
  }

  lemma AllDistinct(mode: TLSMode, server: string, client: string, files: seq<FileSecret>)
    ensures Distinct(PodVolumes(mode, server, client, files))
  {
    var volumes := PodVolumes(mode, server, client, files);
    forall i, j | 0 <= i < j < |volumes| ensures volumes[i].name != volumes[j].name {
      NamesAreDistinct(mode, server, client, files, i, j);
    }
  }

  /** Volumes and mounts of the pod match one to one and in order, no two volumes
      share a name, and the k-th file secret's volume serves the k-th secret at
      its own mount path. */
  lemma VolumesAreConsistent(mode: TLSMode, server: string, client: string, files: seq<FileSecret>)
    ensures var volumes, mounts := PodVolumes(mode, server, client, files), PodMounts(mode, files);
            && |files| <= |volumes| && Matched(volumes, mounts) && Distinct(volumes)
            && forall k :: 0 <= k < |files| ==> Serves(volumes, mounts, files, k)
  {
    AllMatched(mode, server, client, files);
    AllDistinct(mode, server, client, files);
    forall k | 0 <= k < |files|
      ensures Serves(PodVolumes(mode, server, client, files), PodMounts(mode, files), files, k)
    {
      SecretIsServed(mode, server, client, files, k);
    }
  }

  /** Everything but the shared volume of the driver is mounted read-only, except the
      CA of a server that does not ask for client certificates. */
  lemma MountsAreReadOnly(mode: TLSMode, files: seq<FileSecret>, i: nat)
    requires i < |PodMounts(mode, files)|
    ensures PodMounts(mode, files)[i].readOnly <==> i > 0 && (mode == TLSServer ==> i > 1)
  {
    var fixed := 1 + |TLSMounts(mode)|;
    if fixed <= i {
      assert PodMounts(mode, files)[i] == FileMounts(files)[i - fixed];
    }
  }

  /** The variable names a file of the volume mounted there, and the volume holds the
      secret with the file in it. */
  predicate Leads(e: EnvVar, v: Volume, m: VolumeMount, name: string, file: string, secret: string) {
    && e.name == name && e.value == Plain(m.mountPath + "/" + file) && v.name == m.name
    && v.source.Secret? && v.source.source.secretName == secret
    && (v.source.source.items == [] || v.source.source.items == [file])
  }

  ghost predicate PointsTo(envs: seq<EnvVar>, volumes: seq<Volume>, mounts: seq<VolumeMount>,
                           name: string, file: string, secret: string)
  {
    exists i, k :: && 0 <= i < |envs| && 0 <= k < |volumes| && k < |mounts|
                   && Leads(envs[i], volumes[k], mounts[k], name, file, secret)
  }

  lemma CertificatePaths()
    ensures CLIENT_CERTS + "/" + "tls.key" == "/tmp/k8s-grpc-client/certs/tls.key"
    ensures CLIENT_CERTS + "/" + "tls.crt" == "/tmp/k8s-grpc-client/certs/tls.crt"
    ensures SERVER_CERTS + "/" + "ca.crt" == "/tmp/k8s-grpc-server/certs/ca.crt"
  {}

  /** The TLS variables of a pod name the right files: the client's key and
      certificate in the client's secret, the CA in the server's. */
  lemma CertificatesAreMounted(secrets: seq<EnvSecret>, mode: TLSMode, server: string, client: string,
                               files: seq<FileSecret>)
    ensures var envs, volumes, mounts :=
              PodEnvs(secrets, mode), PodVolumes(mode, server, client, files), PodMounts(mode, files);
            && (mode != TLSNone ==> PointsTo(envs, volumes, mounts, "GRPC_SERVER_CA", "ca.crt", server))
            && (mode == TLSMutual ==>
                  && PointsTo(envs, volumes, mounts, "GRPC_CLIENT_KEY", "tls.key", client)
                  && PointsTo(envs, volumes, mounts, "GRPC_CLIENT_CERT", "tls.crt", client))
  {
    var envs, volumes, mounts :=
      PodEnvs(secrets, mode), PodVolumes(mode, server, client, files), PodMounts(mode, files);
    var n := |SecretEnvs(secrets)|;
    CertificatePaths();
    if mode == TLSServer {
      assert Leads(envs[n], volumes[1], mounts[1], "GRPC_SERVER_CA", "ca.crt", server);
    } else if mode == TLSMutual {
      assert Leads(envs[n], volumes[1], mounts[1], "GRPC_CLIENT_KEY", "tls.key", client);
      assert Leads(envs[n + 1], volumes[1], mounts[1], "GRPC_CLIENT_CERT", "tls.crt", client);
      assert Leads(envs[n + 2], volumes[2], mounts[2], "GRPC_SERVER_CA", "ca.crt", server);
    }
  }

  // The TLS mode

  /** A process environment as viper sees it: an empty variable counts as unset. */
  type Environment = map<string, string>

  predicate IsSet(env: Environment, name: string) {
    name in env && env[name] != ""
  }

  /** The container's environment: of entries with the same name the last wins;
      `resolve` reads secret objects. */
  function Environ(envs: seq<EnvVar>, resolve: SecretKey -> string): Environment {
    if envs == [] then map[]
    else
      var last := envs[|envs| - 1];
      Environ(envs[..|envs| - 1], resolve)[last.name := match last.value
                                                        case Plain(text) => text
                                                        case FromSecret(ref) => resolve(ref)]
  }

  function ServerMode(env: Environment): TLSMode {
    if IsSet(env, "GRPC_SERVER_CERT") && IsSet(env, "GRPC_SERVER_KEY") then
      if IsSet(env, "GRPC_CLIENT_CA") then TLSMutual else TLSServer
    else TLSNone
  }

  /** StartGrpcServer: the mode is set once the certificates are loaded. */
  method StartGrpcServer(env: Environment, certificatesLoad: bool, options: ServiceOptions) returns (started: bool)
    modifies options`grpcTLSMode
    ensures started <==> certificatesLoad || ServerMode(env) == TLSNone
    ensures options.grpcTLSMode == if started then ServerMode(env) else old(options.grpcTLSMode)
    ensures started ==>
              var certified := IsSet(env, "GRPC_SERVER_CERT") && IsSet(env, "GRPC_SERVER_KEY");
              && (options.grpcTLSMode == TLSNone <==> !certified)
              && (options.grpcTLSMode == TLSMutual <==> certified && IsSet(env, "GRPC_CLIENT_CA"))
  {
    if IsSet(env, "GRPC_SERVER_CERT") && IsSet(env, "GRPC_SERVER_KEY") {
      if !certificatesLoad {
        return false;
      }
      if IsSet(env, "GRPC_CLIENT_CA") {
        options.grpcTLSMode := TLSMutual;
      } else {
        options.grpcTLSMode := TLSServer;
      }
    } else {
      options.grpcTLSMode := TLSNone;
    }
    return true;
  }

  /** getGRPCClientConn's choice. */
  function ClientMode(env: Environment): TLSMode {
    if IsSet(env, GRPC_SERVER_CA) then
      if IsSet(env, GRPC_CLIENT_CERT) && IsSet(env, GRPC_CLIENT_KEY) then TLSMutual else TLSServer
    else TLSNone
  }

  lemma {:induction false} EnvironConcat(a: seq<EnvVar>, b: seq<EnvVar>, resolve: SecretKey -> string)
    ensures Environ(a + b, resolve) == Environ(a, resolve) + Environ(b, resolve)
  {
    if b == [] {
      assert a + b == a;
    } else {
      var n := |b| - 1;
      assert (a + b)[..|a| + n] == a + b[..n];
      EnvironConcat(a, b[..n], resolve);
    }
  }

  lemma TLSEnviron(mode: TLSMode, resolve: SecretKey -> string)
    ensures var env := Environ(TLSEnvs(mode), resolve);
            && (IsSet(env, GRPC_SERVER_CA) <==> mode != TLSNone) && (GRPC_SERVER_CA in env <==> mode != TLSNone)
            && (IsSet(env, GRPC_CLIENT_CERT) <==> mode == TLSMutual) && (GRPC_CLIENT_CERT in env <==> mode == TLSMutual)
            && (IsSet(env, GRPC_CLIENT_KEY) <==> mode == TLSMutual) && (GRPC_CLIENT_KEY in env <==> mode == TLSMutual)
  {
    var envs := TLSEnvs(mode);
    assert |GRPC_CLIENT_KEY| == 15 && |GRPC_CLIENT_CERT| == 16 && |GRPC_SERVER_CA| == 14;
    if mode == TLSServer {
      assert envs[..0] == [];
    } else if mode == TLSMutual {
      var one, two := envs[..1], envs[..2];
      assert one == [envs[0]] && two == [envs[0], envs[1]] && two[..1] == one && one[..0] == [];
      assert Environ(one, resolve) == map[GRPC_CLIENT_KEY := envs[0].value.text];
      assert Environ(two, resolve) == Environ(one, resolve)[GRPC_CLIENT_CERT := envs[1].value.text];
      assert Environ(envs, resolve) == Environ(two, resolve)[GRPC_SERVER_CA := envs[2].value.text];
    }
  }

  /** The variables of a job's own environment secrets that decide about a mode
      are left alone: none for mutual TLS; for server TLS not both client
      variables; without TLS not the server's CA. */
  predicate LeavesAlone(user: Environment, mode: TLSMode) {
    match mode
    case TLSMutual => true
    case TLSServer => !(IsSet(user, GRPC_CLIENT_CERT) && IsSet(user, GRPC_CLIENT_KEY))
    case TLSNone => !IsSet(user, GRPC_SERVER_CA)
  }

  /** The driver of a pod created in a mode uses that mode exactly when the job's
      own secrets leave the deciding variables alone. */
  lemma ModesAgree(secrets: seq<EnvSecret>, mode: TLSMode, resolve: SecretKey -> string)
    ensures ClientMode(Environ(PodEnvs(secrets, mode), resolve)) == mode
            <==> LeavesAlone(Environ(SecretEnvs(secrets), resolve), mode)
  {
    EnvironConcat(SecretEnvs(secrets), TLSEnvs(mode), resolve);
    TLSEnviron(mode, resolve);
  }

  /** A pod created without a mode has nothing but the job's own secrets to tell
      its driver the server's mode. */
  predicate ToldBySecrets(user: Environment, mode: TLSMode) {
    && (mode != TLSNone <==> IsSet(user, GRPC_SERVER_CA))
    && (mode == TLSMutual ==> IsSet(user, GRPC_CLIENT_CERT) && IsSet(user, GRPC_CLIENT_KEY))
    && (mode == TLSServer ==> LeavesAlone(user, TLSServer))
  }

  /** The controller starts the server in the background, so that pods may be
      created before it has set the mode, and after. With the server's variables
      in `env`, the driver of a later pod speaks the server's mode exactly when the
      job's secrets leave the deciding variables alone; the driver of an early pod
      exactly when they happen to say the same as the server's variables. */
  method PodsAroundStart(env: Environment, certificatesLoad: bool, server: string, client: string,
                         secrets: seq<EnvSecret>, files: seq<FileSecret>, ghost resolve: SecretKey -> string)
    returns (started: bool, early: seq<EnvVar>, late: seq<EnvVar>)
    ensures started <==> certificatesLoad || !(IsSet(env, "GRPC_SERVER_CERT") && IsSet(env, "GRPC_SERVER_KEY"))
    ensures var user := Environ(SecretEnvs(secrets), resolve);
            && (started ==>
                  (ClientMode(Environ(late, resolve)) == ServerMode(env) <==> LeavesAlone(user, ServerMode(env))))
            && (ClientMode(Environ(early, resolve)) == ServerMode(env) <==> ToldBySecrets(user, ServerMode(env)))
            && (!started ==> early == late)
  {
    var options := new ServiceOptions(server, client);
    var volumes, mounts;
    early, volumes, mounts := CreatePod(secrets, files, options);
    started := StartGrpcServer(env, certificatesLoad, options);
    late, volumes, mounts := CreatePod(secrets, files, options);
    ModesAgree(secrets, ServerMode(env), resolve);
    assert SecretEnvs(secrets) + [] == SecretEnvs(secrets);
  }

  /** A secret with another name than the deciding variables cannot disturb the
      agreement. */
  lemma {:induction false} OtherNamesAreHarmless(secrets: seq<EnvSecret>, resolve: SecretKey -> string, name: string)
    requires forall i :: 0 <= i < |secrets| ==> secrets[i].env != name
    ensures name !in Environ(SecretEnvs(secrets), resolve)
  {
    if secrets != [] {
      var n := |secrets| - 1;
      OtherNamesAreHarmless(secrets[..n], resolve, name);
      var last := SecretEnv(secrets[n]);
      EnvironConcat(SecretEnvs(secrets[..n]), last, resolve);
      if last != [] {
        assert last[..0] == [];
      }
    }
  }

  /** So the usual job, whose secrets do not set the server's CA, gets a driver in
      the server's mode from an early pod exactly if the server uses no TLS. */
  lemma EarlyPodsNeedNoTLS(secrets: seq<EnvSecret>, mode: TLSMode, resolve: SecretKey -> string)
    requires forall i :: 0 <= i < |secrets| ==> secrets[i].env != GRPC_SERVER_CA
    ensures ToldBySecrets(Environ(SecretEnvs(secrets), resolve), mode) <==> mode == TLSNone
    ensures LeavesAlone(Environ(SecretEnvs(secrets), resolve), TLSNone)
  {
    OtherNamesAreHarmless(secrets, resolve, GRPC_SERVER_CA);
  }
}
