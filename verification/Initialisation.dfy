/**
 Initialising a configuration directory: six steps per cluster, each of which writes files that are
 not there yet. An oracle decides how each call to the operating system, to SOPS and to the key
 generator turns out; a command that is interrupted is one whose next call fails.
 */
module Initialisation {
  import opened Wrappers
  import opened Fleet

  datatype File =
    | SOPSConfigFile
    | SSHPrivateKeyFile(cluster: ClusterType)
    | SSHPublicKeyFile(cluster: ClusterType)
    | TFBackendConfigFile
    | ConfigFile
    | SecretsFile
    | TFVarsFile

  datatype Data = Text(text: string) | PrivateKey(id: nat) | PublicKey(id: nat)

  /** Encryption depends on the SOPS config it was done under and on randomness; a write that fails
      half-way leaves part of the content. */
  datatype Content = Plain(data: Data) | Cipher(data: Data, salt: nat, config: Content) | Torn(of: Content)

  datatype Draw = Fine(random: nat) | Fails | Tears

  type Oracle = nat -> Draw

  type Files = map<File, Content>

  /** The directory, the number of calls made, and for each encryption whether the SOPS config was there. */
  datatype World = World(files: Files, at: nat, encryptions: seq<bool>)

  datatype Outcome = Outcome(ok: bool, world: World)

  /** What a cluster puts into its files; both clusters of an environment have the same. */
  datatype Cluster = Cluster(valid: bool, fingerprint: string, backend: string,
      config: string, secret: string, tfvars: string)

  datatype Step = Validate | NewFile(file: File, text: string, encrypted: bool) | NewKeyPair(cluster: ClusterType)

  function Script(ct: ClusterType, c: Cluster): seq<Step> {
    [Validate,
     NewFile(SOPSConfigFile, c.fingerprint, false),
     NewKeyPair(ct),
     NewFile(TFBackendConfigFile, c.backend, false),
     NewFile(ConfigFile, c.config, false),
     NewFile(SecretsFile, c.secret, true),
     NewFile(TFVarsFile, c.tfvars, false)]
  }

  /******* One step *******/

  datatype Check = Error | Present | Absent

  function Next(w: World): World { w.(at := w.at + 1) }

  /** Ask whether the file exists; if not, make its directory. */
  function Look(o: Oracle, w: World, f: File): (Check, World) {
    if !o(w.at).Fine? then (Error, Next(w))
    else if f in w.files then (Present, Next(w))
    else if !o(w.at + 1).Fine? then (Error, Next(Next(w)))
    else (Absent, Next(Next(w)))
  }

  function Store(o: Oracle, w: World, f: File, c: Content): Outcome {
    match o(w.at)
    case Fine(_) => Outcome(true, Next(w).(files := w.files[f := c]))
    case Fails => Outcome(false, Next(w))
    case Tears => Outcome(false, Next(w).(files := w.files[f := Torn(c)]))
  }

  /** The SOPS config is there as a whole; SOPS refuses one that was cut off. */
  predicate Sound(files: Files) {
    SOPSConfigFile in files && !files[SOPSConfigFile].Torn?
  }

  function Seal(o: Oracle, w: World, d: Data): (Option<Content>, World) {
    var w' := Next(w).(encryptions := w.encryptions + [SOPSConfigFile in w.files]);
    if o(w.at).Fine? && Sound(w.files) then (Some(Cipher(d, o(w.at).random, w.files[SOPSConfigFile])), w')
    else (None, w')
  }

  function AddFile(o: Oracle, w: World, f: File, d: Data, encrypted: bool): Outcome {
    var (check, w1) := Look(o, w, f);
    if check.Error? then Outcome(false, w1)
    else if check.Present? then Outcome(true, w1)
    else if !encrypted then Store(o, w1, f, Plain(d))
    else
      var (sealed, w2) := Seal(o, w1, d);
      if sealed.None? then Outcome(false, w2) else Store(o, w2, f, sealed.value)
  }

  function AddKeyPair(o: Oracle, w: World, ct: ClusterType): Outcome {
    var (check, w1) := Look(o, w, SSHPrivateKeyFile(ct));
    if !check.Absent? then Outcome(check.Present?, w1)
    else
      var (check2, w2) := Look(o, w1, SSHPublicKeyFile(ct));
      if !check2.Absent? then Outcome(check2.Present?, w2)
      else if !o(w2.at).Fine? then Outcome(false, Next(w2))
      else
        var id := o(w2.at).random;
        var (sealed, w3) := Seal(o, Next(w2), PrivateKey(id));
        if sealed.None? then Outcome(false, w3)
        else
          var r := Store(o, w3, SSHPrivateKeyFile(ct), sealed.value);
          if !r.ok then r else Store(o, r.world, SSHPublicKeyFile(ct), Plain(PublicKey(id)))
  }

  function RunStep(o: Oracle, c: Cluster, w: World, s: Step): Outcome {
    match s
    case Validate => Outcome(c.valid, w)
    case NewFile(f, text, encrypted) => AddFile(o, w, f, Text(text), encrypted)
    case NewKeyPair(ct) => AddKeyPair(o, w, ct)
  }

  function Run(o: Oracle, c: Cluster, w: World, script: seq<Step>): Outcome
    decreases |script|
  {
    if script == [] then Outcome(true, w)
    else
      var r := RunStep(o, c, w, script[0]);
      if r.ok then Run(o, c, r.world, script[1..]) else r
  }

  /** The command: the given clusters in order. */
  function InitAll(o: Oracle, c: Cluster, w: World, types: seq<ClusterType>): Outcome
    decreases |types|
  {
    if types == [] then Outcome(true, w)
    else
      var r := Run(o, c, w, Script(types[0], c));
      if r.ok then InitAll(o, c, r.world, types[1..]) else r
  }

  /******* The initialiser *******/

  class Directory {
    var files: Files
    var at: nat
    var encryptions: seq<bool>
    const oracle: Oracle

    constructor (files: Files, oracle: Oracle)
      ensures View() == World(files, 0, []) && this.oracle == oracle
    {
      this.files, this.oracle := files, oracle;
      at, encryptions := 0, [];
    }

    function View(): World
      reads this
    {
      World(files, at, encryptions)
    }

    method Call() returns (d: Draw)
      modifies this`at
      ensures d == oracle(old(at)) && View() == Next(old(View()))
    {
      d := oracle(at);
      at := at + 1;
    }

    method MkdirAllIfNotExists(f: File) returns (check: Check)
      modifies this`at
      ensures (check, View()) == Look(oracle, old(View()), f)
    {
      var d := Call();
      if !d.Fine? { return Error; }
      if f in files { return Present; }
      d := Call();
      check := if d.Fine? then Absent else Error;
    }

    method WriteFile(f: File, c: Content) returns (ok: bool)
      modifies this`at, this`files
      ensures Outcome(ok, View()) == Store(oracle, old(View()), f, c)
    {
      var d := Call();
      match d
      case Fine(_) => files := files[f := c]; return true;
      case Fails => return false;
      case Tears => files := files[f := Torn(c)]; return false;
    }

    method EncryptStdin(plain: Data) returns (r: Option<Content>)
      modifies this`at, this`encryptions
      ensures (r, View()) == Seal(oracle, old(View()), plain)
    {
      encryptions := encryptions + [SOPSConfigFile in files];
      var d := Call();
      r := if d.Fine? && Sound(files) then Some(Cipher(plain, d.random, files[SOPSConfigFile])) else None;
    }
  }

  class ConfigInitializer {
    const dir: Directory
    const clusterType: ClusterType

    constructor (dir: Directory, clusterType: ClusterType)
      ensures this.dir == dir && this.clusterType == clusterType
    {
      this.dir, this.clusterType := dir, clusterType;
    }

    method InitPlain(f: File, text: string) returns (ok: bool)
      modifies dir
      ensures Outcome(ok, dir.View()) == AddFile(dir.oracle, old(dir.View()), f, Text(text), false)
    {
      var check := dir.MkdirAllIfNotExists(f);
      if !check.Absent? { return check.Present?; }
      ok := dir.WriteFile(f, Plain(Text(text)));
    }

    method InitSSHKeyPair() returns (ok: bool)
      modifies dir
      ensures Outcome(ok, dir.View()) == AddKeyPair(dir.oracle, old(dir.View()), clusterType)
    {
      var check := dir.MkdirAllIfNotExists(SSHPrivateKeyFile(clusterType));
      if !check.Absent? { return check.Present?; }
      check := dir.MkdirAllIfNotExists(SSHPublicKeyFile(clusterType));
      if !check.Absent? { return check.Present?; }
      var key := dir.Call();
      if !key.Fine? { return false; }
      var sealed := dir.EncryptStdin(PrivateKey(key.random));
      if sealed.None? { return false; }
      ok := dir.WriteFile(SSHPrivateKeyFile(clusterType), sealed.value);
      if !ok { return; }
      ok := dir.WriteFile(SSHPublicKeyFile(clusterType), Plain(PublicKey(key.random)));
    }

    method InitSecrets(secret: string) returns (ok: bool)
      modifies dir
      ensures Outcome(ok, dir.View()) == AddFile(dir.oracle, old(dir.View()), SecretsFile, Text(secret), true)
    {
      var check := dir.MkdirAllIfNotExists(SecretsFile);
      if !check.Absent? { return check.Present?; }
      var sealed := dir.EncryptStdin(Text(secret));
      if sealed.None? { return false; }
      ok := dir.WriteFile(SecretsFile, sealed.value);
    }

    method Init(c: Cluster) returns (ok: bool)
      modifies dir
      ensures Outcome(ok, dir.View()) == Run(dir.oracle, c, old(dir.View()), Script(clusterType, c))
    {
      ghost var all := Script(clusterType, c);
      hide AddFile, AddKeyPair, Run;
      assert all == all[0..] && |all| == 7;
      Unroll(dir.oracle, c, dir.View(), all, 0);
      if !c.valid { return false; }
      Unroll(dir.oracle, c, dir.View(), all, 1);
      ok := InitPlain(SOPSConfigFile, c.fingerprint);
      if !ok { return; }
      Unroll(dir.oracle, c, dir.View(), all, 2);
      ok := InitSSHKeyPair();
      if !ok { return; }
      Unroll(dir.oracle, c, dir.View(), all, 3);
      ok := InitPlain(TFBackendConfigFile, c.backend);
      if !ok { return; }
      Unroll(dir.oracle, c, dir.View(), all, 4);
      ok := InitPlain(ConfigFile, c.config);
      if !ok { return; }
      Unroll(dir.oracle, c, dir.View(), all, 5);
      ok := InitSecrets(c.secret);
      if !ok { return; }
      Unroll(dir.oracle, c, dir.View(), all, 6);
      ok := InitPlain(TFVarsFile, c.tfvars);
      Unroll(dir.oracle, c, dir.View(), all, 7);
    }
  }

  /** Running the script from its `k`-th step on. */
  lemma Unroll(o: Oracle, c: Cluster, w: World, script: seq<Step>, k: nat)
    requires k <= |script|
    ensures Run(o, c, w, script[k..])
         == if k == |script| then Outcome(true, w)
            else var r := RunStep(o, c, w, script[k]); if r.ok then Run(o, c, r.world, script[k + 1..]) else r
  {
    if k < |script| { assert script[k..][1..] == script[k + 1..]; }
  }

  method InitCommand(dir: Directory, c: Cluster) returns (ok: bool)
    modifies dir
    ensures Outcome(ok, dir.View()) == InitAll(dir.oracle, c, old(dir.View()), [ServiceCluster, WorkloadCluster])
  {
    var types := [ServiceCluster, WorkloadCluster];
    ghost var w := dir.View();
    var i := 0;
    ok := true;
    while i < |types|
      invariant i <= |types| && ok
      invariant InitAll(dir.oracle, c, w, types) == InitAll(dir.oracle, c, dir.View(), types[i..])
    {
      var initializer := new ConfigInitializer(dir, types[i]);
      ok := initializer.Init(c);
      if !ok { return; }
      i := i + 1;
    }
  }

  /******* Failures are reported *******/

  /** Every call but possibly the last one went fine, and if the result is a success the last one too. */
  ghost predicate StopsAtFailure(o: Oracle, w: World, r: Outcome) {
    && w.at <= r.world.at
    && (forall i :: w.at <= i < r.world.at - 1 ==> o(i).Fine?)
    && (r.ok && w.at < r.world.at ==> o(r.world.at - 1).Fine?)
  }

  lemma FileStops(o: Oracle, w: World, f: File, d: Data, encrypted: bool)
    ensures StopsAtFailure(o, w, AddFile(o, w, f, d, encrypted))
  {}

  lemma PairStops(o: Oracle, w: World, ct: ClusterType)
    ensures StopsAtFailure(o, w, AddKeyPair(o, w, ct))
  {}

  lemma StepStops(o: Oracle, c: Cluster, w: World, s: Step)
    ensures StopsAtFailure(o, w, RunStep(o, c, w, s))
  {
    match s
    case Validate =>
    case NewFile(f, text, encrypted) => FileStops(o, w, f, Text(text), encrypted);
    case NewKeyPair(ct) => PairStops(o, w, ct);
  }

  lemma StopsTogether(o: Oracle, w: World, mid: World, r: Outcome)
    requires StopsAtFailure(o, w, Outcome(true, mid)) && StopsAtFailure(o, mid, r)
    ensures StopsAtFailure(o, w, r)
  {}

  lemma {:induction false} RunStops(o: Oracle, c: Cluster, w: World, script: seq<Step>)
    ensures StopsAtFailure(o, w, Run(o, c, w, script))
    decreases |script|
  {
    hide RunStep;
    if script != [] {
      var r := RunStep(o, c, w, script[0]);
      StepStops(o, c, w, script[0]);
      if r.ok {
        RunStops(o, c, r.world, script[1..]);
        StopsTogether(o, w, r.world, Run(o, c, r.world, script[1..]));
      }
    }
  }

  /** The command stops at the first call to the system, to SOPS or to the key generator that fails, and reports the
      failure; an invalid configuration is refused before any call. */
  lemma {:induction false} FailuresReported(o: Oracle, c: Cluster, w: World, types: seq<ClusterType>)
    ensures var r := InitAll(o, c, w, types);
            && w.at <= r.world.at
            && (forall i :: w.at <= i < r.world.at - 1 ==> o(i).Fine?)
            && (r.ok && w.at < r.world.at ==> o(r.world.at - 1).Fine?)
    ensures types != [] && !c.valid ==> InitAll(o, c, w, types) == Outcome(false, w)
    decreases |types|
  {
    if types != [] {
      var script := Script(types[0], c);
      var r := Run(o, c, w, script);
      RunStops(o, c, w, script);
      assert !c.valid ==> r == RunStep(o, c, w, Validate);
      hide Run, RunStep, Script;
      if r.ok {
        FailuresReported(o, c, r.world, types[1..]);
        StopsTogether(o, w, r.world, InitAll(o, c, r.world, types[1..]));
      }
    }
  }

  /******* Nothing is overwritten *******/

  ghost predicate Keeps(w: World, w': World) {
    forall f :: f in w.files ==> f in w'.files && w'.files[f] == w.files[f]
  }

  lemma FileKeeps(o: Oracle, w: World, f: File, d: Data, encrypted: bool)
    ensures Keeps(w, AddFile(o, w, f, d, encrypted).world)
  {}

  lemma StepKeeps(o: Oracle, c: Cluster, w: World, s: Step)
    ensures Keeps(w, RunStep(o, c, w, s).world)
  {
    match s
    case Validate =>
    case NewFile(f, text, encrypted) => FileKeeps(o, w, f, Text(text), encrypted);
    case NewKeyPair(_) =>
  }

  lemma {:induction false} RunKeeps(o: Oracle, c: Cluster, w: World, script: seq<Step>)
    ensures Keeps(w, Run(o, c, w, script).world)
    decreases |script|
  {
    if script != [] {
      var r := RunStep(o, c, w, script[0]);
      StepKeeps(o, c, w, script[0]);
      if r.ok { RunKeeps(o, c, r.world, script[1..]); }
      hide RunStep;
    }
  }

  /** Whatever fails, no file that exists is changed or removed. */
  lemma {:induction false} NeverOverwrites(o: Oracle, c: Cluster, w: World, types: seq<ClusterType>)
    ensures Keeps(w, InitAll(o, c, w, types).world)
    decreases |types|
  {
    hide Run;
    if types != [] {
      var r := Run(o, c, w, Script(types[0], c));
      RunKeeps(o, c, w, Script(types[0], c));
      if r.ok { NeverOverwrites(o, c, r.world, types[1..]); }
    }
  }

  /******* Running it again changes nothing *******/

  /** A step that has nothing left to do. */
  ghost predicate Settled(files: Files, s: Step) {
    match s
    case Validate => true
    case NewFile(f, _, _) => f in files
    case NewKeyPair(ct) => SSHPrivateKeyFile(ct) in files || SSHPublicKeyFile(ct) in files
  }

  lemma StepSettles(o: Oracle, c: Cluster, w: World, s: Step)
    ensures RunStep(o, c, w, s).ok ==> Settled(RunStep(o, c, w, s).world.files, s)
    ensures Settled(w.files, s) ==> RunStep(o, c, w, s).world.files == w.files
  {}

  lemma {:induction false} RunSettles(o: Oracle, c: Cluster, w: World, script: seq<Step>)
    requires Run(o, c, w, script).ok
    ensures forall s :: s in script ==> Settled(Run(o, c, w, script).world.files, s)
    decreases |script|
  {
    if script != [] {
      var r := RunStep(o, c, w, script[0]);
      StepSettles(o, c, w, script[0]);
      RunSettles(o, c, r.world, script[1..]);
      RunKeeps(o, c, r.world, script[1..]);
      hide RunStep;
      assert forall s :: s in script <==> s == script[0] || s in script[1..];
    }
  }

  lemma {:induction false} SettledStays(o: Oracle, c: Cluster, w: World, script: seq<Step>)
    requires forall s :: s in script ==> Settled(w.files, s)
    ensures Run(o, c, w, script).world.files == w.files
    decreases |script|
  {
    if script != [] {
      var r := RunStep(o, c, w, script[0]);
      StepSettles(o, c, w, script[0]);
      hide RunStep, Settled;
      if r.ok { SettledStays(o, c, r.world, script[1..]); }
    }
  }

  lemma {:induction false} AllSettled(o: Oracle, c: Cluster, w: World, types: seq<ClusterType>)
    requires InitAll(o, c, w, types).ok
    ensures forall ct, s :: ct in types && s in Script(ct, c) ==> Settled(InitAll(o, c, w, types).world.files, s)
    decreases |types|
  {
    hide Run, Script;
    if types != [] {
      var r := Run(o, c, w, Script(types[0], c));
      RunSettles(o, c, w, Script(types[0], c));
      AllSettled(o, c, r.world, types[1..]);
      NeverOverwrites(o, c, r.world, types[1..]);
    }
  }

  /** After a successful command any further one, failing or not, leaves every file as it is. */
  lemma {:induction false} Idempotent(o: Oracle, o': Oracle, c: Cluster, w: World, at: nat,
        types: seq<ClusterType>, again: seq<ClusterType>)
    requires InitAll(o, c, w, types).ok && forall ct :: ct in again ==> ct in types
    ensures var w1 := InitAll(o, c, w, types).world.(at := at);
            InitAll(o', c, w1, again).world.files == w1.files
    decreases |again|
  {
    var w1 := InitAll(o, c, w, types).world.(at := at);
    AllSettled(o, c, w, types);
    StaysSettled(o', c, w1, again);
  }

  lemma {:induction false} StaysSettled(o: Oracle, c: Cluster, w: World, types: seq<ClusterType>)
    requires forall ct, s :: ct in types && s in Script(ct, c) ==> Settled(w.files, s)
    ensures InitAll(o, c, w, types).world.files == w.files
    decreases |types|
  {
    hide Run, Script, Settled;
    if types != [] {
      var r := Run(o, c, w, Script(types[0], c));
      SettledStays(o, c, w, Script(types[0], c));
      if r.ok { StaysSettled(o, c, r.world, types[1..]); }
    }
  }

  /******* The SOPS config comes first *******/

  /** Keys and secrets are only ever written encrypted, under the SOPS config that is there. */
  ghost predicate SealedFile(files: Files, f: File)
    requires f in files
  {
    var c := if files[f].Torn? then files[f].of else files[f];
    if f.SSHPrivateKeyFile? || f.SecretsFile? then
      c.Cipher? && SOPSConfigFile in files && c.config == files[SOPSConfigFile]
    else c.Plain?
  }

  ghost predicate Sealed(w: World, w': World) {
    && (forall f :: f in w'.files && f !in w.files ==> SealedFile(w'.files, f))
    && w.encryptions <= w'.encryptions
    && (forall i :: |w.encryptions| <= i < |w'.encryptions| ==> w'.encryptions[i])
  }

  /** The steps of the scripts; the ones that encrypt need the SOPS config. */
  predicate Known(s: Step) {
    s.NewFile? ==> (s.encrypted <==> s.file.SecretsFile?) && !s.file.SSHPrivateKeyFile? && !s.file.SSHPublicKeyFile?
  }

  predicate Encrypts(s: Step) {
    s.NewKeyPair? || (s.NewFile? && s.encrypted)
  }

  lemma FileSeals(o: Oracle, w: World, f: File, d: Data, encrypted: bool)
    requires (encrypted <==> f.SecretsFile?) && !f.SSHPrivateKeyFile? && (encrypted ==> SOPSConfigFile in w.files)
    ensures Sealed(w, AddFile(o, w, f, d, encrypted).world)
  {}

  lemma PairContents(o: Oracle, w: World, ct: ClusterType)
    requires SOPSConfigFile in w.files
    ensures var (w', priv, pub) := (AddKeyPair(o, w, ct).world, SSHPrivateKeyFile(ct), SSHPublicKeyFile(ct));
            && w'.encryptions in {w.encryptions, w.encryptions + [true]}
            && (forall f :: f != priv && f != pub ==> (f in w'.files <==> f in w.files))
            && w'.files[SOPSConfigFile] == w.files[SOPSConfigFile]
            && (priv in w'.files && priv !in w.files ==> SealedFile(w'.files, priv))
            && (pub in w'.files && pub !in w.files ==> SealedFile(w'.files, pub))
  {}

  lemma PairSeals(o: Oracle, w: World, ct: ClusterType)
    requires SOPSConfigFile in w.files
    ensures Sealed(w, AddKeyPair(o, w, ct).world)
  {
    PairContents(o, w, ct);
    hide AddKeyPair, SealedFile;
  }

  lemma StepSeals(o: Oracle, c: Cluster, w: World, s: Step)
    requires Known(s) && (Encrypts(s) ==> SOPSConfigFile in w.files)
    ensures Sealed(w, RunStep(o, c, w, s).world)
  {
    match s
    case Validate => SealedSelf(w);
    case NewFile(f, text, encrypted) => FileSeals(o, w, f, Text(text), encrypted);
    case NewKeyPair(ct) => PairSeals(o, w, ct);
  }

  lemma SealedTransitive(w: World, w1: World, w2: World)
    requires Sealed(w, w1) && Sealed(w1, w2) && Keeps(w1, w2)
    ensures Sealed(w, w2)
  {
    forall f | f in w2.files && f !in w.files ensures SealedFile(w2.files, f) {
      if f in w1.files { assert SealedFile(w1.files, f); }
    }
  }

  lemma {:induction false} RunSeals(o: Oracle, c: Cluster, w: World, script: seq<Step>)
    requires (forall s :: s in script ==> Known(s)) && SOPSConfigFile in w.files
    ensures Sealed(w, Run(o, c, w, script).world)
    decreases |script|
  {
    if script != [] {
      var r := RunStep(o, c, w, script[0]);
      StepSeals(o, c, w, script[0]);
      StepKeeps(o, c, w, script[0]);
      hide RunStep, Known, Encrypts, Sealed;
      if r.ok {
        RunSeals(o, c, r.world, script[1..]);
        RunKeeps(o, c, r.world, script[1..]);
        SealedTransitive(w, r.world, Run(o, c, r.world, script[1..]).world);
      }
    }
  }

  lemma ScriptSeals(o: Oracle, c: Cluster, w: World, ct: ClusterType)
    ensures Sealed(w, Run(o, c, w, Script(ct, c)).world)
  {
    var all := Script(ct, c);
    assert all == all[0..] && forall s :: s in all[2..] ==> Known(s);
    Unroll(o, c, w, all, 0);
    if c.valid {
      Unroll(o, c, w, all, 1);
      StepSeals(o, c, w, all[1]);
      StepSettles(o, c, w, all[1]);
      var r := RunStep(o, c, w, all[1]);
      hide RunStep, Script, Sealed, Known;
      if r.ok {
        RunSeals(o, c, r.world, all[2..]);
        RunKeeps(o, c, r.world, all[2..]);
        SealedTransitive(w, r.world, Run(o, c, r.world, all[2..]).world);
      }
    }
  }

  /** In every run, failing or not, each encryption is done with the SOPS config in place, and every new
      key or secrets file is encrypted under it. */
  lemma {:induction false} EncryptsUnderConfig(o: Oracle, c: Cluster, w: World, types: seq<ClusterType>)
    ensures Sealed(w, InitAll(o, c, w, types).world)
    decreases |types|
  {
    hide Run, Script, Sealed;
    if types == [] {
      assert Sealed(w, w) by { SealedSelf(w); }
    } else {
      var r := Run(o, c, w, Script(types[0], c));
      ScriptSeals(o, c, w, types[0]);
      if r.ok {
        EncryptsUnderConfig(o, c, r.world, types[1..]);
        NeverOverwrites(o, c, r.world, types[1..]);
        SealedTransitive(w, r.world, InitAll(o, c, r.world, types[1..]).world);
      }
    }
  }

  lemma SealedSelf(w: World)
    ensures Sealed(w, w)
  {}

  /******* Undisturbed runs *******/

  ghost predicate Undisturbed(o: Oracle) {
    forall i :: o(i).Fine?
  }

  /** Content up to the randomness of encryption and key generation. */
  function Essence(c: Content): Content {
    match c
    case Plain(Text(t)) => c
    case Plain(_) => Plain(PublicKey(0))
    case Cipher(Text(t), _, k) => Cipher(Text(t), 0, k)
    case Cipher(_, _, k) => Cipher(PrivateKey(0), 0, k)
    case Torn(_) => c
  }

  /** What a step adds to the directory when nothing goes wrong. */
  ghost predicate Adds(files: Files, s: Step, files': Files) {
    match s
    case Validate => files' == files
    case NewFile(f, text, encrypted) =>
      if f in files then files' == files
      else
        && f in files' && files' == files[f := files'[f]]
        && (if encrypted then SOPSConfigFile in files && Essence(files'[f])
            == Cipher(Text(text), 0, files[SOPSConfigFile])
            else files'[f] == Plain(Text(text)))
    case NewKeyPair(ct) =>
      var (priv, pub) := (SSHPrivateKeyFile(ct), SSHPublicKeyFile(ct));
      if priv in files || pub in files then files' == files
      else
        && priv in files' && pub in files' && files' == files[priv := files'[priv]][pub := files'[pub]]
        && files'[priv].Cipher? && files'[priv].data.PrivateKey? && files'[pub]
            == Plain(PublicKey(files'[priv].data.id))
  }

  /** Undisturbed, a step fails only if it has to encrypt and cannot. */
  lemma StepAdds(o: Oracle, c: Cluster, w: World, s: Step)
    requires Undisturbed(o) && c.valid
    ensures RunStep(o, c, w, s).ok <==> !Encrypts(s) || Settled(w.files, s) || Sound(w.files)
    ensures RunStep(o, c, w, s).ok ==> Adds(w.files, s, RunStep(o, c, w, s).world.files)
  {}

  function Targets(s: Step): set<File> {
    match s
    case Validate => {}
    case NewFile(f, _, _) => {f}
    case NewKeyPair(ct) => {SSHPrivateKeyFile(ct), SSHPublicKeyFile(ct)}
  }

  /** A step's mark on the directory some steps later. */
  ghost predicate Marked(files: Files, s: Step, files': Files) {
    match s
    case Validate => true
    case NewFile(f, text, encrypted) =>
      && f in files'
      && (f !in files ==>
            if encrypted then SOPSConfigFile in files' && Essence(files'[f])
                == Cipher(Text(text), 0, files'[SOPSConfigFile])
            else files'[f] == Plain(Text(text)))
    case NewKeyPair(ct) =>
      var (priv, pub) := (SSHPrivateKeyFile(ct), SSHPublicKeyFile(ct));
      && (priv in files' <==> priv in files || pub !in files)
      && (pub in files' <==> pub in files || priv !in files)
      && (priv !in files && pub !in files ==>
            files'[priv].Cipher? && files'[priv].data.PrivateKey? && files'[pub]
                == Plain(PublicKey(files'[priv].data.id)))
  }

  ghost predicate Separate(script: seq<Step>) {
    forall i, j :: 0 <= i < j < |script| ==> Targets(script[i]) !! Targets(script[j])
  }

  function AllTargets(script: seq<Step>): set<File> {
    if script == [] then {} else Targets(script[0]) + AllTargets(script[1..])
  }

  /** Only targets of the script are added, and each step leaves its mark. */
  ghost predicate Result(files: Files, script: seq<Step>, files': Files) {
    && (forall f :: f in files ==> f in files' && files'[f] == files[f])
    && (forall f :: f in files' && f !in files ==> f in AllTargets(script))
    && (forall s :: s in script ==> Marked(files, s, files'))
  }

  /** A mark left on `mid` is a mark left on what came before, if the targets were not touched. */
  lemma MarkedEarlier(files: Files, mid: Files, s: Step, files': Files)
    requires Marked(mid, s, files') && forall f :: f in Targets(s) ==> (f in files <==> f in mid)
    ensures Marked(files, s, files')
  {}

  lemma MarkedLater(files: Files, mid: Files, s: Step, files': Files)
    requires Adds(files, s, mid) && (forall f :: f in mid ==> f in files' && files'[f] == mid[f])
    requires forall f :: f in files' && f !in mid ==> f !in Targets(s)
    ensures Marked(files, s, files')
  {}

  lemma AddsTargets(files: Files, s: Step, files': Files)
    requires Adds(files, s, files')
    ensures forall f :: f in files ==> f in files'
    ensures forall f :: f in files' && f !in files ==> f in Targets(s)
  {}

  /** One more step in front. */
  lemma ResultStep(files: Files, mid: Files, script: seq<Step>, files': Files)
    requires script != [] && Separate(script)
    requires (forall f :: f in files ==> f in mid && mid[f] == files[f]) && Adds(files, script[0], mid)
    requires Result(mid, script[1..], files')
    ensures Result(files, script, files')
  {
    var s0, rest := script[0], script[1..];
    AddsTargets(files, s0, mid);
    forall s | s in rest ensures Targets(s) !! Targets(s0) {
      var i :| 0 <= i < |rest| && rest[i] == s;
      assert script[i + 1] == s;
    }
    AllTargetsSeparate(rest, Targets(s0));
    MarkedLater(files, mid, s0, files');
    hide Adds, Separate;
    forall s | s in rest ensures Marked(files, s, files') {
      MarkedEarlier(files, mid, s, files');
    }
    hide Marked, Targets;
    assert forall s :: s in script <==> s == s0 || s in rest;
  }

  lemma {:induction false} CleanRun(o: Oracle, c: Cluster, w: World, script: seq<Step>)
    requires Undisturbed(o) && c.valid && Separate(script)
    ensures Run(o, c, w, script).ok ==> Result(w.files, script, Run(o, c, w, script).world.files)
    decreases |script|
  {
    if script != [] {
      StepAdds(o, c, w, script[0]);
      StepKeeps(o, c, w, script[0]);
      hide RunStep, Encrypts, Adds, Marked;
      var r := RunStep(o, c, w, script[0]);
      if Run(o, c, w, script).ok {
        CleanRun(o, c, r.world, script[1..]);
        ResultStep(w.files, r.world.files, script, Run(o, c, r.world, script[1..]).world.files);
      }
    }
  }

  /** With a whole SOPS config nothing undisturbed fails. */
  lemma {:induction false} SoundRun(o: Oracle, c: Cluster, w: World, script: seq<Step>)
    requires Undisturbed(o) && c.valid && Sound(w.files)
    ensures Run(o, c, w, script).ok
    decreases |script|
  {
    if script != [] {
      StepAdds(o, c, w, script[0]);
      StepKeeps(o, c, w, script[0]);
      hide RunStep, Encrypts, Settled;
      SoundRun(o, c, RunStep(o, c, w, script[0]).world, script[1..]);
    }
  }

  predicate TornConfig(files: Files) {
    SOPSConfigFile in files && files[SOPSConfigFile].Torn?
  }

  /** With a torn one, an undisturbed run succeeds exactly if nothing is left to encrypt. */
  lemma {:induction false} TornRun(o: Oracle, c: Cluster, w: World, script: seq<Step>)
    requires Undisturbed(o) && c.valid && TornConfig(w.files) && Separate(script)
    ensures Run(o, c, w, script).ok <==> forall s :: s in script && Encrypts(s) ==> Settled(w.files, s)
    decreases |script|
  {
    if script != [] {
      var s0, rest := script[0], script[1..];
      var r := RunStep(o, c, w, s0);
      StepAdds(o, c, w, s0);
      StepKeeps(o, c, w, s0);
      assert forall s :: s in script <==> s == s0 || s in rest;
      hide RunStep;
      if r.ok {
        TornRun(o, c, r.world, rest);
        AddsTargets(w.files, s0, r.world.files);
        hide Adds;
        forall s | s in rest ensures Settled(r.world.files, s) <==> Settled(w.files, s) {
          var i :| 0 <= i < |rest| && rest[i] == s;
          assert script[i + 1] == s && Targets(s0) !! Targets(s);
          SettledByTargets(w.files, r.world.files, s);
        }
      }
      hide Settled, Encrypts, Separate;
    }
  }

  lemma SettledByTargets(files: Files, files': Files, s: Step)
    requires forall f :: f in Targets(s) ==> (f in files <==> f in files')
    ensures Settled(files, s) <==> Settled(files', s)
  {}

  lemma {:induction false} AllTargetsSeparate(script: seq<Step>, fs: set<File>)
    requires forall s :: s in script ==> Targets(s) !! fs
    ensures AllTargets(script) !! fs
    decreases |script|
  {
    if script != [] { AllTargetsSeparate(script[1..], fs); }
  }

  lemma ScriptTargets(ct: ClusterType, c: Cluster)
    ensures Separate(Script(ct, c))
    ensures AllTargets(Script(ct, c))
         == {SOPSConfigFile, SSHPrivateKeyFile(ct), SSHPublicKeyFile(ct), TFBackendConfigFile, ConfigFile,
             SecretsFile, TFVarsFile}
  {
    var all := Script(ct, c);
    assert all == all[0..];
    TargetsFrom(all, 0);
    TargetsFrom(all, 1);
    TargetsFrom(all, 2);
    TargetsFrom(all, 3);
    TargetsFrom(all, 4);
    TargetsFrom(all, 5);
    TargetsFrom(all, 6);
    TargetsFrom(all, 7);
    hide AllTargets;
  }

  lemma TargetsFrom(script: seq<Step>, k: nat)
    requires k <= |script|
    ensures AllTargets(script[k..]) == if k == |script| then {} else Targets(script[k]) + AllTargets(script[k + 1..])
  {
    if k < |script| { assert script[k..][1..] == script[k + 1..]; }
  }

  predicate KeysThere(files: Files, ct: ClusterType) {
    SSHPrivateKeyFile(ct) in files || SSHPublicKeyFile(ct) in files
  }

  /** An undisturbed initialisation of one cluster: when it succeeds and what it leaves. */
  lemma CleanScript(o: Oracle, c: Cluster, w: World, ct: ClusterType)
    requires Undisturbed(o) && c.valid
    ensures var r := Run(o, c, w, Script(ct, c));
            && (r.ok <==> TornConfig(w.files) ==> SecretsFile in w.files && KeysThere(w.files, ct))
            && (r.ok ==> Result(w.files, Script(ct, c), r.world.files))
  {
    var all := Script(ct, c);
    ScriptTargets(ct, c);
    CleanRun(o, c, w, all);
    if TornConfig(w.files) {
      TornRun(o, c, w, all);
      assert all[2] in all && all[5] in all;
      hide Run, RunStep, Result, Separate;
    } else {
      Unroll(o, c, w, all, 0);
      Unroll(o, c, w, all, 1);
      StepAdds(o, c, w, all[1]);
      assert all == all[0..];
      var r := RunStep(o, c, w, all[1]);
      hide Run, Result, Separate;
      SoundRun(o, c, r.world, all[2..]);
    }
  }

  /******* Both clusters *******/

  const BOTH: seq<ClusterType> := [ServiceCluster, WorkloadCluster]
  const SWAPPED: seq<ClusterType> := [WorkloadCluster, ServiceCluster]

  predicate Shared(f: File) {
    !f.SSHPrivateKeyFile? && !f.SSHPublicKeyFile?
  }

  /** A shared file that was there is kept; a new one holds what the cluster puts there, up to randomness. */
  function SharedEssence(files: Files, c: Cluster, f: File): Content
    requires Shared(f)
  {
    if f in files then Essence(files[f])
    else
      match f
      case SOPSConfigFile => Plain(Text(c.fingerprint))
      case TFBackendConfigFile => Plain(Text(c.backend))
      case ConfigFile => Plain(Text(c.config))
      case SecretsFile =>
        Cipher(Text(c.secret), 0, if SOPSConfigFile in files then files[SOPSConfigFile] else Plain(Text(c.fingerprint)))
      case TFVarsFile => Plain(Text(c.tfvars))
  }

  lemma SharedAfter(files: Files, c: Cluster, ct: ClusterType, files': Files, f: File)
    requires Result(files, Script(ct, c), files') && Shared(f)
    ensures f in files' && Essence(files'[f]) == SharedEssence(files, c, f)
  {
    var all := Script(ct, c);
    assert all[1] in all && all[3] in all && all[4] in all && all[5] in all && all[6] in all;
  }

  /** A cluster's own key files; another cluster's initialisation leaves them alone. */
  lemma KeysAfter(files: Files, c: Cluster, ct: ClusterType, files': Files, k: ClusterType)
    requires Result(files, Script(ct, c), files')
    ensures SSHPrivateKeyFile(k) in files' <==>
              SSHPrivateKeyFile(k) in files || (k == ct && SSHPublicKeyFile(k) !in files)
    ensures SSHPublicKeyFile(k) in files' <==>
              SSHPublicKeyFile(k) in files || (k == ct && SSHPrivateKeyFile(k) !in files)
  {
    ScriptTargets(ct, c);
    var all := Script(ct, c);
    assert all[2] in all;
  }

  /** An undisturbed command for two different clusters, in either order. */
  lemma CleanInit(o: Oracle, c: Cluster, w: World, a: ClusterType, b: ClusterType)
    requires Undisturbed(o) && c.valid && a != b
    ensures var r := InitAll(o, c, w, [a, b]);
            && (r.ok <==> TornConfig(w.files) ==> SecretsFile in w.files && forall k :: KeysThere(w.files, k))
            && (r.ok ==>
                  && (forall f :: Shared(f) ==>
                        f in r.world.files && Essence(r.world.files[f]) == SharedEssence(w.files, c, f))
                  && (forall k :: SSHPrivateKeyFile(k) in r.world.files <==>
                        SSHPrivateKeyFile(k) in w.files || SSHPublicKeyFile(k) !in w.files)
                  && (forall k :: SSHPublicKeyFile(k) in r.world.files <==>
                        SSHPublicKeyFile(k) in w.files || SSHPrivateKeyFile(k) !in w.files))
  {
    var r1 := Run(o, c, w, Script(a, c));
    CleanScript(o, c, w, a);
    var r2 := Run(o, c, r1.world, Script(b, c));
    CleanScript(o, c, r1.world, b);
    assert [a, b][1..] == [b] && [b][1..] == [];
    assert r1.ok ==> InitAll(o, c, w, [a, b]) == InitAll(o, c, r1.world, [b]) == r2;
    assert !r1.ok ==> InitAll(o, c, w, [a, b]) == r1;
    hide InitAll;
    if r1.ok {
      TornStays(o, c, w, a);
      SharedAfter(w.files, c, a, r1.world.files, SecretsFile);
      KeysAfter(w.files, c, a, r1.world.files, b);
      assert KeysThere(r1.world.files, b) <==> KeysThere(w.files, b);
      if r2.ok { BothAfter(w.files, c, a, b, r1.world.files, r2.world.files); }
    }
    hide Run, Script, Result, Essence, SharedEssence;
    forall k ensures KeysThere(w.files, k) <==> (k == a && KeysThere(w.files, a)) || (k == b && KeysThere(w.files, b)) {
      TwoClusters(a, b, k);
    }
  }

  lemma TornStays(o: Oracle, c: Cluster, w: World, ct: ClusterType)
    requires Undisturbed(o) && c.valid
    ensures var r := Run(o, c, w, Script(ct, c)); r.ok ==> (TornConfig(r.world.files) <==> TornConfig(w.files))
  {
    CleanScript(o, c, w, ct);
    hide Run;
    if Run(o, c, w, Script(ct, c)).ok {
      SharedAfter(w.files, c, ct, Run(o, c, w, Script(ct, c)).world.files, SOPSConfigFile);
    }
  }

  lemma BothAfter(files: Files, c: Cluster, a: ClusterType, b: ClusterType, mid: Files, files': Files)
    requires a != b && Result(files, Script(a, c), mid) && Result(mid, Script(b, c), files')
    ensures forall f :: Shared(f) ==> f in files' && Essence(files'[f]) == SharedEssence(files, c, f)
    ensures forall k :: SSHPrivateKeyFile(k) in files' <==>
              SSHPrivateKeyFile(k) in files || SSHPublicKeyFile(k) !in files
    ensures forall k :: SSHPublicKeyFile(k) in files' <==>
              SSHPublicKeyFile(k) in files || SSHPrivateKeyFile(k) !in files
  {
    forall f | Shared(f) ensures f in files' && Essence(files'[f]) == SharedEssence(files, c, f) {
      SharedAfter(files, c, a, mid, f);
      SharedAfter(mid, c, b, files', f);
    }
    forall k
      ensures SSHPrivateKeyFile(k) in files' <==> SSHPrivateKeyFile(k) in files || SSHPublicKeyFile(k) !in files
      ensures SSHPublicKeyFile(k) in files' <==> SSHPublicKeyFile(k) in files || SSHPrivateKeyFile(k) !in files
    {
      KeysAfter(files, c, a, mid, k);
      KeysAfter(mid, c, b, files', k);
      TwoClusters(a, b, k);
    }
    hide Script, Result, Essence, SharedEssence;
  }

  lemma TwoClusters(a: ClusterType, b: ClusterType, k: ClusterType)
    requires a != b
    ensures k == a || k == b
  {}

  /** Whichever cluster goes first, the command succeeds alike, and if it does, the shared files come out the
      same up to randomness, and the same key files are there. */
  lemma OrderIrrelevant(o: Oracle, o': Oracle, c: Cluster, w: World)
    requires Undisturbed(o) && Undisturbed(o') && c.valid
    ensures var r, r' := InitAll(o, c, w, BOTH), InitAll(o', c, w, SWAPPED);
            && (r.ok <==> r'.ok)
            && (r.ok ==>
                  && r.world.files.Keys == r'.world.files.Keys
                  && forall f :: Shared(f) ==>
                       f in r.world.files && Essence(r.world.files[f]) == Essence(r'.world.files[f]))
  {
    var r, r' := InitAll(o, c, w, BOTH), InitAll(o', c, w, SWAPPED);
    CleanInit(o, c, w, ServiceCluster, WorkloadCluster);
    CleanInit(o', c, w, WorkloadCluster, ServiceCluster);
    hide InitAll, Essence, SharedEssence;
    if r.ok {
      forall f ensures f in r.world.files <==> f in r'.world.files {
        match f
        case SSHPrivateKeyFile(k) =>
        case SSHPublicKeyFile(k) =>
        case _ => assert Shared(f);
      }
    }
  }

  /** An undisturbed success leaves in each shared file that was not there what the cluster is configured with: the
      secrets encrypted under the SOPS config that is there afterwards, all else in plain text. */
  lemma ContentsAsGiven(o: Oracle, c: Cluster, w: World)
    requires Undisturbed(o) && c.valid && InitAll(o, c, w, BOTH).ok
    ensures var files' := InitAll(o, c, w, BOTH).world.files;
            && SOPSConfigFile in files' && TFBackendConfigFile in files' && ConfigFile in files'
            && SecretsFile in files' && TFVarsFile in files'
            && (SOPSConfigFile !in w.files ==> files'[SOPSConfigFile] == Plain(Text(c.fingerprint)))
            && (TFBackendConfigFile !in w.files ==> files'[TFBackendConfigFile] == Plain(Text(c.backend)))
            && (ConfigFile !in w.files ==> files'[ConfigFile] == Plain(Text(c.config)))
            && (TFVarsFile !in w.files ==> files'[TFVarsFile] == Plain(Text(c.tfvars)))
            && (SecretsFile !in w.files ==>
                  && files'[SecretsFile].Cipher? && files'[SecretsFile].data == Text(c.secret)
                  && files'[SecretsFile].config == files'[SOPSConfigFile])
  {
    var files' := InitAll(o, c, w, BOTH).world.files;
    CleanInit(o, c, w, ServiceCluster, WorkloadCluster);
    EncryptsUnderConfig(o, c, w, BOTH);
    hide InitAll;
    forall f | Shared(f) ensures f in files' && Essence(files'[f]) == SharedEssence(w.files, c, f) {}
    assert Shared(SOPSConfigFile) && Shared(TFBackendConfigFile) && Shared(ConfigFile) && Shared(TFVarsFile);
    assert Shared(SecretsFile);
    assert SecretsFile !in w.files ==> SealedFile(files', SecretsFile);
  }

  /** Every file is there as a whole. */
  ghost predicate Complete(files: Files) {
    forall f: File :: f in files && !files[f].Torn?
  }

  ghost predicate NothingTorn(files: Files) {
    forall f :: f in files ==> !files[f].Torn?
  }

  /** Each key pair is there as a whole or not at all. */
  ghost predicate PairsWhole(files: Files) {
    forall k :: SSHPrivateKeyFile(k) in files <==> SSHPublicKeyFile(k) in files
  }

  /** From any directory, left by whatever failures, an undisturbed command succeeds exactly if the SOPS config
      is not torn or nothing is left to encrypt, and it completes the set exactly if no file was torn and no key
      pair left half-written. */
  lemma CompletesExactly(o: Oracle, c: Cluster, w: World)
    requires Undisturbed(o) && c.valid
    ensures var r := InitAll(o, c, w, BOTH);
            && (r.ok <==> TornConfig(w.files) ==> SecretsFile in w.files && forall k :: KeysThere(w.files, k))
            && (r.ok && Complete(r.world.files) <==> NothingTorn(w.files) && PairsWhole(w.files))
  {
    var r := InitAll(o, c, w, BOTH);
    CleanInit(o, c, w, ServiceCluster, WorkloadCluster);
    NeverOverwrites(o, c, w, BOTH);
    if NothingTorn(w.files) && PairsWhole(w.files) {
      forall f: File ensures f in r.world.files && !r.world.files[f].Torn? {
        WholeAfter(o, c, w, f);
      }
    }
    hide InitAll, Essence, SharedEssence;
    if r.ok && Complete(r.world.files) && !PairsWhole(w.files) {
      var k :| !(SSHPrivateKeyFile(k) in w.files <==> SSHPublicKeyFile(k) in w.files);
    }
  }

  lemma WholeAfter(o: Oracle, c: Cluster, w: World, f: File)
    requires Undisturbed(o) && c.valid && NothingTorn(w.files) && PairsWhole(w.files)
    ensures var files' := InitAll(o, c, w, BOTH).world.files; f in files' && !files'[f].Torn?
  {
    CleanInit(o, c, w, ServiceCluster, WorkloadCluster);
    NeverOverwrites(o, c, w, BOTH);
    EncryptsUnderConfig(o, c, w, BOTH);
    hide InitAll;
    match f
    case SSHPrivateKeyFile(k) => NewWhole(o, c, w, k);
    case SSHPublicKeyFile(k) => NewWhole(o, c, w, k);
    case _ => assert Shared(f);
  }

  /** An undisturbed run tears nothing. */
  lemma {:induction false} TearsNothing(o: Oracle, c: Cluster, w: World, script: seq<Step>)
    requires Undisturbed(o) && NothingTorn(w.files)
    ensures NothingTorn(Run(o, c, w, script).world.files)
    decreases |script|
  {
    if script != [] {
      StepTearsNothing(o, c, w, script[0]);
      hide RunStep;
      TearsNothing(o, c, RunStep(o, c, w, script[0]).world, script[1..]);
    }
  }

  lemma StepTearsNothing(o: Oracle, c: Cluster, w: World, s: Step)
    requires Undisturbed(o) && NothingTorn(w.files)
    ensures NothingTorn(RunStep(o, c, w, s).world.files)
  {}

  lemma NewWhole(o: Oracle, c: Cluster, w: World, k: ClusterType)
    requires Undisturbed(o) && c.valid && NothingTorn(w.files)
    ensures NothingTorn(InitAll(o, c, w, BOTH).world.files)
  {
    var r1 := Run(o, c, w, Script(ServiceCluster, c));
    TearsNothing(o, c, w, Script(ServiceCluster, c));
    TearsNothing(o, c, r1.world, Script(WorkloadCluster, c));
    assert BOTH[1..] == [WorkloadCluster] && [WorkloadCluster][1..] == [];
    hide Run, Script;
    assert r1.ok ==> InitAll(o, c, w, BOTH) == InitAll(o, c, r1.world, [WorkloadCluster]);
  }

  /** The write that leaves a half pair: the private key is stored, the public key is not. */
  lemma HalfPairHappens(o: Oracle, w: World, ct: ClusterType)
    requires Sound(w.files) && SSHPrivateKeyFile(ct) !in w.files && SSHPublicKeyFile(ct) !in w.files
    requires (forall i :: w.at <= i < w.at + 7 ==> o(i).Fine?) && o(w.at + 7).Fails?
    ensures var r := AddKeyPair(o, w, ct);
            !r.ok && SSHPrivateKeyFile(ct) in r.world.files && SSHPublicKeyFile(ct) !in r.world.files
  {}

  /** Once half-written, a pair stays so: no later run, failing or not, adds the other half. */
  lemma {:induction false} HalfPairStays(o: Oracle, c: Cluster, w: World, types: seq<ClusterType>, k: ClusterType)
    requires !(SSHPrivateKeyFile(k) in w.files <==> SSHPublicKeyFile(k) in w.files)
    ensures var files' := InitAll(o, c, w, types).world.files;
            && (SSHPrivateKeyFile(k) in files' <==> SSHPrivateKeyFile(k) in w.files)
            && (SSHPublicKeyFile(k) in files' <==> SSHPublicKeyFile(k) in w.files)
    decreases |types|
  {
    hide Run, Script;
    if types != [] {
      var r := Run(o, c, w, Script(types[0], c));
      ScriptKnown(types[0], c);
      HalfPairKept(o, c, w, Script(types[0], c), k);
      if r.ok { HalfPairStays(o, c, r.world, types[1..], k); }
    }
  }

  lemma ScriptKnown(ct: ClusterType, c: Cluster)
    ensures forall s :: s in Script(ct, c) ==> Known(s)
  {}

  lemma FileTouches(o: Oracle, w: World, f: File, d: Data, encrypted: bool)
    ensures forall g :: g != f ==> (g in AddFile(o, w, f, d, encrypted).world.files <==> g in w.files)
  {}

  lemma FileKeepsHalf(o: Oracle, w: World, f: File, d: Data, encrypted: bool, k: ClusterType)
    requires !f.SSHPrivateKeyFile? && !f.SSHPublicKeyFile?
    ensures var files' := AddFile(o, w, f, d, encrypted).world.files;
            && (SSHPrivateKeyFile(k) in files' <==> SSHPrivateKeyFile(k) in w.files)
            && (SSHPublicKeyFile(k) in files' <==> SSHPublicKeyFile(k) in w.files)
  {
    FileTouches(o, w, f, d, encrypted);
    hide AddFile;
  }

  lemma StepKeepsHalf(o: Oracle, c: Cluster, w: World, s: Step, k: ClusterType)
    requires Known(s) && !(SSHPrivateKeyFile(k) in w.files <==> SSHPublicKeyFile(k) in w.files)
    ensures var files' := RunStep(o, c, w, s).world.files;
            && (SSHPrivateKeyFile(k) in files' <==> SSHPrivateKeyFile(k) in w.files)
            && (SSHPublicKeyFile(k) in files' <==> SSHPublicKeyFile(k) in w.files)
  {
    match s
    case Validate =>
    case NewFile(f, text, encrypted) => FileKeepsHalf(o, w, f, Text(text), encrypted, k);
    case NewKeyPair(_) =>
  }

  lemma {:induction false} HalfPairKept(o: Oracle, c: Cluster, w: World, script: seq<Step>, k: ClusterType)
    requires (forall s :: s in script ==> Known(s))
        && !(SSHPrivateKeyFile(k) in w.files <==> SSHPublicKeyFile(k) in w.files)
    ensures var files' := Run(o, c, w, script).world.files;
            && (SSHPrivateKeyFile(k) in files' <==> SSHPrivateKeyFile(k) in w.files)
            && (SSHPublicKeyFile(k) in files' <==> SSHPublicKeyFile(k) in w.files)
    decreases |script|
  {
    if script != [] {
      StepKeepsHalf(o, c, w, script[0], k);
      hide RunStep, Known;
      HalfPairKept(o, c, RunStep(o, c, w, script[0]).world, script[1..], k);
    }
  }

  /******* Pairs match *******/

  /** A pair is made from one key, and its private half is sealed under the SOPS config. */
  ghost predicate Pair(files: Files, k: ClusterType) {
    && SSHPrivateKeyFile(k) in files && SSHPublicKeyFile(k) in files && SOPSConfigFile in files
    && var priv := files[SSHPrivateKeyFile(k)];
       priv.Cipher? && priv.data.PrivateKey? && priv.config == files[SOPSConfigFile]
       && files[SSHPublicKeyFile(k)] == Plain(PublicKey(priv.data.id))
  }

  /** If both halves are there as a whole, they match. */
  ghost predicate MatchesIfWhole(files: Files, k: ClusterType) {
    var (priv, pub) := (SSHPrivateKeyFile(k), SSHPublicKeyFile(k));
    priv in files && pub in files && !files[priv].Torn? && !files[pub].Torn? ==> Pair(files, k)
  }

  lemma NewPairMatches(o: Oracle, w: World, k: ClusterType)
    requires SSHPrivateKeyFile(k) !in w.files && SSHPublicKeyFile(k) !in w.files
    ensures MatchesIfWhole(AddKeyPair(o, w, k).world.files, k)
  {}

  lemma OtherPair(o: Oracle, w: World, ct: ClusterType, k: ClusterType)
    requires ct != k
    ensures var files' := AddKeyPair(o, w, ct).world.files;
            && (SSHPrivateKeyFile(k) in files' <==> SSHPrivateKeyFile(k) in w.files)
            && (SSHPublicKeyFile(k) in files' <==> SSHPublicKeyFile(k) in w.files)
  {}

  /** No step spoils a match or adds half of a wrong one. */
  lemma StepMatches(o: Oracle, c: Cluster, w: World, s: Step, k: ClusterType)
    requires Known(s) && MatchesIfWhole(w.files, k)
    ensures MatchesIfWhole(RunStep(o, c, w, s).world.files, k)
  {
    StepKeeps(o, c, w, s);
    if SSHPrivateKeyFile(k) !in w.files && SSHPublicKeyFile(k) !in w.files {
      match s {
        case Validate =>
        case NewFile(f, text, encrypted) =>
          FileTouches(o, w, f, Text(text), encrypted);
          hide AddFile;
        case NewKeyPair(ct) =>
          if ct == k { NewPairMatches(o, w, k); } else { OtherPair(o, w, ct, k); }
          hide AddKeyPair;
      }
    } else if !(SSHPrivateKeyFile(k) in w.files <==> SSHPublicKeyFile(k) in w.files) {
      StepKeepsHalf(o, c, w, s, k);
      hide RunStep;
    } else {
      hide RunStep;
    }
  }

  lemma {:induction false} RunMatches(o: Oracle, c: Cluster, w: World, script: seq<Step>, k: ClusterType)
    requires (forall s :: s in script ==> Known(s)) && MatchesIfWhole(w.files, k)
    ensures MatchesIfWhole(Run(o, c, w, script).world.files, k)
    decreases |script|
  {
    hide RunStep, MatchesIfWhole, Known;
    if script != [] {
      StepMatches(o, c, w, script[0], k);
      RunMatches(o, c, RunStep(o, c, w, script[0]).world, script[1..], k);
    }
  }

  /** Whatever fails: a key pair that was not there and is there as a whole afterwards was made from one key,
      the private half encrypted under the SOPS config. */
  lemma {:induction false} KeyPairsMatch(o: Oracle, c: Cluster, w: World, types: seq<ClusterType>, k: ClusterType)
    requires MatchesIfWhole(w.files, k)
    ensures MatchesIfWhole(InitAll(o, c, w, types).world.files, k)
    decreases |types|
  {
    hide Run, Script, MatchesIfWhole;
    if types != [] {
      ScriptKnown(types[0], c);
      RunMatches(o, c, w, Script(types[0], c), k);
      var r := Run(o, c, w, Script(types[0], c));
      if r.ok { KeyPairsMatch(o, c, r.world, types[1..], k); }
    }
  }
}
