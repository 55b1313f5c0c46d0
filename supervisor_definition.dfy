// A supervised process definition of caddy-supervisor (definition.go): the
// defaults and checks that turn a Definition into the options of its
// supervisors, one per replica.
module SupervisorDefinition {
  import opened Wrappers
  import opened GoStrings

  const OutputTypeStdout: string := "stdout"
  const OutputTypeStderr: string := "stderr"
  const OutputTypeNull: string := "null"
  const OutputTypeFile: string := "file"

  /** The restart policy set when none is given. */
  const RestartAlways: string := "always"

  /** time.Second, in nanoseconds. */
  const Second: int := 1_000_000_000

  /** Where an output of the command goes, and the file for the "file" type. */
  datatype OutputTarget = OutputTarget(ttype: string, file: string)

  /** A Definition. Env is a Go map: its iteration order, which Go leaves
      unspecified, is given to the operations that depend on it. */
  datatype Definition = Definition(command: seq<string>, replicas: int, dir: string,
                                   env: map<string, string>,
                                   redirectStdout: Option<OutputTarget>, redirectStderr: Option<OutputTarget>,
                                   restartPolicy: string, terminationGracePeriod: string, user: string)

  /** The options of one supervisor; the grace period is in nanoseconds. */
  datatype Options = Options(command: string, args: seq<string>, dir: string, env: seq<string>,
                             restartPolicy: string, user: string,
                             redirectStdout: OutputTarget, redirectStderr: OutputTarget,
                             terminationGracePeriod: int, replica: int)

  /** The three target types that need nothing more. */
  predicate IsStream(ttype: string) {
    ttype == OutputTypeNull || ttype == OutputTypeStdout || ttype == OutputTypeStderr
  }

  /** validateOutputTarget: the error for a target that cannot be used. */
  function ValidateOutputTarget(t: OutputTarget): (err: Option<string>)
    ensures err.None? <==> IsStream(t.ttype) || (t.ttype == OutputTypeFile && t.file != "")
    ensures t.ttype == OutputTypeFile && t.file == "" ==>
              err == Some("invalid output target, file should be defined")
  {
    if IsStream(t.ttype) then None
    else if t.ttype == OutputTypeFile then
      if t.file == "" then Some("invalid output target, file should be defined") else None
    else Some("unsupported output target type '" + t.ttype + "', allowed: null, stderr, stdout, file")
  }

  /** OutputTarget.string: the type, the file for a file target, "unknown" otherwise. */
  function TargetString(t: OutputTarget): (s: string)
    ensures IsStream(t.ttype) ==> s == t.ttype
    ensures t.ttype == OutputTypeFile ==> s == "file(" + t.file + ")"
    ensures !IsStream(t.ttype) && t.ttype != OutputTypeFile ==> s == "unknown"
  {
    if IsStream(t.ttype) then t.ttype
    else if t.ttype == OutputTypeFile then "file(" + t.file + ")"
    else "unknown"
  }

  /** A usable target is never described as "unknown", and its description tells
      its type and, for a file, its file. */
  lemma TargetStringInjective(a: OutputTarget, b: OutputTarget)
    requires ValidateOutputTarget(a).None? && ValidateOutputTarget(b).None?
    requires TargetString(a) == TargetString(b)
    ensures TargetString(a) != "unknown"
    ensures a.ttype == b.ttype && (a.ttype == OutputTypeFile ==> a.file == b.file)
  {
    var s := TargetString(a);
    if a.ttype == OutputTypeFile && b.ttype == OutputTypeFile {
      assert a.file == s[5..|s| - 1];
      assert b.file == s[5..|s| - 1];
    }
  }

  // ---------------------------------------------------------------------------
  // The environment

  /** An iteration order of a map: each key exactly once. */
  predicate IsEnumeration(order: seq<string>, env: map<string, string>) {
    && |order| == |env|
    && (forall i | 0 <= i < |order| :: order[i] in env)
    && (forall k | k in env :: k in order)
    && (forall i, j | 0 <= i < j < |order| :: order[i] != order[j])
  }

  /** envToCmdArg in a given iteration order. */
  function EnvArgs(env: map<string, string>, order: seq<string>): (r: seq<string>)
    requires forall i | 0 <= i < |order| :: order[i] in env
    ensures |r| == |order|
  {
    seq(|order|, i requires 0 <= i < |order| => order[i] + "=" + env[order[i]])
  }

  /** There is one "key=value" for every entry of the map, and nothing else. */
  lemma EnvArgsListsEntries(env: map<string, string>, order: seq<string>)
    requires IsEnumeration(order, env)
    ensures |EnvArgs(env, order)| == |env|
    ensures forall k | k in env :: k + "=" + env[k] in EnvArgs(env, order)
    ensures forall a | a in EnvArgs(env, order) :: exists k | k in env :: a == k + "=" + env[k]
  {
    var r := EnvArgs(env, order);
    forall k | k in env
      ensures k + "=" + env[k] in r
    {
      var i :| 0 <= i < |order| && order[i] == k;
      assert r[i] == k + "=" + env[k];
    }
    forall a | a in r
      ensures exists k | k in env :: a == k + "=" + env[k]
    {
      var i :| 0 <= i < |r| && r[i] == a;
      assert order[i] in env && a == order[i] + "=" + env[order[i]];
    }
  }

  /** envToCmdArg: fills an array of the map's size, by index, as the map is iterated. */
  method EnvToCmdArg(env: map<string, string>, order: seq<string>) returns (r: seq<string>)
    requires IsEnumeration(order, env)
    ensures r == EnvArgs(env, order)
  {
    var a := new string[|env|];
    var i := 0;
    while i < |order|
      invariant 0 <= i <= |order|
      invariant forall j | 0 <= j < i :: a[j] == order[j] + "=" + env[order[j]]
    {
      a[i] := order[i] + "=" + env[order[i]];
      i := i + 1;
    }
    r := a[..];
  }

  // ---------------------------------------------------------------------------
  // Supervisors

  /** The number of supervisors: Replicas, with 0 meaning one. */
  function ReplicaCount(d: Definition): int {
    if d.replicas == 0 then 1 else d.replicas
  }

  /** The options ToSupervisors prepares before making supervisors: the defaults
      (restart always, stdout to stdout, stderr to stderr, 10 seconds' grace) and
      the checks, in order, of the user, the two targets and the grace period. */
  function Prepare(d: Definition, order: seq<string>, userExists: string -> bool,
                   parseDuration: string -> Option<int>): Result<Options, string>
    requires |d.command| > 0 && IsEnumeration(order, d.env)
  {
    if d.user != "" && !userExists(d.user) then Err("user: unknown user " + d.user)
    else if d.redirectStdout.Some? && ValidateOutputTarget(d.redirectStdout.value).Some? then
      Err(ValidateOutputTarget(d.redirectStdout.value).value)
    else if d.redirectStderr.Some? && ValidateOutputTarget(d.redirectStderr.value).Some? then
      Err(ValidateOutputTarget(d.redirectStderr.value).value)
    else if d.terminationGracePeriod != "" && parseDuration(d.terminationGracePeriod).None? then
      Err("cannot parse termination grace period of supervisor '" + Join(d.command, " ") + "'")
    else
      Ok(Options(d.command[0], d.command[1..], d.dir, EnvArgs(d.env, order),
                 if d.restartPolicy == "" then RestartAlways else d.restartPolicy, d.user,
                 if d.redirectStdout.None? then OutputTarget(OutputTypeStdout, "") else d.redirectStdout.value,
                 if d.redirectStderr.None? then OutputTarget(OutputTypeStderr, "") else d.redirectStderr.value,
                 if d.terminationGracePeriod == "" then 10 * Second else parseDuration(d.terminationGracePeriod).value,
                 0))
  }

  /** The defaults of a definition that sets nothing but its command. */
  lemma PrepareDefaults(d: Definition, order: seq<string>, userExists: string -> bool,
                        parseDuration: string -> Option<int>)
    requires |d.command| > 0 && IsEnumeration(order, d.env)
    requires d.user == "" && d.redirectStdout.None? && d.redirectStderr.None?
    requires d.restartPolicy == "" && d.terminationGracePeriod == ""
    ensures Prepare(d, order, userExists, parseDuration).Ok?
    ensures var o := Prepare(d, order, userExists, parseDuration).value;
            && o.restartPolicy == RestartAlways && o.terminationGracePeriod == 10 * Second
            && o.redirectStdout.ttype == OutputTypeStdout && o.redirectStderr.ttype == OutputTypeStderr
            && [o.command] + o.args == d.command
  {
  }

  /** Prepare fails exactly when one of the checks does, and then keeps the
      first check's error. */
  lemma PrepareFails(d: Definition, order: seq<string>, userExists: string -> bool,
                     parseDuration: string -> Option<int>)
    requires |d.command| > 0 && IsEnumeration(order, d.env)
    ensures Prepare(d, order, userExists, parseDuration).Err? <==>
              (d.user != "" && !userExists(d.user))
              || (d.redirectStdout.Some? && ValidateOutputTarget(d.redirectStdout.value).Some?)
              || (d.redirectStderr.Some? && ValidateOutputTarget(d.redirectStderr.value).Some?)
              || (d.terminationGracePeriod != "" && parseDuration(d.terminationGracePeriod).None?)
    ensures d.user != "" && !userExists(d.user) ==>
              Prepare(d, order, userExists, parseDuration) == Err("user: unknown user " + d.user)
    ensures (d.user == "" || userExists(d.user)) && d.redirectStdout.Some? &&
            ValidateOutputTarget(d.redirectStdout.value).Some? ==>
              Prepare(d, order, userExists, parseDuration) == Err(ValidateOutputTarget(d.redirectStdout.value).value)
  {
  }

  /** The supervisors for the first k replicas of the prepared options, each
      templated with its replica index set; the first template error stops the
      list and is returned beside the supervisors made before it. */
  function Replicas(opts: Options, k: nat, processTemplates: Options -> Result<Options, string>)
    : (r: (seq<Options>, Option<string>))
    ensures |r.0| <= k
    ensures r.1.None? ==> |r.0| == k
  {
    if k == 0 then ([], None)
    else
      var prev := Replicas(opts, k - 1, processTemplates);
      if prev.1.Some? then prev
      else match processTemplates(opts.(replica := k - 1))
        case Err(e) => (prev.0, Some(e))
        case Ok(o) => (prev.0 + [o], None)
  }

  /** Without template errors supervisor i is made from the options of replica i. */
  lemma {:induction false} ReplicasInOrder(opts: Options, k: nat, processTemplates: Options -> Result<Options, string>)
    requires forall i | 0 <= i < k :: processTemplates(opts.(replica := i)).Ok?
    ensures Replicas(opts, k, processTemplates).1.None?
    ensures forall i | 0 <= i < k ::
              Replicas(opts, k, processTemplates).0[i] == processTemplates(opts.(replica := i)).value
  {
    if k > 0 {
      ReplicasInOrder(opts, k - 1, processTemplates);
    }
  }

  /** A template error at replica j leaves exactly the j supervisors before it. */
  lemma {:induction false} ReplicasStopAtError(opts: Options, k: nat, j: nat,
                                               processTemplates: Options -> Result<Options, string>)
    requires j < k && processTemplates(opts.(replica := j)).Err?
    requires forall i | 0 <= i < j :: processTemplates(opts.(replica := i)).Ok?
    ensures Replicas(opts, k, processTemplates) ==
              (Replicas(opts, j, processTemplates).0, Some(processTemplates(opts.(replica := j)).error))
    ensures |Replicas(opts, k, processTemplates).0| == j
  {
    if k == j + 1 {
      ReplicasInOrder(opts, j, processTemplates);
    } else {
      ReplicasStopAtError(opts, k - 1, j, processTemplates);
    }
  }

  /** ToSupervisors as a function of its inputs: the supervisors (by their
      options) and the error, if any. */
  function ToSupervisorsSpec(d: Definition, order: seq<string>, userExists: string -> bool,
                             parseDuration: string -> Option<int>,
                             processTemplates: Options -> Result<Options, string>): (seq<Options>, Option<string>)
    requires |d.command| > 0 && IsEnumeration(order, d.env)
  {
    match Prepare(d, order, userExists, parseDuration)
    case Err(e) => ([], Some(e))
    case Ok(opts) =>
      var n := ReplicaCount(d);
      if n <= 0 then ([], None) else Replicas(opts, n, processTemplates)
  }

  /** A definition without a replica count makes one supervisor. */
  lemma DefaultIsOneReplica(d: Definition, order: seq<string>, userExists: string -> bool,
                            parseDuration: string -> Option<int>,
                            processTemplates: Options -> Result<Options, string>)
    requires |d.command| > 0 && IsEnumeration(order, d.env) && d.replicas == 0
    requires Prepare(d, order, userExists, parseDuration).Ok?
    requires processTemplates(Prepare(d, order, userExists, parseDuration).value).Ok?
    ensures ToSupervisorsSpec(d, order, userExists, parseDuration, processTemplates).0
              == [processTemplates(Prepare(d, order, userExists, parseDuration).value).value]
  {
    var opts := Prepare(d, order, userExists, parseDuration).value;
    assert opts.(replica := 0) == opts;
    assert Replicas(opts, 0, processTemplates) == ([], None);
  }

  /** A negative replica count makes no supervisor and no error. */
  lemma NegativeReplicasMakeNone(d: Definition, order: seq<string>, userExists: string -> bool,
                                 parseDuration: string -> Option<int>,
                                 processTemplates: Options -> Result<Options, string>)
    requires |d.command| > 0 && IsEnumeration(order, d.env) && d.replicas < 0
    requires Prepare(d, order, userExists, parseDuration).Ok?
    ensures ToSupervisorsSpec(d, order, userExists, parseDuration, processTemplates) == ([], None)
  {
  }

  /** Once a template fails, later replicas are not made. */
  lemma {:induction false} ReplicasErrorSticks(opts: Options, k: nat, n: nat,
                                               processTemplates: Options -> Result<Options, string>)
    requires k <= n && Replicas(opts, k, processTemplates).1.Some?
    ensures Replicas(opts, n, processTemplates) == Replicas(opts, k, processTemplates)
    decreases n - k
  {
    if k < n {
      ReplicasErrorSticks(opts, k, n - 1, processTemplates);
    }
  }

  /** ToSupervisors: the options are set up and checked once (Prepare); then,
      for each replica index in turn, the index is set on the options and the
      templated options become the next supervisor. User lookup, duration parsing and
      template processing are given. Command must not be empty: the source
      indexes its first element. */
  method ToSupervisors(d: Definition, order: seq<string>, userExists: string -> bool,
                       parseDuration: string -> Option<int>,
                       processTemplates: Options -> Result<Options, string>)
    returns (supervisors: seq<Options>, err: Option<string>)
    requires |d.command| > 0 && IsEnumeration(order, d.env)
    ensures (supervisors, err) == ToSupervisorsSpec(d, order, userExists, parseDuration, processTemplates)
  {
    supervisors := [];
    var prepared := Prepare(d, order, userExists, parseDuration);
    if prepared.Err? {
      return supervisors, Some(prepared.error);
    }
    var opts := prepared.value;
    var replicas := d.replicas;
    if replicas == 0 {
      replicas := 1;
    }
    ghost var base := opts;
    var i := 0;
    while i < replicas
      invariant 0 <= i <= (if replicas > 0 then replicas else 0)
      invariant opts.(replica := 0) == base.(replica := 0)
      invariant (supervisors, None) == Replicas(base, i, processTemplates)
    {
      opts := opts.(replica := i);
      assert opts == base.(replica := i);
      var templated := processTemplates(opts);
      if templated.Err? {
        ReplicasErrorSticks(base, i + 1, replicas, processTemplates);
        return supervisors, Some(templated.error);
      }
      supervisors := supervisors + [templated.value];
      i := i + 1;
    }
    err := None;
  }
}
