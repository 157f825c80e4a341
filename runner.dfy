/** The migration runner (`migrate_harness`): builds the list of
    `harness-upgrade` subcommands from four flags, then for each application
    writes its configuration file and issues one command per subcommand,
    logging a re-run hint before each and the progress after each
    application. Effects are recorded in order instead of performed. */
module Runner {
  import opened Common
  import opened Applications

  /** The values shared by every command and configuration file. */
  datatype Settings = Settings(token: string, org: string, account: string,
                               secretScope: string, connectorScope: string,
                               templateScope: string, workflowScope: string,
                               environment: string)

  /** The four migration flags. */
  datatype Flags = Flags(applications: bool, pipelines: bool, workflows: bool, workflowsAsPipelines: bool)

  /** What the runner does, in order: write a configuration file, log the
      hint for re-running a command, run a command, log the progress line. */
  datatype Effect =
    | WriteConfig(path: string, values: map<string, string>)
    | RerunHint(command: string)
    | RunCommand(command: string)
    | Progress(done: nat, total: nat)

  const AppAll := "app --all"
  const PipelinesAll := "pipelines --all import"
  const WorkflowsAll := "workflows --all"
  const WorkflowsAsPipelines := "workflows --all --as-pipelines"

  /** The subcommand list of main.py:92-99, as the source is written: the
      third element's two conditional expressions are joined by adjacent
      string literals (`'' 'workflows --all --as-pipelines'`), so they form
      one element in which the workflows flag wins. Empty entries are then
      dropped, keeping order. */
  function Migrations(f: Flags): (ms: seq<string>)
    ensures |ms| <= 3
  {
    var third := if f.workflows then WorkflowsAll else if f.workflowsAsPipelines then WorkflowsAsPipelines else "";
    var candidates := [if f.applications then AppAll else "", if f.pipelines then PipelinesAll else "", third];
    Filter(candidates, IsNonEmpty)
  }

  /** Python's truth test on a string, which `filter(None, ...)` applies. */
  predicate IsNonEmpty(m: string)
  {
    m != ""
  }

  /** The subcommands the flags enable, in the fixed order applications,
      pipelines, workflows, workflows as pipelines; the last only when the
      workflows flag is off. */
  function EnabledInOrder(f: Flags): seq<string>
  {
    (if f.applications then [AppAll] else [])
    + ((if f.pipelines then [PipelinesAll] else [])
       + ((if f.workflows then [WorkflowsAll] else [])
          + (if f.workflowsAsPipelines && !f.workflows then [WorkflowsAsPipelines] else [])))
  }

  /** The source's list construction yields exactly the enabled subcommands
      in the fixed order. */
  lemma MigrationsInOrder(f: Flags)
    ensures Migrations(f) == EnabledInOrder(f)
  {
    var third := if f.workflows then WorkflowsAll else if f.workflowsAsPipelines then WorkflowsAsPipelines else "";
    var a := if f.applications then AppAll else "";
    var p := if f.pipelines then PipelinesAll else "";
    FilterCons(a, [p, third], IsNonEmpty);
    FilterCons(p, [third], IsNonEmpty);
    FilterCons(third, [], IsNonEmpty);
    assert [a, p, third] == [a] + [p, third] && [p, third] == [p] + [third] && [third] == [third] + [];
    var l1: seq<string> := if f.applications then [AppAll] else [];
    var l2: seq<string> := if f.pipelines then [PipelinesAll] else [];
    var l3: seq<string> := if f.workflows then [WorkflowsAll] else [];
    var l4: seq<string> := if f.workflowsAsPipelines && !f.workflows then [WorkflowsAsPipelines] else [];
    assert (if IsNonEmpty(a) then [a] else []) == l1;
    assert (if IsNonEmpty(p) then [p] else []) == l2;
    assert (if IsNonEmpty(third) then [third] else []) == l3 + l4;
    assert Filter([a, p, third], IsNonEmpty) == l1 + (l2 + ((l3 + l4) + Filter([], IsNonEmpty)));
    assert (l3 + l4) + [] == l3 + l4;
  }

  /** Consequences for the list: no empty entry, one entry per enabled
      flag with the two workflow flags counted once, `workflows --all` and
      `workflows --all --as-pipelines` never both present, and each
      subcommand present exactly when its flag asks for it. */
  lemma MigrationsShape(f: Flags)
    ensures var ms := Migrations(f);
      (forall i :: 0 <= i < |ms| ==> ms[i] != "") &&
      |ms| == (if f.applications then 1 else 0) + (if f.pipelines then 1 else 0)
              + (if f.workflows || f.workflowsAsPipelines then 1 else 0) &&
      (AppAll in ms <==> f.applications) &&
      (PipelinesAll in ms <==> f.pipelines) &&
      (WorkflowsAll in ms <==> f.workflows) &&
      (WorkflowsAsPipelines in ms <==> f.workflowsAsPipelines && !f.workflows) &&
      !(WorkflowsAll in ms && WorkflowsAsPipelines in ms)
  {
    MigrationsInOrder(f);
    assert |AppAll| == 9 && |PipelinesAll| == 22 && |WorkflowsAll| == 15 && |WorkflowsAsPipelines| == 30;
  }

  const ConfigPrefix := "./values-"

  /** Where the configuration of the project `identifier` is written. */
  function ConfigPath(identifier: string): (p: string)
    ensures |p| == |ConfigPrefix| + |identifier| + 5
    ensures p[..|ConfigPrefix|] == ConfigPrefix && p[|p| - 5..] == ".yaml"
    ensures p[|ConfigPrefix|..|p| - 5] == identifier
  {
    ConfigPrefix + identifier + ".yaml"
  }

  /** The keys of every configuration file; each is also the name of the
      `harness-upgrade` option that takes its value. */
  const ConfigKeys: set<string> :=
    {"env", "api-key", "account", "app", "project", "org",
     "secret-scope", "connector-scope", "template-scope", "workflow-scope"}

  /** The configuration written for the application `id` whose project is
      `identifier`. */
  function Config(s: Settings, id: string, identifier: string): map<string, string>
  {
    map["env" := s.environment, "api-key" := s.token, "account" := s.account,
        "app" := id, "project" := identifier, "org" := s.org,
        "secret-scope" := s.secretScope, "connector-scope" := s.connectorScope,
        "template-scope" := s.templateScope, "workflow-scope" := s.workflowScope]
  }

  /** The options every command passes, in the order the command passes
      them; each is also a key of the configuration file. */
  const OptionOrder: seq<string> :=
    ["api-key", "project", "org", "account", "app",
     "secret-scope", "connector-scope", "template-scope", "workflow-scope", "env"]

  /** The values of the options of OptionOrder, position by position. */
  function OptionValues(s: Settings, id: string, identifier: string): seq<string>
  {
    [s.token, identifier, s.org, s.account, id,
     s.secretScope, s.connectorScope, s.templateScope, s.workflowScope, s.environment]
  }

  /** One option of a command line: ` --name value`. */
  function Opt(name: string, value: string): string
  {
    " --" + name + " " + value
  }

  /** ` --n v` for each option name `n` and its value `v`, in order. */
  function Render(names: seq<string>, values: seq<string>): string
    requires |names| == |values|
  {
    if names == [] then "" else Opt(names[0], values[0]) + Render(names[1..], values[1..])
  }

  /** The command run for one application and one subcommand:
      `harness-upgrade --api-key <token> --project <identifier> --org <org>
      --account <account> --app <id> --secret-scope <s> --connector-scope <s>
      --template-scope <s> --workflow-scope <s> --env <env> <subcommand>`. */
  function Command(s: Settings, id: string, identifier: string, migration: string): (c: string)
    ensures |c| > |migration| && c[|c| - |migration|..] == migration
  {
    "harness-upgrade" + Render(OptionOrder, OptionValues(s, id, identifier)) + " " + migration
  }

  /** The re-run hint logged before each command. */
  function Hint(identifier: string, migration: string): (h: string)
    ensures |h| > |migration| && h[|h| - |migration|..] == migration
  {
    "harness-upgrade --load " + ConfigPath(identifier) + " " + migration
  }

  /** One more option taken off the rendered rest. */
  lemma RenderFrom(head: string, n: seq<string>, v: seq<string>, i: nat, acc: string)
    requires |n| == |v| && i < |n|
    requires head + Render(n, v) == acc + Render(n[i..], v[i..])
    ensures head + Render(n, v) == acc + Opt(n[i], v[i]) + Render(n[i + 1..], v[i + 1..])
  {
    assert n[i..][1..] == n[i + 1..] && v[i..][1..] == v[i + 1..];
    Regroup3(acc, Opt(n[i], v[i]), Render(n[i + 1..], v[i + 1..]));
  }

  /** The first five of ten rendered options after a head. */
  lemma RenderFirstFive(head: string, n: seq<string>, v: seq<string>)
    requires |n| == 10 && |v| == 10
    ensures head + Render(n, v)
            == head + Opt(n[0], v[0]) + Opt(n[1], v[1]) + Opt(n[2], v[2]) + Opt(n[3], v[3]) + Opt(n[4], v[4])
               + Render(n[5..], v[5..])
  {
    assert n[0..] == n && v[0..] == v;
    var acc := head;
    RenderFrom(head, n, v, 0, acc);
    acc := acc + Opt(n[0], v[0]);
    RenderFrom(head, n, v, 1, acc);
    acc := acc + Opt(n[1], v[1]);
    RenderFrom(head, n, v, 2, acc);
    acc := acc + Opt(n[2], v[2]);
    RenderFrom(head, n, v, 3, acc);
    acc := acc + Opt(n[3], v[3]);
    RenderFrom(head, n, v, 4, acc);
    acc := acc + Opt(n[4], v[4]);
  }

  /** The last five of ten rendered options, after the first five. */
  lemma RenderLastFive(head: string, n: seq<string>, v: seq<string>, start: string)
    requires |n| == 10 && |v| == 10
    requires head + Render(n, v) == start + Render(n[5..], v[5..])
    ensures head + Render(n, v)
            == start + Opt(n[5], v[5]) + Opt(n[6], v[6]) + Opt(n[7], v[7]) + Opt(n[8], v[8]) + Opt(n[9], v[9])
  {
    var acc := start;
    RenderFrom(head, n, v, 5, acc);
    acc := acc + Opt(n[5], v[5]);
    RenderFrom(head, n, v, 6, acc);
    acc := acc + Opt(n[6], v[6]);
    RenderFrom(head, n, v, 7, acc);
    acc := acc + Opt(n[7], v[7]);
    RenderFrom(head, n, v, 8, acc);
    acc := acc + Opt(n[8], v[8]);
    RenderFrom(head, n, v, 9, acc);
    acc := acc + Opt(n[9], v[9]);
    assert n[10..] == [] && v[10..] == [];
    assert acc == start + Opt(n[5], v[5]) + Opt(n[6], v[6]) + Opt(n[7], v[7]) + Opt(n[8], v[8]) + Opt(n[9], v[9]);
  }

  /** Ten rendered options after a head, one after another. */
  lemma RenderTen(head: string, n: seq<string>, v: seq<string>)
    requires |n| == 10 && |v| == 10
    ensures head + Render(n, v) == head + Opt(n[0], v[0]) + Opt(n[1], v[1]) + Opt(n[2], v[2]) + Opt(n[3], v[3])
                                   + Opt(n[4], v[4]) + Opt(n[5], v[5]) + Opt(n[6], v[6]) + Opt(n[7], v[7])
                                   + Opt(n[8], v[8]) + Opt(n[9], v[9])
  {
    RenderFirstFive(head, n, v);
    RenderLastFive(head, n, v, head + Opt(n[0], v[0]) + Opt(n[1], v[1]) + Opt(n[2], v[2]) + Opt(n[3], v[3]) + Opt(n[4], v[4]));
  }

  /** The command is the f-string of main.py:129-132, option by option. */
  lemma CommandIsTemplate(s: Settings, id: string, identifier: string, migration: string)
    ensures Command(s, id, identifier, migration)
            == "harness-upgrade" + Opt("api-key", s.token) + Opt("project", identifier) + Opt("org", s.org)
               + Opt("account", s.account) + Opt("app", id) + Opt("secret-scope", s.secretScope)
               + Opt("connector-scope", s.connectorScope) + Opt("template-scope", s.templateScope)
               + Opt("workflow-scope", s.workflowScope) + Opt("env", s.environment) + " " + migration
  {
    RenderTen("harness-upgrade", OptionOrder, OptionValues(s, id, identifier));
  }
  /** The hint names the configuration file of the project, then the
      subcommand: `harness-upgrade --load ./values-<identifier>.yaml <subcommand>`. */
  lemma HintNamesFile(identifier: string, migration: string)
    ensures var h := Hint(identifier, migration);
      |h| == 24 + |ConfigPath(identifier)| + |migration| &&
      h[..23] == "harness-upgrade --load " &&
      h[23..23 + |ConfigPath(identifier)|] == ConfigPath(identifier) &&
      h[23 + |ConfigPath(identifier)|] == ' ' &&
      h[24 + |ConfigPath(identifier)|..] == migration
  {
  }

  /** The values the keys `keys` have in `values`, in order. */
  function Lookup(values: map<string, string>, keys: seq<string>): (r: seq<string>)
    requires forall i :: 0 <= i < |keys| ==> keys[i] in values
    ensures |r| == |keys|
  {
    if keys == [] then [] else [values[keys[0]]] + Lookup(values, keys[1..])
  }

  /** The configuration file holds exactly the options of the command: its
      keys are the option names, and the command is rebuilt from the file's
      entries and the subcommand alone, which is what the re-run hint
      `harness-upgrade --load <file> <subcommand>` relies on. */
  lemma ConfigRebuildsCommand(s: Settings, id: string, identifier: string, migration: string)
    ensures forall i :: 0 <= i < |OptionOrder| ==> OptionOrder[i] in Config(s, id, identifier)
    ensures (set i | 0 <= i < |OptionOrder| :: OptionOrder[i]) == Config(s, id, identifier).Keys
    ensures Command(s, id, identifier, migration)
            == "harness-upgrade" + Render(OptionOrder, Lookup(Config(s, id, identifier), OptionOrder)) + " " + migration
  {
    ConfigEntries(s, id, identifier);
    ConfigLookup(s, id, identifier);
  }

  /** The file has exactly the ten keys, which are the option names, with
      `app` the application's id and `project` its identifier. */
  lemma ConfigEntries(s: Settings, id: string, identifier: string)
    ensures Config(s, id, identifier).Keys == ConfigKeys
    ensures (set i | 0 <= i < |OptionOrder| :: OptionOrder[i]) == ConfigKeys
    ensures Config(s, id, identifier)["app"] == id && Config(s, id, identifier)["project"] == identifier
  {
    OptionNames();
  }

  /** Reading the file's entries in the command's option order gives the
      command's option values. */
  lemma ConfigLookup(s: Settings, id: string, identifier: string)
    ensures forall i :: 0 <= i < |OptionOrder| ==> OptionOrder[i] in Config(s, id, identifier)
    ensures Lookup(Config(s, id, identifier), OptionOrder) == OptionValues(s, id, identifier)
  {
    var c := Config(s, id, identifier);
    ConfigFirstValues(s, id, identifier);
    ConfigLastValues(s, id, identifier);
    LookupAt(c, OptionOrder);
  }

  /** The file's entries for the options up to `--app`. */
  lemma ConfigFirstValues(s: Settings, id: string, identifier: string)
    ensures forall i :: 0 <= i < 5 ==>
      OptionOrder[i] in Config(s, id, identifier) &&
      Config(s, id, identifier)[OptionOrder[i]] == OptionValues(s, id, identifier)[i]
  {
    var c := Config(s, id, identifier);
    assert c["api-key"] == s.token;
    assert c["project"] == identifier;
    assert c["org"] == s.org;
    assert c["account"] == s.account;
    assert c["app"] == id;
  }

  /** The file's entries for the options from `--secret-scope` on. */
  lemma ConfigLastValues(s: Settings, id: string, identifier: string)
    ensures forall i :: 5 <= i < 10 ==>
      OptionOrder[i] in Config(s, id, identifier) &&
      Config(s, id, identifier)[OptionOrder[i]] == OptionValues(s, id, identifier)[i]
  {
    var c := Config(s, id, identifier);
    assert c["secret-scope"] == s.secretScope;
    assert c["connector-scope"] == s.connectorScope;
    assert c["template-scope"] == s.templateScope;
    assert c["workflow-scope"] == s.workflowScope;
    assert c["env"] == s.environment;
  }

  /** The option names are the configuration keys. */
  lemma OptionNames()
    ensures (set i | 0 <= i < |OptionOrder| :: OptionOrder[i]) == ConfigKeys
  {
    assert forall k :: k in ConfigKeys ==>
      (k == OptionOrder[0] || k == OptionOrder[1] || k == OptionOrder[2] || k == OptionOrder[3] ||
       k == OptionOrder[4] || k == OptionOrder[5] || k == OptionOrder[6] || k == OptionOrder[7] ||
       k == OptionOrder[8] || k == OptionOrder[9]);
  }

  lemma {:induction false} LookupAt(values: map<string, string>, keys: seq<string>)
    requires forall i :: 0 <= i < |keys| ==> keys[i] in values
    ensures forall i :: 0 <= i < |keys| ==> Lookup(values, keys)[i] == values[keys[i]]
  {
    if keys != [] {
      LookupAt(values, keys[1..]);
      forall i | 1 <= i < |keys| ensures Lookup(values, keys)[i] == values[keys[i]] {
        assert keys[1..][i - 1] == keys[i];
      }
    }
  }

  /** The hint and the command for each subcommand of `ms`, in order. */
  function CommandEffects(s: Settings, id: string, identifier: string, ms: seq<string>): seq<Effect>
  {
    if ms == [] then []
    else [RerunHint(Hint(identifier, ms[0])), RunCommand(Command(s, id, identifier, ms[0]))]
         + CommandEffects(s, id, identifier, ms[1..])
  }

  /** What the runner reads of one application: its legacy id and its
      project identifier. */
  datatype Target = Target(id: string, identifier: string)

  /** Everything done for one application: its configuration file, its
      commands, then the progress line `done / total`. */
  function AppEffects(s: Settings, t: Target, ms: seq<string>, done: nat, total: nat): seq<Effect>
  {
    [WriteConfig(ConfigPath(t.identifier), Config(s, t.id, t.identifier))]
    + CommandEffects(s, t.id, t.identifier, ms) + [Progress(done, total)]
  }

  /** Every application carries the identifier the provisioner sets. */
  predicate Provisioned(apps: seq<Application>)
    reads apps
  {
    forall i :: 0 <= i < |apps| ==> apps[i].identifier.Some?
  }

  /** The id and identifier of each application, in order. */
  function Targets(apps: seq<Application>): (ts: seq<Target>)
    requires Provisioned(apps)
    reads apps
    ensures |ts| == |apps|
    ensures forall i :: 0 <= i < |apps| ==> ts[i] == Target(apps[i].id, apps[i].identifier.value)
  {
    if apps == [] then [] else [Target(apps[0].id, apps[0].identifier.value)] + Targets(apps[1..])
  }

  /** The effects of the runner over `ts`: one AppEffects block per
      application, the first numbered `done + 1` of `total`. */
  function RunnerEffects(s: Settings, ts: seq<Target>, ms: seq<string>, done: nat, total: nat): seq<Effect>
  {
    Blocks(ts, AppBlock(s, ms, total), done)
  }

  /** AppEffects as the block of one application numbered `n`. */
  function AppBlock(s: Settings, ms: seq<string>, total: nat): (Target, nat) -> seq<Effect>
  {
    (t: Target, n: nat) => AppEffects(s, t, ms, n, total)
  }

  /** The effects of one subcommand sit at two fixed positions. */
  lemma {:induction false} CommandEffectsAt(s: Settings, id: string, identifier: string, ms: seq<string>)
    ensures |CommandEffects(s, id, identifier, ms)| == 2 * |ms|
    ensures forall j :: 0 <= j < |ms| ==>
      CommandEffects(s, id, identifier, ms)[2 * j] == RerunHint(Hint(identifier, ms[j])) &&
      CommandEffects(s, id, identifier, ms)[2 * j + 1] == RunCommand(Command(s, id, identifier, ms[j]))
  {
    if ms != [] {
      CommandEffectsAt(s, id, identifier, ms[1..]);
      var rest := CommandEffects(s, id, identifier, ms[1..]);
      assert CommandEffects(s, id, identifier, ms) == [RerunHint(Hint(identifier, ms[0])), RunCommand(Command(s, id, identifier, ms[0]))] + rest;
      forall j | 1 <= j < |ms|
        ensures CommandEffects(s, id, identifier, ms)[2 * j] == RerunHint(Hint(identifier, ms[j]))
        ensures CommandEffects(s, id, identifier, ms)[2 * j + 1] == RunCommand(Command(s, id, identifier, ms[j]))
      {
        assert ms[1..][j - 1] == ms[j];
        assert 2 * j == 2 * (j - 1) + 2;
      }
    }
  }

  /** One application's block, position by position: the configuration
      write first, the hint and the command of the j-th subcommand at
      1 + 2 * j and 2 + 2 * j, the progress line last. */
  lemma AppEffectsAt(s: Settings, t: Target, ms: seq<string>, done: nat, total: nat)
    ensures var e := AppEffects(s, t, ms, done, total);
      |e| == 2 * |ms| + 2 &&
      e[0] == WriteConfig(ConfigPath(t.identifier), Config(s, t.id, t.identifier)) &&
      (forall j :: 0 <= j < |ms| ==>
         e[1 + 2 * j] == RerunHint(Hint(t.identifier, ms[j])) &&
         e[2 + 2 * j] == RunCommand(Command(s, t.id, t.identifier, ms[j]))) &&
      e[2 * |ms| + 1] == Progress(done, total)
  {
    CommandEffectsAt(s, t.id, t.identifier, ms);
  }

  /** The whole trace, block by block: with B = 2 * |ms| + 2 effects per
      application (AppEffectsAt gives their layout), the k-th application's
      block is the slice [Times(k, B), Times(k, B) + B) (RunnerBlockAt
      states it with products) and carries the progress count
      `done + k + 1`. So every application gets its configuration file, then
      one command per subcommand in list order, before the next application
      starts, and the counter rises by one per application. */
  lemma RunnerEffectsAt(s: Settings, ts: seq<Target>, ms: seq<string>, done: nat, total: nat, k: nat)
    requires k < |ts|
    ensures var b := 2 * |ms| + 2;
      var t := RunnerEffects(s, ts, ms, done, total);
      |t| == Times(|ts|, b) && Times(k, b) + b <= |t| &&
      t[Times(k, b) .. Times(k, b) + b] == AppBlock(s, ms, total)(ts[k], done + k + 1)
  {
    var b := 2 * |ms| + 2;
    var block := AppBlock(s, ms, total);
    forall t, n ensures |block(t, n)| == b {
      AppEffectsAt(s, t, ms, n, total);
    }
    BlockSlice(ts, block, done, b, k);
  }

  /** The same layout in plain products: the k-th application's block is the
      slice [k * B, k * B + B) of a trace of |ts| * B effects, and it is that
      application's AppEffects, numbered `done + k + 1`. */
  lemma RunnerBlockAt(s: Settings, ts: seq<Target>, ms: seq<string>, done: nat, total: nat, k: nat)
    requires k < |ts|
    ensures var b := 2 * |ms| + 2;
      var t := RunnerEffects(s, ts, ms, done, total);
      |t| == |ts| * b && k * b + b <= |t| &&
      t[k * b .. k * b + b] == AppEffects(s, ts[k], ms, done + k + 1, total)
  {
    var b := 2 * |ms| + 2;
    var t := RunnerEffects(s, ts, ms, done, total);
    RunnerEffectsAt(s, ts, ms, done, total, k);
    TimesIsProduct(k, b);
    TimesIsProduct(|ts|, b);
    var lo := Times(k, b);
    assert t[lo .. lo + b] == AppEffects(s, ts[k], ms, done + k + 1, total);
  }

  /** Run over the whole list, the trace ends with the progress line
      `total of total`: the counter ends at the number of applications. */
  lemma RunnerEndsAtTotal(s: Settings, ts: seq<Target>, ms: seq<string>)
    requires ts != []
    ensures var t := RunnerEffects(s, ts, ms, 0, |ts|);
      t != [] && t[|t| - 1] == Progress(|ts|, |ts|)
  {
    var b := 2 * |ms| + 2;
    var k := |ts| - 1;
    RunnerEffectsAt(s, ts, ms, 0, |ts|, k);
    AppEffectsAt(s, ts[k], ms, k + 1, |ts|);
    var t := RunnerEffects(s, ts, ms, 0, |ts|);
    assert |t| == Times(k, b) + b;
    assert t[Times(k, b) .. Times(k, b) + b][b - 1] == t[|t| - 1];
  }


  /** The remaining subcommands from the j-th on. */
  lemma CommandEffectsFrom(s: Settings, id: string, identifier: string, ms: seq<string>, j: nat)
    requires j < |ms|
    ensures CommandEffects(s, id, identifier, ms[j..]) ==
      [RerunHint(Hint(identifier, ms[j])), RunCommand(Command(s, id, identifier, ms[j]))]
      + CommandEffects(s, id, identifier, ms[j + 1..])
  {
    assert ms[j..][1..] == ms[j + 1..];
  }

  /** The body of the runner's loop for one application, up to the progress
      line: writes the configuration file, then logs the hint and runs the
      command for each subcommand in turn. */
  method MigrateApplication(s: Settings, application: Application, migrations: seq<string>)
    returns (block: seq<Effect>)
    requires application.identifier.Some?
    ensures var t := Target(application.id, application.identifier.value);
      block == [WriteConfig(ConfigPath(t.identifier), Config(s, t.id, t.identifier))]
               + CommandEffects(s, t.id, t.identifier, migrations)
  {
    var identifier := application.identifier.value;
    block := [WriteConfig(ConfigPath(identifier), Config(s, application.id, identifier))];
    for j := 0 to |migrations|
      invariant block + CommandEffects(s, application.id, identifier, migrations[j..])
                == [WriteConfig(ConfigPath(identifier), Config(s, application.id, identifier))]
                   + CommandEffects(s, application.id, identifier, migrations)
    {
      var migration := migrations[j];
      var command := Command(s, application.id, identifier, migration);
      CommandEffectsFrom(s, application.id, identifier, migrations, j);
      block := block + [RerunHint(Hint(identifier, migration)), RunCommand(command)];
    }
    assert migrations[|migrations|..] == [];
  }

  /** `migrate_harness`: the effects it has, in order. Each application must
      already carry its identifier (the source raises `KeyError` otherwise;
      its caller always runs the provisioner first). */
  method MigrateHarness(harnessApplications: seq<Application>, s: Settings, f: Flags)
    returns (effects: seq<Effect>)
    requires Provisioned(harnessApplications)
    ensures effects == RunnerEffects(s, Targets(harnessApplications), Migrations(f), 0, |harnessApplications|)
  {
    var migrations := Migrations(f);
    var index := 0;
    var total := |harnessApplications|;
    ghost var ts := Targets(harnessApplications);
    effects := [];
    for i := 0 to |harnessApplications|
      invariant index == i
      invariant effects + RunnerEffects(s, ts[i..], migrations, i, total) == RunnerEffects(s, ts, migrations, 0, total)
    {
      var application := harnessApplications[i];
      BlocksFrom(ts, AppBlock(s, migrations, total), i);
      var block := MigrateApplication(s, application, migrations);
      index := index + 1;
      block := block + [Progress(index, total)];
      assert block == AppEffects(s, ts[i], migrations, i + 1, total);
      Regroup3(effects, block, RunnerEffects(s, ts[i + 1..], migrations, i + 1, total));
      effects := effects + block;
    }
    assert ts[|ts|..] == [];
  }
}
