/**
 * The preparer chain of a flyctl command (internal/command/command.go):
 * running preparers in order, consolidating alias flags into their main
 * flag, letting a preparer ignore some commands, locating fly.toml and
 * choosing the app name.
 */
module Command {
  import opened Common
  import Flag

  // ----- prepare -----

  /** What a preparer returns: the next context and perhaps an error. */
  datatype Prepared<C> = Prepared(ctx: C, err: Option<string>)

  /** The chain run one preparer after the other, each on its predecessor's context, up to the first error. */
  function Chain<C>(ctx: C, preparers: seq<C -> Prepared<C>>): Prepared<C>
    decreases |preparers|
  {
    if |preparers| == 0 then Prepared(ctx, None)
    else
      var p := preparers[0](ctx);
      if p.err.Some? then p else Chain(p.ctx, preparers[1..])
  }

  /** `prepare`: thread the context through the preparers and stop at the first error. */
  method Prepare<C>(parent: C, preparers: seq<C -> Prepared<C>>) returns (ctx: C, err: Option<string>)
    ensures Prepared(ctx, err) == Chain(parent, preparers)
  {
    ctx := parent;
    err := None;
    var i := 0;
    while i < |preparers|
      invariant 0 <= i <= |preparers|
      invariant err.None?
      invariant Chain(ctx, preparers[i..]) == Chain(parent, preparers)
    {
      assert preparers[i..][1..] == preparers[i + 1..];
      var p := preparers[i](ctx);
      ctx, err := p.ctx, p.err;
      if err.Some? {
        break;
      }
      i := i + 1;
    }
  }

  /**
   * The chain stops at the first preparer that fails and returns what that
   * preparer returned; every preparer before it succeeded, each on the
   * context of the one before.
   */
  lemma {:induction false} ChainStopsAtFirstError<C>(ctx: C, preparers: seq<C -> Prepared<C>>)
    ensures var r := Chain(ctx, preparers);
      r.err.Some? <==> exists k :: 0 <= k < |preparers| && Chain(ctx, preparers[..k]).err.None? && preparers[k](Chain(ctx, preparers[..k]).ctx).err.Some?
    ensures forall k | 0 <= k < |preparers| && Chain(ctx, preparers[..k]).err.None? && preparers[k](Chain(ctx, preparers[..k]).ctx).err.Some? ::
      Chain(ctx, preparers) == preparers[k](Chain(ctx, preparers[..k]).ctx)
    decreases |preparers|
  {
    if |preparers| > 0 {
      var p := preparers[0](ctx);
      assert preparers[..0] == [];
      if p.err.None? {
        ChainStopsAtFirstError(p.ctx, preparers[1..]);
        forall k | 1 <= k <= |preparers|
          ensures Chain(ctx, preparers[..k]) == Chain(p.ctx, preparers[1..][..k - 1])
        {
          assert preparers[..k][0] == preparers[0];
          assert preparers[..k][1..] == preparers[1..][..k - 1];
        }
        if Chain(ctx, preparers).err.Some? {
          var k' :| 0 <= k' < |preparers[1..]| && Chain(p.ctx, preparers[1..][..k']).err.None?
                     && preparers[1..][k'](Chain(p.ctx, preparers[1..][..k']).ctx).err.Some?;
          assert preparers[k' + 1] == preparers[1..][k'];
        }
        forall k | 0 <= k < |preparers| && Chain(ctx, preparers[..k]).err.None? && preparers[k](Chain(ctx, preparers[..k]).ctx).err.Some?
          ensures Chain(ctx, preparers) == preparers[k](Chain(ctx, preparers[..k]).ctx)
        {
          assert k != 0;
          assert preparers[k] == preparers[1..][k - 1];
        }
      }
    }
  }

  /**
   * Running two lists of preparers one after the other, stopping after the
   * first list on an error, is running them concatenated: the common
   * preparers followed by the command's own in `newRunE`.
   */
  lemma {:induction false} ChainAppend<C>(ctx: C, a: seq<C -> Prepared<C>>, b: seq<C -> Prepared<C>>)
    ensures Chain(ctx, a + b) == (var r := Chain(ctx, a); if r.err.Some? then r else Chain(r.ctx, b))
    decreases |a|
  {
    if |a| > 0 {
      assert (a + b)[0] == a[0];
      assert (a + b)[1..] == a[1..] + b;
      var p := a[0](ctx);
      if p.err.None? {
        ChainAppend(p.ctx, a[1..], b);
      }
    } else {
      assert a + b == b;
    }
  }

  // ----- shouldIgnore -----

  /**
   * `shouldIgnore`: `chain` holds the `Use` names of the commands from the
   * root down to the current command. The command is ignored iff its path
   * below the root is exactly one of the listed paths.
   */
  method ShouldIgnore(chain: seq<string>, cmds: seq<seq<string>>) returns (r: bool)
    requires |chain| >= 1
    ensures r <==> chain[1..] in cmds
  {
    for n := 0 to |cmds|
      invariant forall m :: 0 <= m < n ==> cmds[m] != chain[1..]
    {
      var ignored := cmds[n];
      var matching := true;
      var current := |chain| - 1;
      var i := |ignored|;
      while i > 0
        invariant 0 <= i <= |ignored|
        invariant 0 <= current < |chain|
        invariant current + (|ignored| - i) == |chain| - 1
        invariant chain[current + 1..] == ignored[i..]
        invariant !matching ==> chain[1..] != ignored
        invariant matching
        decreases i
      {
        if current == 0 || chain[current] != ignored[i - 1] {
          matching := false;
          if |ignored| == |chain| - 1 {
            assert chain[1..][current - 1] == chain[current];
          }
          break;
        }
        assert chain[current..] == [chain[current]] + chain[current + 1..];
        current := current - 1;
        i := i - 1;
      }
      if matching && i == 0 {
        if current == 0 {
          assert chain[1..] == ignored;
          return true;
        }
      }
    }
    return false;
  }

  /** A listed path matches only from the root: a list entry that is a proper suffix of the command's path does not. */
  lemma SuffixDoesNotMatch(root: string, x: string, y: string)
    ensures [root, x, y][1..] !in [[y]]
  {
  }

  // ----- fly.toml and the app name -----

  const DefaultConfigFileName := "fly.toml"

  /** `filepath.Join(dir, name)` for a plain file name; cleaning of `..` and repeated separators is not modelled. */
  function JoinPath(dir: string, name: string): (r: string)
    ensures dir == [] ==> r == name
    ensures dir != [] && dir[|dir| - 1] == '/' ==> r == dir + name
    ensures dir != [] && dir[|dir| - 1] != '/' ==> r == dir + "/" + name
  {
    if dir == [] then name
    else if dir[|dir| - 1] == '/' then dir + name
    else dir + "/" + name
  }

  /** `appConfigFilePaths`: the places fly.toml is looked for, in order of preference. */
  function ConfigFilePaths(configFlag: string, workingDir: string): (paths: seq<string>)
    ensures configFlag != [] ==> |paths| == 2 && paths[0] == configFlag && paths[1] == JoinPath(configFlag, DefaultConfigFileName)
    ensures configFlag == [] ==> |paths| == 1 && paths[0] == JoinPath(workingDir, DefaultConfigFileName)
  {
    if configFlag != [] then [configFlag, JoinPath(configFlag, DefaultConfigFileName)]
    else [JoinPath(workingDir, DefaultConfigFileName)]
  }

  /** The parts of the app configuration the preparers use. */
  datatype AppConfig = AppConfig(appName: string, platformVersion: string)

  /** What `appconfig.LoadConfig` reports for one path. */
  datatype Load = Loaded(config: AppConfig) | NotExist | LoadFailed(msg: string)

  /** The parts of the context the app preparers read and write. */
  datatype AppContext = AppContext(
    configFlag: string,           // --config
    appFlag: string,              // --app
    envApp: string,               // FLY_APP
    workingDir: string,
    config: Option<AppConfig>,
    name: Option<string>)

  datatype AppError = MissingAppName | Failed(msg: string)

  /** A preparer's result; Go returns a nil context along with every error here. */
  datatype AppPrepared = Ready(ctx: AppContext) | Refused(err: AppError)

  /**
   * The platform of a loaded config, as `determinePlatform` asks the API for
   * it: no name, no answer, and an error from the API reads as no answer too,
   * since the caller drops the error.
   */
  function PlatformFor(platformOf: string -> Result<string>, appName: string): (version: string)
    ensures appName == [] ==> version == []
    ensures appName != [] && platformOf(appName).Ok? ==> version == platformOf(appName).value
    ensures appName != [] && platformOf(appName).Err? ==> version == []
  {
    if appName == [] then []
    else match platformOf(appName)
      case Ok(v) => v
      case Err(_) => []
  }

  /** Try the paths from `i` on: skip the missing ones, take the first that loads, give up on any other failure. */
  function LoadFrom(load: string -> Load, platformOf: string -> Result<string>, ctx: AppContext, paths: seq<string>, i: nat): AppPrepared
    requires i <= |paths|
    decreases |paths| - i
  {
    if i == |paths| then Ready(ctx)
    else match load(paths[i])
      case Loaded(cfg) =>
        var v := PlatformFor(platformOf, cfg.appName);
        Ready(ctx.(config := Some(if v != [] then cfg.(platformVersion := v) else cfg)))
      case NotExist => LoadFrom(load, platformOf, ctx, paths, i + 1)
      case LoadFailed(m) => Refused(Failed("failed loading app config from " + paths[i] + ": " + m))
  }

  /** `LoadAppConfigIfPresent`, with the file loader and the platform query as parameters. */
  function LoadAppConfigIfPresent(load: string -> Load, platformOf: string -> Result<string>, ctx: AppContext): AppPrepared
  {
    if ctx.config.Some? then Ready(ctx)
    else LoadFrom(load, platformOf, ctx, ConfigFilePaths(ctx.configFlag, ctx.workingDir), 0)
  }

  /** The first path that does not report "not exist" decides the outcome; if every path is missing, nothing is loaded. */
  lemma {:induction false} LoadFromFirstPresent(load: string -> Load, platformOf: string -> Result<string>, ctx: AppContext, paths: seq<string>, i: nat)
    requires i <= |paths|
    ensures var r := LoadFrom(load, platformOf, ctx, paths, i);
      if forall j | i <= j < |paths| :: load(paths[j]).NotExist? then r == Ready(ctx)
      else exists j | i <= j < |paths| ::
        && (forall m | i <= m < j :: load(paths[m]).NotExist?)
        && match load(paths[j])
           case Loaded(cfg) => r.Ready? && r.ctx.config.Some? && r.ctx.config.value.appName == cfg.appName
                               && r.ctx == ctx.(config := r.ctx.config)
           case LoadFailed(m) => r == Refused(Failed("failed loading app config from " + paths[j] + ": " + m))
           case NotExist => false
    decreases |paths| - i
  {
    if i < |paths| && load(paths[i]).NotExist? {
      LoadFromFirstPresent(load, platformOf, ctx, paths, i + 1);
      if !forall j | i + 1 <= j < |paths| :: load(paths[j]).NotExist? {
        var j :| i + 1 <= j < |paths| && (forall m | i + 1 <= m < j :: load(paths[m]).NotExist?)
          && match load(paths[j])
             case Loaded(cfg) => LoadFrom(load, platformOf, ctx, paths, i + 1).Ready? && LoadFrom(load, platformOf, ctx, paths, i + 1).ctx.config.Some?
                                 && LoadFrom(load, platformOf, ctx, paths, i + 1).ctx.config.value.appName == cfg.appName
                                 && LoadFrom(load, platformOf, ctx, paths, i + 1).ctx == ctx.(config := LoadFrom(load, platformOf, ctx, paths, i + 1).ctx.config)
             case LoadFailed(m) => LoadFrom(load, platformOf, ctx, paths, i + 1) == Refused(Failed("failed loading app config from " + paths[j] + ": " + m))
             case NotExist => false;
        assert forall m | i <= m < j :: load(paths[m]).NotExist?;
      }
    }
  }

  /** A config already in the context is kept and nothing is loaded. */
  lemma LoadedConfigKept(load: string -> Load, platformOf: string -> Result<string>, ctx: AppContext)
    requires ctx.config.Some?
    ensures LoadAppConfigIfPresent(load, platformOf, ctx) == Ready(ctx)
  {
  }

  /** The name `RequireAppName` picks: --app, else FLY_APP, else the loaded config's app name. */
  function ChosenName(ctx: AppContext): string
  {
    if ctx.appFlag != [] then ctx.appFlag
    else if ctx.envApp != [] then ctx.envApp
    else if ctx.config.Some? then ctx.config.value.appName
    else []
  }

  /** `RequireAppName`: load the config if present, then insist on a non-empty app name. */
  function RequireAppName(load: string -> Load, platformOf: string -> Result<string>, ctx: AppContext): AppPrepared
  {
    match LoadAppConfigIfPresent(load, platformOf, ctx)
    case Refused(e) => Refused(e)
    case Ready(c) =>
      var name := ChosenName(c);
      if name == [] then Refused(MissingAppName) else Ready(c.(name := Some(name)))
  }

  /** `LoadAppNameIfPresent`: like `RequireAppName`, but a missing name sets the empty name on the original context. */
  function LoadAppNameIfPresent(load: string -> Load, platformOf: string -> Result<string>, ctx: AppContext): AppPrepared
  {
    match RequireAppName(load, platformOf, ctx)
    case Refused(MissingAppName) => Ready(ctx.(name := Some([])))
    case r => r
  }

  /**
   * The name's precedence: the --app flag wins over FLY_APP, which wins over
   * the config's app name; the config is loaded first either way, and its
   * failure is the preparer's failure.
   */
  lemma RequireAppNamePrecedence(load: string -> Load, platformOf: string -> Result<string>, ctx: AppContext)
    ensures var l := LoadAppConfigIfPresent(load, platformOf, ctx); var r := RequireAppName(load, platformOf, ctx);
      && (l.Refused? ==> r == l)
      && (l.Ready? && ctx.appFlag != [] ==> r == Ready(l.ctx.(name := Some(ctx.appFlag))))
      && (l.Ready? && ctx.appFlag == [] && ctx.envApp != [] ==> r == Ready(l.ctx.(name := Some(ctx.envApp))))
      && (l.Ready? && ctx.appFlag == [] && ctx.envApp == [] ==>
            if l.ctx.config.Some? && l.ctx.config.value.appName != [] then r == Ready(l.ctx.(name := Some(l.ctx.config.value.appName)))
            else r == Refused(MissingAppName))
  {
    var l := LoadAppConfigIfPresent(load, platformOf, ctx);
    if l.Ready? {
      assert l.ctx.appFlag == ctx.appFlag && l.ctx.envApp == ctx.envApp by {
        if ctx.config.None? {
          LoadFromKeepsInputs(load, platformOf, ctx, ConfigFilePaths(ctx.configFlag, ctx.workingDir), 0);
        }
      }
    }
  }

  /** Loading only ever sets the config in the context. */
  lemma {:induction false} LoadFromKeepsInputs(load: string -> Load, platformOf: string -> Result<string>, ctx: AppContext, paths: seq<string>, i: nat)
    requires i <= |paths|
    ensures var r := LoadFrom(load, platformOf, ctx, paths, i); r.Ready? ==> r.ctx == ctx.(config := r.ctx.config)
    decreases |paths| - i
  {
    if i < |paths| && load(paths[i]).NotExist? {
      LoadFromKeepsInputs(load, platformOf, ctx, paths, i + 1);
    }
  }

  /**
   * `LoadAppNameIfPresent` never reports a missing name: it gives the
   * original context (without whatever config was loaded) the empty name,
   * and otherwise agrees with `RequireAppName`.
   */
  lemma LoadAppNameIfPresentNeverMissing(load: string -> Load, platformOf: string -> Result<string>, ctx: AppContext)
    ensures LoadAppNameIfPresent(load, platformOf, ctx) != Refused(MissingAppName)
    ensures RequireAppName(load, platformOf, ctx) == Refused(MissingAppName) ==>
      LoadAppNameIfPresent(load, platformOf, ctx) == Ready(ctx.(name := Some([])))
    ensures RequireAppName(load, platformOf, ctx) != Refused(MissingAppName) ==>
      LoadAppNameIfPresent(load, platformOf, ctx) == RequireAppName(load, platformOf, ctx)
  {
  }

  // ----- applyAliases -----

  /** A pflag flag: its value's type and text, whether it was set, and its `flyctl_alias` annotation if any. */
  datatype PFlag = PFlag(name: string, typ: string, text: string, changed: bool, aliases: Option<seq<string>>)

  /** `FlagSet.Lookup`: the flag with that name. */
  function Lookup(fs: seq<PFlag>, name: string): (r: Option<nat>)
    ensures r.Some? ==> r.value < |fs| && fs[r.value].name == name
    ensures r.None? ==> forall i | 0 <= i < |fs| :: fs[i].name != name
  {
    if |fs| == 0 then None
    else if fs[0].name == name then Some(0)
    else match Lookup(fs[1..], name)
      case None => None
      case Some(i) => Some(i + 1)
  }

  /** What `applyAliases` has collected so far; `panicked` records a `Value.Set` failure, which panics. */
  datatype Scan = Scan(flags: seq<PFlag>, badNames: seq<string>, badTypes: seq<string>, panicked: bool)

  /** `Value.Set(text)` for a value of type `typ` holding `current`: the new text, or None when the text does not parse. */
  type Setter = (string, string, string) -> Option<string>

  /** The message for one alias whose type differs from its main flag's. */
  function TypeClash(main: PFlag, alias: PFlag): string
  {
    main.name + " (" + main.typ + ") and " + alias.name + " (" + alias.typ + ")"
  }

  /** One alias of the main flag at `main` (None when the main flag itself was not found). */
  function AliasStep(setValue: Setter, sc: Scan, main: Option<nat>, gotValue: bool, alias: string): (r: Scan)
    requires main.Some? ==> main.value < |sc.flags|
    ensures |r.flags| == |sc.flags|
  {
    match Lookup(sc.flags, alias)
    case None => sc.(badNames := sc.badNames + [alias])
    case Some(j) =>
      if main.None? then sc
      else
        var m := sc.flags[main.value];
        var a := sc.flags[j];
        var sc1 := if a.typ != m.typ then sc.(badTypes := sc.badTypes + [TypeClash(m, a)]) else sc;
        if !gotValue && a.changed then
          match setValue(m.typ, m.text, a.text)
          case None => sc1.(panicked := true)
          case Some(t) => sc1.(flags := sc1.flags[main.value := m.(text := t, changed := true)])
        else sc1
  }

  /** The loop over one main flag's aliases, in annotation order, until a panic. */
  function AliasPass(setValue: Setter, sc: Scan, main: Option<nat>, gotValue: bool, aliases: seq<string>): (r: Scan)
    requires main.Some? ==> main.value < |sc.flags|
    ensures |r.flags| == |sc.flags|
    decreases |aliases|
  {
    if |aliases| == 0 || sc.panicked then sc
    else AliasPass(setValue, AliasStep(setValue, sc, main, gotValue, aliases[0]), main, gotValue, aliases[1..])
  }

  /** `VisitAll` from the flag at `k` on, in visiting order, until a panic. */
  function VisitFrom(setValue: Setter, sc: Scan, k: nat): (r: Scan)
    requires k <= |sc.flags|
    ensures |r.flags| == |sc.flags|
    decreases |sc.flags| - k
  {
    if k == |sc.flags| || sc.panicked then sc
    else
      var f := sc.flags[k];
      if f.aliases.None? then VisitFrom(setValue, sc, k + 1)
      else
        var main := Lookup(sc.flags, f.name);
        var sc1 := if main.None? then sc.(badNames := sc.badNames + [f.name]) else sc;
        var gotValue := main.Some? && sc.flags[main.value].changed;
        VisitFrom(setValue, AliasPass(setValue, sc1, main, gotValue, f.aliases.value), k + 1)
  }

  /** `fmt.Sprintf("%v", xs)` for a slice of strings. */
  function GoList(xs: seq<string>): string
  {
    "[" + JoinWith(xs, " ") + "]"
  }

  /** `strings.Join` */
  function JoinWith(xs: seq<string>, sep: string): string
  {
    if |xs| == 0 then [] else if |xs| == 1 then xs[0] else xs[0] + sep + JoinWith(xs[1..], sep)
  }

  /** The error `applyAliases` builds from what it collected. */
  function AliasError(badNames: seq<string>, badTypes: seq<string>): (r: Option<string>)
    ensures r.None? <==> badNames == [] && badTypes == []
    ensures badNames != [] && badTypes != [] ==>
      r == Some("multiple errors occured:\n > " + NamesMessage(badNames) + "\n > " + TypesMessage(badTypes) + "\n")
    ensures badNames != [] && badTypes == [] ==> r == Some(NamesMessage(badNames))
    ensures badNames == [] && badTypes != [] ==> r == Some(TypesMessage(badTypes))
  {
    var messages :=
      (if badNames != [] then [NamesMessage(badNames)] else []) + (if badTypes != [] then [TypesMessage(badTypes)] else []);
    if |messages| > 1 then
      var a, b := NamesMessage(badNames), TypesMessage(badTypes);
      assert messages == [a, b] && messages[1..] == [b];
      assert JoinWith(messages, "\n > ") == a + "\n > " + b;
      assert "multiple errors occured:\n > " + (a + "\n > " + b) + "\n" == "multiple errors occured:\n > " + a + "\n > " + b + "\n";
      Some("multiple errors occured:\n > " + JoinWith(messages, "\n > ") + "\n")
    else if |messages| == 1 then Some(messages[0])
    else None
  }

  function NamesMessage(badNames: seq<string>): string
  {
    "flags '" + GoList(badNames) + "' are not valid flags"
  }

  function TypesMessage(badTypes: seq<string>): string
  {
    "flags '" + GoList(badTypes) + "' have different types"
  }

  /** How `applyAliases` ends: with its error (or none), or in the panic of a failed `Value.Set`. */
  datatype AliasOutcome = Completed(err: Option<string>) | Panicked

  /** `applyAliases` on the flags in visiting order: the flags afterwards and the outcome. */
  function ApplyAliasesSpec(setValue: Setter, flags: seq<PFlag>): (seq<PFlag>, AliasOutcome)
  {
    var sc := VisitFrom(setValue, Scan(flags, [], [], false), 0);
    (sc.flags, if sc.panicked then Panicked else Completed(AliasError(sc.badNames, sc.badTypes)))
  }

  /** The command's flag set; `flags` lists the flags in the order `VisitAll` visits them. */
  class FlagSet {
    var flags: seq<PFlag>
    const setValue: Setter

    constructor(flags: seq<PFlag>, setValue: Setter)
      ensures this.flags == flags && this.setValue == setValue
    {
      this.flags := flags;
      this.setValue := setValue;
    }

    /** `applyAliases`: consolidate every main flag with the aliases listed in its annotation. */
    method ApplyAliases() returns (r: AliasOutcome)
      modifies this
      ensures (flags, r) == ApplyAliasesSpec(setValue, old(flags))
    {
      ghost var goal := VisitFrom(setValue, Scan(flags, [], [], false), 0);
      var badNames: seq<string> := [];
      var badTypes: seq<string> := [];
      var k := 0;
      while k < |flags|
        invariant 0 <= k <= |flags|
        invariant VisitFrom(setValue, Scan(flags, badNames, badTypes, false), k) == goal
        decreases |flags| - k
      {
        var f := flags[k];
        if f.aliases.Some? {
          var main := Lookup(flags, f.name);
          if main.None? {
            badNames := badNames + [f.name];
          }
          var gotValue := main.Some? && flags[main.value].changed;
          var aliases := f.aliases.value;
          ghost var sc1 := Scan(flags, badNames, badTypes, false);
          ghost var inner := AliasPass(setValue, sc1, main, gotValue, aliases);
          assert VisitFrom(setValue, inner, k + 1) == goal;
          var i := 0;
          while i < |aliases|
            invariant 0 <= i <= |aliases|
            invariant |flags| == |sc1.flags|
            invariant AliasPass(setValue, Scan(flags, badNames, badTypes, false), main, gotValue, aliases[i..]) == inner
            decreases |aliases| - i
          {
            assert aliases[i..][1..] == aliases[i + 1..];
            var alias := aliases[i];
            var j := Lookup(flags, alias);
            if j.None? {
              badNames := badNames + [alias];
            } else if main.Some? {
              var m := flags[main.value];
              var a := flags[j.value];
              if a.typ != m.typ {
                badTypes := badTypes + [TypeClash(m, a)];
              }
              if !gotValue && a.changed {
                var t := setValue(m.typ, m.text, a.text);
                if t.None? {
                  assert inner == Scan(flags, badNames, badTypes, true);
                  assert goal == inner;
                  return Panicked;
                }
                flags := flags[main.value := m.(text := t.value, changed := true)];
              }
            }
            i := i + 1;
          }
          assert aliases[i..] == [];
        }
        k := k + 1;
      }
      r := Completed(AliasError(badNames, badTypes));
    }
  }

  // ----- what applyAliases achieves -----

  /** `Value.Set` overwrites: setting a text always succeeds and stores exactly that text (true of scalar flag types). */
  ghost predicate Overwrites(setValue: Setter)
  {
    forall t, c, x :: setValue(t, c, x) == Some(x)
  }

  /** The text of the last alias, in annotation order, that names a flag the user set. */
  function LastChanged(fs: seq<PFlag>, aliases: seq<string>): Option<string>
    decreases |aliases|
  {
    if |aliases| == 0 then None
    else match LastChanged(fs, aliases[1..])
      case Some(t) => Some(t)
      case None =>
        match Lookup(fs, aliases[0])
        case Some(j) => if fs[j].changed then Some(fs[j].text) else None
        case None => None
  }

  /** A main flag after consolidation with the text `last` of its last set alias, if any. */
  function Consolidated(main: PFlag, last: Option<string>): PFlag
  {
    match last
    case None => main
    case Some(t) => main.(text := t, changed := true)
  }

  /** Changing a flag other than by its name does not change what a lookup finds. */
  lemma {:induction false} LookupUpdate(fs: seq<PFlag>, m: nat, x: PFlag, name: string)
    requires m < |fs| && x.name == fs[m].name
    ensures Lookup(fs[m := x], name) == Lookup(fs, name)
    decreases |fs|
  {
    if m > 0 && fs[0].name != name {
      assert fs[m := x][1..] == fs[1..][m - 1 := x];
      LookupUpdate(fs[1..], m - 1, x, name);
    }
  }

  /** With unique names, a lookup finds the flag of that name. */
  lemma {:induction false} LookupUnique(fs: seq<PFlag>, k: nat)
    requires k < |fs|
    requires forall i, j | 0 <= i < j < |fs| :: fs[i].name != fs[j].name
    ensures Lookup(fs, fs[k].name) == Some(k)
    decreases |fs|
  {
    if k > 0 {
      assert fs[0].name != fs[k].name;
      assert fs[1..][k - 1] == fs[k];
      LookupUnique(fs[1..], k - 1);
    }
  }

  /** Two flag lists with the same names find the same flags. */
  lemma {:induction false} LookupSameNames(fs: seq<PFlag>, gs: seq<PFlag>, name: string)
    requires |fs| == |gs| && forall i | 0 <= i < |fs| :: fs[i].name == gs[i].name
    ensures Lookup(fs, name) == Lookup(gs, name)
    decreases |fs|
  {
    if |fs| > 0 {
      LookupSameNames(fs[1..], gs[1..], name);
    }
  }

  /** The last set alias is the same in two flag lists that agree on names and on every flag an alias names. */
  lemma {:induction false} LastChangedAgree(fs: seq<PFlag>, gs: seq<PFlag>, aliases: seq<string>)
    requires |fs| == |gs| && forall i | 0 <= i < |fs| :: fs[i].name == gs[i].name
    requires forall a | a in aliases :: match Lookup(fs, a) case Some(j) => fs[j] == gs[j] case None => true
    ensures LastChanged(fs, aliases) == LastChanged(gs, aliases)
    decreases |aliases|
  {
    if |aliases| > 0 {
      assert aliases[0] in aliases;
      LookupSameNames(fs, gs, aliases[0]);
      LastChangedAgree(fs, gs, aliases[1..]);
    }
  }

  /** A main flag the user set is left alone, whatever its aliases hold. */
  lemma {:induction false} AliasPassKeepsSetFlag(setValue: Setter, sc: Scan, m: nat, aliases: seq<string>)
    requires m < |sc.flags| && !sc.panicked
    ensures var r := AliasPass(setValue, sc, Some(m), true, aliases); r.flags == sc.flags && !r.panicked
    decreases |aliases|
  {
    if |aliases| > 0 {
      AliasPassKeepsSetFlag(setValue, AliasStep(setValue, sc, Some(m), true, aliases[0]), m, aliases[1..]);
    }
  }

  /**
   * A main flag the user did not set takes the text of the LAST alias the
   * user set (not the first, as the doc comment of `applyAliases` says),
   * and is then marked as set; no other flag changes.
   */
  lemma {:induction false} AliasPassLastWins(setValue: Setter, sc: Scan, m: nat, aliases: seq<string>)
    requires m < |sc.flags| && !sc.panicked && Overwrites(setValue)
    requires forall a | a in aliases :: a != sc.flags[m].name
    ensures var r := AliasPass(setValue, sc, Some(m), false, aliases);
      !r.panicked && r.flags == sc.flags[m := Consolidated(sc.flags[m], LastChanged(sc.flags, aliases))]
    decreases |aliases|
  {
    if |aliases| > 0 {
      var a := aliases[0];
      assert a in aliases;
      var sc' := AliasStep(setValue, sc, Some(m), false, a);
      var x := sc'.flags[m];
      assert !sc'.panicked && sc'.flags == sc.flags[m := x];
      forall b | b in aliases[1..] ensures b != sc'.flags[m].name {
        assert b in aliases;
      }
      AliasPassLastWins(setValue, sc', m, aliases[1..]);
      forall b | b in aliases[1..]
        ensures match Lookup(sc'.flags, b) case Some(j) => sc'.flags[j] == sc.flags[j] case None => true
      {
        assert b in aliases;
        LookupUpdate(sc.flags, m, x, b);
      }
      LastChangedAgree(sc'.flags, sc.flags, aliases[1..]);
    }
  }

  /** All names differ. */
  ghost predicate UniqueNames(fs: seq<PFlag>)
  {
    forall i, j | 0 <= i < j < |fs| :: fs[i].name != fs[j].name
  }

  /** An alias of the flag at `i` is not the flag itself and names no flag that has aliases of its own. */
  ghost predicate PlainAlias(fs: seq<PFlag>, i: nat, a: string)
    requires i < |fs|
  {
    a != fs[i].name && match Lookup(fs, a) case Some(j) => fs[j].aliases.None? || fs[j].aliases == Some([]) case None => true
  }

  /** Every alias of every main flag is plain: alias flags carry no aliases, as `flag.addTo` registers them. */
  ghost predicate PlainAliases(fs: seq<PFlag>)
  {
    forall i | 0 <= i < |fs| && fs[i].aliases.Some? :: forall a | a in fs[i].aliases.value :: PlainAlias(fs, i, a)
  }

  /** What `applyAliases` promises for the flag at `i`. */
  function Expected(fs: seq<PFlag>, i: nat): PFlag
    requires i < |fs|
  {
    if fs[i].aliases.None? || fs[i].changed then fs[i]
    else Consolidated(fs[i], LastChanged(fs, fs[i].aliases.value))
  }

  /** The flags consolidated before `k` are as promised; the rest are untouched. */
  ghost predicate VisitedUpTo(orig: seq<PFlag>, sc: Scan, k: nat)
  {
    && |sc.flags| == |orig| && k <= |orig| && !sc.panicked
    && forall i | 0 <= i < |orig| :: sc.flags[i] == if i < k then Expected(orig, i) else orig[i]
  }

  lemma {:induction false} VisitFromConsolidates(setValue: Setter, orig: seq<PFlag>, sc: Scan, k: nat)
    requires Overwrites(setValue) && UniqueNames(orig) && PlainAliases(orig)
    requires VisitedUpTo(orig, sc, k)
    ensures VisitedUpTo(orig, VisitFrom(setValue, sc, k), |orig|)
    decreases |orig| - k
  {
    if k < |orig| {
      var f := sc.flags[k];
      assert f == orig[k];
      if f.aliases.Some? {
        assert forall i | 0 <= i < |orig| :: sc.flags[i].name == orig[i].name;
        LookupUnique(orig, k);
        LookupSameNames(sc.flags, orig, f.name);
        var aliases := f.aliases.value;
        var r := AliasPass(setValue, sc, Some(k), f.changed, aliases);
        if f.changed {
          AliasPassKeepsSetFlag(setValue, sc, k, aliases);
        } else {
          forall a | a in aliases ensures a != sc.flags[k].name {
            assert PlainAlias(orig, k, a);
          }
          AliasPassLastWins(setValue, sc, k, aliases);
          forall a | a in aliases
            ensures match Lookup(sc.flags, a) case Some(j) => sc.flags[j] == orig[j] case None => true
          {
            assert PlainAlias(orig, k, a);
            LookupSameNames(sc.flags, orig, a);
          }
          LastChangedAgree(sc.flags, orig, aliases);
        }
        VisitFromConsolidates(setValue, orig, r, k + 1);
      } else {
        VisitFromConsolidates(setValue, orig, sc, k + 1);
      }
    }
  }

  /**
   * `applyAliases` on a well-formed flag set (unique names, alias flags
   * without aliases of their own) with overwriting values: it does not
   * panic, every main flag the user set keeps its value, every other main
   * flag takes the value of its last set alias and is then marked set, and
   * no flag that is not a main flag changes.
   */
  lemma ApplyAliasesConsolidates(setValue: Setter, flags: seq<PFlag>)
    requires Overwrites(setValue) && UniqueNames(flags) && PlainAliases(flags)
    ensures var (r, outcome) := ApplyAliasesSpec(setValue, flags);
      outcome.Completed? && |r| == |flags| && forall i | 0 <= i < |flags| :: r[i] == Expected(flags, i)
  {
    VisitFromConsolidates(setValue, flags, Scan(flags, [], [], false), 0);
  }

  /** The pflag flags carry the names and alias annotations of the registered flags. */
  ghost predicate Mirrors(fs: seq<PFlag>, regs: seq<Flag.Registered>)
  {
    |fs| == |regs| && forall i | 0 <= i < |fs| :: fs[i].name == regs[i].name && fs[i].aliases == regs[i].aliasAnnotation
  }

  /**
   * A flag set registered by `flag.Add`, once its names are unique, meets
   * what `applyAliases` needs: every alias of a main flag names a flag
   * without aliases of its own, and never the main flag itself.
   */
  lemma RegisteredAliasesPlain(fs: seq<PFlag>, regs: seq<Flag.Registered>)
    requires Mirrors(fs, regs) && UniqueNames(fs) && Flag.AliasesRegistered(regs)
    ensures PlainAliases(fs)
  {
    forall i, a | 0 <= i < |fs| && fs[i].aliases.Some? && a in fs[i].aliases.value
      ensures PlainAlias(fs, i, a)
    {
      assert regs[i].aliasAnnotation.Some? && a in regs[i].aliasAnnotation.value;
      var j :| 0 <= j < |regs| && regs[j].name == a && regs[j].aliasAnnotation == Some([]);
      assert fs[j].name == a;
      match Lookup(fs, a)
      case Some(k) =>
        assert k == j;
      case None =>
    }
  }

  /** Any definitions added with `flag.Add`, under unique names, are consolidated by `applyAliases` as promised. */
  lemma AddedFlagsConsolidate(setValue: Setter, fs: seq<PFlag>, defs: seq<Flag.Flag>)
    requires Overwrites(setValue) && Mirrors(fs, Flag.Registrations(defs)) && UniqueNames(fs)
    ensures var (r, outcome) := ApplyAliasesSpec(setValue, fs);
      outcome.Completed? && |r| == |fs| && forall i | 0 <= i < |fs| :: r[i] == Expected(fs, i)
  {
    Flag.RegistrationsAliasesRegistered(defs);
    RegisteredAliasesPlain(fs, Flag.Registrations(defs));
    ApplyAliasesConsolidates(setValue, fs);
  }

  /** Two aliases both set: the main flag takes the second one's value. */
  lemma SecondAliasWins(setValue: Setter)
    requires Overwrites(setValue)
    ensures var flags := [PFlag("region", "string", "", false, Some(["r", "reg"])),
                          PFlag("r", "string", "ams", true, None),
                          PFlag("reg", "string", "ord", true, None)];
      ApplyAliasesSpec(setValue, flags).0[0].text == "ord"
  {
    var flags := [PFlag("region", "string", "", false, Some(["r", "reg"])),
                  PFlag("r", "string", "ams", true, None),
                  PFlag("reg", "string", "ord", true, None)];
    assert Lookup(flags, "reg") == Some(2);
    assert Lookup(flags, "r") == Some(1);
    ApplyAliasesConsolidates(setValue, flags);
  }
}
