/**
 * `fly apps create` (internal/command/apps/create.go): which app name to
 * use, when the names given disagree, which platform the app goes on and
 * the input sent to the API.
 */
module AppsCreate {
  import opened Common

  /** Some value occurs twice. */
  predicate HasRepeat(names: seq<string>)
  {
    exists i, j | 0 <= i < j < |names| :: names[i] == names[j]
  }

  /** `areNamesClashing`: collect the names as map keys; fewer keys than names means a repeat. */
  method AreNamesClashing(a: seq<string>) returns (r: bool)
    ensures r <==> HasRepeat(a)
  {
    var keys: map<string, bool> := map[];
    for i := 0 to |a|
      invariant keys.Keys == SetOf(a[..i])
      invariant |keys| <= i
      invariant |keys| == i <==> Distinct(a[..i])
    {
      var name := a[i];
      KeysStep(a, i, keys.Keys);
      if name !in keys {
        keys := keys[name := true];
      }
    }
    assert a[..|a|] == a;
    DistinctIffNoRepeat(a);
    r := |keys| != |a|;
  }

  /** The set of the names in `s`. */
  function SetOf(s: seq<string>): set<string>
  {
    if |s| == 0 then {} else SetOf(s[..|s| - 1]) + {s[|s| - 1]}
  }

  /** No name occurs twice, checked from the end. */
  predicate Distinct(s: seq<string>)
  {
    |s| == 0 || (Distinct(s[..|s| - 1]) && s[|s| - 1] !in SetOf(s[..|s| - 1]))
  }

  lemma {:induction false} SetOfMembers(s: seq<string>)
    ensures forall x :: x in SetOf(s) <==> x in s
  {
    if |s| > 0 {
      SetOfMembers(s[..|s| - 1]);
      assert s == s[..|s| - 1] + [s[|s| - 1]];
    }
  }

  lemma {:induction false} SetOfSize(s: seq<string>)
    ensures |SetOf(s)| <= |s|
    ensures |SetOf(s)| == |s| <==> Distinct(s)
  {
    if |s| > 0 {
      SetOfSize(s[..|s| - 1]);
    }
  }

  lemma {:induction false} DistinctIffNoRepeat(s: seq<string>)
    ensures Distinct(s) <==> !HasRepeat(s)
  {
    if |s| > 0 {
      var p := s[..|s| - 1];
      var x := s[|s| - 1];
      assert s == p + [x];
      DistinctIffNoRepeat(p);
      SetOfMembers(p);
      NoRepeatSnoc(p, x);
    }
  }

  lemma KeysStep(a: seq<string>, i: nat, keys: set<string>)
    requires i < |a| && keys == SetOf(a[..i])
    ensures keys + {a[i]} == SetOf(a[..i + 1])
    ensures |keys + {a[i]}| == i + 1 <==> Distinct(a[..i + 1])
    ensures a[i] in keys ==> |keys + {a[i]}| == |keys|
  {
    assert a[..i + 1][..i] == a[..i];
    SetOfSize(a[..i]);
    SetOfSize(a[..i + 1]);
    if a[i] in keys {
      assert keys + {a[i]} == keys;
    }
  }

  /** Appending a name keeps the names distinct iff they were and the name is new. */
  lemma NoRepeatSnoc(s: seq<string>, x: string)
    ensures !HasRepeat(s + [x]) <==> !HasRepeat(s) && x !in s
  {
    if x in s {
      var j :| 0 <= j < |s| && s[j] == x;
      assert (s + [x])[j] == (s + [x])[|s|];
    }
    if HasRepeat(s) {
      var i, j :| 0 <= i < j < |s| && s[i] == s[j];
      assert (s + [x])[i] == (s + [x])[j];
    }
  }

  /** `lo.Compact`: the non-empty names, in order. */
  function Compact(names: seq<string>): (r: seq<string>)
    ensures forall n | n in r :: n != [] && n in names
    ensures forall n | n in names && n != [] :: n in r
    ensures |r| <= |names|
  {
    if |names| == 0 then []
    else if names[0] == [] then Compact(names[1..])
    else [names[0]] + Compact(names[1..])
  }

  /** The outcome of the name switch in `RunCreate`. */
  datatype NameChoice =
    | Clash(msg: string)   // names given in several places disagree
    | Chosen(name: string)
    | Generated            // --generate-name: the API picks the name
    | Prompted             // ask the user

  /** The name switch: the clash check, then fly.toml, the argument, --name, --generate-name, the prompt. */
  function ChooseName(arg: string, nameFlag: string, generate: bool, configName: string): NameChoice
  {
    var names := [arg, nameFlag, configName];
    if |Compact(names)| != 1 && HasRepeat(names) then
      Clash("app names specified via command argument " + arg + ", via flag " + nameFlag
            + " and via fly.toml " + configName + ". Only one may be specified")
    else if configName != [] then Chosen(configName)
    else if arg != [] then Chosen(arg)
    else if nameFlag != [] then Chosen(nameFlag)
    else if generate then Generated
    else Prompted
  }

  /**
   * The clash error is raised exactly when no name is given at all, or when
   * two of the names given are the same non-empty name. Two different
   * names do not clash: fly.toml's name then wins.
   */
  lemma ClashIffNoneOrSame(arg: string, nameFlag: string, generate: bool, configName: string)
    ensures ChooseName(arg, nameFlag, generate, configName).Clash? <==>
      (arg == [] && nameFlag == [] && configName == [])
      || (arg != [] && arg == nameFlag) || (arg != [] && arg == configName) || (nameFlag != [] && nameFlag == configName)
  {
    var names := [arg, nameFlag, configName];
    Compact3(arg, nameFlag, configName);
    if HasRepeat(names) {
      var i, j :| 0 <= i < j < 3 && names[i] == names[j];
    }
    if arg == [] && nameFlag == [] && configName == [] {
      assert names[0] == names[1];
    } else if arg != [] && arg == nameFlag {
      assert names[0] == names[1];
    } else if arg != [] && arg == configName {
      assert names[0] == names[2];
    } else if nameFlag != [] && nameFlag == configName {
      assert names[1] == names[2];
    }
  }

  /** `lo.Compact` of the three names keeps the non-empty ones. */
  lemma Compact3(a: string, b: string, c: string)
    ensures Compact([a, b, c]) == (if a != [] then [a] else []) + (if b != [] then [b] else []) + (if c != [] then [c] else [])
  {
    assert [c][1..] == [];
    assert Compact([c]) == (if c != [] then [c] else []);
    assert [b, c][1..] == [c];
    assert Compact([b, c]) == (if b != [] then [b] else []) + Compact([c]);
    assert [a, b, c][1..] == [b, c];
    assert Compact([a, b, c]) == (if a != [] then [a] else []) + Compact([b, c]);
  }

  /** Without a clash the name comes from fly.toml first, then the argument, then --name, and otherwise is generated or asked for. */
  lemma NamePrecedence(arg: string, nameFlag: string, generate: bool, configName: string)
    requires !ChooseName(arg, nameFlag, generate, configName).Clash?
    ensures var c := ChooseName(arg, nameFlag, generate, configName);
      && (configName != [] ==> c == Chosen(configName))
      && (configName == [] && arg != [] ==> c == Chosen(arg))
      && (configName == [] && arg == [] && nameFlag != [] ==> c == Chosen(nameFlag))
      && (configName == [] && arg == [] && nameFlag == [] ==> c == (if generate then Generated else Prompted))
  {
  }

  /** Two distinct names do not clash, and three empty names do. */
  lemma ClashExamples()
    ensures ChooseName("a", "b", false, []) == Chosen("a")
    ensures ChooseName([], [], true, []).Clash?
  {
    ClashIffNoneOrSame("a", "b", false, []);
    ClashIffNoneOrSame([], [], true, []);
  }

  /** `shouldAppUseMachinesPlatform`: --machines, else not with --nomad, else the organization's default. */
  function UseMachines(machinesFlag: bool, nomadFlag: bool, orgDefault: Result<bool>): (r: Result<bool>)
    ensures machinesFlag ==> r == Ok(true)
    ensures !machinesFlag && nomadFlag ==> r == Ok(false)
    ensures !machinesFlag && !nomadFlag ==> r == orgDefault
  {
    if machinesFlag then Ok(true)
    else if nomadFlag then Ok(false)
    else match orgDefault
      case Ok(b) => Ok(b)
      case Err(m) => Err(m)
  }

  datatype Org = Org(id: string, slug: string)

  /** `api.CreateAppInput` */
  datatype CreateAppInput = CreateAppInput(name: string, organizationId: string, machines: bool, network: Option<string>)

  /** The flags and arguments `RunCreate` reads. */
  datatype CreateArgs = CreateArgs(arg: string, nameFlag: string, generate: bool, configName: string,
                                   machinesFlag: bool, nomadFlag: bool, network: string)

  /** The answers of the prompts and of the API, as `RunCreate` would receive them. */
  datatype Answers = Answers(promptedName: Result<string>, org: Result<Org>,
                             orgDefault: string -> Result<bool>, createApp: CreateAppInput -> Option<string>)

  /** How `RunCreate` ends: the input it sent to `CreateApp`, if it got that far, and its error. */
  datatype CreateOutcome = CreateOutcome(sent: Option<CreateAppInput>, err: Option<string>)

  /** `RunCreate` up to and including the `CreateApp` call; the rendering of the new app is not modelled. */
  function RunCreate(args: CreateArgs, ans: Answers): CreateOutcome
  {
    var choice := ChooseName(args.arg, args.nameFlag, args.generate, args.configName);
    if choice.Clash? then CreateOutcome(None, Some(choice.msg))
    else if choice.Prompted? && ans.promptedName.Err? then CreateOutcome(None, Some(ans.promptedName.msg))
    else
      var name := match choice
        case Chosen(n) => n
        case Prompted => ans.promptedName.value
        case _ => [];
      match ans.org
      case Err(m) => CreateOutcome(None, Some(m))
      case Ok(org) =>
        match UseMachines(args.machinesFlag, args.nomadFlag, ans.orgDefault(org.slug))
        case Err(m) => CreateOutcome(None, Some(m))
        case Ok(machines) =>
          var input := CreateAppInput(name, org.id, machines, if args.network != [] then Some(args.network) else None);
          CreateOutcome(Some(input), ans.createApp(input))
  }

  /**
   * The input sent to the API carries the chosen name (empty when generated),
   * the organization's id, the platform choice, and the network only when
   * --network is non-empty.
   */
  lemma CreateInput(args: CreateArgs, ans: Answers)
    ensures var o := RunCreate(args, ans); var choice := ChooseName(args.arg, args.nameFlag, args.generate, args.configName);
      o.sent.Some? <==>
        && !choice.Clash? && !(choice.Prompted? && ans.promptedName.Err?) && ans.org.Ok?
        && UseMachines(args.machinesFlag, args.nomadFlag, ans.orgDefault(ans.org.value.slug)).Ok?
    ensures var o := RunCreate(args, ans); var choice := ChooseName(args.arg, args.nameFlag, args.generate, args.configName);
      o.sent.Some? ==>
        && o.sent.value.name == (match choice case Chosen(n) => n case Prompted => ans.promptedName.value case _ => [])
        && o.sent.value.organizationId == ans.org.value.id
        && Ok(o.sent.value.machines) == UseMachines(args.machinesFlag, args.nomadFlag, ans.orgDefault(ans.org.value.slug))
        && (o.sent.value.network.Some? <==> args.network != [])
        && (args.network != [] ==> o.sent.value.network == Some(args.network))
        && o.err == ans.createApp(o.sent.value)
  {
  }
}
