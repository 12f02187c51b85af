/**
 * Flag definitions and their registration on a command
 * (internal/flag/flag.go): each definition registers its pflag flag and
 * one hidden flag per alias, and annotates the main flag with the list of
 * its aliases for `applyAliases` to consolidate later.
 */
module Flag {
  import opened Common

  /** A flag's default value, by flag type. */
  datatype Value =
    | BoolValue(b: bool)
    | StringValue(s: string)
    | IntValue(i: int)
    | ListValue(items: seq<string>)
    | DurationValue(nanos: int)

  /** The record types of the package's flag definitions. */
  datatype Kind = BoolKind | StringKind | IntKind | StringSliceKind | StringArrayKind | DurationKind
  {
    /** The pflag type name of the flag's value. */
    function TypeName(): string
    {
      match this
      case BoolKind => "bool"
      case StringKind => "string"
      case IntKind => "int"
      case StringSliceKind => "stringSlice"
      case StringArrayKind => "stringArray"
      case DurationKind => "duration"
    }

    /** The zero value of the record's `Default` field. */
    function Zero(): Value
    {
      match this
      case BoolKind => BoolValue(false)
      case StringKind => StringValue([])
      case IntKind => IntValue(0)
      case StringSliceKind | StringArrayKind => ListValue([])
      case DurationKind => DurationValue(0)
    }
  }

  /**
   * A flag definition (`Bool`, `String`, `Int`, `StringSlice`,
   * `StringArray` or `Duration`): the fields the records share, with the
   * default as a `Value` of the record's kind. `Bool` and `Int` have no
   * `ConfName`/`EnvName`; theirs are empty here.
   */
  datatype Flag = Flag(kind: Kind, name: string, shorthand: string, description: string, default: Value,
                       confName: string, envName: string, hidden: bool, aliases: seq<string>)

  /**
   * `makeAlias`: the zero value of the template's record type with only the
   * description copied, the alias name set and the flag hidden.
   */
  function MakeAlias(template: Flag, name: string): (r: Flag)
    ensures r.name == name && r.hidden
    ensures r.description == template.description
    ensures r.shorthand == [] && r.aliases == [] && r.confName == [] && r.envName == []
    ensures r.kind == template.kind && r.default == template.kind.Zero()
  {
    Flag(template.kind, name, [], template.description, template.kind.Zero(), [], [], true, [])
  }

  /** A pflag flag as registered on a command: what `addTo` passes and sets, with its `flyctl_alias` annotation. */
  datatype Registered = Registered(name: string, shorthand: string, typ: string, defaultValue: Value,
                                   usage: string, hidden: bool, aliasAnnotation: Option<seq<string>>)

  /** The flag as pflag defines it: visible, not yet annotated. */
  function Defined(f: Flag): Registered
  {
    Registered(f.name, f.shorthand, f.kind.TypeName(), f.default, f.description, false, None)
  }

  /** The flags `addTo` registers for a definition: the flag itself, hidden as asked and annotated with its aliases, then one hidden flag per alias. */
  function Registration(f: Flag): seq<Registered>
  {
    [Defined(f).(hidden := f.hidden, aliasAnnotation := Some(f.aliases))] + AliasEntries(f, f.aliases)
  }

  /** The flag registered for one alias of `f`: the alias definition's own registration. */
  function AliasEntry(f: Flag, name: string): Registered
  {
    var a := MakeAlias(f, name);
    Defined(a).(hidden := a.hidden, aliasAnnotation := Some(a.aliases))
  }

  function AliasEntries(f: Flag, names: seq<string>): seq<Registered>
  {
    if |names| == 0 then [] else AliasEntries(f, names[..|names| - 1]) + [AliasEntry(f, names[|names| - 1])]
  }

  /** The registrations of a list of definitions, in order. */
  function Registrations(fs: seq<Flag>): seq<Registered>
  {
    if |fs| == 0 then [] else Registrations(fs[..|fs| - 1]) + Registration(fs[|fs| - 1])
  }

  /** The flag set of a cobra command. */
  class Cmd {
    var flags: seq<Registered>

    constructor()
      ensures flags == []
    {
      flags := [];
    }

    /** `addTo` for any of the flag types: register, hide as asked, register the aliases, annotate. */
    method AddTo(f: Flag)
      modifies this
      ensures flags == old(flags) + Registration(f)
      decreases |f.aliases|
    {
      ghost var prefix := flags;
      var at := |flags|;
      // `BoolP(name, shorthand, …)` when a shorthand is given, `Bool(name, …)` (an empty shorthand) otherwise
      flags := flags + [Defined(f)];
      ReplaceAt(prefix, Defined(f), [], Defined(f).(hidden := f.hidden));
      flags := flags[at := flags[at].(hidden := f.hidden)];
      ghost var head := Defined(f).(hidden := f.hidden);
      var i := 0;
      while i < |f.aliases|
        invariant 0 <= i <= |f.aliases|
        invariant flags == prefix + [head] + AliasEntries(f, f.aliases[..i])
        decreases |f.aliases| - i
      {
        var alias := MakeAlias(f, f.aliases[i]);
        AliasRegistersOne(f, f.aliases[i]);
        AddTo(alias);
        AliasEntriesStep(f, f.aliases, i);
        i := i + 1;
      }
      assert f.aliases[..i] == f.aliases;
      ReplaceAt(prefix, head, AliasEntries(f, f.aliases), head.(aliasAnnotation := Some(f.aliases)));
      flags := flags[at := flags[at].(aliasAnnotation := Some(f.aliases))];
    }

    /** `Add` and `Set.addTo`: register the definitions in argument order. */
    method Add(fs: seq<Flag>)
      modifies this
      ensures flags == old(flags) + Registrations(fs)
    {
      for i := 0 to |fs|
        invariant flags == old(flags) + Registrations(fs[..i])
      {
        AddTo(fs[i]);
        assert fs[..i + 1][..i] == fs[..i];
      }
      assert fs[..|fs|] == fs;
    }
  }

  /** Setting the element after `p` replaces it and leaves the rest as it is. */
  lemma ReplaceAt<T>(p: seq<T>, e: T, q: seq<T>, e': T)
    ensures p + [e] + [] == p + [e] && p + [e'] + [] == p + [e']
    ensures (p + [e] + q)[|p|] == e
    ensures (p + [e] + q)[|p| := e'] == p + [e'] + q
  {
    assert (p + [e] + q)[|p| := e'] == p + [e'] + q;
  }

  lemma AliasEntriesStep(f: Flag, names: seq<string>, i: nat)
    requires i < |names|
    ensures AliasEntries(f, names[..i + 1]) == AliasEntries(f, names[..i]) + [AliasEntry(f, names[i])]
  {
    assert names[..i + 1][..i] == names[..i];
  }

  /** An alias definition registers exactly one flag, hidden, annotated with no aliases: registration stops there. */
  lemma AliasRegistersOne(f: Flag, name: string)
    ensures Registration(MakeAlias(f, name)) == [AliasEntry(f, name)]
    ensures AliasEntry(f, name) == Registered(name, [], f.kind.TypeName(), f.kind.Zero(), f.description, true, Some([]))
  {
    assert AliasEntries(MakeAlias(f, name), []) == [];
  }

  /** The alias flags of a definition, one per alias in order. */
  lemma {:induction false} AliasEntriesShape(f: Flag, names: seq<string>)
    ensures |AliasEntries(f, names)| == |names|
    ensures forall i | 0 <= i < |names| ::
      AliasEntries(f, names)[i] == Registered(names[i], [], f.kind.TypeName(), f.kind.Zero(), f.description, true, Some([]))
    decreases |names|
  {
    if |names| > 0 {
      AliasEntriesShape(f, names[..|names| - 1]);
    }
  }

  /**
   * What `addTo` registers for a definition: first the flag with its own
   * shorthand (none when empty), description, default and visibility,
   * annotated with the full alias list; then, for each alias in order, a
   * hidden flag of the same type with the same description, no shorthand,
   * the zero default and an empty alias annotation.
   */
  lemma RegistrationShape(f: Flag)
    ensures var r := Registration(f);
      && |r| == 1 + |f.aliases|
      && r[0] == Registered(f.name, f.shorthand, f.kind.TypeName(), f.default, f.description, f.hidden, Some(f.aliases))
      && forall i | 0 <= i < |f.aliases| ::
           r[1 + i] == Registered(f.aliases[i], [], f.kind.TypeName(), f.kind.Zero(), f.description, true, Some([]))
  {
    AliasEntriesShape(f, f.aliases);
  }

  /** Only the flag itself lists aliases: every alias flag is annotated with none. */
  lemma AliasFlagsUnannotated(f: Flag)
    ensures forall i | 1 <= i < |Registration(f)| :: Registration(f)[i].aliasAnnotation == Some([])
  {
    var r := Registration(f);
    AliasEntriesShape(f, f.aliases);
    forall i | 1 <= i < |r|
      ensures r[i].aliasAnnotation == Some([])
    {
      assert r[i] == AliasEntries(f, f.aliases)[i - 1];
    }
  }

  /** Every alias a registered flag is annotated with names a registered flag that carries no aliases. */
  ghost predicate AliasesRegistered(regs: seq<Registered>)
  {
    forall i, a | 0 <= i < |regs| && regs[i].aliasAnnotation.Some? && a in regs[i].aliasAnnotation.value ::
      exists j | 0 <= j < |regs| :: regs[j].name == a && regs[j].aliasAnnotation == Some([])
  }

  lemma AliasesRegisteredOne(f: Flag)
    ensures AliasesRegistered(Registration(f))
  {
    var r := Registration(f);
    RegistrationShape(f);
    AliasFlagsUnannotated(f);
    forall i, a | 0 <= i < |r| && r[i].aliasAnnotation.Some? && a in r[i].aliasAnnotation.value
      ensures exists j | 0 <= j < |r| :: r[j].name == a && r[j].aliasAnnotation == Some([])
    {
      assert i == 0;
      var k :| 0 <= k < |f.aliases| && f.aliases[k] == a;
      assert r[1 + k].name == a;
    }
  }

  lemma AliasesRegisteredAppend(p: seq<Registered>, q: seq<Registered>)
    requires AliasesRegistered(p) && AliasesRegistered(q)
    ensures AliasesRegistered(p + q)
  {
    var r := p + q;
    forall i, a | 0 <= i < |r| && r[i].aliasAnnotation.Some? && a in r[i].aliasAnnotation.value
      ensures exists j | 0 <= j < |r| :: r[j].name == a && r[j].aliasAnnotation == Some([])
    {
      if i < |p| {
        assert p[i] == r[i];
        var j :| 0 <= j < |p| && p[j].name == a && p[j].aliasAnnotation == Some([]);
        assert r[j] == p[j];
      } else {
        assert q[i - |p|] == r[i];
        var j :| 0 <= j < |q| && q[j].name == a && q[j].aliasAnnotation == Some([]);
        assert r[|p| + j] == q[j];
      }
    }
  }

  /** Whatever list of definitions is added, each alias annotation names registered flags without aliases of their own. */
  lemma {:induction false} RegistrationsAliasesRegistered(fs: seq<Flag>)
    ensures AliasesRegistered(Registrations(fs))
    decreases |fs|
  {
    if |fs| > 0 {
      RegistrationsAliasesRegistered(fs[..|fs| - 1]);
      AliasesRegisteredOne(fs[|fs| - 1]);
      AliasesRegisteredAppend(Registrations(fs[..|fs| - 1]), Registration(fs[|fs| - 1]));
    }
  }
}
