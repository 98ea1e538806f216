/** The flag handling both mains share: the normalise func given to pflag,
    the environment key derived from a flag name, and the `VisitAll` pass that
    fills flags left unset on the command line from the environment. */
module Flags {
  import opened Wrappers
  import opened GoStrings

  /** The program name both mains declare as `cliName`. */
  const CliName: string := "tmpl-renderer"

  /** A flag as pflag holds it after parsing the command line: its (normalised)
      name, its current value, and whether the command line set it. */
  datatype Flag = Flag(name: string, value: string, changed: bool)

  /** The process environment. */
  type Env = map<string, string>

  /** `os.Getenv`: the variable's value, or "" when it is not set, so an
      absent variable and an empty one cannot be told apart. */
  function Getenv(env: Env, key: string): (v: string)
    ensures key in env ==> v == env[key]
    ensures key !in env ==> v == ""
  {
    if key in env then env[key] else ""
  }

  /** The normalise func: a name containing `_` has every `_` replaced by `-`;
      any other name is returned as it is. */
  function Normalize(name: string): (r: string)
    ensures '_' !in r
    ensures |r| == |name|
    ensures forall i :: 0 <= i < |name| ==> r[i] == (if name[i] == '_' then '-' else name[i])
  {
    if '_' in name then ReplaceAll(name, '_', '-') else name
  }

  /** A name with no `_` is its own normal form, and normalising twice is
      normalising once. */
  lemma NormalizeFixedPoints(name: string)
    ensures '_' !in name <==> Normalize(name) == name
    ensures Normalize(Normalize(name)) == Normalize(name)
  {
    if '_' !in name {
      ReplaceAllAbsent(name, '_', '-');
    } else {
      var i :| 0 <= i < |name| && name[i] == '_';
      assert Normalize(name)[i] == '-';
    }
  }

  /** The environment key of a flag:
      `ToUpper(Join([cliName, Replace(name, "-", "_", -1)], "_"))`.
      Only the flag name's hyphens become underscores; those of `cliName` stay.
      No key holds a lower-case ASCII letter. */
  function EnvKey(cliName: string, name: string): (key: string)
    ensures |key| == |cliName| + 1 + |name|
    ensures forall i :: 0 <= i < |key| ==> !IsAsciiLower(key[i])
  {
    ToUpper(cliName + "_" + ReplaceAll(name, '-', '_'))
  }

  /** A key is the upper-cased program name, `_`, and the upper-cased flag
      name with its hyphens turned into underscores. */
  lemma EnvKeyParts(cliName: string, name: string)
    ensures EnvKey(cliName, name) == ToUpper(cliName) + "_" + ToUpper(ReplaceAll(name, '-', '_'))
  {
    ToUpperConcat(cliName + "_", ReplaceAll(name, '-', '_'));
    ToUpperConcat(cliName, "_");
  }

  lemma UpperCliName()
    ensures ToUpper(CliName) == "TMPL-RENDERER"
  {
    var u := ToUpper(CliName);
    assert u[0] == UpperChar('t') == 'T';
    assert u[4] == UpperChar('-') == '-';
  }

  /** For this program every key starts with `TMPL-RENDERER_`: the hyphen of
      `cliName` is kept. */
  lemma EnvKeyPrefix(name: string)
    ensures EnvKey(CliName, name) == "TMPL-RENDERER_" + ToUpper(ReplaceAll(name, '-', '_'))
  {
    EnvKeyParts(CliName, name);
    UpperCliName();
  }

  /** The part of a key after the program name and its separator holds no hyphen. */
  lemma EnvKeySuffixHasNoHyphen(cliName: string, name: string)
    ensures '-' !in EnvKey(cliName, name)[|cliName| + 1..]
  {
    EnvKeyParts(cliName, name);
    var rest := ToUpper(ReplaceAll(name, '-', '_'));
    assert EnvKey(cliName, name)[|cliName| + 1..] == rest;
    forall j | 0 <= j < |rest| ensures rest[j] != '-' {
      assert rest[j] == UpperChar(ReplaceAll(name, '-', '_')[j]);
    }
  }

  /** The key the code builds for the `out` flag is `TMPL-RENDERER_OUT`; the
      underscore-only spelling `TMPL_RENDERER_OUT` is never consulted. */
  lemma OutKey()
    ensures EnvKey(CliName, "out") == "TMPL-RENDERER_OUT"
    ensures EnvKey(CliName, "out") != "TMPL_RENDERER_OUT"
  {
    EnvKeyPrefix("out");
    var r := ReplaceAll("out", '-', '_');
    ReplaceAllAbsent("out", '-', '_');
    var u := ToUpper("out");
    assert u[0] == 'O' && u[1] == 'U' && u[2] == 'T';
    assert u == "OUT";
    assert EnvKey(CliName, "out")[4] == '-';
  }

  /** A flag and its normalised name share one environment key, since both
      `_` and `-` end up as `_`. */
  lemma EnvKeyIgnoresNormalization(cliName: string, name: string)
    ensures EnvKey(cliName, Normalize(name)) == EnvKey(cliName, name)
  {
    var a, b := ReplaceAll(Normalize(name), '-', '_'), ReplaceAll(name, '-', '_');
    forall i | 0 <= i < |name| ensures a[i] == b[i] { }
    assert a == b;
  }

  /** What the `VisitAll` callback does to one flag: an unchanged flag whose
      environment variable is non-empty is `Set` to that value, which also
      marks it changed. */
  function Visit(cliName: string, env: Env, f: Flag): (g: Flag)
    ensures g.name == f.name
    ensures f.changed ==> g.changed
  {
    if !f.changed then
      var val := Getenv(env, EnvKey(cliName, f.name));
      if val != "" then f.(value := val, changed := true) else f
    else f
  }

  /** The whole `VisitAll` pass, over the flags in the order it visits them. */
  function EnvFallback(cliName: string, env: Env, flags: seq<Flag>): (r: seq<Flag>)
    ensures |r| == |flags|
  {
    if flags == [] then [] else [Visit(cliName, env, flags[0])] + EnvFallback(cliName, env, flags[1..])
  }

  /** The pass visits every flag once, in place: the i-th flag of the result is
      the i-th flag visited. */
  lemma {:induction false} EnvFallbackAt(cliName: string, env: Env, flags: seq<Flag>, i: nat)
    requires i < |flags|
    ensures |EnvFallback(cliName, env, flags)| == |flags|
    ensures EnvFallback(cliName, env, flags)[i] == Visit(cliName, env, flags[i])
  {
    if i > 0 {
      EnvFallbackAt(cliName, env, flags[1..], i - 1);
    } else if |flags| > 1 {
      EnvFallbackAt(cliName, env, flags[1..], 0);
    }
  }

  /** The pass keeps the number, order and names of the flags, and never
      clears a `changed` mark. */
  lemma EnvFallbackKeepsShape(cliName: string, env: Env, flags: seq<Flag>)
    ensures |EnvFallback(cliName, env, flags)| == |flags|
    ensures forall i :: 0 <= i < |flags| ==>
      EnvFallback(cliName, env, flags)[i].name == flags[i].name &&
      (flags[i].changed ==> EnvFallback(cliName, env, flags)[i].changed)
  {
    forall i | 0 <= i < |flags|
      ensures EnvFallback(cliName, env, flags)[i].name == flags[i].name
      ensures flags[i].changed ==> EnvFallback(cliName, env, flags)[i].changed
    {
      EnvFallbackAt(cliName, env, flags, i);
    }
  }

  /** A flag set on the command line keeps its value whatever the environment holds. */
  lemma ExplicitFlagWins(cliName: string, env: Env, flags: seq<Flag>, i: nat)
    requires i < |flags| && flags[i].changed
    ensures EnvFallback(cliName, env, flags)[i] == flags[i]
  {
    EnvFallbackAt(cliName, env, flags, i);
  }

  /** An unset flag whose variable is absent or empty keeps its default. */
  lemma EmptyEnvKeepsDefault(cliName: string, env: Env, flags: seq<Flag>, i: nat)
    requires i < |flags| && !flags[i].changed
    requires EnvKey(cliName, flags[i].name) !in env || env[EnvKey(cliName, flags[i].name)] == ""
    ensures EnvFallback(cliName, env, flags)[i] == flags[i]
  {
    EnvFallbackAt(cliName, env, flags, i);
  }

  /** An unset flag whose variable is non-empty ends up holding exactly that
      value, and is marked changed. */
  lemma EnvOverridesDefault(cliName: string, env: Env, flags: seq<Flag>, i: nat)
    requires i < |flags| && !flags[i].changed
    requires EnvKey(cliName, flags[i].name) in env && env[EnvKey(cliName, flags[i].name)] != ""
    ensures EnvFallback(cliName, env, flags)[i] == flags[i].(value := env[EnvKey(cliName, flags[i].name)], changed := true)
  {
    EnvFallbackAt(cliName, env, flags, i);
  }

  /** Running the pass a second time changes nothing. */
  lemma EnvFallbackIdempotent(cliName: string, env: Env, flags: seq<Flag>)
    ensures EnvFallback(cliName, env, EnvFallback(cliName, env, flags)) == EnvFallback(cliName, env, flags)
  {
    var once := EnvFallback(cliName, env, flags);
    forall i | 0 <= i < |flags|
      ensures EnvFallback(cliName, env, once)[i] == once[i]
    {
      EnvFallbackAt(cliName, env, flags, i);
      EnvFallbackAt(cliName, env, once, i);
    }
  }

  /** The value of the flag with the given name, if the set has one. */
  function Lookup(flags: seq<Flag>, name: string): (v: Option<string>)
    ensures v.Some? <==> exists i :: 0 <= i < |flags| && flags[i].name == name
    ensures v.Some? ==> exists i :: 0 <= i < |flags| && flags[i].name == name && flags[i].value == v.value
  {
    if flags == [] then None
    else if flags[0].name == name then Some(flags[0].value)
    else
      var v := Lookup(flags[1..], name);
      assert v.Some? ==> exists i :: 0 <= i < |flags[1..]| && flags[1..][i].name == name && flags[1..][i].value == v.value;
      v
  }

  /** What pflag keeps for every flag set: names are normalised and unique. */
  ghost predicate WellFormed(flags: seq<Flag>) {
    && (forall i :: 0 <= i < |flags| ==> '_' !in flags[i].name)
    && (forall i, j :: 0 <= i < j < |flags| ==> flags[i].name != flags[j].name)
  }

  /** A pflag `FlagSet` after parsing, whose flag values are updated in place. */
  class FlagSet {
    var flags: seq<Flag>

    ghost predicate Valid()
      reads this
    {
      WellFormed(flags)
    }

    constructor (parsed: seq<Flag>)
      requires WellFormed(parsed)
      ensures Valid() && flags == parsed
    {
      flags := parsed;
    }

    /** `fs.Set(name, value)`: the flag whose name is the normalised `name`
        takes `value` and is marked changed; with no such flag nothing changes
        and `found` is false. */
    method Set(name: string, value: string) returns (found: bool)
      requires Valid()
      modifies this
      ensures Valid() && |flags| == |old(flags)|
      ensures found <==> exists k :: 0 <= k < |flags| && old(flags)[k].name == Normalize(name)
      ensures forall k :: 0 <= k < |flags| ==>
        flags[k] == if old(flags)[k].name == Normalize(name) then old(flags)[k].(value := value, changed := true) else old(flags)[k]
    {
      var n := Normalize(name);
      var i := 0;
      while i < |flags| && flags[i].name != n
        invariant 0 <= i <= |flags|
        invariant forall j :: 0 <= j < i ==> flags[j].name != n
      {
        i := i + 1;
      }
      found := i < |flags|;
      if found {
        flags := flags[i := flags[i].(value := value, changed := true)];
      }
    }

    /** The `VisitAll` pass of `main`, applied in place: each flag not set on
        the command line is `Set` from its non-empty environment variable. */
    method ApplyEnvFallback(cliName: string, env: Env)
      requires Valid()
      modifies this
      ensures Valid()
      ensures flags == EnvFallback(cliName, env, old(flags))
    {
      var i := 0;
      while i < |flags|
        invariant 0 <= i <= |flags| == |old(flags)|
        invariant Valid()
        invariant forall j :: 0 <= j < i ==> flags[j] == Visit(cliName, env, old(flags)[j])
        invariant forall j :: i <= j < |flags| ==> flags[j] == old(flags)[j]
      {
        var f := flags[i];
        if !f.changed {
          var key := EnvKey(cliName, f.name);
          var val := Getenv(env, key);
          if val != "" {
            NormalizeFixedPoints(f.name);
            var _ := Set(f.name, val);
          }
        }
        i := i + 1;
      }
      forall j | 0 <= j < |flags| ensures flags[j] == EnvFallback(cliName, env, old(flags))[j] {
        EnvFallbackAt(cliName, env, old(flags), j);
      }
    }
  }
}
