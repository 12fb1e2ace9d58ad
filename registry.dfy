/**
 * The builtin registry: the parallel tables builtin_str / builtin_func and
 * the name -> handler map that the shell loads from them at start-up.
 * Handlers are identified by a tag; the dispatcher maps a tag to its
 * handler.
 */
module Registry {
  import opened Wrappers

  datatype Builtin = Cd | Ls | Touch | Cp | Mv | Hs | Clrhs | Exit | Help | Echo | Cat | Df | Clear

  /** The command word each handler answers to. */
  function Name(b: Builtin): string {
    match b
    case Cd => "cd"
    case Ls => "ls"
    case Touch => "touch"
    case Cp => "cp"
    case Mv => "mv"
    case Hs => "hs"
    case Clrhs => "clrhs"
    case Exit => "exit"
    case Help => "help"
    case Echo => "echo"
    case Cat => "cat"
    case Df => "df"
    case Clear => "clear"
  }

  /** builtin_str: the registered names, in table order. */
  const BuiltinStr: seq<string> :=
    ["cd", "ls", "touch", "cp", "mv", "hs", "clrhs", "exit", "help", "echo", "cat", "df", "clear"]

  /** builtin_func: the handler registered under the name at the same index. */
  const BuiltinFunc: seq<Builtin> :=
    [Cd, Ls, Touch, Cp, Mv, Hs, Clrhs, Exit, Help, Echo, Cat, Df, Clear]

  /** The two tables are parallel: each entry's handler answers to its name. */
  lemma TablesAgree(i: nat)
    requires i < |BuiltinStr|
    ensures i < |BuiltinFunc| && Name(BuiltinFunc[i]) == BuiltinStr[i]
  {
  }

  lemma NameInjective(a: Builtin, b: Builtin)
    ensures Name(a) == Name(b) ==> a == b
  {
  }

  /** The handler the registry holds for a command word, if any: the one
      registered under that name. */
  ghost function Lookup(name: string): (r: Option<Builtin>)
    ensures r.Some? ==> Name(r.value) == name
    ensures r.None? ==> forall b :: Name(b) != name
  {
    if exists b :: Name(b) == name then Some(var b :| Name(b) == name; b) else None
  }

  /** A word has a handler exactly when it is one of the names in builtin_str. */
  lemma LookupRegistered(name: string)
    ensures Lookup(name).Some? <==> name in BuiltinStr
  {
    if name in BuiltinStr {
      var i :| 0 <= i < |BuiltinStr| && BuiltinStr[i] == name;
      TablesAgree(i);
    }
  }

  /** Every handler is registered under its own name. */
  lemma LookupName(b: Builtin)
    ensures Lookup(Name(b)) == Some(b)
  {
    NameInjective(b, Lookup(Name(b)).value);
  }

  /** Each table entry is what the registry answers for its name: no later
      entry overrides an earlier one, because the names are distinct. */
  lemma LookupEntry(i: nat)
    requires i < |BuiltinStr|
    ensures Lookup(BuiltinStr[i]) == Some(BuiltinFunc[i])
  {
    TablesAgree(i);
    NameInjective(Lookup(BuiltinStr[i]).value, BuiltinFunc[i]);
  }

  /** The names with no duplicates: loading them in order keeps every entry. */
  predicate Distinct(names: seq<string>) {
    forall j, k :: 0 <= j < k < |names| ==> names[j] != names[k]
  }

  lemma BuiltinStrDistinct()
    ensures Distinct(BuiltinStr)
  {
    forall j, k | 0 <= j < k < |BuiltinStr| ensures BuiltinStr[j] != BuiltinStr[k] {
      TablesAgree(j);
      TablesAgree(k);
      NameInjective(BuiltinFunc[j], BuiltinFunc[k]);
    }
  }

  /** The start-up loop that fills command_map from two parallel tables. */
  method LoadTable(names: seq<string>, funcs: seq<Builtin>) returns (m: map<string, Builtin>)
    requires |names| == |funcs| && Distinct(names)
    ensures forall j :: 0 <= j < |names| ==> names[j] in m && m[names[j]] == funcs[j]
    ensures forall name :: name in m ==> name in names
  {
    m := map[];
    var i := 0;
    while i < |names|
      invariant 0 <= i <= |names|
      invariant forall j :: 0 <= j < i ==> names[j] in m && m[names[j]] == funcs[j]
      invariant forall name :: name in m ==> name in names[..i]
    {
      m := m[names[i] := funcs[i]];
      i := i + 1;
    }
    assert names[..i] == names;
  }

  /** The map is the registry: it answers exactly what Lookup answers. */
  ghost predicate IsCommandMap(m: map<string, Builtin>) {
    forall name :: (name in m <==> Lookup(name).Some?) && (name in m ==> Lookup(name) == Some(m[name]))
  }

  /** command_map as shellLoop loads it from builtin_str and builtin_func. */
  method LoadCommandMap() returns (m: map<string, Builtin>)
    ensures IsCommandMap(m)
    ensures forall b :: Name(b) in m && m[Name(b)] == b
  {
    BuiltinStrDistinct();
    m := LoadTable(BuiltinStr, BuiltinFunc);
    forall name ensures (name in m <==> Lookup(name).Some?) && (name in m ==> Lookup(name) == Some(m[name])) {
      LookupRegistered(name);
      if name in BuiltinStr {
        var i :| 0 <= i < |BuiltinStr| && BuiltinStr[i] == name;
        LookupEntry(i);
      }
    }
    forall b ensures Name(b) in m && m[Name(b)] == b {
      LookupName(b);
    }
  }
}
