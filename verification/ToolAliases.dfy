/**
 Namespaced tools under flat names: the alias table built from a request's declarations, the rewriting
 of its history, and the way back.
 */
module ToolAliases {
  import opened Wrappers
  import opened StreamChunks
  import opened ResponsesStream
  import StringOrder

  const MAX_TOOLS := 128

  // `parametersOk`: the parameters can be written as JSON.
  datatype FunctionTool = FunctionTool(name: Option<string>, hasFunction: bool, parametersOk: bool)

  datatype Child = ChildFunction(tool: FunctionTool) | ChildOther

  datatype Declared =
    | Function(tool: FunctionTool)
    | Namespace(name: Option<string>, children: Option<seq<Child>>)
    | OtherKind

  function IdentityKey(namespace: string, name: string): string {
    namespace + "\0" + name
  }

  // The first twelve bytes of a digest in hexadecimal; nothing else is known of the hash.
  ghost predicate Hexadecimal(hash: string -> string) {
    forall key :: |hash(key)| == 24 && forall c <- hash(key) :: StringOrder.Hex(c)
  }

  function HashedAlias(hash: string -> string, namespace: string, name: string): string {
    "alz_ns_" + hash(IdentityKey(namespace, name))
  }

  function Flattened(namespace: string, name: string): string
    requires namespace != ""
  {
    if namespace[|namespace| - 1] == '_' then namespace + name else namespace + "__" + name
  }

  // The name a function asks for first.
  function FirstChoice(hash: string -> string, namespace: string, name: string): string {
    if namespace == "" then name
    else if ValidToolName(Flattened(namespace, name)) then Flattened(namespace, name)
    else HashedAlias(hash, namespace, name)
  }

  // `tools` are the names of the emitted tools; `identities` maps an identity's key to its alias.
  datatype Registry = Registry(tools: seq<string>, aliases: Aliases, identities: map<string, string>, used: set<string>)

  const EMPTY := Registry([], map[], map[], {})

  // A declaration that names a usable function; others are passed over.
  predicate Usable(tool: FunctionTool, namespace: string) {
    && tool.name.Some? && ValidToolName(tool.name.value) && tool.hasFunction
    && (namespace == "" || ValidToolName(namespace))
  }

  function Enter(reg: Registry, alias: string, namespace: string, name: string): Registry {
    Registry(
      reg.tools + [alias],
      if namespace == "" then reg.aliases else reg.aliases[alias := Identity(namespace, name)],
      if namespace == "" then reg.identities else reg.identities[IdentityKey(namespace, name) := alias],
      reg.used + {alias})
  }

  function AddFunction(hash: string -> string, reg: Registry, tool: FunctionTool, namespace: string): Option<Registry> {
    if !Usable(tool, namespace) then Some(reg) else
    var name := tool.name.value;
    var choice := FirstChoice(hash, namespace, name);
    if choice in reg.used && (namespace == "" || HashedAlias(hash, namespace, name) in reg.used) then None
    else if !tool.parametersOk then None
    else Some(Enter(reg, if choice in reg.used then HashedAlias(hash, namespace, name) else choice, namespace, name))
  }

  // The functions a declaration contributes, each with its namespace.
  function ChildEntries(namespace: string, children: seq<Child>): seq<(FunctionTool, string)> {
    if children == [] then [] else
    ChildEntries(namespace, children[..|children| - 1])
    + match children[|children| - 1] case ChildFunction(tool) => [(tool, namespace)] case ChildOther => []
  }

  function Entries(value: Declared): seq<(FunctionTool, string)> {
    match value
    case Function(tool) => [(tool, "")]
    case Namespace(name, children) => if name.None? || children.None? then [] else ChildEntries(name.value, children.value)
    case OtherKind => []
  }

  function AllEntries(values: seq<Declared>): seq<(FunctionTool, string)> {
    if values == [] then [] else AllEntries(values[..|values| - 1]) + Entries(values[|values| - 1])
  }

  function AddEntries(hash: string -> string, reg: Registry, entries: seq<(FunctionTool, string)>): Option<Registry> {
    if entries == [] then Some(reg) else
    match AddEntries(hash, reg, entries[..|entries| - 1])
    case None => None
    case Some(next) => AddFunction(hash, next, entries[|entries| - 1].0, entries[|entries| - 1].1)
  }

  function ToolsToChat(hash: string -> string, values: seq<Declared>): Option<Registry> {
    if values == [] then Some(EMPTY) else
    match ToolsToChat(hash, values[..|values| - 1])
    case None => None
    case Some(reg) =>
      match AddEntries(hash, reg, Entries(values[|values| - 1]))
      case None => None
      case Some(next) =>
        // A namespace tool without name or tools skips the check of the count.
        if Counted(values[|values| - 1]) && |next.tools| > MAX_TOOLS then None else Some(next)
  }

  predicate Counted(value: Declared) {
    value.Namespace? ==> value.name.Some? && value.children.Some?
  }

  // --- The table built in loops -----------------------------------------------------------

  method Add(hash: string -> string, reg: Registry, tool: FunctionTool, namespace: string) returns (result: Option<Registry>)
    ensures result == AddFunction(hash, reg, tool, namespace)
  {
    hide ValidToolName;
    if tool.name.None? || !ValidToolName(tool.name.value) || !tool.hasFunction {
      return Some(reg);
    }
    var name := tool.name.value;
    var alias := name;
    if namespace != "" {
      if !ValidToolName(namespace) {
        return Some(reg);
      }
      alias := namespace + name;
      if namespace[|namespace| - 1] != '_' {
        alias := namespace + "__" + name;
      }
      if !ValidToolName(alias) {
        alias := HashedAlias(hash, namespace, name);
      }
    }
    if alias in reg.used {
      if namespace == "" {
        return None;
      }
      alias := HashedAlias(hash, namespace, name);
      if alias in reg.used {
        return None;
      }
    }
    if !tool.parametersOk {
      return None;
    }
    result := Some(Enter(reg, alias, namespace, name));
  }

  method ResponsesToolsToChat(hash: string -> string, values: seq<Declared>) returns (result: Option<Registry>)
    ensures result == ToolsToChat(hash, values)
  {
    hide AddFunction;
    var reg := EMPTY;
    for i := 0 to |values|
      invariant ToolsToChat(hash, values[..i]) == Some(reg)
    {
      assert values[..i + 1][..i] == values[..i];
      NoneAfter(hash, values, i + 1);
      match values[i] {
        case Function(tool) =>
          assert [(tool, "")][..0] == [];
          var added := Add(hash, reg, tool, "");
          assert AddEntries(hash, reg, []) == Some(reg);
          if added.None? {
            return None;
          }
          reg := added.value;
        case Namespace(name, children) =>
          if name.None? || children.None? {
            assert Entries(values[i]) == [];
            continue;
          }
          var added := AddChildren(hash, reg, name.value, children.value);
          if added.None? {
            return None;
          }
          reg := added.value;
        case OtherKind =>
      }
      if |reg.tools| > MAX_TOOLS {
        return None;
      }
    }
    assert values[..|values|] == values;
    result := Some(reg);
  }

  method AddChildren(hash: string -> string, reg: Registry, namespace: string, children: seq<Child>) returns (result: Option<Registry>)
    ensures result == AddEntries(hash, reg, ChildEntries(namespace, children))
  {
    hide AddFunction;
    var next := reg;
    for i := 0 to |children|
      invariant AddEntries(hash, reg, ChildEntries(namespace, children[..i])) == Some(next)
    {
      assert children[..i + 1][..i] == children[..i];
      var before := ChildEntries(namespace, children[..i]);
      match children[i] {
        case ChildFunction(tool) =>
          assert (before + [(tool, namespace)])[..|before|] == before;
          var added := Add(hash, next, tool, namespace);
          if added.None? {
            ChildrenFail(hash, reg, namespace, children, i + 1);
            return None;
          }
          next := added.value;
        case ChildOther =>
          assert before + [] == before;
      }
    }
    assert children[..|children|] == children;
    result := Some(next);
  }

  lemma {:induction false} ChildrenFail(hash: string -> string, reg: Registry, namespace: string, children: seq<Child>, n: nat)
    requires n <= |children| && AddEntries(hash, reg, ChildEntries(namespace, children[..n])).None?
    ensures AddEntries(hash, reg, ChildEntries(namespace, children)).None?
    decreases |children| - n
  {
    hide AddFunction;
    if n == |children| {
      assert children[..n] == children;
    } else {
      var before, longer := ChildEntries(namespace, children[..n]), ChildEntries(namespace, children[..n + 1]);
      assert children[..n + 1][..n] == children[..n];
      if children[n].ChildFunction? {
        assert longer[..|longer| - 1] == before;
      } else {
        assert before + [] == before;
      }
      ChildrenFail(hash, reg, namespace, children, n + 1);
    }
  }

  // A table that cannot be built for the first n declarations cannot be built at all.
  lemma {:induction false} NoneAfter(hash: string -> string, values: seq<Declared>, n: nat)
    requires n <= |values|
    ensures ToolsToChat(hash, values[..n]).None? ==> ToolsToChat(hash, values).None?
    decreases |values| - n
  {
    hide AddEntries, Entries;
    if n == |values| {
      assert values[..n] == values;
    } else {
      assert values[..n + 1][..n] == values[..n];
      NoneAfter(hash, values, n + 1);
    }
  }
}
