/** The alias table is reversible: distinct valid names, exact identities, and a round trip for any hash. */
module ToolAliasRules {
  import opened Wrappers
  import opened StreamChunks
  import opened RawStreams
  import opened StringOrder
  import opened ResponsesStream
  import opened ToolAliases
  import ResponsesBuffered

  // Some usable entry has this namespace and name.
  predicate Declares(entries: seq<(FunctionTool, string)>, namespace: string, name: string) {
    exists e <- entries :: Usable(e.0, e.1) && e.1 == namespace && e.0.name == Some(name)
  }

  // Emitted names are distinct and valid, and every alias is one of them and has its identity on record.
  predicate Sound(reg: Registry) {
    && Distinct(reg.tools) && (forall t <- reg.tools :: ValidToolName(t))
    && (forall t <- reg.used :: t in reg.tools) && (forall t <- reg.tools :: t in reg.used)
    && (forall a <- reg.aliases ::
          && a in reg.tools
          && reg.aliases[a].namespace != "" && ValidToolName(reg.aliases[a].namespace) && ValidToolName(reg.aliases[a].name)
          && IdentityKey(reg.aliases[a].namespace, reg.aliases[a].name) in reg.identities)
    && (forall k <- reg.identities ::
          && reg.identities[k] in reg.aliases
          && IdentityKey(reg.aliases[reg.identities[k]].namespace, reg.aliases[reg.identities[k]].name) == k)
  }

  // The table knows exactly the entries it was built from.
  predicate Knows(reg: Registry, entries: seq<(FunctionTool, string)>) {
    && (forall a <- reg.aliases :: Declares(entries, reg.aliases[a].namespace, reg.aliases[a].name))
    && (forall e <- entries | Usable(e.0, e.1) && e.1 != "" :: IdentityKey(e.1, e.0.name.value) in reg.identities)
    && (forall e <- entries | Usable(e.0, e.1) && e.1 == "" :: e.0.name.value in reg.tools && e.0.name.value !in reg.aliases)
    && (forall t <- reg.tools | t !in reg.aliases :: Declares(entries, "", t))
  }

  // --- One declaration --------------------------------------------------------------------

  // A function that can be emitted under this namespace, "" for none.
  predicate Emittable(tool: FunctionTool, namespace: string) {
    match tool
    case FunctionTool(Some(name), true, _) => NameAllowed(name) && (namespace == "" || NameAllowed(namespace))
    case _ => false
  }

  // The flat name of a pair, and the one that stands in for it when it is too long or taken.
  function FlatName(namespace: string, name: string): string {
    if |namespace| > 0 && namespace[|namespace| - 1] == '_' then namespace + name else namespace + "__" + name
  }

  function StandIn(hash: string -> string, namespace: string, name: string): string {
    "alz_ns_" + hash(namespace + "\0" + name)
  }

  function Preferred(hash: string -> string, namespace: string, name: string): string {
    if namespace == "" then name
    else if NameAllowed(FlatName(namespace, name)) then FlatName(namespace, name)
    else StandIn(hash, namespace, name)
  }

  lemma EmittableIs(tool: FunctionTool, namespace: string)
    ensures Usable(tool, namespace) <==> Emittable(tool, namespace)
  {
    hide ValidToolName, NameAllowed;
    NamesAllowed(namespace);
    if tool.name.Some? {
      NamesAllowed(tool.name.value);
    }
  }

  lemma PreferredIs(hash: string -> string, namespace: string, name: string)
    ensures FirstChoice(hash, namespace, name) == Preferred(hash, namespace, name)
    ensures HashedAlias(hash, namespace, name) == StandIn(hash, namespace, name)
  {
    hide ValidToolName, NameAllowed;
    if namespace != "" {
      NamesAllowed(FlatName(namespace, name));
    }
  }

  // A function is passed over, refused because its name is taken or its parameters cannot be written, or
  // entered under the flat name or its stand-in.
  lemma AddsExactly(hash: string -> string, reg: Registry, tool: FunctionTool, namespace: string)
    ensures !Emittable(tool, namespace) ==> AddFunction(hash, reg, tool, namespace) == Some(reg)
    ensures Emittable(tool, namespace) ==>
              var name := tool.name.value;
              var first, standIn := Preferred(hash, namespace, name), StandIn(hash, namespace, name);
              var alias := if first in reg.used then standIn else first;
              AddFunction(hash, reg, tool, namespace)
              == if !tool.parametersOk || (first in reg.used && (namespace == "" || standIn in reg.used)) then None
                 else if namespace == "" then Some(Registry(reg.tools + [alias], reg.aliases, reg.identities, reg.used + {alias}))
                 else Some(Registry(reg.tools + [alias], reg.aliases[alias := Identity(namespace, name)],
                                    reg.identities[namespace + "\0" + name := alias], reg.used + {alias}))
  {
    EmittableIs(tool, namespace);
    if tool.name.Some? {
      PreferredIs(hash, namespace, tool.name.value);
    }
    hide Usable, Emittable, FirstChoice, Preferred, StandIn, HashedAlias;
  }

  // What one declaration enters: a function, the functions of a namespace, or nothing.
  function Entered(hash: string -> string, reg: Registry, value: Declared): Option<Registry> {
    match value
    case Function(tool) => AddFunction(hash, reg, tool, "")
    case Namespace(Some(name), Some(children)) => AddEntries(hash, reg, ChildEntries(name, children))
    case _ => Some(reg)
  }

  // Declarations are entered in order, and more than 128 tools are refused.
  lemma TableExactly(hash: string -> string, values: seq<Declared>, value: Declared)
    requires ToolsToChat(hash, values).Some?
    ensures var entered := Entered(hash, ToolsToChat(hash, values).value, value);
            ToolsToChat(hash, values + [value]) == if entered.Some? && |entered.value.tools| <= 128 then entered else None
  {
    hide AddFunction, AddEntries, Entries, Entered;
    Bounded(hash, values);
    assert (values + [value])[..|values|] == values;
    EntersOne(hash, ToolsToChat(hash, values).value, value);
  }

  lemma EntersOne(hash: string -> string, reg: Registry, value: Declared)
    ensures AddEntries(hash, reg, Entries(value)) == Entered(hash, reg, value)
    ensures !Counted(value) ==> Entered(hash, reg, value) == Some(reg)
  {
    hide AddFunction;
    if value.Function? {
      assert [(value.tool, "")][..0] == [];
      assert AddEntries(hash, reg, []) == Some(reg);
    }
  }

  lemma ChildrenExactly(hash: string -> string, reg: Registry, namespace: string, children: seq<Child>, tool: FunctionTool)
    ensures AddEntries(hash, reg, ChildEntries(namespace, [])) == Some(reg)
    ensures AddEntries(hash, reg, ChildEntries(namespace, children + [ChildOther])) == AddEntries(hash, reg, ChildEntries(namespace, children))
    ensures AddEntries(hash, reg, ChildEntries(namespace, children + [ChildFunction(tool)]))
            == if AddEntries(hash, reg, ChildEntries(namespace, children)).None? then None
               else AddFunction(hash, AddEntries(hash, reg, ChildEntries(namespace, children)).value, tool, namespace)
  {
    hide AddFunction;
    var entries := ChildEntries(namespace, children);
    assert (children + [ChildOther])[..|children|] == children && (children + [ChildFunction(tool)])[..|children|] == children;
    assert entries + [] == entries && (entries + [(tool, namespace)])[..|entries|] == entries;
  }

  // A plain function is declared by itself or under an empty namespace, a pair by its namespace.
  predicate DeclaredBy(value: Declared, namespace: string, name: string) {
    match value
    case Function(tool) => namespace == "" && tool.name == Some(name) && Emittable(tool, "")
    case Namespace(Some(n), Some(children)) =>
      n == namespace && exists child <- children :: child.ChildFunction? && child.tool.name == Some(name) && Emittable(child.tool, namespace)
    case _ => false
  }

  lemma {:induction false} ChildDeclares(namespace: string, children: seq<Child>, other: string, name: string)
    ensures Declares(ChildEntries(namespace, children), other, name)
            <==> other == namespace && exists child <- children :: child.ChildFunction? && child.tool.name == Some(name) && Usable(child.tool, namespace)
  {
    hide Usable;
    if children != [] {
      var init, last := children[..|children| - 1], children[|children| - 1];
      ChildDeclares(namespace, init, other, name);
      assert children == init + [last];
      DeclaresConcat(ChildEntries(namespace, init), if last.ChildFunction? then [(last.tool, namespace)] else [], other, name);
    }
  }

  lemma DeclaresConcat(a: seq<(FunctionTool, string)>, b: seq<(FunctionTool, string)>, namespace: string, name: string)
    ensures Declares(a + b, namespace, name) <==> Declares(a, namespace, name) || Declares(b, namespace, name)
  {
    hide Usable;
    if Declares(a, namespace, name) {
      var e :| e in a && Usable(e.0, e.1) && e.1 == namespace && e.0.name == Some(name);
      assert e in a + b;
    }
    if Declares(b, namespace, name) {
      var e :| e in b && Usable(e.0, e.1) && e.1 == namespace && e.0.name == Some(name);
      assert e in a + b;
    }
  }

  // A pair is declared exactly by a declaration of it.
  lemma {:induction false} DeclaresExactly(values: seq<Declared>, namespace: string, name: string)
    ensures Declares(AllEntries(values), namespace, name) <==> exists value <- values :: DeclaredBy(value, namespace, name)
  {
    hide Usable, Emittable, Entries;
    if values != [] {
      var init, last := values[..|values| - 1], values[|values| - 1];
      DeclaresExactly(init, namespace, name);
      DeclaresConcat(AllEntries(init), Entries(last), namespace, name);
      OneDeclares(last, namespace, name);
      assert values == init + [last];
    }
  }

  lemma OneDeclares(value: Declared, namespace: string, name: string)
    ensures Declares(Entries(value), namespace, name) <==> DeclaredBy(value, namespace, name)
  {
    hide Usable, Emittable;
    match value
    case Function(tool) =>
      EmittableIs(tool, "");
      assert Declares([(tool, "")], namespace, name) <==> (tool, "") in [(tool, "")] && Usable(tool, "") && "" == namespace && tool.name == Some(name);
    case Namespace(Some(n), Some(children)) =>
      ChildDeclares(n, children, namespace, name);
      forall child <- children | child.ChildFunction?
        ensures Usable(child.tool, n) <==> Emittable(child.tool, n)
      {
        EmittableIs(child.tool, n);
      }
    case _ =>
  }

  // --- Keys -------------------------------------------------------------------------------

  predicate Separated(s: string) {
    '\0' !in s
  }

  lemma ValidIsSeparated(s: string)
    requires ValidToolName(s)
    ensures Separated(s)
  {
    if '\0' in s {
      assert false;
    }
  }

  // A key determines the pair it was made from, if that pair came from valid names.
  lemma KeyInjective(namespace: string, name: string, otherNamespace: string, otherName: string)
    requires Separated(namespace) && Separated(name)
    requires IdentityKey(namespace, name) == IdentityKey(otherNamespace, otherName)
    ensures namespace == otherNamespace && name == otherName
  {
    var a, b := IdentityKey(namespace, name), IdentityKey(otherNamespace, otherName);
    var n, m := |namespace|, |otherNamespace|;
    assert a[n] == '\0' && b[m] == '\0';
    assert forall i | 0 <= i < n :: a[i] == namespace[i] != '\0';
    forall i | n < i < |a|
      ensures a[i] != '\0'
    {
      assert a[i] == name[i - n - 1];
    }
    assert m == n;
    assert namespace == a[..n] && otherNamespace == b[..n];
    assert name == a[n + 1..] && otherName == b[n + 1..];
  }

  // --- Every step -------------------------------------------------------------------------

  lemma HashedValid(hash: string -> string, namespace: string, name: string)
    requires Hexadecimal(hash)
    ensures ValidToolName(HashedAlias(hash, namespace, name))
  {
    var h := hash(IdentityKey(namespace, name));
    assert forall c <- h :: Hex(c);
  }

  lemma ChoiceValid(hash: string -> string, namespace: string, name: string)
    requires Hexadecimal(hash) && ValidToolName(name)
    ensures ValidToolName(FirstChoice(hash, namespace, name))
  {
    HashedValid(hash, namespace, name);
  }

  lemma EnterSound(reg: Registry, alias: string, namespace: string, name: string)
    requires Sound(reg) && alias !in reg.used && ValidToolName(alias) && ValidToolName(name)
    requires namespace == "" || ValidToolName(namespace)
    ensures Sound(Enter(reg, alias, namespace, name))
  {
    hide ValidToolName;
    var next := Enter(reg, alias, namespace, name);
    assert Distinct(next.tools);
  }

  lemma EnterKnows(reg: Registry, entries: seq<(FunctionTool, string)>, alias: string, tool: FunctionTool, namespace: string)
    requires Sound(reg) && Knows(reg, entries) && alias !in reg.used && Usable(tool, namespace)
    requires namespace == "" ==> alias == tool.name.value
    ensures Knows(Enter(reg, alias, namespace, tool.name.value), entries + [(tool, namespace)])
  {
    var name, longer := tool.name.value, entries + [(tool, namespace)];
    hide ValidToolName, Distinct, Usable;
    var next := Enter(reg, alias, namespace, name);
    assert (tool, namespace) in longer && Declares(longer, namespace, name);
    forall a | a in next.aliases
      ensures Declares(longer, next.aliases[a].namespace, next.aliases[a].name)
    {
      if a in reg.aliases && next.aliases[a] == reg.aliases[a] {
        DeclaresLonger(entries, (tool, namespace), reg.aliases[a].namespace, reg.aliases[a].name);
      }
    }
    forall t | t in next.tools && t !in next.aliases
      ensures Declares(longer, "", t)
    {
      if t in reg.tools {
        DeclaresLonger(entries, (tool, namespace), "", t);
      }
    }
  }

  lemma DeclaresLonger(entries: seq<(FunctionTool, string)>, e: (FunctionTool, string), namespace: string, name: string)
    requires Declares(entries, namespace, name)
    ensures Declares(entries + [e], namespace, name)
  {
    var d :| d in entries && Usable(d.0, d.1) && d.1 == namespace && d.0.name == Some(name);
    assert d in entries + [e];
  }

  lemma SkipKnows(reg: Registry, entries: seq<(FunctionTool, string)>, e: (FunctionTool, string))
    requires Knows(reg, entries) && !Usable(e.0, e.1)
    ensures Knows(reg, entries + [e])
  {
    hide ValidToolName, Usable;
    forall a | a in reg.aliases
      ensures Declares(entries + [e], reg.aliases[a].namespace, reg.aliases[a].name)
    {
      DeclaresLonger(entries, e, reg.aliases[a].namespace, reg.aliases[a].name);
    }
    forall t | t in reg.tools && t !in reg.aliases
      ensures Declares(entries + [e], "", t)
    {
      DeclaresLonger(entries, e, "", t);
    }
  }

  lemma AddRules(hash: string -> string, reg: Registry, entries: seq<(FunctionTool, string)>, e: (FunctionTool, string))
    requires Hexadecimal(hash) && Sound(reg) && Knows(reg, entries) && AddFunction(hash, reg, e.0, e.1).Some?
    ensures var next := AddFunction(hash, reg, e.0, e.1).value; Sound(next) && Knows(next, entries + [e])
  {
    hide Sound, Knows, ValidToolName, FirstChoice, HashedAlias, Hexadecimal;
    if Usable(e.0, e.1) {
      var name := e.0.name.value;
      ChoiceValid(hash, e.1, name);
      HashedValid(hash, e.1, name);
      var choice := FirstChoice(hash, e.1, name);
      var alias := if choice in reg.used then HashedAlias(hash, e.1, name) else choice;
      EnterSound(reg, alias, e.1, name);
      assert e.1 == "" ==> choice == name by {
        PlainChoice(hash, name);
      }
      EnterKnows(reg, entries, alias, e.0, e.1);
    } else {
      SkipKnows(reg, entries, e);
    }
  }

  lemma PlainChoice(hash: string -> string, name: string)
    ensures FirstChoice(hash, "", name) == name
  {
  }

  lemma {:induction false} EntriesRules(
    hash: string -> string, reg: Registry, before: seq<(FunctionTool, string)>, entries: seq<(FunctionTool, string)>)
    requires Hexadecimal(hash) && Sound(reg) && Knows(reg, before) && AddEntries(hash, reg, entries).Some?
    ensures var next := AddEntries(hash, reg, entries).value; Sound(next) && Knows(next, before + entries)
  {
    hide Sound, Knows, AddFunction, Hexadecimal;
    if entries == [] {
      assert before + [] == before;
    } else {
      var init, last := entries[..|entries| - 1], entries[|entries| - 1];
      EntriesRules(hash, reg, before, init);
      AddRules(hash, AddEntries(hash, reg, init).value, before + init, last);
      assert (before + init) + [last] == before + entries;
    }
  }

  lemma {:induction false} TableRules(hash: string -> string, values: seq<Declared>)
    requires Hexadecimal(hash) && ToolsToChat(hash, values).Some?
    ensures var reg := ToolsToChat(hash, values).value; Sound(reg) && Knows(reg, AllEntries(values))
  {
    if values != [] {
      var init := values[..|values| - 1];
      TableRules(hash, init);
      hide Sound, Knows, AddEntries, Entries, Hexadecimal;
      EntriesRules(hash, ToolsToChat(hash, init).value, AllEntries(init), Entries(values[|values| - 1]));
    }
  }

  // --- The table --------------------------------------------------------------------------

  // The emitted tools have pairwise distinct valid names, and a declared plain function keeps its
  // own name and is never restored as a namespaced one.
  lemma DistinctNames(hash: string -> string, values: seq<Declared>, name: string)
    requires Hexadecimal(hash) && ToolsToChat(hash, values).Some?
    ensures var reg := ToolsToChat(hash, values).value;
            && Distinct(reg.tools) && (forall t <- reg.tools :: ValidToolName(t))
            && (Declares(AllEntries(values), "", name) ==>
                  name in reg.tools && ResponsesFunctionCall(name, reg.aliases) == PublicName(name, None))
  {
    hide ToolsToChat, AllEntries, ValidToolName, Hexadecimal;
    TableRules(hash, values);
  }

  // No more tools are emitted than a request may declare.
  lemma {:induction false} Bounded(hash: string -> string, values: seq<Declared>)
    requires ToolsToChat(hash, values).Some?
    ensures |ToolsToChat(hash, values).value.tools| <= 128
  {
    if values != [] {
      Bounded(hash, values[..|values| - 1]);
      assert !Counted(values[|values| - 1]) ==> Entries(values[|values| - 1]) == [];
    }
  }

  // A pair has an identity on record exactly when it was declared.
  lemma DeclaredIdentities(hash: string -> string, values: seq<Declared>, namespace: string, name: string)
    requires Hexadecimal(hash) && ToolsToChat(hash, values).Some? && namespace != ""
    ensures var reg := ToolsToChat(hash, values).value;
            IdentityKey(namespace, name) in reg.identities <==> Declares(AllEntries(values), namespace, name)
  {
    hide ToolsToChat, AllEntries, ValidToolName, Hexadecimal, Distinct, Usable, IdentityKey;
    TableRules(hash, values);
    var reg := ToolsToChat(hash, values).value;
    var key := IdentityKey(namespace, name);
    if key in reg.identities {
      var identity := reg.aliases[reg.identities[key]];
      ValidIsSeparated(identity.namespace);
      ValidIsSeparated(identity.name);
      KeyInjective(identity.namespace, identity.name, namespace, name);
    }
  }

  // Rewriting a declared pair to its alias and restoring the alias gives the pair back.
  lemma RoundTrip(hash: string -> string, values: seq<Declared>, namespace: string, name: string)
    requires Hexadecimal(hash) && ToolsToChat(hash, values).Some?
    requires IdentityKey(namespace, name) in ToolsToChat(hash, values).value.identities
    ensures var reg := ToolsToChat(hash, values).value;
            var alias := reg.identities[IdentityKey(namespace, name)];
            alias in reg.tools && ResponsesFunctionCall(alias, reg.aliases) == PublicName(name, Some(namespace))
  {
    hide ToolsToChat, AllEntries, ValidToolName, Hexadecimal, Distinct, Usable, IdentityKey;
    TableRules(hash, values);
    var reg := ToolsToChat(hash, values).value;
    var identity := reg.aliases[reg.identities[IdentityKey(namespace, name)]];
    ValidIsSeparated(identity.namespace);
    ValidIsSeparated(identity.name);
    KeyInjective(identity.namespace, identity.name, namespace, name);
  }

  // No alias stands for a function without a namespace, as the streaming translator relies on.
  lemma AliasesAreNamed(hash: string -> string, values: seq<Declared>)
    requires Hexadecimal(hash) && ToolsToChat(hash, values).Some?
    ensures ResponsesBuffered.NamedAliases(ToolsToChat(hash, values).value.aliases)
  {
    hide ToolsToChat, ValidToolName, Hexadecimal, Distinct, IdentityKey;
    TableRules(hash, values);
  }

  // --- The history ------------------------------------------------------------------------

  // A message of the input; only function calls with a namespace are rewritten.
  datatype HistoryItem = HistoryItem(isCall: bool, namespace: Option<string>, name: Option<string>)

  predicate Namespaced(item: HistoryItem) {
    item.isCall && item.namespace.GetOr("") != ""
  }

  predicate Known(item: HistoryItem, identities: map<string, string>) {
    item.name.GetOr("") != "" && IdentityKey(item.namespace.GetOr(""), item.name.GetOr("")) in identities
  }

  function Rewritten(item: HistoryItem, identities: map<string, string>): HistoryItem {
    if Namespaced(item) && Known(item, identities)
    then item.(name := Some(identities[IdentityKey(item.namespace.value, item.name.value)]), namespace := None)
    else item
  }

  // Rewrites up to the first call that names no declared tool.
  method RewriteHistory(input: array<HistoryItem>, identities: map<string, string>) returns (ok: bool)
    modifies input
    ensures ok <==> forall i | 0 <= i < input.Length :: Namespaced(old(input[i])) ==> Known(old(input[i]), identities)
    ensures ok ==> forall i | 0 <= i < input.Length :: input[i] == Rewritten(old(input[i]), identities)
  {
    for i := 0 to input.Length
      invariant forall k | 0 <= k < i ::
                  input[k] == Rewritten(old(input[k]), identities) && (Namespaced(old(input[k])) ==> Known(old(input[k]), identities))
      invariant forall k | i <= k < input.Length :: input[k] == old(input[k])
    {
      var item := input[i];
      if !item.isCall || item.namespace.None? || item.namespace.value == "" {
        continue;
      }
      if item.name.None? || item.name.value == "" {
        return false;
      }
      var key := IdentityKey(item.namespace.value, item.name.value);
      if key !in identities {
        return false;
      }
      input[i] := item.(name := Some(identities[key]), namespace := None);
    }
    ok := true;
  }

  // Only a function call with a namespace and a known name changes: it takes the alias and loses the namespace.
  lemma RewritesExactly(item: HistoryItem, identities: map<string, string>)
    ensures Rewritten(item, identities)
            == match item
               case HistoryItem(true, Some(namespace), Some(name)) =>
                 if namespace != "" && name != "" && namespace + "\0" + name in identities
                 then HistoryItem(true, None, Some(identities[namespace + "\0" + name])) else item
               case _ => item
    ensures Namespaced(item) && !Known(item, identities)
            <==> match item
                 case HistoryItem(true, Some(namespace), Some(name)) =>
                   namespace != "" && (name == "" || namespace + "\0" + name !in identities)
                 case HistoryItem(true, Some(namespace), None) => namespace != ""
                 case _ => false
  {
  }

  // What a function call is shown as to the client.
  function Shown(item: HistoryItem, aliases: Aliases): PublicName {
    ResponsesFunctionCall(item.name.GetOr(""), aliases)
  }

  // A rewritten call shows the client the pair it had before; and the calls that are rewritten are
  // exactly those to declared tools.
  lemma HistoryRoundTrip(hash: string -> string, values: seq<Declared>, item: HistoryItem)
    requires Hexadecimal(hash) && ToolsToChat(hash, values).Some? && Namespaced(item) && item.name.GetOr("") != ""
    ensures var reg := ToolsToChat(hash, values).value;
            && (Known(item, reg.identities) <==> Declares(AllEntries(values), item.namespace.value, item.name.value))
            && (Known(item, reg.identities) ==>
                  Shown(Rewritten(item, reg.identities), reg.aliases) == PublicName(item.name.value, item.namespace))
  {
    hide ToolsToChat, AllEntries, Hexadecimal, IdentityKey;
    DeclaredIdentities(hash, values, item.namespace.value, item.name.value);
    if Known(item, ToolsToChat(hash, values).value.identities) {
      RoundTrip(hash, values, item.namespace.value, item.name.value);
    }
  }
}
